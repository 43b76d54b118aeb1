/**
 * The engine's own fields and the pieces of code that write them
 * (internal/deploy/engine.go: start, lock, lockMergeQueue, emit, finish, the ways
 * out of the merge span and the deferred calls), each leaving the fields and the
 * journal as the transition system's step does.
 */
module EngineObject {
  import opened Options
  import opened Journals
  import E = Engine

  class Engine {
    var locks: map<string, bool>          // one channel of capacity one per service: is it full?
    var pending: map<string, E.Pending>
    var mergeMu: bool
    var queued: int
    const journal: Journal

    /** The services whose channel is full. */
    ghost function Full(): (full: set<string>)
      reads this
    {
      set s | s in locks && locks[s]
    }

    /** These fields and the journal are the ones of a shared state of the transition system. */
    ghost predicate Holds(sh: E.Shared)
      reads this, journal
    {
      && sh.q.locks == Full() && sh.q.pending == pending && sh.q.mergeMu == mergeMu && sh.q.queued == queued
      && sh.rows == journal.rows
    }

    ghost predicate Shows(w: E.World)
      reads this, journal
    {
      Holds(w.sh) && |w.runs| == |w.sh.rows|
    }

    constructor (journal: Journal)
      ensures this.journal == journal && Full() == {} && pending == map[] && !mergeMu && queued == 0
    {
      this.journal, locks, pending, mergeMu, queued := journal, map[], map[], false, 0;
    }

    /**
     * The critical section of start: a matching live click is answered with the
     * run it matches; any other is journalled, and becomes the entry later
     * clicks can join unless a live one is already there. When the insert fails
     * nothing is left behind but the error.
     */
    method Start(ask: E.Ask, startedAt: int, inserts: bool, ghost w: E.World)
      returns (r: Option<(nat, bool)>)
      requires Shows(w)
      modifies this`pending, journal
      ensures Shows(E.Register(w, ask, inserts, startedAt))
      ensures match r
              case None =>
                && E.Joins(old(pending), ask).None? && !inserts
                && pending == old(pending) && journal.rows == old(journal.rows)
              case Some((id, joined)) =>
                if joined then E.Joins(old(pending), ask) == Some(id) && journal.rows == old(journal.rows)
                else E.Joins(old(pending), ask).None? && id == |w.runs|
                     && E.Register(w, ask, inserts, startedAt).runs == w.runs + [E.NewRun(ask)]
    {
      var live := ask.service in pending;
      if live {
        var p := pending[ask.service];
        var sameKind := (p.action == Converge) == (ask.action == Converge);
        if sameKind && p.digest == ask.digest {
          return Some((p.id, true));
        }
      }
      if !inserts {
        return None;
      }
      var id := journal.Begin(E.NewRow(ask, startedAt));
      if !live {
        pending := pending[ask.service := E.Pending(ask.action, ask.digest, id)];
      }
      r := Some((id, false));
    }

    /** emit's write, whose failure is ignored. */
    method Emit(id: nat, state: State, lands: bool)
      modifies journal
      ensures journal.rows == if lands then Update(old(journal.rows), id, Progress(state)) else old(journal.rows)
    {
      if lands {
        var _ := journal.Write(id, Progress(state));
      }
    }

    /** The gauge goes up before a wait, so whoever reads it during the wait counts this run. */
    method BeginWait()
      modifies this`queued
      ensures queued == old(queued) + 1
    {
      queued := queued + 1;
    }

    /** run from the sync to the wait in lock: announced as queued, and counted as waiting. */
    method QueueUp(cfg: E.Config, id: nat, e: E.Env, ghost sh: E.Shared, ghost r: E.Run)
      requires Holds(sh) && r.at.pc.ClickSync? && e.ok
      modifies this`queued, journal
      ensures Holds(E.Act(cfg, sh, id, r, e).sh) && E.Waiting(E.Act(cfg, sh, id, r, e).run.at.pc)
    {
      Emit(id, Detected, e.journalOk);
      BeginWait();
    }

    /**
     * lock from the select on, and for all but a converge lockMergeQueue up to
     * its wait: the channel takes the token when it is empty or the ended
     * context wins; the gauge comes down, and up again for the next wait.
     */
    method EndWait(cfg: E.Config, id: nat, service: string, converges: bool, e: E.Env,
                   ghost sh: E.Shared, ghost r: E.Run)
      returns (acquired: bool)
      requires Holds(sh) && r.at.pc.WaitService? && E.Enabled(sh.q, r, e)
      requires service == r.req.service && converges == (r.req.action == Converge)
      modifies this`locks, this`queued
      ensures Holds(E.Act(cfg, sh, id, r, e).sh)
      ensures acquired <==> !E.Act(cfg, sh, id, r, e).run.at.pc.Finishing?
      ensures acquired ==> service !in old(Full())
    {
      if service !in locks {
        locks := locks[service := false];
      }
      acquired := !e.giveUp;
      if acquired {
        locks := locks[service := true];
      }
      queued := queued - 1;
      if acquired && !converges {
        BeginWait();
      }
    }

    /** lockMergeQueue from its wait on: the mutex is free, is taken, and the run no longer counts as waiting. */
    method LockMergeQueue(cfg: E.Config, id: nat, e: E.Env, ghost sh: E.Shared, ghost r: E.Run)
      requires Holds(sh) && r.at.pc.WaitMerge? && E.Enabled(sh.q, r, e)
      modifies this`mergeMu, this`queued
      ensures Holds(E.Act(cfg, sh, id, r, e).sh) && E.InSpan(E.Act(cfg, sh, id, r, e).run.at.pc)
      ensures !old(mergeMu) && mergeMu
    {
      mergeMu := true;
      queued := queued - 1;
    }

    /** The inspected branch: the span is left first, then the run is announced unless it is already healthy. */
    method LeaveInspected(cfg: E.Config, id: nat, newDigest: string, e: E.Env, ghost sh: E.Shared, ghost r: E.Run)
      returns (healthy: bool)
      requires Holds(sh) && r.at.pc.Inspect? && newDigest == r.req.newDigest
      modifies this`mergeMu, journal
      ensures Holds(E.Act(cfg, sh, id, r, e).sh) && !E.InSpan(E.Act(cfg, sh, id, r, e).run.at.pc)
      ensures healthy <==> E.Act(cfg, sh, id, r, e).run.at.pc == E.Finishing(Healthy)
    {
      mergeMu := false;
      healthy := e.ok && e.text == newDigest;
      if !healthy {
        Emit(id, Reconciling, e.journalOk);
      }
    }

    /**
     * Every other way out of the span: a manifest, proposal or record that
     * failed, a merge loop given up, a merge that landed. Red checks are
     * announced first.
     */
    method LeaveSpan(cfg: E.Config, id: nat, checking: bool, e: E.Env, ghost sh: E.Shared, ghost r: E.Run)
      requires Holds(sh) && E.InSpan(r.at.pc) && !r.at.pc.Inspect? && checking == r.at.pc.Checking?
      requires !E.InSpan(E.Act(cfg, sh, id, r, e).run.at.pc)
      modifies this`mergeMu, journal
      ensures Holds(E.Act(cfg, sh, id, r, e).sh) && !mergeMu
    {
      if checking {
        Emit(id, Checks, e.journalOk);
      }
      mergeMu := false;
    }

    /** One attempt of revertMain up to its wait for the merge lock. */
    method BeginRevert(cfg: E.Config, id: nat, e: E.Env, ghost sh: E.Shared, ghost r: E.Run)
      requires Holds(sh) && r.at.pc.RevertTop?
      modifies this`queued, journal
      ensures Holds(E.Act(cfg, sh, id, r, e).sh) && E.Waiting(E.Act(cfg, sh, id, r, e).run.at.pc)
    {
      Emit(id, Reconciling, e.journalOk);
      BeginWait();
    }

    /** The receipt, whose write may be lost like any other. */
    method Finish(cfg: E.Config, id: nat, final: State, e: E.Env, ghost sh: E.Shared, ghost r: E.Run)
      requires Holds(sh) && r.at.pc == E.Finishing(final)
      modifies journal
      ensures Holds(E.Act(cfg, sh, id, r, e).sh)
    {
      if e.journalOk {
        var _ := journal.Write(id, Journals.Finish(final, e.now));
      }
    }

    /** The release lock returned, deferred to the end of run. */
    method Release(cfg: E.Config, id: nat, service: string, e: E.Env, ghost sh: E.Shared, ghost r: E.Run)
      requires Holds(sh) && r.at.pc.Releasing? && service == r.req.service && service in Full()
      modifies this`locks
      ensures Holds(E.Act(cfg, sh, id, r, e).sh) && !E.Act(cfg, sh, id, r, e).run.at.holds
    {
      locks := locks[service := false];
    }

    /** The deferred removal: a run takes away its own entry and no other's. */
    method Deregister(cfg: E.Config, id: nat, service: string, e: E.Env, ghost sh: E.Shared, ghost r: E.Run)
      requires Holds(sh) && r.at.pc.Leaving? && service == r.req.service
      modifies this`pending
      ensures Holds(E.Act(cfg, sh, id, r, e).sh) && E.IsOver(E.Act(cfg, sh, id, r, e).run.at.pc)
      ensures forall s :: s in old(pending) && old(pending)[s].id != id ==>
                s in pending && pending[s] == old(pending)[s]
    {
      if service in pending && pending[service].id == id {
        pending := pending - {service};
      }
    }
  }
}
