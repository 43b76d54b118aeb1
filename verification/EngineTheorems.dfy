/**
 * What holds of every state the engine can reach, through any interleaving of
 * runs, requests, failures, outside pushes, crashes and restarts.
 */
module EngineTheorems {
  import opened Options
  import opened Digests
  import opened Journals
  import opened Engine
  import opened EngineControl
  import opened EngineReceipts
  import opened EngineTargets
  import opened EngineCalls
  import opened EngineHost
  import opened EngineRuns

  ghost predicate Reachable(cfg: Config, w: World) {
    exists w0, ls :: Fresh(w0) && LegalTrace(cfg, w0, ls) && Exec(cfg, w0, ls) == w
  }

  lemma ReachableInv(cfg: Config, w: World)
    requires cfg.revertAttempts >= 1 && Reachable(cfg, w)
    ensures Inv(cfg, w)
  {
    var w0, ls :| Fresh(w0) && LegalTrace(cfg, w0, ls) && Exec(cfg, w0, ls) == w;
    FreshInv(cfg, w0);
    ExecInv(cfg, w0, ls);
  }

  // ---- Locks ------------------------------------------------------------------

  /** Past its service lock and not yet at its receipt. */
  predicate Working(r: Run) {
    !PreLock(r.at.pc) && !r.at.pc.Finishing? && !AfterReceipt(r.at.pc)
  }

  lemma LocksAreHeld(cfg: Config, w: World)
    requires ControlInv(cfg, w)
    ensures forall i, j :: 0 <= i < j < |w.runs| && w.runs[i].at.holds && w.runs[j].at.holds
              ==> w.runs[i].req.service != w.runs[j].req.service
    ensures forall s :: s in w.sh.q.locks <==>
              exists i :: 0 <= i < |w.runs| && w.runs[i].at.holds && w.runs[i].req.service == s
    ensures forall i :: 0 <= i < |w.runs| && (Working(w.runs[i]) || InSpan(w.runs[i].at.pc)) ==> w.runs[i].at.holds
    ensures forall i, j :: 0 <= i < j < |w.runs| ==> !(InSpan(w.runs[i].at.pc) && InSpan(w.runs[j].at.pc))
    ensures w.sh.q.mergeMu <==> exists i :: 0 <= i < |w.runs| && InSpan(w.runs[i].at.pc)
    ensures w.sh.q.queued == Total(Waits(), w.runs)
  {
    forall i | 0 <= i < |w.runs| && (Working(w.runs[i]) || InSpan(w.runs[i].at.pc)) ensures w.runs[i].at.holds {
      assert Control(cfg, w.runs[i]);
    }
  }

  /**
   * One run per service has its lock, and the locks are exactly its holders';
   * every working run has it; one open-to-merge span in all, taken only under
   * the run's own service lock; and the gauge counts exactly the waiters.
   */
  lemma MutualExclusion(cfg: Config, w: World)
    requires cfg.revertAttempts >= 1 && Reachable(cfg, w)
    ensures forall i, j :: 0 <= i < j < |w.runs| && w.runs[i].at.holds && w.runs[j].at.holds
              ==> w.runs[i].req.service != w.runs[j].req.service
    ensures forall s :: s in w.sh.q.locks <==>
              exists i :: 0 <= i < |w.runs| && w.runs[i].at.holds && w.runs[i].req.service == s
    ensures forall i :: 0 <= i < |w.runs| && (Working(w.runs[i]) || InSpan(w.runs[i].at.pc)) ==> w.runs[i].at.holds
    ensures forall i, j :: 0 <= i < j < |w.runs| ==> !(InSpan(w.runs[i].at.pc) && InSpan(w.runs[j].at.pc))
    ensures w.sh.q.mergeMu <==> exists i :: 0 <= i < |w.runs| && InSpan(w.runs[i].at.pc)
    ensures w.sh.q.queued == Total(Waits(), w.runs)
  {
    ReachableInv(cfg, w);
    LocksAreHeld(cfg, w);
  }

  /** No deadlock: while a run is unfinished, some run can step without anything being given up. */
  lemma NoDeadlock(cfg: Config, w: World)
    requires cfg.revertAttempts >= 1 && Reachable(cfg, w) && w.up
    requires exists i :: 0 <= i < |w.runs| && !IsOver(w.runs[i].at.pc)
    ensures exists id: nat :: Legal(w, Stepping(id, CarryOn))
  {
    ReachableInv(cfg, w);
    SomeRunCanStep(cfg, w);
  }

  /** Termination: without new requests the runs take boundedly many steps, whatever the world answers. */
  lemma EveryRunEnds(cfg: Config, w: World, ls: seq<Label>)
    requires cfg.revertAttempts >= 1 && Reachable(cfg, w) && LegalTrace(cfg, w, ls)
    requires forall k :: 0 <= k < |ls| ==> !ls[k].Registering?
    ensures StepsIn(ls) <= Work(cfg, w) - Work(cfg, Exec(cfg, w, ls)) && StepsIn(ls) <= Work(cfg, w)
    ensures Work(cfg, w) == 0 <==> forall i :: 0 <= i < |w.runs| ==> IsOver(w.runs[i].at.pc)
  {
    ReachableInv(cfg, w);
    RunsTerminate(cfg, w, ls);
  }

  // ---- Calls ------------------------------------------------------------------

  lemma RunInPlace(cfg: Config, w: World, id: nat)
    requires cfg.revertAttempts >= 1 && Reachable(cfg, w) && id < |w.runs|
    ensures CallsInPlace(w.runs[id]) && Control(cfg, w.runs[id])
    ensures InSpan(w.runs[id].at.pc) ==> w.sh.q.mergeMu
  {
    ReachableInv(cfg, w);
  }

  /** A step makes at most one call, and opens, updates or merges a proposal only while holding the merge lock. */
  lemma ProposalsHappenInSpan(cfg: Config, w: World, id: nat, e: Env)
    requires cfg.revertAttempts >= 1 && Reachable(cfg, w) && Legal(w, Stepping(id, e))
    ensures OneCallMore(w.runs[id], Act(cfg, w.sh, id, w.runs[id], e).run.did.calls)
    ensures InSpan(w.runs[id].at.pc) ==> w.sh.q.mergeMu
  {
    RunInPlace(cfg, w, id);
    StepCalls(cfg, w.sh, id, w.runs[id], e);
  }

  /** One history is another one's beginning. */
  predicate Begins(p: Calls, q: Calls) {
    p == q || (q.Then? && Begins(p, q.before))
  }

  lemma {:induction false} DisciplinedBegins(p: Calls, q: Calls)
    requires Disciplined(q) && Begins(p, q)
    ensures Disciplined(p)
    decreases q
  {
    if p != q { DisciplinedBegins(p, q.before); }
  }

  lemma {:induction false} BeginsHas(p: Calls, c: Call, q: Calls)
    requires Begins(Then(p, c), q)
    ensures q.Has(c)
    decreases q
  {
    if Then(p, c) != q { BeginsHas(p, c, q.before); }
  }

  /**
   * Nothing merges on red: each merge any run ever tried came straight after a
   * green check of its own open proposal, and was at most that span's third.
   */
  lemma NothingMergesOnRed(cfg: Config, w: World, id: nat, before: Calls, undo: bool, merged: bool)
    requires cfg.revertAttempts >= 1 && Reachable(cfg, w) && id < |w.runs|
    requires Begins(Then(before, MergeTried(undo, merged)), w.runs[id].did.calls)
    ensures before.Then? && before.call == Checked(true)
    ensures SpanOf(before) == Some(undo) && MergesTried(before) < 3
  {
    RunInPlace(cfg, w, id);
    DisciplinedBegins(Then(before, MergeTried(undo, merged)), w.runs[id].did.calls);
  }

  /**
   * Merge-first: what any run gave to the applier, main once held for that
   * service, and a run that proposed a change had merged it before.
   */
  lemma MergedBeforeApplied(cfg: Config, w: World, id: nat, before: Calls, undo: bool, raw: Bytes)
    requires cfg.revertAttempts >= 1 && Reachable(cfg, w) && id < |w.runs|
    requires Begins(Then(before, Applied(undo, raw)), w.runs[id].did.calls)
    ensures (w.runs[id].req.service, raw) in w.sh.git.held
    ensures HasProposed(before) ==> before.Has(MergeTried(false, true))
  {
    ReachableInv(cfg, w);
    DisciplinedBegins(Then(before, Applied(undo, raw)), w.runs[id].did.calls);
    BeginsHas(before, Applied(undo, raw), w.runs[id].did.calls);
  }

  lemma {:induction false} LegalPrefix(cfg: Config, w: World, ls: seq<Label>, n: nat)
    requires LegalTrace(cfg, w, ls) && n <= |ls|
    ensures LegalTrace(cfg, w, ls[..n])
    decreases n
  {
    if n > 0 {
      LegalPrefix(cfg, Next(cfg, w, ls[0]), ls[1..], n - 1);
      assert ls[..n][1..] == ls[1..][..n - 1];
    }
  }

  /** Main held these bytes for this service after the first n labels of a trace. */
  ghost predicate MainWas(cfg: Config, w: World, ls: seq<Label>, n: nat, service: string, raw: Bytes) {
    n <= |ls| && LegalTrace(cfg, w, ls[..n]) && Get(Exec(cfg, w, ls[..n]).sh.git.main, service) == Some(raw)
  }

  lemma SteppingHeld(cfg: Config, w: World, id: nat, e: Env, service: string, raw: Bytes)
    requires id < |w.runs| && !IsOver(w.runs[id].at.pc) && Targeting(cfg, w.sh, w.runs[id])
    requires (service, raw) in Act(cfg, w.sh, id, w.runs[id], e).sh.git.held && (service, raw) !in w.sh.git.held
    ensures Get(Act(cfg, w.sh, id, w.runs[id], e).sh.git.main, service) == Some(raw)
  {
    StepTargets(cfg, w.sh, id, w.runs[id], e);
  }

  lemma NextHeld(cfg: Config, w: World, l: Label, service: string, raw: Bytes)
    requires Legal(w, l) && AllTargets(cfg, w.sh.git, w.runs)
    requires forall i :: 0 <= i < |w.runs| ==> Control(cfg, w.runs[i])
    requires (service, raw) in Next(cfg, w, l).sh.git.held && (service, raw) !in w.sh.git.held
    ensures Get(Next(cfg, w, l).sh.git.main, service) == Some(raw)
  {
    if l.Stepping? {
      SteppingHeld(cfg, w, l.id, l.env, service, raw);
    } else {
      QuietHeld(cfg, w, l, service, raw);
    }
  }

  lemma QuietHeld(cfg: Config, w: World, l: Label, service: string, raw: Bytes)
    requires Legal(w, l) && !l.Stepping?
    requires (service, raw) in Quiet(cfg, w, l).sh.git.held && (service, raw) !in w.sh.git.held
    ensures Get(Quiet(cfg, w, l).sh.git.main, service) == Some(raw)
  {
  }

  lemma MainWasLater(cfg: Config, w: World, ls: seq<Label>, n: nat, service: string, raw: Bytes)
    requires ls != [] && Legal(w, ls[0]) && MainWas(cfg, Next(cfg, w, ls[0]), ls[1..], n, service, raw)
    ensures MainWas(cfg, w, ls, n + 1, service, raw)
  {
    assert ls[..n + 1][1..] == ls[1..][..n];
  }

  /** held is main's own history: its members were, at some moment of the trace, what main held. */
  lemma {:induction false} HeldIsMainsHistory(cfg: Config, w: World, ls: seq<Label>, service: string, raw: Bytes)
    requires cfg.revertAttempts >= 1 && Inv(cfg, w) && LegalTrace(cfg, w, ls)
    requires (service, raw) in Exec(cfg, w, ls).sh.git.held
    requires (service, raw) in w.sh.git.held ==> Get(w.sh.git.main, service) == Some(raw)
    ensures exists n: nat :: MainWas(cfg, w, ls, n, service, raw)
    decreases |ls|
  {
    if (service, raw) in w.sh.git.held {
      assert ls[..0] == [];
      assert MainWas(cfg, w, ls, 0, service, raw);
    } else {
      var w1 := Next(cfg, w, ls[0]);
      NextInv(cfg, w, ls[0]);
      if (service, raw) in w1.sh.git.held { NextHeld(cfg, w, ls[0], service, raw); }
      HeldIsMainsHistory(cfg, w1, ls[1..], service, raw);
      var n: nat :| MainWas(cfg, w1, ls[1..], n, service, raw);
      MainWasLater(cfg, w, ls, n, service, raw);
    }
  }

  /** Whatever a run is about to write to the host, main held it at some earlier moment. */
  lemma AppliedOnlyWhatMainHeld(cfg: Config, w0: World, ls: seq<Label>, id: nat)
    requires cfg.revertAttempts >= 1 && Fresh(w0) && LegalTrace(cfg, w0, ls)
    requires id < |Exec(cfg, w0, ls).runs| && Exec(cfg, w0, ls).runs[id].at.pc.Applying?
    ensures var r := Exec(cfg, w0, ls).runs[id];
            exists n: nat :: MainWas(cfg, w0, ls, n, r.req.service, r.at.target)
  {
    FreshInv(cfg, w0);
    ExecInv(cfg, w0, ls);
    var r := Exec(cfg, w0, ls).runs[id];
    assert Targets(cfg, Exec(cfg, w0, ls).sh.git.held, r);
    HeldIsMainsHistory(cfg, w0, ls, r.req.service, r.at.target);
  }

  /**
   * The automatic rollback is sound: the restore point pins the old digest,
   * never the one that failed; and the bytes put back on the host are the bytes
   * every revert proposes.
   */
  lemma RestoresWhatItReverts(cfg: Config, w: World, id: nat, c: Call)
    requires cfg.revertAttempts >= 1 && Reachable(cfg, w) && id < |w.runs|
    ensures w.runs[id].req.action != Converge ==> RestorePoint(cfg, w.sh.git.held, w.runs[id].req)
    ensures var r := w.runs[id];
            r.did.calls.Has(c) ==>
            && (c.Applied? ==> cfg.parse(c.raw).Some?)
            && (c.Applied? && !c.undo ==> cfg.parse(c.raw).value.digest == r.req.newDigest)
            && (c.Applied? && c.undo ==>
                  c.raw == r.req.originalRaw && cfg.parse(c.raw).value.digest == r.req.oldDigest != r.req.newDigest)
            && (c.Opened? && c.undo ==> c.content == r.req.originalRaw)
  {
    ReachableInv(cfg, w);
    assert Targets(cfg, w.sh.git.held, w.runs[id]) && Control(cfg, w.runs[id]);
  }

  // ---- Receipts ---------------------------------------------------------------

  /**
   * One receipt: a run that got to its end emitted exactly one terminal event,
   * its last; a row is terminal exactly when it is finished; and a row the
   * engine finished says what that event said, one start-up closed says failed.
   */
  lemma OneReceiptPerRun(cfg: Config, w: World, id: nat)
    requires cfg.revertAttempts >= 1 && Reachable(cfg, w) && id < |w.runs|
    ensures |w.sh.rows| == |w.runs|
    ensures AfterReceipt(w.runs[id].at.pc) && !w.runs[id].at.pc.Killed? ==> OneReceipt(w.runs[id].did.events)
    ensures !AfterReceipt(w.runs[id].at.pc) ==> NoReceipt(w.runs[id].did.events) && !w.sh.rows[id].IsFinished()
    ensures w.runs[id].at.pc.Killed? ==> NoReceipt(w.runs[id].did.events) || OneReceipt(w.runs[id].did.events)
    ensures w.sh.rows[id].state.IsTerminal() <==> w.sh.rows[id].IsFinished()
    ensures w.sh.rows[id].IsFinished() ==>
              if id in w.closed then w.sh.rows[id].state == Failed
              else
                var events := w.runs[id].did.events;
                OneReceipt(events) && w.sh.rows[id].state == events[|events| - 1]
    ensures w.up && !w.sh.rows[id].IsFinished() ==> !w.runs[id].at.pc.Killed?
  {
    ReachableInv(cfg, w);
    assert Receipts(w.sh.rows[id], id in w.closed, w.runs[id]);
  }

  /** The row has its run's own receipt, not one start-up wrote for it. */
  ghost predicate Receipted(w: World, id: nat) {
    id < |w.sh.rows| && w.sh.rows[id].IsFinished() && id !in w.closed
  }

  /** This label is the run's receipt, and the journal took it. */
  predicate Lands(w: World, l: Label, id: nat) {
    l.Stepping? && l.id == id && id < |w.runs| && w.runs[id].at.pc.Finishing? && l.env.journalOk
  }

  predicate LandsIn(cfg: Config, w: World, ls: seq<Label>, id: nat)
    requires LegalTrace(cfg, w, ls)
    decreases |ls|
  {
    ls != [] && (Lands(w, ls[0], id) || LandsIn(cfg, Next(cfg, w, ls[0]), ls[1..], id))
  }

  lemma EndRows(sh: Shared, id: nat, r: Run, e: Env)
    ensures EndStep(sh, id, r, e).sh.rows ==
              if r.at.pc.Finishing? && e.journalOk then Update(sh.rows, id, Finish(r.at.pc.final, e.now)) else sh.rows
  {
  }

  /** One step of a run: only its own receipt, when it lands, finishes a row. */
  lemma StepLands(cfg: Config, sh: Shared, id: nat, r: Run, e: Env, k: nat)
    requires Journalling(cfg, sh, id, r) && k < |sh.rows|
    ensures var rows := Act(cfg, sh, id, r, e).sh.rows;
            && |rows| == |sh.rows|
            && (rows[k].IsFinished() <==> sh.rows[k].IsFinished() || (k == id && r.at.pc.Finishing? && e.journalOk))
  {
    StepRecords(cfg, sh, id, r, e);
    if r.at.pc.Finishing? || r.at.pc.Releasing? || r.at.pc.Leaving? { EndRows(sh, id, r, e); }
  }

  lemma QuietLands(cfg: Config, w: World, l: Label, k: nat)
    requires |w.sh.rows| == |w.runs| && (forall id :: id in w.closed ==> id < |w.runs|) && Legal(w, l) && !l.Stepping?
    ensures Receipted(Quiet(cfg, w, l), k) <==> Receipted(w, k)
  {
  }

  lemma NextLands(cfg: Config, w: World, l: Label, k: nat)
    requires AllReceipts(w.sh.rows, w.closed, w.runs, w.up) && AllBacked(cfg, w.runs) && Legal(w, l)
    ensures Receipted(Next(cfg, w, l), k) <==> Receipted(w, k) || Lands(w, l, k)
  {
    if l.Stepping? {
      assert Receipts(w.sh.rows[l.id], l.id in w.closed, w.runs[l.id]);
      SteppingLands(cfg, w, l.id, l.env, k);
    } else {
      QuietLands(cfg, w, l, k);
    }
  }

  lemma SteppingLands(cfg: Config, w: World, id: nat, e: Env, k: nat)
    requires |w.sh.rows| == |w.runs| && id < |w.runs| && id !in w.closed && Journalling(cfg, w.sh, id, w.runs[id])
    ensures Receipted(Replace(w, id, Act(cfg, w.sh, id, w.runs[id], e)), k) <==>
              Receipted(w, k) || (k == id && w.runs[id].at.pc.Finishing? && e.journalOk)
  {
    StepLands(cfg, w.sh, id, w.runs[id], e, if k < |w.runs| then k else id);
  }

  lemma {:induction false} TraceLands(cfg: Config, w: World, ls: seq<Label>, id: nat)
    requires cfg.revertAttempts >= 1 && Inv(cfg, w) && LegalTrace(cfg, w, ls)
    ensures Receipted(Exec(cfg, w, ls), id) <==> Receipted(w, id) || LandsIn(cfg, w, ls, id)
    decreases |ls|
  {
    if ls != [] {
      NextInv(cfg, w, ls[0]);
      NextLands(cfg, w, ls[0], id);
      TraceLands(cfg, Next(cfg, w, ls[0]), ls[1..], id);
    }
  }

  /**
   * Over any trace from a fresh installation, a row has its run's own receipt,
   * saying what the run's one terminal event said, exactly when the write that
   * went with that event landed; the event of a run past its receipt is out
   * either way.
   */
  lemma ReceiptLandsIffWritten(cfg: Config, w0: World, ls: seq<Label>, id: nat)
    requires cfg.revertAttempts >= 1 && Fresh(w0) && LegalTrace(cfg, w0, ls)
    ensures var w := Exec(cfg, w0, ls);
            && (Receipted(w, id) <==> LandsIn(cfg, w0, ls, id))
            && (Receipted(w, id) ==>
                  id < |w.runs| && OneReceipt(w.runs[id].did.events)
                  && w.sh.rows[id].state == w.runs[id].did.events[|w.runs[id].did.events| - 1])
            && (id < |w.runs| && AfterReceipt(w.runs[id].at.pc) && !w.runs[id].at.pc.Killed? ==>
                  OneReceipt(w.runs[id].did.events))
  {
    FreshInv(cfg, w0);
    TraceLands(cfg, w0, ls, id);
    ExecInv(cfg, w0, ls);
    var w := Exec(cfg, w0, ls);
    if id < |w.runs| { assert Receipts(w.sh.rows[id], id in w.closed, w.runs[id]); }
  }

  /** A healthy receipt is backed by the run's last call: its own passing probe, or the inspector's answer. */
  lemma HealthyIsBacked(cfg: Config, w: World, id: nat)
    requires cfg.revertAttempts >= 1 && Reachable(cfg, w) && id < |w.sh.rows| && w.sh.rows[id].state == Healthy
    ensures id < |w.runs| && Evidence(cfg, w.runs[id].did.calls, w.sh.rows[id].newDigest)
  {
    ReachableInv(cfg, w);
    assert Receipts(w.sh.rows[id], id in w.closed, w.runs[id]) && Backed(cfg, w.runs[id]);
  }

  /**
   * Receipt id is the newest healthy one of its service that names another
   * digest, and its run saw that digest healthy.
   */
  ghost predicate NewestBacked(cfg: Config, w: World, service: string, notDigest: string, digest: string, id: nat) {
    && id < |w.runs| && NewestHealthy(w.sh.rows, id, service, notDigest)
    && w.sh.rows[id].newDigest == digest && Evidence(cfg, w.runs[id].did.calls, digest)
  }

  lemma PreparedRollback(cfg: Config, sh: Shared, service: string, e: Env)
    requires Prepare(cfg, sh, Rollback, service, "", e).Ok?
    ensures var ask := Prepare(cfg, sh, Rollback, service, "", e).value;
            ask.digest != ask.oldDigest && PreviousHealthyDigest(sh.rows, service, ask.oldDigest) == Some(ask.digest)
  {
  }

  /** A bare rollback's target differs from the pin it was resolved against and is the newest such backed receipt. */
  lemma BareRollbackIsBacked(cfg: Config, w: World, service: string, e: Env)
    requires cfg.revertAttempts >= 1 && Reachable(cfg, w) && Prepare(cfg, w.sh, Rollback, service, "", e).Ok?
    ensures var ask := Prepare(cfg, w.sh, Rollback, service, "", e).value;
            && ask.digest != ask.oldDigest
            && exists id: nat :: NewestBacked(cfg, w, service, ask.oldDigest, ask.digest, id)
  {
    PreparedRollback(cfg, w.sh, service, e);
    var ask := Prepare(cfg, w.sh, Rollback, service, "", e).value;
    NewestReceiptIsBacked(cfg, w, service, ask.oldDigest, ask.digest);
  }

  lemma NewestReceiptIsBacked(cfg: Config, w: World, service: string, notDigest: string, digest: string)
    requires cfg.revertAttempts >= 1 && Reachable(cfg, w)
    requires PreviousHealthyDigest(w.sh.rows, service, notDigest) == Some(digest)
    ensures exists id: nat :: NewestBacked(cfg, w, service, notDigest, digest, id)
  {
    PreviousHealthyDigestIsNewest(w.sh.rows, service, notDigest);
    var id: nat :| NewestHealthy(w.sh.rows, id, service, notDigest) && w.sh.rows[id].newDigest == digest;
    HealthyIsBacked(cfg, w, id);
    assert NewestBacked(cfg, w, service, notDigest, digest, id);
  }

  ghost predicate KeepsReceipts(rows: seq<Row>, rows': seq<Row>) {
    |rows| <= |rows'| && forall id :: 0 <= id < |rows| && rows[id].IsFinished() ==> rows'[id] == rows[id]
  }

  lemma SteppingKeepsReceipts(cfg: Config, w: World, id: nat, e: Env)
    requires AllReceipts(w.sh.rows, w.closed, w.runs, w.up) && AllBacked(cfg, w.runs)
    requires id < |w.runs| && !IsOver(w.runs[id].at.pc)
    ensures KeepsReceipts(w.sh.rows, Act(cfg, w.sh, id, w.runs[id], e).sh.rows)
  {
    assert Receipts(w.sh.rows[id], id in w.closed, w.runs[id]);
    StepReceipts(cfg, w.sh, id, w.runs[id], e);
  }

  lemma QuietKeepsReceipts(cfg: Config, w: World, l: Label)
    requires Legal(w, l) && !l.Stepping?
    ensures KeepsReceipts(w.sh.rows, Quiet(cfg, w, l).sh.rows)
  {
  }

  lemma NextKeepsReceipts(cfg: Config, w: World, l: Label)
    requires AllReceipts(w.sh.rows, w.closed, w.runs, w.up) && AllBacked(cfg, w.runs) && Legal(w, l)
    ensures KeepsReceipts(w.sh.rows, Next(cfg, w, l).sh.rows)
  {
    if l.Stepping? {
      SteppingKeepsReceipts(cfg, w, l.id, l.env);
    } else {
      QuietKeepsReceipts(cfg, w, l);
    }
  }

  /** Over any continuation, crashes and restarts included, a finished row keeps every field. */
  lemma {:induction false} ReceiptsStay(cfg: Config, w: World, ls: seq<Label>)
    requires cfg.revertAttempts >= 1 && Inv(cfg, w) && LegalTrace(cfg, w, ls)
    ensures KeepsReceipts(w.sh.rows, Exec(cfg, w, ls).sh.rows)
    decreases |ls|
  {
    if ls != [] {
      NextInv(cfg, w, ls[0]);
      NextKeepsReceipts(cfg, w, ls[0]);
      ReceiptsStay(cfg, Next(cfg, w, ls[0]), ls[1..]);
    }
  }

  // ---- Joining ----------------------------------------------------------------

  /**
   * A click that joins gets a live run of its own service and kind, with its
   * very digest: a deploy or rollback for good, a converge until it has read
   * what main pins and goes by that.
   */
  lemma JoinIsSound(cfg: Config, w: World, ask: Ask)
    requires cfg.revertAttempts >= 1 && Reachable(cfg, w) && Joins(w.sh.q.pending, ask).Some?
    ensures var id := Joins(w.sh.q.pending, ask).value;
            && id < |w.runs| && !IsOver(w.runs[id].at.pc)
            && w.runs[id].req.service == ask.service
            && (w.runs[id].req.action == Converge <==> ask.action == Converge)
            && (ask.action != Converge || Undecided(w.runs[id].at.pc) ==> w.runs[id].req.newDigest == ask.digest)
  {
    ReachableInv(cfg, w);
  }

  /** An entry stands, or the run it names is over. */
  ghost predicate KeepsEntry(p: Pending, service: string, w': World) {
    p.id < |w'.runs| && (Get(w'.sh.q.pending, service) == Some(p) || IsOver(w'.runs[p.id].at.pc))
  }

  lemma ReplaceKeepsPending(cfg: Config, w: World, id: nat, a: After, service: string)
    requires Pendings(w.sh.q.pending, w.runs) && id < |w.runs| && service in w.sh.q.pending
    requires Targeted(cfg, w.sh, id, w.runs[id], a) && (IsOver(a.run.at.pc) <==> w.runs[id].at.pc.Leaving?)
    ensures KeepsEntry(w.sh.q.pending[service], service, Replace(w, id, a))
  {
  }

  lemma QuietKeepsPending(cfg: Config, w: World, l: Label, service: string)
    requires Legal(w, l) && !l.Stepping? && Pendings(w.sh.q.pending, w.runs) && service in w.sh.q.pending
    ensures KeepsEntry(w.sh.q.pending[service], service, Quiet(cfg, w, l))
  {
  }

  lemma SteppingKeepsPending(cfg: Config, w: World, id: nat, e: Env, service: string)
    requires Pendings(w.sh.q.pending, w.runs) && id < |w.runs| && service in w.sh.q.pending && !IsOver(w.runs[id].at.pc)
    requires Targeting(cfg, w.sh, w.runs[id]) && Controllable(cfg, w.sh, w.runs[id], e)
    ensures KeepsEntry(w.sh.q.pending[service], service, Replace(w, id, Act(cfg, w.sh, id, w.runs[id], e)))
  {
    StepTargets(cfg, w.sh, id, w.runs[id], e);
    StepControl(cfg, w.sh, id, w.runs[id], e);
    ReplaceKeepsPending(cfg, w, id, Act(cfg, w.sh, id, w.runs[id], e), service);
  }

  /** Only its owner's deregistration, or the end of the process, takes a pending entry away. */
  lemma NextKeepsPending(cfg: Config, w: World, l: Label, service: string)
    requires cfg.revertAttempts >= 1 && AllTargets(cfg, w.sh.git, w.runs)
    requires forall i :: 0 <= i < |w.runs| ==> Control(cfg, w.runs[i])
    requires Pendings(w.sh.q.pending, w.runs) && Legal(w, l) && service in w.sh.q.pending
    ensures KeepsEntry(w.sh.q.pending[service], service, Next(cfg, w, l))
  {
    if l.Stepping? {
      SteppingKeepsPending(cfg, w, l.id, l.env, service);
    } else {
      QuietKeepsPending(cfg, w, l, service);
    }
  }

  /**
   * Join ownership over any continuation: as long as the entry's run has not
   * deregistered, the entry stands, unchanged, so every matching click gets
   * that run's id and adds no row.
   */
  lemma {:induction false} PendingStands(cfg: Config, w: World, ls: seq<Label>, service: string, ask: Ask,
                                         recordOk: bool, now: int)
    requires cfg.revertAttempts >= 1 && Inv(cfg, w) && LegalTrace(cfg, w, ls) && service in w.sh.q.pending
    requires ask.service == service && ask.digest == w.sh.q.pending[service].digest
    requires (ask.action == Converge) == (w.sh.q.pending[service].action == Converge)
    ensures var w' := Exec(cfg, w, ls); var p := w.sh.q.pending[service];
            && p.id < |w'.runs|
            && (!IsOver(w'.runs[p.id].at.pc) ==>
                  && Get(w'.sh.q.pending, service) == Some(p)
                  && Joins(w'.sh.q.pending, ask) == Some(p.id)
                  && Register(w', ask, recordOk, now) == w'.(asks := w'.asks - multiset{ask}))
    decreases |ls|
  {
    if ls != [] {
      var w1 := Next(cfg, w, ls[0]);
      NextInv(cfg, w, ls[0]);
      NextKeepsPending(cfg, w, ls[0], service);
      if Get(w1.sh.q.pending, service) == Some(w.sh.q.pending[service]) {
        PendingStands(cfg, w1, ls[1..], service, ask, recordOk, now);
      } else {
        OverStays(cfg, w1, ls[1..], w.sh.q.pending[service].id);
      }
    }
  }

  /** A run that is over never steps again. */
  lemma NextKeepsOver(cfg: Config, w: World, l: Label, id: nat)
    requires Legal(w, l) && id < |w.runs| && IsOver(w.runs[id].at.pc)
    ensures id < |Next(cfg, w, l).runs| && IsOver(Next(cfg, w, l).runs[id].at.pc)
  {
    match l
    case Stepping(other, e) =>
      assert other != id;
      assert Next(cfg, w, l).runs == w.runs[other := Act(cfg, w.sh, other, w.runs[other], e).run];
    case _ =>
  }

  lemma {:induction false} OverStays(cfg: Config, w: World, ls: seq<Label>, id: nat)
    requires LegalTrace(cfg, w, ls) && id < |w.runs| && IsOver(w.runs[id].at.pc)
    ensures id < |Exec(cfg, w, ls).runs| && IsOver(Exec(cfg, w, ls).runs[id].at.pc)
    decreases |ls|
  {
    if ls != [] {
      NextKeepsOver(cfg, w, ls[0], id);
      OverStays(cfg, Next(cfg, w, ls[0]), ls[1..], id);
    }
  }

  // ---- Main and the host --------------------------------------------------------

  /** Every manifest main ever held names the service its file is for, as the validator of the CLI asks. */
  ghost predicate NamedForService(cfg: Config, held: set<(string, Bytes)>) {
    forall p :: p in held && cfg.parse(p.1).Some? ==> cfg.parse(p.1).value.name == p.0
  }

  /** Nothing pushed main from outside, and each merge landed what it answered. */
  predicate Alone(h: Host) {
    !h.pushed && !h.inexact
  }

  /**
   * The repository describes the host: with nobody else pushing, exact merges
   * and manifests named for their services, the last run that touched a
   * service's main or host leaves them equal when it ended healthy. When it
   * ended rolled back, its unit is written from its restore point, and main is
   * that too exactly when its revert merged, or it merged nothing and main
   * already held the restore point when it took its service lock; a run that
   * got as far as applying its change never is in the second case.
   */
  lemma RepositoryDescribesHost(cfg: Config, w: World, service: string)
    requires cfg.revertAttempts >= 1 && Reachable(cfg, w)
    requires Alone(w.sh.host) && NamedForService(cfg, w.sh.git.held)
    requires service in w.sh.host.lastTouch
    ensures var id := w.sh.host.lastTouch[service]; id < |w.runs|
    ensures var r := w.runs[w.sh.host.lastTouch[service]];
            var main, unit := Get(w.sh.git.main, service), Get(w.sh.host.units, service);
            && r.req.service == service
            && (Outcome(r) == Some(Healthy) ==> unit == main != None)
            && (Outcome(r) == Some(RolledBack) ==>
                  && unit == Some(r.req.originalRaw)
                  && (unit == main <==> r.did.reverted || (!r.did.merged && r.did.found == Some(r.req.originalRaw)))
                  && (r.did.merged || Forward(r.did.calls).Some? ==> (unit == main <==> r.did.reverted)))
  {
    ReachableInv(cfg, w);
    var id := w.sh.host.lastTouch[service];
    assert Undisturbed(w.sh.host) && w.runs[id].req.service == service;
    assert InPlace(w.sh.git, w.sh.host, id, w.runs[id]) && Grounded(w.sh.git, w.sh.host, id, w.runs[id]);
    LastTouchDescribes(cfg, w.sh.git, w.sh.host, id, w.runs[id]);
  }

  /**
   * However the last run that touched a service ended, failed or killed
   * included: once its own merge landed and no revert did, main holds what it
   * proposed; and as long as it gave the applier nothing, the unit is still what
   * it was when the run took its lock.
   */
  lemma MergedContentStays(cfg: Config, w: World, service: string)
    requires cfg.revertAttempts >= 1 && Reachable(cfg, w)
    requires Alone(w.sh.host) && NamedForService(cfg, w.sh.git.held)
    requires service in w.sh.host.lastTouch
    ensures var id := w.sh.host.lastTouch[service]; id < |w.runs|
    ensures var r := w.runs[w.sh.host.lastTouch[service]];
            && (r.did.merged && !r.did.reverted ==> Get(w.sh.git.main, service) == Some(r.req.newContent))
            && (!Gave(r.did.calls) ==> Get(w.sh.host.units, service) == r.did.stood)
  {
    ReachableInv(cfg, w);
    var id := w.sh.host.lastTouch[service];
    assert Undisturbed(w.sh.host) && Grounded(w.sh.git, w.sh.host, id, w.runs[id]);
  }

  lemma LastTouchDescribes(cfg: Config, git: Git, h: Host, id: nat, r: Run)
    requires TouchedLast(h, r.req.service, id) && InPlace(git, h, id, r) && Grounded(git, h, id, r)
    requires Targets(cfg, git.held, r) && CallsInPlace(r)
    ensures var main, unit := Get(git.main, r.req.service), Get(h.units, r.req.service);
            && (Outcome(r) == Some(Healthy) ==> unit == main != None)
            && (Outcome(r) == Some(RolledBack) ==>
                  && unit == Some(r.req.originalRaw)
                  && (unit == main <==> r.did.reverted || (!r.did.merged && r.did.found == Some(r.req.originalRaw)))
                  && (r.did.merged || Forward(r.did.calls).Some? ==> (unit == main <==> r.did.reverted)))
  {
    if Forward(r.did.calls).Some? { ForwardWasMade(r.did.calls); }
  }

  lemma {:induction false} ForwardWasMade(calls: Calls)
    requires Forward(calls).Some?
    ensures calls.Has(Applied(false, Forward(calls).value))
  {
    if !(calls.call.Applied? && !calls.call.undo) { ForwardWasMade(calls.before); }
  }
}
