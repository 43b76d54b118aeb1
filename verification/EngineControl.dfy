/**
 * Locks, the wait counter, deadlock freedom and termination of the engine.
 */
module EngineControl {
  import opened Options
  import opened Journals
  import opened Engine

  // ---- One run ----------------------------------------------------------------

  /** What a run's program point says about the locks it holds and the loops it is in. */
  ghost predicate Control(cfg: Config, r: Run) {
    (r.at.undo ==> r.req.action != Converge) && (r.did.reverted ==> r.at.undo) &&
    match r.at.pc
    case Begun | ClickSync | WaitService => !r.at.holds && !r.at.undo
    case RecordPR => r.at.holds && !r.at.undo && r.req.action != Converge && r.at.attempt == 1
    case FrontRead | Inspect | Closing | RecordMerge | Announce | ApplySync | ApplyRead | Restoring =>
      r.at.holds && !r.at.undo && r.req.action != Converge
    case WaitMerge | Opening => r.at.holds && r.req.action != Converge && (r.at.undo ==> InTries(cfg, r))
    case Checking | Merging | Updating =>
      r.at.holds && r.req.action != Converge && (r.at.undo ==> InTries(cfg, r)) && 1 <= r.at.attempt <= MERGE_ATTEMPTS
    case Applying | Restarting | ProbingHost => r.at.holds
    case RevertTop | RevertBackoff => r.at.holds && r.at.undo && r.req.action != Converge && InTries(cfg, r)
    case ConvergeSync | ConvergeRead => r.at.holds && !r.at.undo && r.req.action == Converge
    case Finishing(_) => true
    case Releasing => r.at.holds
    case Leaving | Gone | Killed => !r.at.holds
  }

  predicate InTries(cfg: Config, r: Run) {
    1 <= r.at.tries <= cfg.revertAttempts
  }

  predicate InLoop(pc: Pc) {
    pc.Checking? || pc.Merging? || pc.Updating?
  }

  /** Between a restored host and a settled main. */
  predicate Reverting(r: Run) {
    && r.at.undo
    && (r.at.pc.RevertTop? || r.at.pc.WaitMerge? || r.at.pc.Opening? || InLoop(r.at.pc) || r.at.pc.RevertBackoff?)
  }

  function LoopLeft(r: Run): int {
    3 * (MERGE_ATTEMPTS - r.at.attempt) + if r.at.pc.Checking? then 3 else if r.at.pc.Merging? then 2 else 1
  }

  /** An upper bound on the steps a run still has: both retry loops count down. */
  function Rank(cfg: Config, r: Run): int {
    var perTry := 13;
    var undo := 10 + perTry * cfg.revertAttempts;
    match r.at.pc
    case Gone => 0
    case Killed => 0
    case Leaving => 1
    case Releasing => 2
    case Finishing(_) => 3
    case RevertBackoff => 4 + perTry * (cfg.revertAttempts - r.at.tries)
    case RevertTop => 4 + perTry * (cfg.revertAttempts - r.at.tries) + 12
    case Restoring => undo
    case Applying => if r.at.undo then undo - 1 else undo + 3
    case Restarting => if r.at.undo then undo - 2 else undo + 2
    case ProbingHost => if r.at.undo then undo - 3 else undo + 1
    case ApplyRead => undo + 4
    case ApplySync => undo + 5
    case Announce => undo + 6
    case ConvergeRead => undo + 4
    case ConvergeSync => undo + 5
    case RecordMerge => undo + 7
    case Closing => 4
    case WaitMerge => if r.at.undo then 4 + perTry * (cfg.revertAttempts - r.at.tries) + 11 else undo + 21
    case Opening => if r.at.undo then 4 + perTry * (cfg.revertAttempts - r.at.tries) + 10 else undo + 18
    case Checking | Merging | Updating =>
      LoopLeft(r) + if r.at.undo then 4 + perTry * (cfg.revertAttempts - r.at.tries) else undo + 7
    case FrontRead => undo + 20
    case Inspect => undo + 19
    case RecordPR => undo + 17
    case WaitService => undo + 22
    case ClickSync => undo + 23
    case Begun => undo + 24
  }

  function Wait(r: Run): nat {
    if Waiting(r.at.pc) then 1 else 0
  }

  /** A step takes or releases only its own service's channel, and takes it only when it is empty. */
  ghost predicate LockMoved(sh: Shared, r: Run, a: After) {
    && a.run.req.service == r.req.service
    && (a.run.at.holds && !r.at.holds ==> r.req.service !in sh.q.locks && a.sh.q.locks == sh.q.locks + {r.req.service})
    && (!a.run.at.holds && r.at.holds ==> a.sh.q.locks == sh.q.locks - {r.req.service})
    && (a.run.at.holds == r.at.holds ==> a.sh.q.locks == sh.q.locks)
  }

  /** A step enters the merge span only when the mutex is free, and leaving the span frees it. */
  ghost predicate SpanMoved(sh: Shared, r: Run, a: After) {
    && (InSpan(a.run.at.pc) && !InSpan(r.at.pc) ==> !sh.q.mergeMu && a.sh.q.mergeMu)
    && (InSpan(r.at.pc) && !InSpan(a.run.at.pc) ==> !a.sh.q.mergeMu)
    && (InSpan(a.run.at.pc) == InSpan(r.at.pc) ==> a.sh.q.mergeMu == sh.q.mergeMu)
  }

  /** What one step does to its own run and to the locks, whatever it was about. */
  ghost predicate Controlled(cfg: Config, sh: Shared, r: Run, a: After) {
    && Control(cfg, a.run)
    && a.run.req.action == r.req.action
    && 0 <= Rank(cfg, a.run) < Rank(cfg, r)
    && (IsOver(a.run.at.pc) <==> r.at.pc.Leaving?) && !a.run.at.pc.Killed?
    && LockMoved(sh, r, a) && SpanMoved(sh, r, a)
    && a.sh.q.queued == sh.q.queued + Wait(a.run) - Wait(r)
  }

  ghost predicate Controllable(cfg: Config, sh: Shared, r: Run, e: Env) {
    cfg.revertAttempts >= 1 && Control(cfg, r) && Enabled(sh.q, r, e)
  }

  lemma BegunControl(cfg: Config, sh: Shared, id: nat, r: Run, e: Env)
    requires Controllable(cfg, sh, r, e)
    requires r.at.pc.Begun?
    ensures Controlled(cfg, sh, r, QueueStep(sh, id, r, e))
  {
  }

  lemma ClickSyncControl(cfg: Config, sh: Shared, id: nat, r: Run, e: Env)
    requires Controllable(cfg, sh, r, e)
    requires r.at.pc.ClickSync?
    ensures Controlled(cfg, sh, r, QueueStep(sh, id, r, e))
  {
  }

  lemma WaitServiceControl(cfg: Config, sh: Shared, id: nat, r: Run, e: Env)
    requires Controllable(cfg, sh, r, e)
    requires r.at.pc.WaitService?
    ensures Controlled(cfg, sh, r, QueueStep(sh, id, r, e))
  {
  }

  lemma WaitMergeControl(cfg: Config, sh: Shared, id: nat, r: Run, e: Env)
    requires Controllable(cfg, sh, r, e)
    requires r.at.pc.WaitMerge?
    ensures Controlled(cfg, sh, r, QueueStep(sh, id, r, e))
  {
  }

  lemma FrontReadControl(cfg: Config, sh: Shared, id: nat, r: Run, e: Env)
    requires Controllable(cfg, sh, r, e)
    requires r.at.pc.FrontRead?
    ensures Controlled(cfg, sh, r, FrontStep(cfg, sh, id, r, e))
  {
  }

  lemma InspectControl(cfg: Config, sh: Shared, id: nat, r: Run, e: Env)
    requires Controllable(cfg, sh, r, e)
    requires r.at.pc.Inspect?
    ensures Controlled(cfg, sh, r, FrontStep(cfg, sh, id, r, e))
  {
  }

  lemma OpeningControl(cfg: Config, sh: Shared, id: nat, r: Run, e: Env)
    requires Controllable(cfg, sh, r, e)
    requires r.at.pc.Opening?
    ensures Controlled(cfg, sh, r, ProposeStep(sh, id, r, e))
  {
  }

  lemma RecordPRControl(cfg: Config, sh: Shared, id: nat, r: Run, e: Env)
    requires Controllable(cfg, sh, r, e)
    requires r.at.pc.RecordPR?
    ensures Controlled(cfg, sh, r, ProposeStep(sh, id, r, e))
  {
  }

  lemma CheckingControl(cfg: Config, sh: Shared, id: nat, r: Run, e: Env)
    requires Controllable(cfg, sh, r, e)
    requires r.at.pc.Checking?
    ensures Controlled(cfg, sh, r, CheckStep(sh, id, r, e))
  {
    if r.at.undo {} else {}
  }

  lemma UpdatingControl(cfg: Config, sh: Shared, id: nat, r: Run, e: Env)
    requires Controllable(cfg, sh, r, e)
    requires r.at.pc.Updating?
    ensures Controlled(cfg, sh, r, CheckStep(sh, id, r, e))
  {
  }

  lemma LandedControl(cfg: Config, sh: Shared, id: nat, r: Run, e: Env)
    requires Controllable(cfg, sh, r, e) && r.at.pc.Merging?
    requires e.ok
    ensures Controlled(cfg, sh, r, LandStep(sh, id, r, e))
  {
  }

  lemma RefusedControl(cfg: Config, sh: Shared, id: nat, r: Run, e: Env)
    requires Controllable(cfg, sh, r, e) && r.at.pc.Merging?
    requires !e.ok
    ensures Controlled(cfg, sh, r, LandStep(sh, id, r, e))
  {
    if r.at.undo {} else {}
  }

  lemma LandControl(cfg: Config, sh: Shared, id: nat, r: Run, e: Env)
    requires Controllable(cfg, sh, r, e) && r.at.pc.Merging?
    ensures Controlled(cfg, sh, r, LandStep(sh, id, r, e))
  {
    if e.ok { LandedControl(cfg, sh, id, r, e); } else { RefusedControl(cfg, sh, id, r, e); }
  }

  lemma MergedControl(cfg: Config, sh: Shared, id: nat, r: Run, e: Env)
    requires Controllable(cfg, sh, r, e) && (r.at.pc.Closing? || r.at.pc.RecordMerge?)
    ensures Controlled(cfg, sh, r, MergedStep(sh, id, r, e))
  {
  }

  lemma AnnounceControl(cfg: Config, sh: Shared, id: nat, r: Run, e: Env)
    requires Controllable(cfg, sh, r, e)
    requires r.at.pc.Announce?
    ensures Controlled(cfg, sh, r, PullStep(cfg, sh, id, r, e))
  {
  }

  lemma ApplySyncControl(cfg: Config, sh: Shared, id: nat, r: Run, e: Env)
    requires Controllable(cfg, sh, r, e)
    requires r.at.pc.ApplySync?
    ensures Controlled(cfg, sh, r, PullStep(cfg, sh, id, r, e))
  {
  }

  lemma ApplyReadControl(cfg: Config, sh: Shared, id: nat, r: Run, e: Env)
    requires Controllable(cfg, sh, r, e)
    requires r.at.pc.ApplyRead?
    ensures Controlled(cfg, sh, r, PullStep(cfg, sh, id, r, e))
  {
  }

  lemma ConvergeSyncControl(cfg: Config, sh: Shared, id: nat, r: Run, e: Env)
    requires Controllable(cfg, sh, r, e)
    requires r.at.pc.ConvergeSync?
    ensures Controlled(cfg, sh, r, ConvergeStep(cfg, sh, id, r, e))
  {
  }

  lemma ConvergeReadControl(cfg: Config, sh: Shared, id: nat, r: Run, e: Env)
    requires Controllable(cfg, sh, r, e)
    requires r.at.pc.ConvergeRead?
    ensures Controlled(cfg, sh, r, ConvergeStep(cfg, sh, id, r, e))
  {
  }

  lemma WriteControl(cfg: Config, sh: Shared, id: nat, r: Run, e: Env)
    requires Controllable(cfg, sh, r, e) && r.at.pc.Applying?
    ensures Controlled(cfg, sh, r, WriteStep(cfg, sh, id, r, e))
  {
  }

  lemma RestartingControl(cfg: Config, sh: Shared, id: nat, r: Run, e: Env)
    requires Controllable(cfg, sh, r, e)
    requires r.at.pc.Restarting?
    ensures Controlled(cfg, sh, r, ProbeStep(sh, id, r, e))
  {
  }

  lemma ProbingHostControl(cfg: Config, sh: Shared, id: nat, r: Run, e: Env)
    requires Controllable(cfg, sh, r, e)
    requires r.at.pc.ProbingHost?
    ensures Controlled(cfg, sh, r, ProbeStep(sh, id, r, e))
  {
  }

  lemma RestoringControl(cfg: Config, sh: Shared, id: nat, r: Run, e: Env)
    requires Controllable(cfg, sh, r, e)
    requires r.at.pc.Restoring?
    ensures Controlled(cfg, sh, r, UndoStep(cfg, sh, id, r, e))
  {
  }

  lemma RevertTopControl(cfg: Config, sh: Shared, id: nat, r: Run, e: Env)
    requires Controllable(cfg, sh, r, e)
    requires r.at.pc.RevertTop?
    ensures Controlled(cfg, sh, r, UndoStep(cfg, sh, id, r, e))
  {
  }

  lemma RevertBackoffControl(cfg: Config, sh: Shared, id: nat, r: Run, e: Env)
    requires Controllable(cfg, sh, r, e)
    requires r.at.pc.RevertBackoff?
    ensures Controlled(cfg, sh, r, UndoStep(cfg, sh, id, r, e))
  {
  }

  lemma FinishingControl(cfg: Config, sh: Shared, id: nat, r: Run, e: Env)
    requires Controllable(cfg, sh, r, e)
    requires r.at.pc.Finishing?
    ensures Controlled(cfg, sh, r, EndStep(sh, id, r, e))
  {
  }

  lemma ReleasingControl(cfg: Config, sh: Shared, id: nat, r: Run, e: Env)
    requires Controllable(cfg, sh, r, e)
    requires r.at.pc.Releasing?
    ensures Controlled(cfg, sh, r, EndStep(sh, id, r, e))
  {
  }

  lemma LeavingControl(cfg: Config, sh: Shared, id: nat, r: Run, e: Env)
    requires Controllable(cfg, sh, r, e)
    requires r.at.pc.Leaving?
    ensures Controlled(cfg, sh, r, EndStep(sh, id, r, e))
  {
  }

  lemma MainwardControl(cfg: Config, sh: Shared, id: nat, r: Run, e: Env)
    requires Controllable(cfg, sh, r, e) && Mainward(r.at.pc)
    ensures Controlled(cfg, sh, r, Act(cfg, sh, id, r, e))
  {
    match r.at.pc
    case Begun => BegunControl(cfg, sh, id, r, e);
    case ClickSync => ClickSyncControl(cfg, sh, id, r, e);
    case WaitService => WaitServiceControl(cfg, sh, id, r, e);
    case WaitMerge => WaitMergeControl(cfg, sh, id, r, e);
    case FrontRead => FrontReadControl(cfg, sh, id, r, e);
    case Inspect => InspectControl(cfg, sh, id, r, e);
    case Opening => OpeningControl(cfg, sh, id, r, e);
    case RecordPR => RecordPRControl(cfg, sh, id, r, e);
    case Checking => CheckingControl(cfg, sh, id, r, e);
    case Updating => UpdatingControl(cfg, sh, id, r, e);
    case Merging => LandControl(cfg, sh, id, r, e);
    case Closing | RecordMerge => MergedControl(cfg, sh, id, r, e);
  }

  lemma HostwardControl(cfg: Config, sh: Shared, id: nat, r: Run, e: Env)
    requires Controllable(cfg, sh, r, e) && !Mainward(r.at.pc) && !IsOver(r.at.pc)
    ensures Controlled(cfg, sh, r, Act(cfg, sh, id, r, e))
  {
    match r.at.pc
    case Announce => AnnounceControl(cfg, sh, id, r, e);
    case ApplySync => ApplySyncControl(cfg, sh, id, r, e);
    case ApplyRead => ApplyReadControl(cfg, sh, id, r, e);
    case ConvergeSync => ConvergeSyncControl(cfg, sh, id, r, e);
    case ConvergeRead => ConvergeReadControl(cfg, sh, id, r, e);
    case Applying => WriteControl(cfg, sh, id, r, e);
    case Restarting => RestartingControl(cfg, sh, id, r, e);
    case ProbingHost => ProbingHostControl(cfg, sh, id, r, e);
    case Restoring => RestoringControl(cfg, sh, id, r, e);
    case RevertTop => RevertTopControl(cfg, sh, id, r, e);
    case RevertBackoff => RevertBackoffControl(cfg, sh, id, r, e);
    case Finishing(_) => FinishingControl(cfg, sh, id, r, e);
    case Releasing => ReleasingControl(cfg, sh, id, r, e);
    case Leaving => LeavingControl(cfg, sh, id, r, e);
  }

  lemma StepControl(cfg: Config, sh: Shared, id: nat, r: Run, e: Env)
    requires Controllable(cfg, sh, r, e) && !IsOver(r.at.pc)
    ensures Controlled(cfg, sh, r, Act(cfg, sh, id, r, e))
  {
    if Mainward(r.at.pc) { MainwardControl(cfg, sh, id, r, e); } else { HostwardControl(cfg, sh, id, r, e); }
  }

  // ---- All runs ---------------------------------------------------------------

  function Total(weigh: Run -> int, runs: seq<Run>): int
    decreases |runs|
  {
    if runs == [] then 0 else weigh(runs[0]) + Total(weigh, runs[1..])
  }

  lemma {:induction false} TotalAfterUpdate(weigh: Run -> int, runs: seq<Run>, i: nat, r: Run)
    requires i < |runs|
    ensures Total(weigh, runs[i := r]) == Total(weigh, runs) - weigh(runs[i]) + weigh(r)
    decreases |runs|
  {
    if i == 0 {
      assert runs[i := r][1..] == runs[1..];
    } else {
      assert runs[i := r][1..] == runs[1..][i - 1 := r];
      TotalAfterUpdate(weigh, runs[1..], i - 1, r);
    }
  }

  lemma {:induction false} TotalAfterAppend(weigh: Run -> int, runs: seq<Run>, r: Run)
    ensures Total(weigh, runs + [r]) == Total(weigh, runs) + weigh(r)
    decreases |runs|
  {
    if runs == [] {
      assert runs + [r] == [r];
    } else {
      assert (runs + [r])[1..] == runs[1..] + [r];
      TotalAfterAppend(weigh, runs[1..], r);
    }
  }

  lemma {:induction false} TotalBounds(weigh: Run -> int, runs: seq<Run>)
    requires forall i :: 0 <= i < |runs| ==> 0 <= weigh(runs[i])
    ensures Total(weigh, runs) >= 0
    ensures Total(weigh, runs) == 0 <==> forall i :: 0 <= i < |runs| ==> weigh(runs[i]) == 0
    decreases |runs|
  {
    if runs != [] {
      TotalBounds(weigh, runs[1..]);
      assert forall i :: 1 <= i < |runs| ==> runs[i] == runs[1..][i - 1];
    }
  }

  function Waits(): Run -> int {
    (r: Run) => if Waiting(r.at.pc) then 1 else 0
  }

  function Ranks(cfg: Config): Run -> int {
    (r: Run) => Rank(cfg, r)
  }

  /** The per-service channels exclude: one run past lock per service, and a full channel is some run's. */
  ghost predicate ServiceLocks(runs: seq<Run>, locks: set<string>) {
    && (forall i :: 0 <= i < |runs| && runs[i].at.holds ==> runs[i].req.service in locks)
    && (forall i, j :: 0 <= i < j < |runs| && runs[i].at.holds && runs[j].at.holds
          ==> runs[i].req.service != runs[j].req.service)
    && (forall s :: s in locks ==> exists i :: 0 <= i < |runs| && runs[i].at.holds && runs[i].req.service == s)
  }

  /** One open-to-merge span across all services, and a held merge lock is some run's span. */
  ghost predicate MergeLock(runs: seq<Run>, mergeMu: bool) {
    && (forall i :: 0 <= i < |runs| && InSpan(runs[i].at.pc) ==> mergeMu)
    && (forall i, j :: 0 <= i < j < |runs| ==> !(InSpan(runs[i].at.pc) && InSpan(runs[j].at.pc)))
    && (mergeMu ==> exists i :: 0 <= i < |runs| && InSpan(runs[i].at.pc))
  }

  ghost predicate ControlInv(cfg: Config, w: World) {
    && (forall i :: 0 <= i < |w.runs| ==> Control(cfg, w.runs[i]))
    && ServiceLocks(w.runs, w.sh.q.locks) && MergeLock(w.runs, w.sh.q.mergeMu)
    && w.sh.q.queued == Total(Waits(), w.runs)
    && (!w.up ==> forall i :: 0 <= i < |w.runs| ==> IsOver(w.runs[i].at.pc))
  }

  lemma ReplaceServiceLocks(runs: seq<Run>, sh: Shared, id: nat, a: After)
    requires ServiceLocks(runs, sh.q.locks) && id < |runs| && LockMoved(sh, runs[id], a)
    ensures ServiceLocks(runs[id := a.run], a.sh.q.locks)
  {
    var runs' := runs[id := a.run];
    forall s | s in a.sh.q.locks
      ensures exists i :: 0 <= i < |runs'| && runs'[i].at.holds && runs'[i].req.service == s
    {
      if s in sh.q.locks {
        var i :| 0 <= i < |runs| && runs[i].at.holds && runs[i].req.service == s;
        assert runs'[i].req.service == s;
      } else {
        assert runs'[id].req.service == s;
      }
    }
  }

  lemma ReplaceMergeLock(runs: seq<Run>, sh: Shared, id: nat, a: After)
    requires MergeLock(runs, sh.q.mergeMu) && id < |runs| && SpanMoved(sh, runs[id], a)
    ensures MergeLock(runs[id := a.run], a.sh.q.mergeMu)
  {
    var runs' := runs[id := a.run];
    if a.sh.q.mergeMu {
      if InSpan(a.run.at.pc) {
        assert InSpan(runs'[id].at.pc);
      } else {
        var i :| 0 <= i < |runs| && InSpan(runs[i].at.pc);
        assert InSpan(runs'[i].at.pc);
      }
    }
  }

  lemma ReplaceControl(cfg: Config, w: World, id: nat, a: After)
    requires ControlInv(cfg, w) && w.up && id < |w.runs| && Controlled(cfg, w.sh, w.runs[id], a)
    ensures ControlInv(cfg, Replace(w, id, a))
  {
    ReplaceServiceLocks(w.runs, w.sh, id, a);
    ReplaceMergeLock(w.runs, w.sh, id, a);
    TotalAfterUpdate(Waits(), w.runs, id, a.run);
  }

  lemma AppendLocks(runs: seq<Run>, q: Queues, r: Run)
    requires ServiceLocks(runs, q.locks) && MergeLock(runs, q.mergeMu) && !r.at.holds && !InSpan(r.at.pc)
    ensures ServiceLocks(runs + [r], q.locks) && MergeLock(runs + [r], q.mergeMu)
  {
    var runs' := runs + [r];
    forall s | s in q.locks
      ensures exists i :: 0 <= i < |runs'| && runs'[i].at.holds && runs'[i].req.service == s
    {
      var i :| 0 <= i < |runs| && runs[i].at.holds && runs[i].req.service == s;
      assert runs'[i].req.service == s;
    }
    if q.mergeMu {
      var i :| 0 <= i < |runs| && InSpan(runs[i].at.pc);
      assert InSpan(runs'[i].at.pc);
    }
  }

  lemma RegisterControl(cfg: Config, w: World, ask: Ask, recordOk: bool, now: int)
    requires ControlInv(cfg, w) && w.up
    ensures ControlInv(cfg, Register(w, ask, recordOk, now))
  {
    var w' := Register(w, ask, recordOk, now);
    if w'.runs != w.runs {
      AppendLocks(w.runs, w.sh.q, NewRun(ask));
      TotalAfterAppend(Waits(), w.runs, NewRun(ask));
    }
  }

  lemma KilledControl(cfg: Config, runs: seq<Run>)
    requires forall i :: 0 <= i < |runs| ==> Control(cfg, runs[i])
    ensures forall i :: 0 <= i < |runs| ==>
              Control(cfg, KillAll(runs)[i]) && IsOver(KillAll(runs)[i].at.pc) && !KillAll(runs)[i].at.holds
  {
    forall i | 0 <= i < |runs|
      ensures Control(cfg, KillAll(runs)[i]) && IsOver(KillAll(runs)[i].at.pc) && !KillAll(runs)[i].at.holds
    {
      assert KillAll(runs)[i] == Kill(runs[i]);
    }
  }

  lemma OverFreesAll(runs: seq<Run>)
    requires forall i :: 0 <= i < |runs| ==> IsOver(runs[i].at.pc) && !runs[i].at.holds
    ensures Total(Waits(), runs) == 0 && ServiceLocks(runs, {}) && MergeLock(runs, false)
  {
    TotalBounds(Waits(), runs);
  }

  lemma CrashControl(cfg: Config, runs: seq<Run>)
    requires forall i :: 0 <= i < |runs| ==> Control(cfg, runs[i])
    ensures forall i :: 0 <= i < |runs| ==>
              Control(cfg, KillAll(runs)[i]) && IsOver(KillAll(runs)[i].at.pc) && !KillAll(runs)[i].at.holds
    ensures Total(Waits(), KillAll(runs)) == 0
    ensures ServiceLocks(KillAll(runs), {}) && MergeLock(KillAll(runs), false)
  {
    KilledControl(cfg, runs);
    OverFreesAll(KillAll(runs));
  }

  lemma QuietControl(cfg: Config, w: World, l: Label)
    requires ControlInv(cfg, w) && Legal(w, l) && !l.Stepping?
    ensures ControlInv(cfg, Quiet(cfg, w, l))
  {
    match l
    case Stepping(_, _) => {}
    case Registering(ask, recordOk, now) => RegisterControl(cfg, w, ask, recordOk, now);
    case Crashing => CrashControl(cfg, w.runs);
    case _ =>
      assert Quiet(cfg, w, l).runs == w.runs;
      assert Quiet(cfg, w, l).sh.q.(cancelled := w.sh.q.cancelled) == w.sh.q;
  }

  lemma NextControl(cfg: Config, w: World, l: Label)
    requires cfg.revertAttempts >= 1 && ControlInv(cfg, w) && Legal(w, l)
    ensures ControlInv(cfg, Next(cfg, w, l))
  {
    if l.Stepping? {
      StepControl(cfg, w.sh, l.id, w.runs[l.id], l.env);
      ReplaceControl(cfg, w, l.id, Act(cfg, w.sh, l.id, w.runs[l.id], l.env));
    } else {
      QuietControl(cfg, w, l);
    }
  }

  // ---- Progress ---------------------------------------------------------------

  lemma RankIsNonNegative(cfg: Config, r: Run)
    requires Control(cfg, r)
    ensures Rank(cfg, r) >= 0 && (Rank(cfg, r) == 0 <==> IsOver(r.at.pc))
  {
  }

  /** An answer under which nothing is given up. */
  const CarryOn := Env(true, false, true, true, false, 0, 0, "", "")

  /**
   * While any run is unfinished, some unfinished run can step: a run waits for
   * the merge lock only after its service lock, and a span never waits.
   */
  lemma SomeRunCanStep(cfg: Config, w: World)
    requires ControlInv(cfg, w) && w.up
    requires exists i :: 0 <= i < |w.runs| && !IsOver(w.runs[i].at.pc)
    ensures exists id: nat :: Legal(w, Stepping(id, CarryOn))
  {
    var i :| 0 <= i < |w.runs| && !IsOver(w.runs[i].at.pc);
    if Enabled(w.sh.q, w.runs[i], CarryOn) {
      assert Legal(w, Stepping(i, CarryOn));
    } else {
      if !w.sh.q.mergeMu {
        var j :| 0 <= j < |w.runs| && w.runs[j].at.holds && w.runs[j].req.service == w.runs[i].req.service;
        assert Control(cfg, w.runs[j]);
        assert Legal(w, Stepping(j, CarryOn));
      } else {
        var k :| 0 <= k < |w.runs| && InSpan(w.runs[k].at.pc);
        assert Legal(w, Stepping(k, CarryOn));
      }
    }
  }

  function StepsIn(ls: seq<Label>): nat {
    if ls == [] then 0 else (if ls[0].Stepping? then 1 else 0) + StepsIn(ls[1..])
  }

  function Work(cfg: Config, w: World): int {
    Total(Ranks(cfg), w.runs)
  }

  lemma ReplaceWork(cfg: Config, w: World, id: nat, a: After)
    requires id < |w.runs| && Controlled(cfg, w.sh, w.runs[id], a)
    ensures Work(cfg, Replace(w, id, a)) < Work(cfg, w)
  {
    TotalAfterUpdate(Ranks(cfg), w.runs, id, a.run);
  }

  lemma WorkIsNonNegative(cfg: Config, runs: seq<Run>)
    requires forall i :: 0 <= i < |runs| ==> Control(cfg, runs[i])
    ensures Total(Ranks(cfg), runs) >= 0
    ensures Total(Ranks(cfg), runs) == 0 <==> forall i :: 0 <= i < |runs| ==> IsOver(runs[i].at.pc)
  {
    forall i | 0 <= i < |runs|
      ensures Ranks(cfg)(runs[i]) >= 0 && (Ranks(cfg)(runs[i]) == 0 <==> IsOver(runs[i].at.pc))
    {
      RankIsNonNegative(cfg, runs[i]);
    }
    TotalBounds(Ranks(cfg), runs);
  }

  lemma CrashWork(cfg: Config, runs: seq<Run>)
    requires forall i :: 0 <= i < |runs| ==> Control(cfg, runs[i])
    ensures Total(Ranks(cfg), KillAll(runs)) == 0 <= Total(Ranks(cfg), runs)
  {
    CrashControl(cfg, runs);
    WorkIsNonNegative(cfg, runs);
    WorkIsNonNegative(cfg, KillAll(runs));
  }

  lemma NextWork(cfg: Config, w: World, l: Label)
    requires cfg.revertAttempts >= 1 && ControlInv(cfg, w) && Legal(w, l) && !l.Registering?
    ensures Work(cfg, Next(cfg, w, l)) <= Work(cfg, w) - (if l.Stepping? then 1 else 0)
  {
    match l
    case Stepping(id, e) =>
      StepControl(cfg, w.sh, id, w.runs[id], e);
      ReplaceWork(cfg, w, id, Act(cfg, w.sh, id, w.runs[id], e));
    case Crashing => CrashWork(cfg, w.runs);
    case Registering(_, _, _) => {}
    case _ => assert Next(cfg, w, l).runs == w.runs;
  }

  /** Until a new request is registered, the runs there are can take only so many steps, whatever else happens. */
  lemma {:induction false} RunsTerminate(cfg: Config, w: World, ls: seq<Label>)
    requires cfg.revertAttempts >= 1 && ControlInv(cfg, w) && LegalTrace(cfg, w, ls)
    requires forall k :: 0 <= k < |ls| ==> !ls[k].Registering?
    ensures StepsIn(ls) <= Work(cfg, w) - Work(cfg, Exec(cfg, w, ls))
    ensures StepsIn(ls) <= Work(cfg, w)
    ensures Work(cfg, w) == 0 <==> forall i :: 0 <= i < |w.runs| ==> IsOver(w.runs[i].at.pc)
    decreases |ls|
  {
    WorkIsNonNegative(cfg, w.runs);
    if ls != [] {
      NextControl(cfg, w, ls[0]);
      NextWork(cfg, w, ls[0]);
      RunsTerminate(cfg, Next(cfg, w, ls[0]), ls[1..]);
    }
  }
}
