/**
 * How runs end: whatever a deploy or rollback began and could not finish is
 * undone, a converge ends as its probe did, and what a run was last heard to say
 * is what it is doing.
 */
module EngineEndings {
  import opened Options
  import opened Digests
  import opened Journals
  import opened Engine
  import opened EngineControl
  import opened EngineReceipts
  import opened EngineHost
  import opened EngineTargets
  import opened EngineRuns
  import opened EngineTheorems

  // ---- What a history of calls shows ------------------------------------------------

  /** The host was inspected or given the change. */
  predicate Tried(calls: Calls) {
    calls.Then? && (calls.call.Inspected? || (calls.call.Applied? && !calls.call.undo) || Tried(calls.before))
  }

  /** A restore was given to the applier. */
  predicate Restored(calls: Calls) {
    calls.Then? && ((calls.call.Applied? && calls.call.undo) || Restored(calls.before))
  }

  /** The one restore, of these bytes, was probed healthy. */
  predicate RestoredWell(calls: Calls, raw: Bytes) {
    && calls.Then?
    && if calls.call == Probed(true) && calls.before.Then? && calls.before.call == Applied(true, raw)
       then !Restored(calls.before.before)
       else !(calls.call.Applied? && calls.call.undo) && RestoredWell(calls.before, raw)
  }

  /** The one restore, of these bytes, is the last thing tried on the host, and was not probed healthy. */
  predicate RestoreFailed(calls: Calls, raw: Bytes) {
    && calls.Then?
    && var tried := if calls.call == Probed(false) then calls.before else calls;
       tried.Then? && tried.call == Applied(true, raw) && !Restored(tried.before)
  }

  /** The merge was recorded, the host inspected or the change applied: from here on a failure is undone. */
  predicate Began(did: Deeds) {
    Merged in did.events || Tried(did.calls)
  }

  // ---- What a place shows -----------------------------------------------------------

  /** From the recorded merge, or the pin found on main, to a healthy host. */
  predicate Rolling(r: Run) {
    && !r.at.undo
    && (r.at.pc.Announce? || r.at.pc.ApplySync? || r.at.pc.ApplyRead? || OnHost(r.at.pc) || r.at.pc.Restoring?)
  }

  /** How a deploy or rollback can end in each of the three ways. */
  predicate EndsAs(r: Run, final: State) {
    && (final.Healthy? || final.RolledBack? || final.Failed?)
    && (r.at.undo || final.Healthy? <==> Began(r.did))
    && (r.at.undo <==> Restored(r.did.calls))
    && (r.at.undo ==>
          && !final.Healthy?
          && if final.RolledBack? then Reverted(r) else RestoreFailed(r.did.calls, r.req.originalRaw))
    && (final.RolledBack? ==> r.at.undo)
  }

  /** The restored file was healthy and has been proposed. */
  predicate Reverted(r: Run) {
    RestoredWell(r.did.calls, r.req.originalRaw) && r.did.calls.Has(Opened(true, r.req.originalRaw))
  }

  /** How a converge can end: healthy exactly when its one apply was probed so. */
  predicate ConvergeEndsAs(calls: Calls, final: State) {
    match calls
    case NoCalls => final == Failed
    case Then(NoCalls, Applied(undo, _)) => final == Failed && !undo
    case Then(Then(NoCalls, Applied(undo, _)), Probed(healthy)) =>
      final == (if healthy then Healthy else Failed) && !undo
    case _ => false
  }

  ghost predicate Undoing(r: Run) {
    var (calls, raw) := (r.did.calls, r.req.originalRaw);
    && (Mainward(r.at.pc) && !r.at.undo ==> !Began(r.did) && !Restored(calls))
    && (Rolling(r) ==> Began(r.did) && !Restored(calls))
    && (r.at.undo && r.at.pc.Applying? ==> Began(r.did) && !Restored(calls))
    && (r.at.undo && (r.at.pc.Restarting? || r.at.pc.ProbingHost?) ==>
          Began(r.did) && RestoreFailed(calls, raw) && calls.call.Applied?)
    && (Reverting(r) ==> Began(r.did) && RestoredWell(calls, raw) && Restored(calls))
    && (r.at.undo && (InLoop(r.at.pc) || r.at.pc.RevertBackoff?) ==> calls.Has(Opened(true, raw)))
    && (r.at.pc.Finishing? ==> EndsAs(r, r.at.pc.final))
    && (r.at.pc.Releasing? || r.at.pc.Leaving? || r.at.pc.Gone? ==>
          r.did.events != [] && EndsAs(r, r.did.events[|r.did.events| - 1]))
  }

  ghost predicate Converging(r: Run) {
    && (!OnHost(r.at.pc) && !r.at.pc.Finishing? && !AfterReceipt(r.at.pc) ==> r.did.calls == NoCalls)
    && (r.at.pc.Applying? ==> r.did.calls == NoCalls)
    && (r.at.pc.Restarting? || r.at.pc.ProbingHost? ==> r.did.calls == Then(NoCalls, Applied(false, r.at.target)))
    && (r.at.pc.Finishing? ==> ConvergeEndsAs(r.did.calls, r.at.pc.final))
    && (r.at.pc.Releasing? || r.at.pc.Leaving? || r.at.pc.Gone? ==>
          r.did.events != [] && ConvergeEndsAs(r.did.calls, r.did.events[|r.did.events| - 1]))
  }

  /** What the last event of an unfinished run can be, by where it stands. */
  predicate Says(r: Run, said: State) {
    match r.at.pc
    case ClickSync | WaitService | FrontRead | Inspect | RecordPR | ConvergeSync | ConvergeRead => said == Detected
    case WaitMerge | Opening => said == if r.at.undo then Reconciling else Detected
    case Checking => said == if r.at.attempt > 1 then Checks else if r.at.undo then Reconciling else PrOpen
    case Merging | Updating | Closing | RecordMerge => said == Checks
    case Announce => said == Merged
    case ApplySync | ApplyRead | Applying | Restarting => said == Reconciling
    case ProbingHost => said == Probing
    case Restoring => said == Reconciling || said == Probing
    case RevertTop => said == Probing || said == Reconciling || said == Checks
    case RevertBackoff => said == Reconciling || said == Checks
    case _ => true
  }

  ghost predicate Saying(r: Run) {
    if r.at.pc.Begun? then r.did.events == []
    else
      || AfterReceipt(r.at.pc) || r.at.pc.Finishing?
      || (r.did.events != [] && Says(r, r.did.events[|r.did.events| - 1]))
  }

  ghost predicate Ending(r: Run) {
    if r.req.action == Converge then Converging(r) else Undoing(r)
  }

  /** What the restore needs to be under way: a previous manifest that still parses, and nothing else to write. */
  ghost predicate Restorable(cfg: Config, r: Run) {
    && Control(cfg, r)
    && (r.req.action != Converge ==> cfg.parse(r.req.originalRaw).Some?)
    && (OnHost(r.at.pc) && r.at.undo ==> r.at.target == r.req.originalRaw)
  }

  ghost predicate Heading(cfg: Config, r: Run) {
    Restorable(cfg, r) && Ending(r)
  }

  // ---- One step --------------------------------------------------------------------

  lemma QueueSays(cfg: Config, sh: Shared, id: nat, r: Run, e: Env)
    requires Control(cfg, r) && Saying(r)
    requires r.at.pc.Begun? || r.at.pc.ClickSync? || r.at.pc.WaitService? || r.at.pc.WaitMerge?
    ensures Saying(QueueStep(sh, id, r, e).run)
  {
  }

  lemma FrontSays(cfg: Config, sh: Shared, id: nat, r: Run, e: Env)
    requires Control(cfg, r) && Saying(r) && (r.at.pc.FrontRead? || r.at.pc.Inspect?)
    ensures Saying(FrontStep(cfg, sh, id, r, e).run)
  {
  }

  lemma ProposeSays(cfg: Config, sh: Shared, id: nat, r: Run, e: Env)
    requires Control(cfg, r) && Saying(r) && (r.at.pc.Opening? || r.at.pc.RecordPR?)
    ensures Saying(ProposeStep(sh, id, r, e).run)
  {
  }

  lemma CheckingSays(cfg: Config, sh: Shared, id: nat, r: Run, e: Env)
    requires Control(cfg, r) && Saying(r) && r.at.pc.Checking?
    ensures Saying(CheckStep(sh, id, r, e).run)
  {
  }

  lemma UpdatingSays(cfg: Config, sh: Shared, id: nat, r: Run, e: Env)
    requires Control(cfg, r) && Saying(r) && r.at.pc.Updating?
    ensures Saying(CheckStep(sh, id, r, e).run)
  {
  }

  lemma LandSays(cfg: Config, sh: Shared, id: nat, r: Run, e: Env)
    requires Control(cfg, r) && Saying(r) && r.at.pc.Merging?
    ensures Saying(LandStep(sh, id, r, e).run)
  {
  }

  lemma MergedSays(cfg: Config, sh: Shared, id: nat, r: Run, e: Env)
    requires Control(cfg, r) && Saying(r) && (r.at.pc.Closing? || r.at.pc.RecordMerge?)
    ensures Saying(MergedStep(sh, id, r, e).run)
  {
  }

  lemma PullSays(cfg: Config, sh: Shared, id: nat, r: Run, e: Env)
    requires Control(cfg, r) && Saying(r) && (r.at.pc.Announce? || r.at.pc.ApplySync? || r.at.pc.ApplyRead?)
    ensures Saying(PullStep(cfg, sh, id, r, e).run)
  {
  }

  lemma ConvergeSays(cfg: Config, sh: Shared, id: nat, r: Run, e: Env)
    requires Control(cfg, r) && Saying(r) && (r.at.pc.ConvergeSync? || r.at.pc.ConvergeRead?)
    ensures Saying(ConvergeStep(cfg, sh, id, r, e).run)
  {
  }

  lemma WriteSays(cfg: Config, sh: Shared, id: nat, r: Run, e: Env)
    requires Control(cfg, r) && Saying(r) && r.at.pc.Applying?
    ensures Saying(WriteStep(cfg, sh, id, r, e).run)
  {
  }

  lemma ProbeSays(cfg: Config, sh: Shared, id: nat, r: Run, e: Env)
    requires Control(cfg, r) && Saying(r) && (r.at.pc.Restarting? || r.at.pc.ProbingHost?)
    ensures Saying(ProbeStep(sh, id, r, e).run)
  {
  }

  lemma UndoSays(cfg: Config, sh: Shared, id: nat, r: Run, e: Env)
    requires Control(cfg, r) && Saying(r) && (r.at.pc.Restoring? || r.at.pc.RevertTop? || r.at.pc.RevertBackoff?)
    ensures Saying(UndoStep(cfg, sh, id, r, e).run)
  {
  }

  lemma EndSays(cfg: Config, sh: Shared, id: nat, r: Run, e: Env)
    requires Control(cfg, r) && Saying(r) && (r.at.pc.Finishing? || r.at.pc.Releasing? || r.at.pc.Leaving?)
    ensures Saying(EndStep(sh, id, r, e).run)
  {
  }

  lemma QueueHeads(cfg: Config, sh: Shared, id: nat, r: Run, e: Env)
    requires Heading(cfg, r) && (r.at.pc.Begun? || r.at.pc.ClickSync? || r.at.pc.WaitService? || r.at.pc.WaitMerge?)
    ensures Ending(QueueStep(sh, id, r, e).run)
  {
  }

  lemma FrontHeads(cfg: Config, sh: Shared, id: nat, r: Run, e: Env)
    requires Heading(cfg, r) && (r.at.pc.FrontRead? || r.at.pc.Inspect?)
    ensures Ending(FrontStep(cfg, sh, id, r, e).run)
  {
  }

  lemma OpeningHeads(cfg: Config, sh: Shared, id: nat, r: Run, e: Env)
    requires Heading(cfg, r) && r.at.pc.Opening?
    ensures Ending(ProposeStep(sh, id, r, e).run)
  {
  }

  lemma RecordPRHeads(cfg: Config, sh: Shared, id: nat, r: Run, e: Env)
    requires Heading(cfg, r) && r.at.pc.RecordPR?
    ensures Ending(ProposeStep(sh, id, r, e).run)
  {
  }

  lemma CheckingHeads(cfg: Config, sh: Shared, id: nat, r: Run, e: Env)
    requires Heading(cfg, r) && r.at.pc.Checking?
    ensures Ending(CheckStep(sh, id, r, e).run)
  {
  }

  lemma UpdatingHeads(cfg: Config, sh: Shared, id: nat, r: Run, e: Env)
    requires Heading(cfg, r) && r.at.pc.Updating?
    ensures Ending(CheckStep(sh, id, r, e).run)
  {
  }

  lemma LandHeads(cfg: Config, sh: Shared, id: nat, r: Run, e: Env)
    requires Heading(cfg, r) && r.at.pc.Merging?
    ensures Ending(LandStep(sh, id, r, e).run)
  {
    if r.at.undo {} else {}
  }

  lemma MergedHeads(cfg: Config, sh: Shared, id: nat, r: Run, e: Env)
    requires Heading(cfg, r) && (r.at.pc.Closing? || r.at.pc.RecordMerge?)
    ensures Ending(MergedStep(sh, id, r, e).run)
  {
  }

  lemma PullHeads(cfg: Config, sh: Shared, id: nat, r: Run, e: Env)
    requires Heading(cfg, r) && (r.at.pc.Announce? || r.at.pc.ApplySync? || r.at.pc.ApplyRead?)
    ensures Ending(PullStep(cfg, sh, id, r, e).run)
  {
  }

  lemma ConvergeHeads(cfg: Config, sh: Shared, id: nat, r: Run, e: Env)
    requires Heading(cfg, r) && (r.at.pc.ConvergeSync? || r.at.pc.ConvergeRead?)
    ensures Ending(ConvergeStep(cfg, sh, id, r, e).run)
  {
  }

  lemma WriteHeads(cfg: Config, sh: Shared, id: nat, r: Run, e: Env)
    requires Heading(cfg, r) && r.at.pc.Applying?
    ensures Ending(WriteStep(cfg, sh, id, r, e).run)
  {
    if r.at.undo {} else {}
  }

  lemma RestartingHeads(cfg: Config, sh: Shared, id: nat, r: Run, e: Env)
    requires Heading(cfg, r) && r.at.pc.Restarting?
    ensures Ending(ProbeStep(sh, id, r, e).run)
  {
  }

  lemma ProbingHostHeads(cfg: Config, sh: Shared, id: nat, r: Run, e: Env)
    requires Heading(cfg, r) && r.at.pc.ProbingHost?
    ensures Ending(ProbeStep(sh, id, r, e).run)
  {
    if r.at.undo {} else {}
  }

  lemma UndoHeads(cfg: Config, sh: Shared, id: nat, r: Run, e: Env)
    requires Heading(cfg, r) && (r.at.pc.Restoring? || r.at.pc.RevertTop? || r.at.pc.RevertBackoff?)
    ensures Ending(UndoStep(cfg, sh, id, r, e).run)
  {
  }

  lemma EndHeads(cfg: Config, sh: Shared, id: nat, r: Run, e: Env)
    requires Heading(cfg, r) && (r.at.pc.Finishing? || r.at.pc.Releasing? || r.at.pc.Leaving?)
    ensures Ending(EndStep(sh, id, r, e).run)
  {
  }

  lemma MainwardSays(cfg: Config, sh: Shared, id: nat, r: Run, e: Env)
    requires Control(cfg, r) && Saying(r) && Mainward(r.at.pc)
    ensures Saying(Act(cfg, sh, id, r, e).run)
  {
    match r.at.pc
    case Begun | ClickSync | WaitService | WaitMerge => QueueSays(cfg, sh, id, r, e);
    case FrontRead | Inspect => FrontSays(cfg, sh, id, r, e);
    case Opening | RecordPR => ProposeSays(cfg, sh, id, r, e);
    case Checking => CheckingSays(cfg, sh, id, r, e);
    case Updating => UpdatingSays(cfg, sh, id, r, e);
    case Merging => LandSays(cfg, sh, id, r, e);
    case Closing | RecordMerge => MergedSays(cfg, sh, id, r, e);
  }

  lemma HostwardSays(cfg: Config, sh: Shared, id: nat, r: Run, e: Env)
    requires Control(cfg, r) && Saying(r) && !Mainward(r.at.pc) && !IsOver(r.at.pc)
    ensures Saying(Act(cfg, sh, id, r, e).run)
  {
    match r.at.pc
    case Announce | ApplySync | ApplyRead => PullSays(cfg, sh, id, r, e);
    case ConvergeSync | ConvergeRead => ConvergeSays(cfg, sh, id, r, e);
    case Applying => WriteSays(cfg, sh, id, r, e);
    case Restarting | ProbingHost => ProbeSays(cfg, sh, id, r, e);
    case Restoring | RevertTop | RevertBackoff => UndoSays(cfg, sh, id, r, e);
    case Finishing(_) | Releasing | Leaving => EndSays(cfg, sh, id, r, e);
  }

  lemma StepSays(cfg: Config, sh: Shared, id: nat, r: Run, e: Env)
    requires Control(cfg, r) && Saying(r) && !IsOver(r.at.pc)
    ensures Saying(Act(cfg, sh, id, r, e).run)
  {
    if Mainward(r.at.pc) { MainwardSays(cfg, sh, id, r, e); } else { HostwardSays(cfg, sh, id, r, e); }
  }

  lemma MainwardHeads(cfg: Config, sh: Shared, id: nat, r: Run, e: Env)
    requires Heading(cfg, r) && Mainward(r.at.pc)
    ensures Ending(Act(cfg, sh, id, r, e).run)
  {
    match r.at.pc
    case Begun | ClickSync | WaitService | WaitMerge => QueueHeads(cfg, sh, id, r, e);
    case FrontRead | Inspect => FrontHeads(cfg, sh, id, r, e);
    case Opening => OpeningHeads(cfg, sh, id, r, e);
    case RecordPR => RecordPRHeads(cfg, sh, id, r, e);
    case Checking => CheckingHeads(cfg, sh, id, r, e);
    case Updating => UpdatingHeads(cfg, sh, id, r, e);
    case Merging => LandHeads(cfg, sh, id, r, e);
    case Closing | RecordMerge => MergedHeads(cfg, sh, id, r, e);
  }

  lemma HostwardHeads(cfg: Config, sh: Shared, id: nat, r: Run, e: Env)
    requires Heading(cfg, r) && !Mainward(r.at.pc) && !IsOver(r.at.pc)
    ensures Ending(Act(cfg, sh, id, r, e).run)
  {
    match r.at.pc
    case Announce | ApplySync | ApplyRead => PullHeads(cfg, sh, id, r, e);
    case ConvergeSync | ConvergeRead => ConvergeHeads(cfg, sh, id, r, e);
    case Applying => WriteHeads(cfg, sh, id, r, e);
    case Restarting => RestartingHeads(cfg, sh, id, r, e);
    case ProbingHost => ProbingHostHeads(cfg, sh, id, r, e);
    case Restoring | RevertTop | RevertBackoff => UndoHeads(cfg, sh, id, r, e);
    case Finishing(_) | Releasing | Leaving => EndHeads(cfg, sh, id, r, e);
  }

  lemma StepHeads(cfg: Config, sh: Shared, id: nat, r: Run, e: Env)
    requires Heading(cfg, r) && !IsOver(r.at.pc)
    ensures Ending(Act(cfg, sh, id, r, e).run)
  {
    if Mainward(r.at.pc) { MainwardHeads(cfg, sh, id, r, e); } else { HostwardHeads(cfg, sh, id, r, e); }
  }

  // ---- Every label -------------------------------------------------------------------

  ghost predicate AllStraight(runs: seq<Run>) {
    forall i :: 0 <= i < |runs| ==> Saying(runs[i]) && Ending(runs[i])
  }

  lemma TargetsRestore(cfg: Config, held: set<(string, Bytes)>, r: Run)
    requires Control(cfg, r) && Targets(cfg, held, r)
    ensures Restorable(cfg, r)
  {
  }

  lemma SteppingStraight(cfg: Config, w: World, id: nat, e: Env)
    requires AllStraight(w.runs) && id < |w.runs| && !IsOver(w.runs[id].at.pc)
    requires Control(cfg, w.runs[id]) && Targets(cfg, w.sh.git.held, w.runs[id])
    ensures AllStraight(w.runs[id := Act(cfg, w.sh, id, w.runs[id], e).run])
  {
    TargetsRestore(cfg, w.sh.git.held, w.runs[id]);
    StepSays(cfg, w.sh, id, w.runs[id], e);
    StepHeads(cfg, w.sh, id, w.runs[id], e);
  }

  lemma KilledStraight(runs: seq<Run>)
    requires AllStraight(runs)
    ensures AllStraight(KillAll(runs))
  {
    forall i | 0 <= i < |runs| ensures Saying(KillAll(runs)[i]) && Ending(KillAll(runs)[i]) {
      assert KillAll(runs)[i] == Kill(runs[i]);
    }
  }

  lemma QuietStraight(cfg: Config, w: World, l: Label)
    requires AllStraight(w.runs) && Legal(w, l) && !l.Stepping?
    ensures AllStraight(Quiet(cfg, w, l).runs)
  {
    match l
    case Stepping(_, _) => {}
    case Registering(ask, recordOk, now) => assert Saying(NewRun(ask)) && Ending(NewRun(ask));
    case Crashing => KilledStraight(w.runs);
    case _ => assert Quiet(cfg, w, l).runs == w.runs;
  }

  lemma NextStraight(cfg: Config, w: World, l: Label)
    requires AllStraight(w.runs) && Legal(w, l) && AllTargets(cfg, w.sh.git, w.runs)
    requires forall i :: 0 <= i < |w.runs| ==> Control(cfg, w.runs[i])
    ensures AllStraight(Next(cfg, w, l).runs)
  {
    if l.Stepping? { SteppingStraight(cfg, w, l.id, l.env); } else { QuietStraight(cfg, w, l); }
  }

  lemma {:induction false} ExecStraight(cfg: Config, w: World, ls: seq<Label>)
    requires cfg.revertAttempts >= 1 && Inv(cfg, w) && AllStraight(w.runs) && LegalTrace(cfg, w, ls)
    ensures AllStraight(Exec(cfg, w, ls).runs)
    decreases |ls|
  {
    if ls != [] {
      NextInv(cfg, w, ls[0]);
      NextStraight(cfg, w, ls[0]);
      ExecStraight(cfg, Next(cfg, w, ls[0]), ls[1..]);
    }
  }

  lemma ReachableStraight(cfg: Config, w: World)
    requires cfg.revertAttempts >= 1 && Reachable(cfg, w)
    ensures AllStraight(w.runs)
  {
    var w0, ls :| Fresh(w0) && LegalTrace(cfg, w0, ls) && Exec(cfg, w0, ls) == w;
    FreshInv(cfg, w0);
    ExecStraight(cfg, w0, ls);
  }

  // ---- The theorems ------------------------------------------------------------------

  lemma {:induction false} AppliedWasTried(calls: Calls, raw: Bytes)
    requires calls.Has(Applied(false, raw))
    ensures Tried(calls)
  {
    if calls.call != Applied(false, raw) { AppliedWasTried(calls.before, raw); }
  }

  lemma {:induction false} FailedRestoreIsNotWell(calls: Calls, raw: Bytes)
    requires RestoreFailed(calls, raw)
    ensures !RestoredWell(calls, raw) && calls.Has(Applied(true, raw))
  {
  }

  lemma {:induction false} NoneRestoredIsNotWell(calls: Calls, raw: Bytes)
    requires !Restored(calls)
    ensures !RestoredWell(calls, raw)
  {
    if calls.Then? { NoneRestoredIsNotWell(calls.before, raw); }
  }

  lemma {:induction false} WellWasRestored(calls: Calls, raw: Bytes)
    requires RestoredWell(calls, raw)
    ensures calls.Has(Applied(true, raw))
  {
    if !(calls.call == Probed(true) && calls.before.Then? && calls.before.call == Applied(true, raw)) {
      WellWasRestored(calls.before, raw);
    }
  }

  /**
   * Every failure is undone: a deploy or rollback past its receipt that recorded
   * its merge, inspected the host or applied its change either ended healthy or
   * entered the rollback, and no other run did. In the rollback it gave the
   * applier its restore point, and it ended rolled back exactly when that was
   * probed healthy, having opened a revert with the very same bytes; else the
   * restore was the last thing it tried and failed.
   */
  lemma FailuresAreUndone(cfg: Config, w: World, id: nat)
    requires cfg.revertAttempts >= 1 && Reachable(cfg, w) && id < |w.runs| && w.runs[id].req.action != Converge
    requires AfterReceipt(w.runs[id].at.pc) && !w.runs[id].at.pc.Killed?
    ensures var (calls, raw) := (w.runs[id].did.calls, w.runs[id].req.originalRaw);
            && Outcome(w.runs[id]).Some?
            && var final := Outcome(w.runs[id]).value;
               && (final == Healthy || final == RolledBack || final == Failed)
               && (w.runs[id].at.undo <==> Began(w.runs[id].did) && final != Healthy)
               && (w.runs[id].at.undo ==> calls.Has(Applied(true, raw)))
               && (w.runs[id].at.undo && final == Failed ==> RestoreFailed(calls, raw))
               && (final == RolledBack <==> RestoredWell(calls, raw))
               && (final == RolledBack ==> calls.Has(Opened(true, raw)))
    ensures forall raw :: w.runs[id].did.calls.Has(Applied(false, raw)) ==> Began(w.runs[id].did)
  {
    ReachableStraight(cfg, w);
    var r := w.runs[id];
    assert Ending(r);
    if r.at.undo {
      if Outcome(r) == Some(RolledBack) {
        WellWasRestored(r.did.calls, r.req.originalRaw);
      } else {
        FailedRestoreIsNotWell(r.did.calls, r.req.originalRaw);
      }
    } else {
      NoneRestoredIsNotWell(r.did.calls, r.req.originalRaw);
    }
    forall raw | r.did.calls.Has(Applied(false, raw)) ensures Began(r.did) { AppliedWasTried(r.did.calls, raw); }
  }

  /**
   * A converge opens, merges and restores nothing: it fails before it applied
   * anything, or applies one manifest, and is healthy exactly when that was
   * probed healthy.
   */
  lemma ConvergeEndsAsProbed(cfg: Config, w: World, id: nat)
    requires cfg.revertAttempts >= 1 && Reachable(cfg, w) && id < |w.runs| && w.runs[id].req.action == Converge
    requires AfterReceipt(w.runs[id].at.pc) && !w.runs[id].at.pc.Killed?
    ensures var calls := w.runs[id].did.calls;
            || (Outcome(w.runs[id]) == Some(Failed) && calls == NoCalls)
            || (exists raw :: Outcome(w.runs[id]) == Some(Failed) && calls == Then(NoCalls, Applied(false, raw)))
            || (exists raw, healthy :: calls == Then(Then(NoCalls, Applied(false, raw)), Probed(healthy))
                  && Outcome(w.runs[id]) == Some(if healthy then Healthy else Failed))
  {
    ReachableStraight(cfg, w);
    assert Ending(w.runs[id]);
  }

  /** What an unfinished run was last heard to say tells what it is doing; one just registered has said nothing. */
  lemma LastEventTellsThePlace(cfg: Config, w: World, id: nat)
    requires cfg.revertAttempts >= 1 && Reachable(cfg, w) && id < |w.runs|
    requires !w.runs[id].at.pc.Finishing? && !AfterReceipt(w.runs[id].at.pc)
    ensures var events := w.runs[id].did.events;
            if w.runs[id].at.pc.Begun? then events == []
            else events != [] && Says(w.runs[id], events[|events| - 1])
  {
    ReachableStraight(cfg, w);
    assert Saying(w.runs[id]);
  }
}
