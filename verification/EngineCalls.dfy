/**
 * The order of one run's calls: nothing merges on red, every merge belongs to
 * the proposal just opened, and the host waits for the merge.
 */
module EngineCalls {
  import opened Options
  import opened Digests
  import opened Journals
  import opened Engine
  import opened EngineControl

  /** Whose proposal is open: the undo flag of the latest Opened. */
  function SpanOf(calls: Calls): Option<bool> {
    match calls
    case NoCalls => None
    case Then(before, c) => if c.Opened? then Some(c.undo) else SpanOf(before)
  }

  /** Merges tried since a proposal was last opened. */
  function MergesTried(calls: Calls): nat {
    match calls
    case NoCalls => 0
    case Then(before, c) => if c.Opened? then 0 else MergesTried(before) + if c.MergeTried? then 1 else 0
  }

  predicate HasProposed(calls: Calls) {
    calls.Then? && ((calls.call.Opened? && !calls.call.undo) || HasProposed(calls.before))
  }

  /** When a call may follow the calls before it. */
  predicate Allowed(before: Calls, c: Call) {
    match c
    case MergeTried(undo, _) =>
      && before.Then? && before.call == Checked(true)
      && SpanOf(before) == Some(undo)
      && MergesTried(before) < MERGE_ATTEMPTS
    case Applied(_, _) => HasProposed(before) ==> before.Has(MergeTried(false, true))
    case _ => true
  }

  predicate Disciplined(calls: Calls) {
    calls.Then? ==> Allowed(calls.before, calls.call) && Disciplined(calls.before)
  }

  /** What a run's place says about its calls so far. */
  ghost predicate CallsInPlace(r: Run) {
    var calls := r.did.calls;
    && Disciplined(calls)
    && (HasProposed(calls) ==> r.did.proposed)
    && (r.did.merged ==> r.did.proposed && calls.Has(MergeTried(false, true)))
    && (BeforeProposal(r) ==> !r.did.proposed && !r.did.merged)
    && (r.did.proposed && PastMerge(r) ==> r.did.merged)
    && (r.at.pc.RecordPR? || InLoop(r.at.pc) ==> SpanOf(calls) == Some(r.at.undo))
    && ((r.at.pc.RecordPR? || InLoop(r.at.pc)) && !r.at.undo ==> r.did.proposed)
    && (r.at.pc.RecordPR? ==> MergesTried(calls) == 0)
    && (InLoop(r.at.pc) ==> MergesTried(calls) == r.at.attempt - if r.at.pc.Updating? then 0 else 1)
    && (r.at.pc.Merging? ==> calls.Then? && calls.call == Checked(true))
  }

  /** Places no forward proposal has been opened before; a converge opens none at all. */
  predicate BeforeProposal(r: Run) {
    || PreLock(r.at.pc) || r.at.pc.FrontRead? || r.at.pc.Inspect? || r.req.action == Converge
    || (!r.at.undo && (r.at.pc.WaitMerge? || r.at.pc.Opening?))
  }

  /** Places a run that proposed reaches only through its own successful merge. */
  predicate PastMerge(r: Run) {
    || r.at.undo || OnHost(r.at.pc) || r.at.pc.Restoring?
    || r.at.pc.RecordMerge? || r.at.pc.Announce? || r.at.pc.ApplySync? || r.at.pc.ApplyRead?
  }

  /** At most one call more; and one about a proposal only inside the merge span. */
  predicate OneCallMore(r: Run, calls: Calls) {
    || calls == r.did.calls
    || (calls.Then? && calls.before == r.did.calls
        && (calls.call.Opened? || calls.call.BranchUpdated? || calls.call.MergeTried? ==> InSpan(r.at.pc)))
  }

  /** What a run merged or reverted stays on record, and so does the content it did that with. */
  predicate KeepsContent(r: Run, r': Run) {
    && r'.req.service == r.req.service
    && (r.did.merged ==> r'.did.merged) && (r.did.reverted ==> r'.did.reverted)
    && (r.did.merged || r.did.reverted ==>
          r'.req.originalRaw == r.req.originalRaw && r'.req.newContent == r.req.newContent)
  }

  ghost predicate Called(r: Run, r': Run) {
    CallsInPlace(r') && OneCallMore(r, r'.did.calls) && KeepsContent(r, r')
  }

  ghost predicate Calling(cfg: Config, r: Run) {
    CallsInPlace(r) && Control(cfg, r)
  }

  lemma QueueCalls(cfg: Config, sh: Shared, id: nat, r: Run, e: Env)
    requires Calling(cfg, r) && (r.at.pc.Begun? || r.at.pc.ClickSync? || r.at.pc.WaitService? || r.at.pc.WaitMerge?)
    ensures Called(r, QueueStep(sh, id, r, e).run)
  {
  }

  lemma FrontCalls(cfg: Config, sh: Shared, id: nat, r: Run, e: Env)
    requires Calling(cfg, r) && (r.at.pc.FrontRead? || r.at.pc.Inspect?)
    ensures Called(r, FrontStep(cfg, sh, id, r, e).run)
  {
  }

  lemma OpeningCalls(cfg: Config, sh: Shared, id: nat, r: Run, e: Env)
    requires Calling(cfg, r)
    requires r.at.pc.Opening?
    ensures Called(r, ProposeStep(sh, id, r, e).run)
  {
    if e.ok {} else {}
  }

  lemma RecordPRCalls(cfg: Config, sh: Shared, id: nat, r: Run, e: Env)
    requires Calling(cfg, r)
    requires r.at.pc.RecordPR?
    ensures Called(r, ProposeStep(sh, id, r, e).run)
  {
  }

  lemma PassedCalls(cfg: Config, sh: Shared, id: nat, r: Run, e: Env)
    requires Calling(cfg, r)
    requires r.at.pc.Checking? && e.ok
    ensures Called(r, CheckStep(sh, id, r, e).run)
  {
  }

  lemma FailedCalls(cfg: Config, sh: Shared, id: nat, r: Run, e: Env)
    requires Calling(cfg, r)
    requires r.at.pc.Checking? && !e.ok
    ensures Called(r, CheckStep(sh, id, r, e).run)
  {
    if r.at.undo {} else {}
  }

  lemma CheckingCalls(cfg: Config, sh: Shared, id: nat, r: Run, e: Env)
    requires Calling(cfg, r)
    requires r.at.pc.Checking?
    ensures Called(r, CheckStep(sh, id, r, e).run)
  {
    if e.ok { PassedCalls(cfg, sh, id, r, e); } else { FailedCalls(cfg, sh, id, r, e); }
  }

  lemma RetriedCalls(cfg: Config, sh: Shared, id: nat, r: Run, e: Env)
    requires Calling(cfg, r)
    requires r.at.pc.Updating? && CheckStep(sh, id, r, e).run.at.pc.Checking?
    ensures Called(r, CheckStep(sh, id, r, e).run)
  {
  }

  lemma GivenUpCalls(cfg: Config, sh: Shared, id: nat, r: Run, e: Env)
    requires Calling(cfg, r)
    requires r.at.pc.Updating? && !CheckStep(sh, id, r, e).run.at.pc.Checking?
    ensures Called(r, CheckStep(sh, id, r, e).run)
  {
  }

  lemma UpdatingCalls(cfg: Config, sh: Shared, id: nat, r: Run, e: Env)
    requires Calling(cfg, r)
    requires r.at.pc.Updating?
    ensures Called(r, CheckStep(sh, id, r, e).run)
  {
    if CheckStep(sh, id, r, e).run.at.pc.Checking? {
      RetriedCalls(cfg, sh, id, r, e);
    } else {
      GivenUpCalls(cfg, sh, id, r, e);
    }
  }

  lemma LandedCalls(cfg: Config, sh: Shared, id: nat, r: Run, e: Env)
    requires Calling(cfg, r) && r.at.pc.Merging?
    requires e.ok
    ensures Called(r, LandStep(sh, id, r, e).run)
  {
  }

  lemma RefusedCalls(cfg: Config, sh: Shared, id: nat, r: Run, e: Env)
    requires Calling(cfg, r) && r.at.pc.Merging?
    requires !e.ok
    ensures Called(r, LandStep(sh, id, r, e).run)
  {
  }

  lemma LandCalls(cfg: Config, sh: Shared, id: nat, r: Run, e: Env)
    requires Calling(cfg, r) && r.at.pc.Merging?
    ensures Called(r, LandStep(sh, id, r, e).run)
  {
    if e.ok { LandedCalls(cfg, sh, id, r, e); } else { RefusedCalls(cfg, sh, id, r, e); }
  }

  lemma MergedCalls(cfg: Config, sh: Shared, id: nat, r: Run, e: Env)
    requires Calling(cfg, r) && (r.at.pc.Closing? || r.at.pc.RecordMerge?)
    ensures Called(r, MergedStep(sh, id, r, e).run)
  {
  }

  lemma PullCalls(cfg: Config, sh: Shared, id: nat, r: Run, e: Env)
    requires Calling(cfg, r) && (r.at.pc.Announce? || r.at.pc.ApplySync? || r.at.pc.ApplyRead?)
    ensures Called(r, PullStep(cfg, sh, id, r, e).run)
  {
  }

  lemma ConvergeCalls(cfg: Config, sh: Shared, id: nat, r: Run, e: Env)
    requires Calling(cfg, r) && (r.at.pc.ConvergeSync? || r.at.pc.ConvergeRead?)
    ensures Called(r, ConvergeStep(cfg, sh, id, r, e).run)
  {
  }

  lemma WriteCalls(cfg: Config, sh: Shared, id: nat, r: Run, e: Env)
    requires Calling(cfg, r) && r.at.pc.Applying?
    ensures Called(r, WriteStep(cfg, sh, id, r, e).run)
  {
  }

  lemma RestartingCalls(cfg: Config, sh: Shared, id: nat, r: Run, e: Env)
    requires Calling(cfg, r)
    requires r.at.pc.Restarting?
    ensures Called(r, ProbeStep(sh, id, r, e).run)
  {
  }

  lemma ProbingHostCalls(cfg: Config, sh: Shared, id: nat, r: Run, e: Env)
    requires Calling(cfg, r)
    requires r.at.pc.ProbingHost?
    ensures Called(r, ProbeStep(sh, id, r, e).run)
  {
  }

  lemma UndoCalls(cfg: Config, sh: Shared, id: nat, r: Run, e: Env)
    requires Calling(cfg, r) && (r.at.pc.Restoring? || r.at.pc.RevertTop? || r.at.pc.RevertBackoff?)
    ensures Called(r, UndoStep(cfg, sh, id, r, e).run)
  {
  }

  lemma FinishingCalls(cfg: Config, sh: Shared, id: nat, r: Run, e: Env)
    requires Calling(cfg, r)
    requires r.at.pc.Finishing?
    ensures Called(r, EndStep(sh, id, r, e).run)
  {
  }

  lemma ReleasingCalls(cfg: Config, sh: Shared, id: nat, r: Run, e: Env)
    requires Calling(cfg, r)
    requires r.at.pc.Releasing?
    ensures Called(r, EndStep(sh, id, r, e).run)
  {
  }

  lemma LeavingCalls(cfg: Config, sh: Shared, id: nat, r: Run, e: Env)
    requires Calling(cfg, r)
    requires r.at.pc.Leaving?
    ensures Called(r, EndStep(sh, id, r, e).run)
  {
  }

  lemma MainwardCalls(cfg: Config, sh: Shared, id: nat, r: Run, e: Env)
    requires Calling(cfg, r) && Mainward(r.at.pc)
    ensures Called(r, Act(cfg, sh, id, r, e).run)
  {
    match r.at.pc
    case Begun | ClickSync | WaitService | WaitMerge => QueueCalls(cfg, sh, id, r, e);
    case FrontRead | Inspect => FrontCalls(cfg, sh, id, r, e);
    case Opening => OpeningCalls(cfg, sh, id, r, e);
    case RecordPR => RecordPRCalls(cfg, sh, id, r, e);
    case Checking => CheckingCalls(cfg, sh, id, r, e);
    case Updating => UpdatingCalls(cfg, sh, id, r, e);
    case Merging => LandCalls(cfg, sh, id, r, e);
    case Closing | RecordMerge => MergedCalls(cfg, sh, id, r, e);
  }

  lemma HostwardCalls(cfg: Config, sh: Shared, id: nat, r: Run, e: Env)
    requires Calling(cfg, r) && !Mainward(r.at.pc) && !IsOver(r.at.pc)
    ensures Called(r, Act(cfg, sh, id, r, e).run)
  {
    match r.at.pc
    case Announce | ApplySync | ApplyRead => PullCalls(cfg, sh, id, r, e);
    case ConvergeSync | ConvergeRead => ConvergeCalls(cfg, sh, id, r, e);
    case Applying => WriteCalls(cfg, sh, id, r, e);
    case Restarting => RestartingCalls(cfg, sh, id, r, e);
    case ProbingHost => ProbingHostCalls(cfg, sh, id, r, e);
    case Restoring | RevertTop | RevertBackoff => UndoCalls(cfg, sh, id, r, e);
    case Finishing(_) => FinishingCalls(cfg, sh, id, r, e);
    case Releasing => ReleasingCalls(cfg, sh, id, r, e);
    case Leaving => LeavingCalls(cfg, sh, id, r, e);
  }

  lemma StepCalls(cfg: Config, sh: Shared, id: nat, r: Run, e: Env)
    requires Calling(cfg, r) && !IsOver(r.at.pc)
    ensures Called(r, Act(cfg, sh, id, r, e).run)
  {
    if Mainward(r.at.pc) { MainwardCalls(cfg, sh, id, r, e); } else { HostwardCalls(cfg, sh, id, r, e); }
  }
}
