/**
 * Rows and events: every journalled run has one receipt, and a healthy one is
 * backed by what that run saw.
 */
module EngineReceipts {
  import opened Options
  import opened Journals
  import opened Engine

  ghost predicate NoReceipt(events: seq<State>) {
    forall k :: 0 <= k < |events| ==> !events[k].IsTerminal()
  }

  /** Exactly one terminal event, and it is the last. */
  ghost predicate OneReceipt(events: seq<State>) {
    |events| > 0 && events[|events| - 1].IsTerminal() && NoReceipt(events[..|events| - 1])
  }

  /** What a run's row and events say about each other; closed tells whether start-up closed the row. */
  ghost predicate Receipts(row: Row, closed: bool, r: Run) {
    && row.service == r.req.service && row.action == r.req.action && row.newDigest == r.req.newDigest
    && (row.state.IsTerminal() <==> row.IsFinished())
    && (r.at.pc.Finishing? ==> r.at.pc.final.IsTerminal())
    && (!AfterReceipt(r.at.pc) ==> !row.IsFinished() && NoReceipt(r.did.events))
    && (AfterReceipt(r.at.pc) && !r.at.pc.Killed? ==> OneReceipt(r.did.events))
    && (r.at.pc.Killed? ==> NoReceipt(r.did.events) || OneReceipt(r.did.events))
    && (row.IsFinished() && !closed ==> OneReceipt(r.did.events) && row.state == r.did.events[|r.did.events| - 1])
    && (closed ==> row.IsFinished() && row.state == Failed && IsOver(r.at.pc))
  }

  /** The call just made showed a digest healthy: applied and probed by this run, or reported running. */
  ghost predicate Evidence(cfg: Config, calls: Calls, digest: string) {
    && calls.Then?
    && match calls.call
       case Inspected(running) => running == Some(digest)
       case Probed(healthy) =>
         && healthy && calls.before.Then? && calls.before.call.Applied? && !calls.before.call.undo
         && cfg.parse(calls.before.call.raw).Some? && cfg.parse(calls.before.call.raw).value.digest == digest
       case _ => false
  }

  /** A healthy receipt names a digest this run applied with a passing probe or saw running. */
  ghost predicate Backed(cfg: Config, r: Run) {
    && (r.at.pc == Finishing(Healthy) || Healthy in r.did.events ==> Evidence(cfg, r.did.calls, r.req.newDigest))
    && (OnHost(r.at.pc) && !r.at.undo ==>
          cfg.parse(r.at.target).Some? && cfg.parse(r.at.target).value.digest == r.req.newDigest)
    && (r.at.pc.Restarting? || r.at.pc.ProbingHost? ==>
          r.did.calls.Then? && r.did.calls.call == Applied(r.at.undo, r.at.target))
  }

  /** What one step leaves of the journal: only the run's own row moves, and a finished one not at all. */
  ghost predicate Recorded(sh: Shared, id: nat, a: After) {
    && |a.sh.rows| == |sh.rows|
    && (forall k :: 0 <= k < |sh.rows| && (k != id || sh.rows[k].IsFinished()) ==> a.sh.rows[k] == sh.rows[k])
    && id < |a.sh.rows| && Receipts(a.sh.rows[id], false, a.run)
  }

  /**
   * What one step writes into its run's row: the pull request and the merge
   * commit where these are recorded, the state it announces, and the receipt;
   * each as far as the journal takes the write, and nothing else but for a
   * converge that reads what main pins.
   */
  predicate Written(row: Row, now: Row, r: Run, e: Env, r': Run) {
    && now.service == row.service && now.action == row.action && now.startedAt == row.startedAt
    && now.prNumber == (if r.at.pc.RecordPR? && e.recordOk then r.req.prNumber else row.prNumber)
    && now.mergeSHA == (if r.at.pc.RecordMerge? && e.recordOk then e.text else row.mergeSHA)
    && (r'.req.newDigest == r.req.newDigest ==> now.oldDigest == row.oldDigest && now.newDigest == row.newDigest)
    && (r'.req.newDigest != r.req.newDigest ==> e.recordOk && now.oldDigest == now.newDigest == r'.req.newDigest)
    && (r'.did.events == r.did.events ==> now.state == row.state)
    && (r'.did.events != r.did.events ==>
          && |r'.did.events| == |r.did.events| + 1 && r'.did.events[..|r.did.events|] == r.did.events
          && now.state == if e.journalOk then r'.did.events[|r.did.events|] else row.state)
    && now.finishedAt == (if r.at.pc.Finishing? && e.journalOk then Some(e.now) else row.finishedAt)
  }

  predicate Writes(sh: Shared, id: nat, r: Run, e: Env, a: After) {
    id < |sh.rows| && id < |a.sh.rows| && Written(sh.rows[id], a.sh.rows[id], r, e, a.run)
  }

  ghost predicate Recording(sh: Shared, id: nat, r: Run) {
    id < |sh.rows| && Receipts(sh.rows[id], false, r)
  }

  ghost predicate Journalled(cfg: Config, sh: Shared, id: nat, a: After) {
    Recorded(sh, id, a) && Backed(cfg, a.run)
  }

  ghost predicate Journalling(cfg: Config, sh: Shared, id: nat, r: Run) {
    Recording(sh, id, r) && Backed(cfg, r) && !IsOver(r.at.pc)
  }

  lemma BegunRecords(sh: Shared, id: nat, r: Run, e: Env)
    requires Recording(sh, id, r) && r.at.pc.Begun?
    ensures Recorded(sh, id, QueueStep(sh, id, r, e)) && Writes(sh, id, r, e, QueueStep(sh, id, r, e))
  {
  }

  lemma ClickSyncRecords(sh: Shared, id: nat, r: Run, e: Env)
    requires Recording(sh, id, r) && r.at.pc.ClickSync?
    ensures Recorded(sh, id, QueueStep(sh, id, r, e)) && Writes(sh, id, r, e, QueueStep(sh, id, r, e))
  {
  }

  lemma WaitServiceRecords(sh: Shared, id: nat, r: Run, e: Env)
    requires Recording(sh, id, r) && r.at.pc.WaitService?
    ensures Recorded(sh, id, QueueStep(sh, id, r, e)) && Writes(sh, id, r, e, QueueStep(sh, id, r, e))
  {
  }

  lemma WaitMergeRecords(sh: Shared, id: nat, r: Run, e: Env)
    requires Recording(sh, id, r) && r.at.pc.WaitMerge?
    ensures Recorded(sh, id, QueueStep(sh, id, r, e)) && Writes(sh, id, r, e, QueueStep(sh, id, r, e))
  {
  }

  lemma FrontReadLeaves(cfg: Config, sh: Shared, id: nat, r: Run, e: Env)
    requires r.at.pc.FrontRead?
    ensures var a := FrontStep(cfg, sh, id, r, e);
            && a.sh.rows == sh.rows && a.run.did == r.did
            && a.run.req.service == r.req.service && a.run.req.action == r.req.action
            && a.run.req.newDigest == r.req.newDigest
            && (a.run.at.pc == Finishing(Failed) || a.run.at.pc == Inspect || a.run.at.pc == Opening)
  {
  }

  lemma FrontReadRecords(cfg: Config, sh: Shared, id: nat, r: Run, e: Env)
    requires Recording(sh, id, r) && r.at.pc.FrontRead?
    ensures Recorded(sh, id, FrontStep(cfg, sh, id, r, e)) && Writes(sh, id, r, e, FrontStep(cfg, sh, id, r, e))
  {
    FrontReadLeaves(cfg, sh, id, r, e);
  }

  lemma InspectRecords(cfg: Config, sh: Shared, id: nat, r: Run, e: Env)
    requires Recording(sh, id, r) && r.at.pc.Inspect?
    ensures Recorded(sh, id, FrontStep(cfg, sh, id, r, e)) && Writes(sh, id, r, e, FrontStep(cfg, sh, id, r, e))
  {
  }

  lemma OpeningRecords(sh: Shared, id: nat, r: Run, e: Env)
    requires Recording(sh, id, r) && r.at.pc.Opening?
    ensures Recorded(sh, id, ProposeStep(sh, id, r, e)) && Writes(sh, id, r, e, ProposeStep(sh, id, r, e))
  {
  }

  lemma RecordPRRecords(sh: Shared, id: nat, r: Run, e: Env)
    requires Recording(sh, id, r) && r.at.pc.RecordPR?
    ensures Recorded(sh, id, ProposeStep(sh, id, r, e)) && Writes(sh, id, r, e, ProposeStep(sh, id, r, e))
  {
  }

  lemma PassedRecords(sh: Shared, id: nat, r: Run, e: Env)
    requires Recording(sh, id, r) && r.at.pc.Checking? && e.ok
    ensures Recorded(sh, id, CheckStep(sh, id, r, e)) && Writes(sh, id, r, e, CheckStep(sh, id, r, e))
  {
  }

  lemma FailedRecords(sh: Shared, id: nat, r: Run, e: Env)
    requires Recording(sh, id, r) && r.at.pc.Checking? && !e.ok
    ensures Recorded(sh, id, CheckStep(sh, id, r, e)) && Writes(sh, id, r, e, CheckStep(sh, id, r, e))
  {
  }

  lemma CheckingRecords(sh: Shared, id: nat, r: Run, e: Env)
    requires Recording(sh, id, r) && r.at.pc.Checking?
    ensures Recorded(sh, id, CheckStep(sh, id, r, e)) && Writes(sh, id, r, e, CheckStep(sh, id, r, e))
  {
    if e.ok { PassedRecords(sh, id, r, e); } else { FailedRecords(sh, id, r, e); }
  }

  lemma UpdatingRecords(sh: Shared, id: nat, r: Run, e: Env)
    requires Recording(sh, id, r) && r.at.pc.Updating?
    ensures Recorded(sh, id, CheckStep(sh, id, r, e)) && Writes(sh, id, r, e, CheckStep(sh, id, r, e))
  {
  }

  lemma LandedRecords(sh: Shared, id: nat, r: Run, e: Env)
    requires Recording(sh, id, r) && r.at.pc.Merging? && e.ok
    ensures Recorded(sh, id, LandStep(sh, id, r, e)) && Writes(sh, id, r, e, LandStep(sh, id, r, e))
  {
  }

  lemma RefusedRecords(sh: Shared, id: nat, r: Run, e: Env)
    requires Recording(sh, id, r) && r.at.pc.Merging? && !e.ok
    ensures Recorded(sh, id, LandStep(sh, id, r, e)) && Writes(sh, id, r, e, LandStep(sh, id, r, e))
  {
  }

  lemma LandRecords(sh: Shared, id: nat, r: Run, e: Env)
    requires Recording(sh, id, r) && r.at.pc.Merging?
    ensures Recorded(sh, id, LandStep(sh, id, r, e)) && Writes(sh, id, r, e, LandStep(sh, id, r, e))
  {
    if e.ok { LandedRecords(sh, id, r, e); } else { RefusedRecords(sh, id, r, e); }
  }

  lemma ClosingRecords(sh: Shared, id: nat, r: Run, e: Env)
    requires Recording(sh, id, r) && r.at.pc.Closing?
    ensures Recorded(sh, id, MergedStep(sh, id, r, e)) && Writes(sh, id, r, e, MergedStep(sh, id, r, e))
  {
  }

  lemma UnnotedRecords(sh: Shared, id: nat, r: Run, e: Env)
    requires Recording(sh, id, r) && r.at.pc.RecordMerge? && !e.recordOk
    ensures Recorded(sh, id, MergedStep(sh, id, r, e)) && Writes(sh, id, r, e, MergedStep(sh, id, r, e))
  {
  }

  lemma NotedRecords(sh: Shared, id: nat, r: Run, e: Env)
    requires Recording(sh, id, r) && r.at.pc.RecordMerge? && e.recordOk
    ensures Recorded(sh, id, MergedStep(sh, id, r, e)) && Writes(sh, id, r, e, MergedStep(sh, id, r, e))
  {
  }

  lemma RecordMergeRecords(sh: Shared, id: nat, r: Run, e: Env)
    requires Recording(sh, id, r) && r.at.pc.RecordMerge?
    ensures Recorded(sh, id, MergedStep(sh, id, r, e)) && Writes(sh, id, r, e, MergedStep(sh, id, r, e))
  {
    if e.recordOk { NotedRecords(sh, id, r, e); } else { UnnotedRecords(sh, id, r, e); }
  }

  lemma AnnounceRecords(cfg: Config, sh: Shared, id: nat, r: Run, e: Env)
    requires Recording(sh, id, r) && r.at.pc.Announce?
    ensures Recorded(sh, id, PullStep(cfg, sh, id, r, e)) && Writes(sh, id, r, e, PullStep(cfg, sh, id, r, e))
  {
  }

  lemma ApplySyncRecords(cfg: Config, sh: Shared, id: nat, r: Run, e: Env)
    requires Recording(sh, id, r) && r.at.pc.ApplySync?
    ensures Recorded(sh, id, PullStep(cfg, sh, id, r, e)) && Writes(sh, id, r, e, PullStep(cfg, sh, id, r, e))
  {
  }

  lemma ApplyReadRecords(cfg: Config, sh: Shared, id: nat, r: Run, e: Env)
    requires Recording(sh, id, r) && r.at.pc.ApplyRead?
    ensures Recorded(sh, id, PullStep(cfg, sh, id, r, e)) && Writes(sh, id, r, e, PullStep(cfg, sh, id, r, e))
  {
  }

  lemma ConvergeSyncRecords(cfg: Config, sh: Shared, id: nat, r: Run, e: Env)
    requires Recording(sh, id, r) && r.at.pc.ConvergeSync?
    ensures Recorded(sh, id, ConvergeStep(cfg, sh, id, r, e)) && Writes(sh, id, r, e, ConvergeStep(cfg, sh, id, r, e))
  {
  }

  lemma UnsettledLeaves(cfg: Config, sh: Shared, id: nat, r: Run, e: Env)
    requires r.at.pc.ConvergeRead? && !ConvergeStep(cfg, sh, id, r, e).run.at.pc.Applying?
    ensures ConvergeStep(cfg, sh, id, r, e) == Goto(After(sh, r), Finishing(Failed))
  {
  }

  lemma UnsettledRecords(cfg: Config, sh: Shared, id: nat, r: Run, e: Env)
    requires Recording(sh, id, r) && r.at.pc.ConvergeRead?
    requires !ConvergeStep(cfg, sh, id, r, e).run.at.pc.Applying?
    ensures Recorded(sh, id, ConvergeStep(cfg, sh, id, r, e)) && Writes(sh, id, r, e, ConvergeStep(cfg, sh, id, r, e))
  {
    UnsettledLeaves(cfg, sh, id, r, e);
  }

  lemma SettledRecords(cfg: Config, sh: Shared, id: nat, r: Run, e: Env)
    requires Recording(sh, id, r) && r.at.pc.ConvergeRead?
    requires ConvergeStep(cfg, sh, id, r, e).run.at.pc.Applying?
    ensures Recorded(sh, id, ConvergeStep(cfg, sh, id, r, e)) && Writes(sh, id, r, e, ConvergeStep(cfg, sh, id, r, e))
  {
    if ConvergeStep(cfg, sh, id, r, e).run.req.newDigest == r.req.newDigest {} else {}
  }

  lemma ConvergeReadRecords(cfg: Config, sh: Shared, id: nat, r: Run, e: Env)
    requires Recording(sh, id, r) && r.at.pc.ConvergeRead?
    ensures Recorded(sh, id, ConvergeStep(cfg, sh, id, r, e)) && Writes(sh, id, r, e, ConvergeStep(cfg, sh, id, r, e))
  {
    if ConvergeStep(cfg, sh, id, r, e).run.at.pc.Applying? {
      SettledRecords(cfg, sh, id, r, e);
    } else {
      UnsettledRecords(cfg, sh, id, r, e);
    }
  }

  lemma WriteRecords(cfg: Config, sh: Shared, id: nat, r: Run, e: Env)
    requires Recording(sh, id, r) && r.at.pc.Applying?
    ensures Recorded(sh, id, WriteStep(cfg, sh, id, r, e)) && Writes(sh, id, r, e, WriteStep(cfg, sh, id, r, e))
  {
  }

  lemma RestartingRecords(sh: Shared, id: nat, r: Run, e: Env)
    requires Recording(sh, id, r) && r.at.pc.Restarting?
    ensures Recorded(sh, id, ProbeStep(sh, id, r, e)) && Writes(sh, id, r, e, ProbeStep(sh, id, r, e))
  {
  }

  lemma ProbingHostRecords(sh: Shared, id: nat, r: Run, e: Env)
    requires Recording(sh, id, r) && r.at.pc.ProbingHost?
    ensures Recorded(sh, id, ProbeStep(sh, id, r, e)) && Writes(sh, id, r, e, ProbeStep(sh, id, r, e))
  {
  }

  lemma RestoringRecords(cfg: Config, sh: Shared, id: nat, r: Run, e: Env)
    requires Recording(sh, id, r) && r.at.pc.Restoring?
    ensures Recorded(sh, id, UndoStep(cfg, sh, id, r, e)) && Writes(sh, id, r, e, UndoStep(cfg, sh, id, r, e))
  {
  }

  lemma RevertTopRecords(cfg: Config, sh: Shared, id: nat, r: Run, e: Env)
    requires Recording(sh, id, r) && r.at.pc.RevertTop?
    ensures Recorded(sh, id, UndoStep(cfg, sh, id, r, e)) && Writes(sh, id, r, e, UndoStep(cfg, sh, id, r, e))
  {
  }

  lemma RevertBackoffRecords(cfg: Config, sh: Shared, id: nat, r: Run, e: Env)
    requires Recording(sh, id, r) && r.at.pc.RevertBackoff?
    ensures Recorded(sh, id, UndoStep(cfg, sh, id, r, e)) && Writes(sh, id, r, e, UndoStep(cfg, sh, id, r, e))
  {
  }

  lemma EndRecords(sh: Shared, id: nat, r: Run, e: Env)
    requires Recording(sh, id, r) && (r.at.pc.Finishing? || r.at.pc.Releasing? || r.at.pc.Leaving?)
    ensures Recorded(sh, id, EndStep(sh, id, r, e)) && Writes(sh, id, r, e, EndStep(sh, id, r, e))
  {
  }

  lemma QueueBacks(cfg: Config, sh: Shared, id: nat, r: Run, e: Env)
    requires Backed(cfg, r) && NoReceipt(r.did.events)
    requires r.at.pc.Begun? || r.at.pc.ClickSync? || r.at.pc.WaitService? || r.at.pc.WaitMerge?
    ensures Backed(cfg, QueueStep(sh, id, r, e).run)
  {
  }

  lemma FrontBacks(cfg: Config, sh: Shared, id: nat, r: Run, e: Env)
    requires Backed(cfg, r) && NoReceipt(r.did.events) && (r.at.pc.FrontRead? || r.at.pc.Inspect?)
    ensures Backed(cfg, FrontStep(cfg, sh, id, r, e).run)
  {
  }

  lemma ProposeBacks(cfg: Config, sh: Shared, id: nat, r: Run, e: Env)
    requires Backed(cfg, r) && NoReceipt(r.did.events) && (r.at.pc.Opening? || r.at.pc.RecordPR?)
    ensures Backed(cfg, ProposeStep(sh, id, r, e).run)
  {
  }

  lemma CheckBacks(cfg: Config, sh: Shared, id: nat, r: Run, e: Env)
    requires Backed(cfg, r) && NoReceipt(r.did.events) && (r.at.pc.Checking? || r.at.pc.Updating?)
    ensures Backed(cfg, CheckStep(sh, id, r, e).run)
  {
  }

  lemma LandBacks(cfg: Config, sh: Shared, id: nat, r: Run, e: Env)
    requires Backed(cfg, r) && NoReceipt(r.did.events) && r.at.pc.Merging?
    ensures Backed(cfg, LandStep(sh, id, r, e).run)
  {
  }

  lemma MergedBacks(cfg: Config, sh: Shared, id: nat, r: Run, e: Env)
    requires Backed(cfg, r) && NoReceipt(r.did.events) && (r.at.pc.Closing? || r.at.pc.RecordMerge?)
    ensures Backed(cfg, MergedStep(sh, id, r, e).run)
  {
  }

  lemma PullBacks(cfg: Config, sh: Shared, id: nat, r: Run, e: Env)
    requires Backed(cfg, r) && NoReceipt(r.did.events)
    requires r.at.pc.Announce? || r.at.pc.ApplySync? || r.at.pc.ApplyRead?
    ensures Backed(cfg, PullStep(cfg, sh, id, r, e).run)
  {
  }

  lemma ConvergeBacks(cfg: Config, sh: Shared, id: nat, r: Run, e: Env)
    requires Backed(cfg, r) && NoReceipt(r.did.events) && (r.at.pc.ConvergeSync? || r.at.pc.ConvergeRead?)
    ensures Backed(cfg, ConvergeStep(cfg, sh, id, r, e).run)
  {
  }

  lemma WriteBacks(cfg: Config, sh: Shared, id: nat, r: Run, e: Env)
    requires Backed(cfg, r) && NoReceipt(r.did.events) && r.at.pc.Applying?
    ensures Backed(cfg, WriteStep(cfg, sh, id, r, e).run)
  {
  }

  lemma ProbeBacks(cfg: Config, sh: Shared, id: nat, r: Run, e: Env)
    requires Backed(cfg, r) && NoReceipt(r.did.events) && (r.at.pc.Restarting? || r.at.pc.ProbingHost?)
    ensures Backed(cfg, ProbeStep(sh, id, r, e).run)
  {
  }

  lemma UndoBacks(cfg: Config, sh: Shared, id: nat, r: Run, e: Env)
    requires Backed(cfg, r) && NoReceipt(r.did.events)
    requires r.at.pc.Restoring? || r.at.pc.RevertTop? || r.at.pc.RevertBackoff?
    ensures Backed(cfg, UndoStep(cfg, sh, id, r, e).run)
  {
  }

  lemma EndBacks(cfg: Config, sh: Shared, id: nat, r: Run, e: Env)
    requires Backed(cfg, r) && (r.at.pc.Finishing? ==> NoReceipt(r.did.events))
    requires r.at.pc.Finishing? || r.at.pc.Releasing? || r.at.pc.Leaving?
    ensures Backed(cfg, EndStep(sh, id, r, e).run)
  {
  }

  lemma StepReceipts(cfg: Config, sh: Shared, id: nat, r: Run, e: Env)
    requires Journalling(cfg, sh, id, r)
    ensures Journalled(cfg, sh, id, Act(cfg, sh, id, r, e)) && Writes(sh, id, r, e, Act(cfg, sh, id, r, e))
  {
    StepRecords(cfg, sh, id, r, e);
    StepBacks(cfg, sh, id, r, e);
  }

  lemma StepRecords(cfg: Config, sh: Shared, id: nat, r: Run, e: Env)
    requires Recording(sh, id, r) && !IsOver(r.at.pc)
    ensures Recorded(sh, id, Act(cfg, sh, id, r, e)) && Writes(sh, id, r, e, Act(cfg, sh, id, r, e))
  {
    match r.at.pc
    case Begun => BegunRecords(sh, id, r, e);
    case ClickSync => ClickSyncRecords(sh, id, r, e);
    case WaitService => WaitServiceRecords(sh, id, r, e);
    case WaitMerge => WaitMergeRecords(sh, id, r, e);
    case FrontRead => FrontReadRecords(cfg, sh, id, r, e);
    case Inspect => InspectRecords(cfg, sh, id, r, e);
    case Opening => OpeningRecords(sh, id, r, e);
    case RecordPR => RecordPRRecords(sh, id, r, e);
    case Checking => CheckingRecords(sh, id, r, e);
    case Updating => UpdatingRecords(sh, id, r, e);
    case Merging => LandRecords(sh, id, r, e);
    case Closing => ClosingRecords(sh, id, r, e);
    case RecordMerge => RecordMergeRecords(sh, id, r, e);
    case Announce => AnnounceRecords(cfg, sh, id, r, e);
    case ApplySync => ApplySyncRecords(cfg, sh, id, r, e);
    case ApplyRead => ApplyReadRecords(cfg, sh, id, r, e);
    case ConvergeSync => ConvergeSyncRecords(cfg, sh, id, r, e);
    case ConvergeRead => ConvergeReadRecords(cfg, sh, id, r, e);
    case Applying => WriteRecords(cfg, sh, id, r, e);
    case Restarting => RestartingRecords(sh, id, r, e);
    case ProbingHost => ProbingHostRecords(sh, id, r, e);
    case Restoring => RestoringRecords(cfg, sh, id, r, e);
    case RevertTop => RevertTopRecords(cfg, sh, id, r, e);
    case RevertBackoff => RevertBackoffRecords(cfg, sh, id, r, e);
    case Finishing(_) | Releasing | Leaving => EndRecords(sh, id, r, e);
    case Gone | Killed => {}
  }

  lemma StepBacks(cfg: Config, sh: Shared, id: nat, r: Run, e: Env)
    requires Backed(cfg, r) && (!AfterReceipt(r.at.pc) ==> NoReceipt(r.did.events)) && !IsOver(r.at.pc)
    ensures Backed(cfg, Act(cfg, sh, id, r, e).run)
  {
    match r.at.pc
    case Begun | ClickSync | WaitService | WaitMerge => QueueBacks(cfg, sh, id, r, e);
    case FrontRead | Inspect => FrontBacks(cfg, sh, id, r, e);
    case Opening | RecordPR => ProposeBacks(cfg, sh, id, r, e);
    case Checking | Updating => CheckBacks(cfg, sh, id, r, e);
    case Merging => LandBacks(cfg, sh, id, r, e);
    case Closing | RecordMerge => MergedBacks(cfg, sh, id, r, e);
    case Announce | ApplySync | ApplyRead => PullBacks(cfg, sh, id, r, e);
    case ConvergeSync | ConvergeRead => ConvergeBacks(cfg, sh, id, r, e);
    case Applying => WriteBacks(cfg, sh, id, r, e);
    case Restarting | ProbingHost => ProbeBacks(cfg, sh, id, r, e);
    case Restoring | RevertTop | RevertBackoff => UndoBacks(cfg, sh, id, r, e);
    case Finishing(_) | Releasing | Leaving => EndBacks(cfg, sh, id, r, e);
    case Gone | Killed => {}
  }
}
