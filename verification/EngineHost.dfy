/**
 * Main and the host: with nobody else pushing and merges landing what was
 * proposed, a service's last manifest on the host is main's whenever the run
 * that last touched either of them ended well.
 */
module EngineHost {
  import opened Options
  import opened Digests
  import opened Journals
  import opened Engine
  import opened EngineControl
  import opened EngineTargets
  import opened EngineCalls

  /** The state a run's receipt names, written or about to be. */
  function Outcome(r: Run): Option<State> {
    if r.at.pc.Finishing? then Some(r.at.pc.final)
    else if AfterReceipt(r.at.pc) && r.did.events != [] then Some(r.did.events[|r.did.events| - 1])
    else None
  }

  /**
   * Nobody but the engine moved main, every merge landed exactly what it
   * answered, and every manifest went to its own service's unit.
   */
  predicate Undisturbed(h: Host) {
    !h.pushed && !h.inexact && !h.misplaced
  }

  predicate TouchedLast(h: Host, service: string, id: nat) {
    Get(h.lastTouch, service) == Some(id)
  }

  /** Before a run's first chance to move main or the host. */
  predicate Untouched(r: Run) {
    PreLock(r.at.pc) || r.at.pc.FrontRead? || r.at.pc.Inspect? || (r.at.pc.WaitMerge? && !r.at.undo)
  }

  /** What main, the mirror and the host hold for a run's service, by where the run stands. */
  ghost predicate InPlace(git: Git, h: Host, id: nat, r: Run) {
    var main, unit := Get(git.main, r.req.service), Get(h.units, r.req.service);
    && (r.at.pc.ApplyRead? || r.at.pc.ConvergeRead? ==> Get(git.mirror, r.req.service) == main)
    && (OnHost(r.at.pc) && !r.at.undo ==> main == Some(r.at.target))
    && ((r.at.pc.Restarting? || r.at.pc.ProbingHost?) ==> unit == Some(r.at.target))
    && (Reverting(r) ==> unit == Some(r.req.originalRaw))
    && (r.at.holds && r.did.merged && !r.did.reverted ==> main == Some(r.req.newContent))
    && (Untouched(r) ==> !TouchedLast(h, r.req.service, id))
    && (r.did.reverted && !r.at.pc.Killed? ==> Outcome(r) == Some(RolledBack))
    && (TouchedLast(h, r.req.service, id) ==> Concluded(main, unit, r))
  }

  /** What a run that touched main or the host last leaves there. */
  ghost predicate Concluded(main: Option<Bytes>, unit: Option<Bytes>, r: Run) {
    && (Outcome(r) == Some(Healthy) ==> main.Some? && unit == main)
    && (Outcome(r) == Some(RolledBack) ==> unit == Some(r.req.originalRaw))
    && (Outcome(r) == Some(RolledBack) && r.did.reverted ==> main == Some(r.req.originalRaw))
    && (Outcome(r) == Some(RolledBack) && !r.did.reverted && r.did.merged ==> main == Some(r.req.newContent))
  }

  /** The manifest a run last gave the applier to carry its request out. */
  function Forward(calls: Calls): Option<Bytes> {
    match calls
    case NoCalls => None
    case Then(before, c) => if c.Applied? && !c.undo then Some(c.raw) else Forward(before)
  }

  /** Whether a run ever got as far as giving the applier a manifest. */
  predicate Gave(calls: Calls) {
    calls.Then? && (calls.call.Applied? || Gave(calls.before))
  }

  /** Main is still as this run left it: it holds the lock, or rolled back and nobody moved anything since. */
  predicate Answers(h: Host, id: nat, r: Run) {
    r.at.holds || (TouchedLast(h, r.req.service, id) && Outcome(r) == Some(RolledBack))
  }

  /**
   * What main held when a run took its service lock stays there until the run
   * itself merges, and is all it applies; its unit stays until it applies anything.
   */
  ghost predicate Grounded(git: Git, h: Host, id: nat, r: Run) {
    && (!r.did.merged && !r.did.reverted && Answers(h, id, r) ==> Get(git.main, r.req.service) == r.did.found)
    && (!r.did.merged && Forward(r.did.calls).Some? ==> r.did.found == Forward(r.did.calls))
    && (PreLock(r.at.pc) ==> Forward(r.did.calls).None?)
    && (Outcome(r) == Some(RolledBack) ==> r.req.action != Converge)
    && (r.did.merged && !r.did.reverted && TouchedLast(h, r.req.service, id) ==>
          Get(git.main, r.req.service) == Some(r.req.newContent))
    && (!Gave(r.did.calls) && (r.at.holds || TouchedLast(h, r.req.service, id)) ==>
          Get(h.units, r.req.service) == r.did.stood)
  }

  /** What one step may do to everything other runs rely on. */
  ghost predicate Framed(sh: Shared, id: nat, r: Run, sh': Shared) {
    && (Undisturbed(sh'.host) ==> Undisturbed(sh.host))
    && (forall s {:trigger Get(sh'.git.mirror, s)} ::
          Get(sh'.git.mirror, s) == Get(sh.git.mirror, s) || Get(sh'.git.mirror, s) == Get(sh'.git.main, s))
    && (forall s {:trigger Get(sh'.git.main, s)} {:trigger Get(sh'.host.units, s)}
               {:trigger Get(sh'.host.lastTouch, s)} ::
          || (Get(sh'.git.main, s) == Get(sh.git.main, s)
              && (!sh'.host.misplaced ==> Get(sh'.host.units, s) == Get(sh.host.units, s))
              && Get(sh'.host.lastTouch, s) == Get(sh.host.lastTouch, s))
          || (s == r.req.service && r.at.holds && TouchedLast(sh'.host, s, id)))
  }

  ghost predicate Hosting(cfg: Config, sh: Shared, id: nat, r: Run) {
    && Control(cfg, r) && Targets(cfg, sh.git.held, r) && (BeforeProposal(r) ==> !r.did.merged)
    && (Undisturbed(sh.host) ==> InPlace(sh.git, sh.host, id, r))
    && (AfterReceipt(r.at.pc) ==> r.did.events != [])
  }

  ghost predicate Grounding(cfg: Config, sh: Shared, id: nat, r: Run) {
    Hosting(cfg, sh, id, r) && (Undisturbed(sh.host) ==> Grounded(sh.git, sh.host, id, r))
  }

  ghost predicate Stays(sh: Shared, id: nat, a: After) {
    Undisturbed(sh.host) && Undisturbed(a.sh.host) ==> InPlace(a.sh.git, a.sh.host, id, a.run)
  }

  ghost predicate StaysGrounded(sh: Shared, id: nat, a: After) {
    Undisturbed(sh.host) && Undisturbed(a.sh.host) ==> Grounded(a.sh.git, a.sh.host, id, a.run)
  }

  ghost predicate Hosted(sh: Shared, id: nat, r: Run, a: After) {
    && Framed(sh, id, r, a.sh)
    && (Undisturbed(a.sh.host) ==> InPlace(a.sh.git, a.sh.host, id, a.run) && Grounded(a.sh.git, a.sh.host, id, a.run))
  }

  lemma QueueFrames(cfg: Config, sh: Shared, id: nat, r: Run, e: Env)
    requires Control(cfg, r)
    requires r.at.pc.Begun? || r.at.pc.ClickSync? || r.at.pc.WaitService? || r.at.pc.WaitMerge?
    ensures Framed(sh, id, r, QueueStep(sh, id, r, e).sh)
  {
  }

  lemma FrontFrames(cfg: Config, sh: Shared, id: nat, r: Run, e: Env)
    requires Control(cfg, r) && (r.at.pc.FrontRead? || r.at.pc.Inspect?)
    ensures Framed(sh, id, r, FrontStep(cfg, sh, id, r, e).sh)
  {
  }

  lemma ProposeFrames(cfg: Config, sh: Shared, id: nat, r: Run, e: Env)
    requires Control(cfg, r) && (r.at.pc.Opening? || r.at.pc.RecordPR?)
    ensures Framed(sh, id, r, ProposeStep(sh, id, r, e).sh)
  {
  }

  lemma CheckFrames(cfg: Config, sh: Shared, id: nat, r: Run, e: Env)
    requires Control(cfg, r) && (r.at.pc.Checking? || r.at.pc.Updating?)
    ensures Framed(sh, id, r, CheckStep(sh, id, r, e).sh)
  {
  }

  lemma LandFrames(cfg: Config, sh: Shared, id: nat, r: Run, e: Env)
    requires Control(cfg, r) && r.at.pc.Merging?
    ensures Framed(sh, id, r, LandStep(sh, id, r, e).sh)
  {
  }

  lemma MergedFrames(cfg: Config, sh: Shared, id: nat, r: Run, e: Env)
    requires Control(cfg, r) && (r.at.pc.Closing? || r.at.pc.RecordMerge?)
    ensures Framed(sh, id, r, MergedStep(sh, id, r, e).sh)
  {
  }

  lemma PullFrames(cfg: Config, sh: Shared, id: nat, r: Run, e: Env)
    requires Control(cfg, r) && (r.at.pc.Announce? || r.at.pc.ApplySync? || r.at.pc.ApplyRead?)
    ensures Framed(sh, id, r, PullStep(cfg, sh, id, r, e).sh)
  {
  }

  lemma ConvergeFrames(cfg: Config, sh: Shared, id: nat, r: Run, e: Env)
    requires Control(cfg, r) && (r.at.pc.ConvergeSync? || r.at.pc.ConvergeRead?)
    ensures Framed(sh, id, r, ConvergeStep(cfg, sh, id, r, e).sh)
  {
  }

  lemma WriteFrames(cfg: Config, sh: Shared, id: nat, r: Run, e: Env)
    requires Control(cfg, r) && r.at.pc.Applying?
    ensures Framed(sh, id, r, WriteStep(cfg, sh, id, r, e).sh)
  {
  }

  lemma ProbeFrames(cfg: Config, sh: Shared, id: nat, r: Run, e: Env)
    requires Control(cfg, r) && (r.at.pc.Restarting? || r.at.pc.ProbingHost?)
    ensures Framed(sh, id, r, ProbeStep(sh, id, r, e).sh)
  {
  }

  lemma UndoFrames(cfg: Config, sh: Shared, id: nat, r: Run, e: Env)
    requires Control(cfg, r) && (r.at.pc.Restoring? || r.at.pc.RevertTop? || r.at.pc.RevertBackoff?)
    ensures Framed(sh, id, r, UndoStep(cfg, sh, id, r, e).sh)
  {
  }

  lemma EndFrames(cfg: Config, sh: Shared, id: nat, r: Run, e: Env)
    requires Control(cfg, r) && (r.at.pc.Finishing? || r.at.pc.Releasing? || r.at.pc.Leaving?)
    ensures Framed(sh, id, r, EndStep(sh, id, r, e).sh)
  {
  }

  lemma QueueInPlace(cfg: Config, sh: Shared, id: nat, r: Run, e: Env)
    requires Hosting(cfg, sh, id, r)
    requires r.at.pc.Begun? || r.at.pc.ClickSync? || r.at.pc.WaitService? || r.at.pc.WaitMerge?
    ensures Stays(sh, id, QueueStep(sh, id, r, e))
  {
  }

  lemma FrontInPlace(cfg: Config, sh: Shared, id: nat, r: Run, e: Env)
    requires Hosting(cfg, sh, id, r) && (r.at.pc.FrontRead? || r.at.pc.Inspect?)
    ensures Stays(sh, id, FrontStep(cfg, sh, id, r, e))
  {
  }

  lemma OpeningInPlace(cfg: Config, sh: Shared, id: nat, r: Run, e: Env)
    requires Hosting(cfg, sh, id, r)
    requires r.at.pc.Opening?
    ensures Stays(sh, id, ProposeStep(sh, id, r, e))
  {
  }

  lemma RecordPRInPlace(cfg: Config, sh: Shared, id: nat, r: Run, e: Env)
    requires Hosting(cfg, sh, id, r)
    requires r.at.pc.RecordPR?
    ensures Stays(sh, id, ProposeStep(sh, id, r, e))
  {
  }

  lemma PassedInPlace(cfg: Config, sh: Shared, id: nat, r: Run, e: Env)
    requires Hosting(cfg, sh, id, r)
    requires r.at.pc.Checking? && e.ok
    ensures Stays(sh, id, CheckStep(sh, id, r, e))
  {
    if r.at.undo {} else {}
  }

  lemma FailedInPlace(cfg: Config, sh: Shared, id: nat, r: Run, e: Env)
    requires Hosting(cfg, sh, id, r)
    requires r.at.pc.Checking? && !e.ok
    ensures Stays(sh, id, CheckStep(sh, id, r, e))
  {
    if r.at.undo {} else {}
  }

  lemma CheckingInPlace(cfg: Config, sh: Shared, id: nat, r: Run, e: Env)
    requires Hosting(cfg, sh, id, r)
    requires r.at.pc.Checking?
    ensures Stays(sh, id, CheckStep(sh, id, r, e))
  {
    if e.ok { PassedInPlace(cfg, sh, id, r, e); } else { FailedInPlace(cfg, sh, id, r, e); }
  }

  lemma UpdatingInPlace(cfg: Config, sh: Shared, id: nat, r: Run, e: Env)
    requires Hosting(cfg, sh, id, r)
    requires r.at.pc.Updating?
    ensures Stays(sh, id, CheckStep(sh, id, r, e))
  {
  }

  lemma LandedInPlace(cfg: Config, sh: Shared, id: nat, r: Run, e: Env)
    requires Hosting(cfg, sh, id, r) && r.at.pc.Merging? && e.ok
    ensures Stays(sh, id, LandStep(sh, id, r, e))
  {
    if r.at.undo {} else {}
  }

  lemma RefusedInPlace(cfg: Config, sh: Shared, id: nat, r: Run, e: Env)
    requires Hosting(cfg, sh, id, r) && r.at.pc.Merging? && !e.ok
    ensures Stays(sh, id, LandStep(sh, id, r, e))
  {
    if e.partly {} else {}
  }

  lemma LandInPlace(cfg: Config, sh: Shared, id: nat, r: Run, e: Env)
    requires Hosting(cfg, sh, id, r) && r.at.pc.Merging?
    ensures Stays(sh, id, LandStep(sh, id, r, e))
  {
    if e.ok { LandedInPlace(cfg, sh, id, r, e); } else { RefusedInPlace(cfg, sh, id, r, e); }
  }

  lemma MergedInPlace(cfg: Config, sh: Shared, id: nat, r: Run, e: Env)
    requires Hosting(cfg, sh, id, r) && (r.at.pc.Closing? || r.at.pc.RecordMerge?)
    ensures Stays(sh, id, MergedStep(sh, id, r, e))
  {
  }

  lemma AnnounceInPlace(cfg: Config, sh: Shared, id: nat, r: Run, e: Env)
    requires Hosting(cfg, sh, id, r)
    requires r.at.pc.Announce?
    ensures Stays(sh, id, PullStep(cfg, sh, id, r, e))
  {
  }

  lemma ApplySyncInPlace(cfg: Config, sh: Shared, id: nat, r: Run, e: Env)
    requires Hosting(cfg, sh, id, r)
    requires r.at.pc.ApplySync?
    ensures Stays(sh, id, PullStep(cfg, sh, id, r, e))
  {
  }

  lemma ApplyReadInPlace(cfg: Config, sh: Shared, id: nat, r: Run, e: Env)
    requires Hosting(cfg, sh, id, r)
    requires r.at.pc.ApplyRead?
    ensures Stays(sh, id, PullStep(cfg, sh, id, r, e))
  {
  }

  lemma ConvergeSyncInPlace(cfg: Config, sh: Shared, id: nat, r: Run, e: Env)
    requires Hosting(cfg, sh, id, r)
    requires r.at.pc.ConvergeSync?
    ensures Stays(sh, id, ConvergeStep(cfg, sh, id, r, e))
  {
  }

  lemma ConvergeReadInPlace(cfg: Config, sh: Shared, id: nat, r: Run, e: Env)
    requires Hosting(cfg, sh, id, r)
    requires r.at.pc.ConvergeRead?
    ensures Stays(sh, id, ConvergeStep(cfg, sh, id, r, e))
  {
  }

  lemma WrittenInPlace(cfg: Config, sh: Shared, id: nat, r: Run, e: Env)
    requires Hosting(cfg, sh, id, r) && r.at.pc.Applying?
    requires e.ok
    ensures Stays(sh, id, WriteStep(cfg, sh, id, r, e))
  {
    if r.at.undo {} else {}
  }

  lemma UnwrittenInPlace(cfg: Config, sh: Shared, id: nat, r: Run, e: Env)
    requires Hosting(cfg, sh, id, r) && r.at.pc.Applying?
    requires !e.ok
    ensures Stays(sh, id, WriteStep(cfg, sh, id, r, e))
  {
    if e.partly {} else {}
  }

  lemma WriteInPlace(cfg: Config, sh: Shared, id: nat, r: Run, e: Env)
    requires Hosting(cfg, sh, id, r) && r.at.pc.Applying?
    ensures Stays(sh, id, WriteStep(cfg, sh, id, r, e))
  {
    if e.ok { WrittenInPlace(cfg, sh, id, r, e); } else { UnwrittenInPlace(cfg, sh, id, r, e); }
  }

  lemma RestartingInPlace(cfg: Config, sh: Shared, id: nat, r: Run, e: Env)
    requires Hosting(cfg, sh, id, r)
    requires r.at.pc.Restarting?
    ensures Stays(sh, id, ProbeStep(sh, id, r, e))
  {
  }

  lemma ProbingHostInPlace(cfg: Config, sh: Shared, id: nat, r: Run, e: Env)
    requires Hosting(cfg, sh, id, r)
    requires r.at.pc.ProbingHost?
    ensures Stays(sh, id, ProbeStep(sh, id, r, e))
  {
  }

  lemma RestoringInPlace(cfg: Config, sh: Shared, id: nat, r: Run, e: Env)
    requires Hosting(cfg, sh, id, r)
    requires r.at.pc.Restoring?
    ensures Stays(sh, id, UndoStep(cfg, sh, id, r, e))
  {
  }

  lemma RevertTopInPlace(cfg: Config, sh: Shared, id: nat, r: Run, e: Env)
    requires Hosting(cfg, sh, id, r)
    requires r.at.pc.RevertTop?
    ensures Stays(sh, id, UndoStep(cfg, sh, id, r, e))
  {
  }

  lemma RevertBackoffInPlace(cfg: Config, sh: Shared, id: nat, r: Run, e: Env)
    requires Hosting(cfg, sh, id, r)
    requires r.at.pc.RevertBackoff?
    ensures Stays(sh, id, UndoStep(cfg, sh, id, r, e))
  {
  }

  lemma FinishingInPlace(cfg: Config, sh: Shared, id: nat, r: Run, e: Env)
    requires Hosting(cfg, sh, id, r)
    requires r.at.pc.Finishing?
    ensures Stays(sh, id, EndStep(sh, id, r, e))
  {
  }

  lemma ReleasingInPlace(cfg: Config, sh: Shared, id: nat, r: Run, e: Env)
    requires Hosting(cfg, sh, id, r)
    requires r.at.pc.Releasing?
    ensures Stays(sh, id, EndStep(sh, id, r, e))
  {
  }

  lemma LeavingInPlace(cfg: Config, sh: Shared, id: nat, r: Run, e: Env)
    requires Hosting(cfg, sh, id, r)
    requires r.at.pc.Leaving?
    ensures Stays(sh, id, EndStep(sh, id, r, e))
  {
  }

  lemma QueueGrounds(cfg: Config, sh: Shared, id: nat, r: Run, e: Env)
    requires Grounding(cfg, sh, id, r)
    requires r.at.pc.Begun? || r.at.pc.ClickSync? || r.at.pc.WaitService? || r.at.pc.WaitMerge?
    ensures StaysGrounded(sh, id, QueueStep(sh, id, r, e))
  {
  }

  lemma FrontGrounds(cfg: Config, sh: Shared, id: nat, r: Run, e: Env)
    requires Grounding(cfg, sh, id, r) && (r.at.pc.FrontRead? || r.at.pc.Inspect?)
    ensures StaysGrounded(sh, id, FrontStep(cfg, sh, id, r, e))
  {
  }

  lemma ProposeGrounds(cfg: Config, sh: Shared, id: nat, r: Run, e: Env)
    requires Grounding(cfg, sh, id, r) && (r.at.pc.Opening? || r.at.pc.RecordPR?)
    ensures StaysGrounded(sh, id, ProposeStep(sh, id, r, e))
  {
  }

  lemma CheckGrounds(cfg: Config, sh: Shared, id: nat, r: Run, e: Env)
    requires Grounding(cfg, sh, id, r) && (r.at.pc.Checking? || r.at.pc.Updating?)
    ensures StaysGrounded(sh, id, CheckStep(sh, id, r, e))
  {
  }

  lemma LandGrounds(cfg: Config, sh: Shared, id: nat, r: Run, e: Env)
    requires Grounding(cfg, sh, id, r) && r.at.pc.Merging?
    ensures StaysGrounded(sh, id, LandStep(sh, id, r, e))
  {
  }

  lemma MergedGrounds(cfg: Config, sh: Shared, id: nat, r: Run, e: Env)
    requires Grounding(cfg, sh, id, r) && (r.at.pc.Closing? || r.at.pc.RecordMerge?)
    ensures StaysGrounded(sh, id, MergedStep(sh, id, r, e))
  {
  }

  lemma PullGrounds(cfg: Config, sh: Shared, id: nat, r: Run, e: Env)
    requires Grounding(cfg, sh, id, r) && (r.at.pc.Announce? || r.at.pc.ApplySync? || r.at.pc.ApplyRead?)
    ensures StaysGrounded(sh, id, PullStep(cfg, sh, id, r, e))
  {
  }

  lemma ConvergeGrounds(cfg: Config, sh: Shared, id: nat, r: Run, e: Env)
    requires Grounding(cfg, sh, id, r) && (r.at.pc.ConvergeSync? || r.at.pc.ConvergeRead?)
    ensures StaysGrounded(sh, id, ConvergeStep(cfg, sh, id, r, e))
  {
  }

  lemma WriteGrounds(cfg: Config, sh: Shared, id: nat, r: Run, e: Env)
    requires Grounding(cfg, sh, id, r) && r.at.pc.Applying?
    ensures StaysGrounded(sh, id, WriteStep(cfg, sh, id, r, e))
  {
  }

  lemma ProbeGrounds(cfg: Config, sh: Shared, id: nat, r: Run, e: Env)
    requires Grounding(cfg, sh, id, r) && (r.at.pc.Restarting? || r.at.pc.ProbingHost?)
    ensures StaysGrounded(sh, id, ProbeStep(sh, id, r, e))
  {
  }

  lemma UndoGrounds(cfg: Config, sh: Shared, id: nat, r: Run, e: Env)
    requires Grounding(cfg, sh, id, r) && (r.at.pc.Restoring? || r.at.pc.RevertTop? || r.at.pc.RevertBackoff?)
    ensures StaysGrounded(sh, id, UndoStep(cfg, sh, id, r, e))
  {
  }

  lemma EndGrounds(cfg: Config, sh: Shared, id: nat, r: Run, e: Env)
    requires Grounding(cfg, sh, id, r) && (r.at.pc.Finishing? || r.at.pc.Releasing? || r.at.pc.Leaving?)
    ensures StaysGrounded(sh, id, EndStep(sh, id, r, e))
  {
  }

  lemma StepFrames(cfg: Config, sh: Shared, id: nat, r: Run, e: Env)
    requires Control(cfg, r) && !IsOver(r.at.pc)
    ensures Framed(sh, id, r, Act(cfg, sh, id, r, e).sh)
  {
    match r.at.pc
    case Begun | ClickSync | WaitService | WaitMerge => QueueFrames(cfg, sh, id, r, e);
    case FrontRead | Inspect => FrontFrames(cfg, sh, id, r, e);
    case Opening | RecordPR => ProposeFrames(cfg, sh, id, r, e);
    case Checking | Updating => CheckFrames(cfg, sh, id, r, e);
    case Merging => LandFrames(cfg, sh, id, r, e);
    case Closing | RecordMerge => MergedFrames(cfg, sh, id, r, e);
    case Announce | ApplySync | ApplyRead => PullFrames(cfg, sh, id, r, e);
    case ConvergeSync | ConvergeRead => ConvergeFrames(cfg, sh, id, r, e);
    case Applying => WriteFrames(cfg, sh, id, r, e);
    case Restarting | ProbingHost => ProbeFrames(cfg, sh, id, r, e);
    case Restoring | RevertTop | RevertBackoff => UndoFrames(cfg, sh, id, r, e);
    case Finishing(_) | Releasing | Leaving => EndFrames(cfg, sh, id, r, e);
    case Gone | Killed => {}
  }

  lemma MainwardStays(cfg: Config, sh: Shared, id: nat, r: Run, e: Env)
    requires Grounding(cfg, sh, id, r) && Mainward(r.at.pc)
    ensures Stays(sh, id, Act(cfg, sh, id, r, e))
  {
    match r.at.pc
    case Begun | ClickSync | WaitService | WaitMerge => QueueInPlace(cfg, sh, id, r, e);
    case FrontRead | Inspect => FrontInPlace(cfg, sh, id, r, e);
    case Opening => OpeningInPlace(cfg, sh, id, r, e);
    case RecordPR => RecordPRInPlace(cfg, sh, id, r, e);
    case Checking => CheckingInPlace(cfg, sh, id, r, e);
    case Updating => UpdatingInPlace(cfg, sh, id, r, e);
    case Merging => LandInPlace(cfg, sh, id, r, e);
    case Closing | RecordMerge => MergedInPlace(cfg, sh, id, r, e);
  }

  lemma HostwardStays(cfg: Config, sh: Shared, id: nat, r: Run, e: Env)
    requires Grounding(cfg, sh, id, r) && !Mainward(r.at.pc) && !IsOver(r.at.pc)
    ensures Stays(sh, id, Act(cfg, sh, id, r, e))
  {
    match r.at.pc
    case Announce => AnnounceInPlace(cfg, sh, id, r, e);
    case ApplySync => ApplySyncInPlace(cfg, sh, id, r, e);
    case ApplyRead => ApplyReadInPlace(cfg, sh, id, r, e);
    case ConvergeSync => ConvergeSyncInPlace(cfg, sh, id, r, e);
    case ConvergeRead => ConvergeReadInPlace(cfg, sh, id, r, e);
    case Applying => WriteInPlace(cfg, sh, id, r, e);
    case Restarting => RestartingInPlace(cfg, sh, id, r, e);
    case ProbingHost => ProbingHostInPlace(cfg, sh, id, r, e);
    case Restoring => RestoringInPlace(cfg, sh, id, r, e);
    case RevertTop => RevertTopInPlace(cfg, sh, id, r, e);
    case RevertBackoff => RevertBackoffInPlace(cfg, sh, id, r, e);
    case Finishing(_) => FinishingInPlace(cfg, sh, id, r, e);
    case Releasing => ReleasingInPlace(cfg, sh, id, r, e);
    case Leaving => LeavingInPlace(cfg, sh, id, r, e);
  }

  lemma StepStays(cfg: Config, sh: Shared, id: nat, r: Run, e: Env)
    requires Grounding(cfg, sh, id, r) && !IsOver(r.at.pc)
    ensures Stays(sh, id, Act(cfg, sh, id, r, e))
  {
    if Mainward(r.at.pc) { MainwardStays(cfg, sh, id, r, e); } else { HostwardStays(cfg, sh, id, r, e); }
  }

  lemma MainwardGrounds(cfg: Config, sh: Shared, id: nat, r: Run, e: Env)
    requires Grounding(cfg, sh, id, r) && Mainward(r.at.pc)
    ensures StaysGrounded(sh, id, Act(cfg, sh, id, r, e))
  {
    match r.at.pc
    case Begun | ClickSync | WaitService | WaitMerge => QueueGrounds(cfg, sh, id, r, e);
    case FrontRead | Inspect => FrontGrounds(cfg, sh, id, r, e);
    case Opening | RecordPR => ProposeGrounds(cfg, sh, id, r, e);
    case Checking | Updating => CheckGrounds(cfg, sh, id, r, e);
    case Merging => LandGrounds(cfg, sh, id, r, e);
    case Closing | RecordMerge => MergedGrounds(cfg, sh, id, r, e);
  }

  lemma HostwardGrounds(cfg: Config, sh: Shared, id: nat, r: Run, e: Env)
    requires Grounding(cfg, sh, id, r) && !Mainward(r.at.pc) && !IsOver(r.at.pc)
    ensures StaysGrounded(sh, id, Act(cfg, sh, id, r, e))
  {
    match r.at.pc
    case Announce | ApplySync | ApplyRead => PullGrounds(cfg, sh, id, r, e);
    case ConvergeSync | ConvergeRead => ConvergeGrounds(cfg, sh, id, r, e);
    case Applying => WriteGrounds(cfg, sh, id, r, e);
    case Restarting | ProbingHost => ProbeGrounds(cfg, sh, id, r, e);
    case Restoring | RevertTop | RevertBackoff => UndoGrounds(cfg, sh, id, r, e);
    case Finishing(_) | Releasing | Leaving => EndGrounds(cfg, sh, id, r, e);
  }

  lemma StepGrounds(cfg: Config, sh: Shared, id: nat, r: Run, e: Env)
    requires Grounding(cfg, sh, id, r) && !IsOver(r.at.pc)
    ensures StaysGrounded(sh, id, Act(cfg, sh, id, r, e))
  {
    if Mainward(r.at.pc) { MainwardGrounds(cfg, sh, id, r, e); } else { HostwardGrounds(cfg, sh, id, r, e); }
  }

  lemma StepInPlace(cfg: Config, sh: Shared, id: nat, r: Run, e: Env)
    requires Grounding(cfg, sh, id, r) && !IsOver(r.at.pc)
    ensures Hosted(sh, id, r, Act(cfg, sh, id, r, e))
  {
    StepFrames(cfg, sh, id, r, e);
    StepStays(cfg, sh, id, r, e);
    StepGrounds(cfg, sh, id, r, e);
  }
}
