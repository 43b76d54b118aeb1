/**
 * What runs put on the host and on main: where each manifest came from, the
 * order of a run's calls, and the restore point of a rollback.
 */
module EngineTargets {
  import opened Options
  import opened Digests
  import opened Journals
  import opened Engine
  import opened EngineControl

  // ---- Where manifests come from ------------------------------------------------

  /** A restore point: the bytes pin the old digest, which is not the new one, and main once held them. */
  ghost predicate RestorePoint(cfg: Config, held: set<(string, Bytes)>, q: Request) {
    && q.oldDigest != q.newDigest
    && cfg.parse(q.originalRaw).Some? && cfg.parse(q.originalRaw).value.digest == q.oldDigest
    && (q.service, q.originalRaw) in held
  }

  /** One call, judged by the run that made it. */
  ghost predicate Sourced(cfg: Config, held: set<(string, Bytes)>, r: Run, c: Call) {
    match c
    case Applied(undo, raw) =>
      && (r.req.service, raw) in held
      && cfg.parse(raw).Some?
      && (if undo then r.at.undo && raw == r.req.originalRaw else cfg.parse(raw).value.digest == r.req.newDigest)
    case Opened(undo, content) => undo ==> r.at.undo && content == r.req.originalRaw
    case _ => true
  }

  ghost predicate Targets(cfg: Config, held: set<(string, Bytes)>, r: Run) {
    && (r.req.action != Converge ==> RestorePoint(cfg, held, r.req))
    && (OnHost(r.at.pc) ==> Sourced(cfg, held, r, Applied(r.at.undo, r.at.target)))
    && (forall c :: r.did.calls.Has(c) ==> Sourced(cfg, held, r, c))
    && (r.req.action == Converge && !OnHost(r.at.pc) && !r.at.pc.Finishing? && !AfterReceipt(r.at.pc) ==>
          r.did.calls == NoCalls)
    && (r.did.proposed ==> r.req.newContent != r.req.originalRaw)
    && (r.at.pc.Opening? && !r.at.undo ==> r.req.newContent != r.req.originalRaw)
  }

  /** Main and the mirror only ever show what main held. */
  ghost predicate Held(git: Git) {
    && (forall s :: s in git.main ==> (s, git.main[s]) in git.held)
    && (forall s :: s in git.mirror ==> (s, git.mirror[s]) in git.held)
  }

  /** Some manifest main held names another service than its file. */
  ghost predicate Misnamed(cfg: Config, held: set<(string, Bytes)>) {
    exists p :: p in held && cfg.parse(p.1).Some? && cfg.parse(p.1).value.name != p.0
  }

  /** Before a converge has read what main pins; until then it carries the digest it was clicked for. */
  predicate Undecided(pc: Pc) {
    PreLock(pc) || pc.ConvergeSync? || pc.ConvergeRead?
  }

  ghost predicate Targeting(cfg: Config, sh: Shared, r: Run) {
    Held(sh.git) && Targets(cfg, sh.git.held, r) && Control(cfg, r)
  }

  ghost predicate Targeted(cfg: Config, sh: Shared, id: nat, r: Run, a: After) {
    && Held(a.sh.git) && sh.git.held <= a.sh.git.held
    && (a.sh.host.misplaced ==> sh.host.misplaced || Misnamed(cfg, a.sh.git.held))
    && (forall p :: p in a.sh.git.held && p !in sh.git.held ==> Get(a.sh.git.main, p.0) == Some(p.1))
    && Targets(cfg, a.sh.git.held, a.run)
    && a.run.req.service == r.req.service && a.run.req.action == r.req.action
    && (r.req.action != Converge ==> a.run.req.newDigest == r.req.newDigest)
    && (Undecided(a.run.at.pc) ==> Undecided(r.at.pc) && a.run.req.newDigest == r.req.newDigest)
    && a.sh.q.pending == (if r.at.pc.Leaving? then Deregister(sh.q.pending, r.req.service, id) else sh.q.pending)
  }

  lemma BegunTargets(cfg: Config, sh: Shared, id: nat, r: Run, e: Env)
    requires Targeting(cfg, sh, r)
    requires r.at.pc.Begun?
    ensures Targeted(cfg, sh, id, r, QueueStep(sh, id, r, e))
  {
  }

  lemma ClickSyncTargets(cfg: Config, sh: Shared, id: nat, r: Run, e: Env)
    requires Targeting(cfg, sh, r)
    requires r.at.pc.ClickSync?
    ensures Targeted(cfg, sh, id, r, QueueStep(sh, id, r, e))
  {
  }

  lemma WaitServiceTargets(cfg: Config, sh: Shared, id: nat, r: Run, e: Env)
    requires Targeting(cfg, sh, r)
    requires r.at.pc.WaitService?
    ensures Targeted(cfg, sh, id, r, QueueStep(sh, id, r, e))
  {
  }

  lemma WaitMergeTargets(cfg: Config, sh: Shared, id: nat, r: Run, e: Env)
    requires Targeting(cfg, sh, r)
    requires r.at.pc.WaitMerge?
    ensures Targeted(cfg, sh, id, r, QueueStep(sh, id, r, e))
  {
  }

  lemma FrontReadTargets(cfg: Config, sh: Shared, id: nat, r: Run, e: Env)
    requires Targeting(cfg, sh, r) && r.at.pc.FrontRead?
    ensures Targeted(cfg, sh, id, r, FrontStep(cfg, sh, id, r, e))
  {
    match ReadManifest(cfg, sh.git, r.req.service, e)
    case None => {}
    case Some((m, raw)) =>
      if m.digest != r.req.newDigest && SetDigest(raw, m.digest, r.req.newDigest).Ok? {
        SetDigestChangesTheFile(raw, m.digest, r.req.newDigest);
      }
  }

  lemma InspectTargets(cfg: Config, sh: Shared, id: nat, r: Run, e: Env)
    requires Targeting(cfg, sh, r) && r.at.pc.Inspect?
    ensures Targeted(cfg, sh, id, r, FrontStep(cfg, sh, id, r, e))
  {
  }

  lemma OpeningTargets(cfg: Config, sh: Shared, id: nat, r: Run, e: Env)
    requires Targeting(cfg, sh, r)
    requires r.at.pc.Opening?
    ensures Targeted(cfg, sh, id, r, ProposeStep(sh, id, r, e))
  {
  }

  lemma RecordPRTargets(cfg: Config, sh: Shared, id: nat, r: Run, e: Env)
    requires Targeting(cfg, sh, r)
    requires r.at.pc.RecordPR?
    ensures Targeted(cfg, sh, id, r, ProposeStep(sh, id, r, e))
  {
  }

  lemma CheckingTargets(cfg: Config, sh: Shared, id: nat, r: Run, e: Env)
    requires Targeting(cfg, sh, r)
    requires r.at.pc.Checking?
    ensures Targeted(cfg, sh, id, r, CheckStep(sh, id, r, e))
  {
  }

  lemma UpdatingTargets(cfg: Config, sh: Shared, id: nat, r: Run, e: Env)
    requires Targeting(cfg, sh, r)
    requires r.at.pc.Updating?
    ensures Targeted(cfg, sh, id, r, CheckStep(sh, id, r, e))
  {
  }

  lemma LandedTargets(cfg: Config, sh: Shared, id: nat, r: Run, e: Env)
    requires Targeting(cfg, sh, r) && r.at.pc.Merging? && e.ok
    ensures Targeted(cfg, sh, id, r, LandStep(sh, id, r, e))
  {
    if r.at.undo {} else {}
  }

  lemma RefusedTargets(cfg: Config, sh: Shared, id: nat, r: Run, e: Env)
    requires Targeting(cfg, sh, r) && r.at.pc.Merging? && !e.ok && !e.partly
    ensures Targeted(cfg, sh, id, r, LandStep(sh, id, r, e))
  {
    if r.at.undo {} else {}
  }

  lemma DisownedTargets(cfg: Config, sh: Shared, id: nat, r: Run, e: Env)
    requires Targeting(cfg, sh, r) && r.at.pc.Merging? && !e.ok && e.partly
    ensures Targeted(cfg, sh, id, r, LandStep(sh, id, r, e))
  {
    if r.at.undo {} else {}
  }

  lemma LandTargets(cfg: Config, sh: Shared, id: nat, r: Run, e: Env)
    requires Targeting(cfg, sh, r) && r.at.pc.Merging?
    ensures Targeted(cfg, sh, id, r, LandStep(sh, id, r, e))
  {
    if e.ok {
      LandedTargets(cfg, sh, id, r, e);
    } else if e.partly {
      DisownedTargets(cfg, sh, id, r, e);
    } else {
      RefusedTargets(cfg, sh, id, r, e);
    }
  }

  lemma MergedTargets(cfg: Config, sh: Shared, id: nat, r: Run, e: Env)
    requires Targeting(cfg, sh, r) && (r.at.pc.Closing? || r.at.pc.RecordMerge?)
    ensures Targeted(cfg, sh, id, r, MergedStep(sh, id, r, e))
  {
  }

  lemma AnnounceTargets(cfg: Config, sh: Shared, id: nat, r: Run, e: Env)
    requires Targeting(cfg, sh, r)
    requires r.at.pc.Announce?
    ensures Targeted(cfg, sh, id, r, PullStep(cfg, sh, id, r, e))
  {
  }

  lemma ApplySyncTargets(cfg: Config, sh: Shared, id: nat, r: Run, e: Env)
    requires Targeting(cfg, sh, r)
    requires r.at.pc.ApplySync?
    ensures Targeted(cfg, sh, id, r, PullStep(cfg, sh, id, r, e))
  {
  }

  lemma ApplyReadTargets(cfg: Config, sh: Shared, id: nat, r: Run, e: Env)
    requires Targeting(cfg, sh, r)
    requires r.at.pc.ApplyRead?
    ensures Targeted(cfg, sh, id, r, PullStep(cfg, sh, id, r, e))
  {
  }

  lemma ConvergeSyncTargets(cfg: Config, sh: Shared, id: nat, r: Run, e: Env)
    requires Targeting(cfg, sh, r)
    requires r.at.pc.ConvergeSync?
    ensures Targeted(cfg, sh, id, r, ConvergeStep(cfg, sh, id, r, e))
  {
  }

  /** A converge that goes by what it read, having called nothing yet. */
  lemma SettledTargets(cfg: Config, held: set<(string, Bytes)>, r: Run, r': Run)
    requires Targets(cfg, held, r) && r.at.pc.ConvergeRead? && r.req.action == Converge
    requires r'.at == r.at.(target := r'.at.target, pc := Applying) && !r.at.undo
    requires (r.req.service, r'.at.target) in held && cfg.parse(r'.at.target).Some?
    requires var d := cfg.parse(r'.at.target).value.digest; r'.req == r.req.(oldDigest := d, newDigest := d)
    requires r'.did.calls == r.did.calls && r'.did.proposed == r.did.proposed
    ensures Targets(cfg, held, r')
  {
  }

  lemma ConvergeReadTargets(cfg: Config, sh: Shared, id: nat, r: Run, e: Env)
    requires Targeting(cfg, sh, r)
    requires r.at.pc.ConvergeRead?
    ensures Targeted(cfg, sh, id, r, ConvergeStep(cfg, sh, id, r, e))
  {
    var a := ConvergeStep(cfg, sh, id, r, e);
    if a.run.at.pc.Applying? { SettledTargets(cfg, sh.git.held, r, a.run); }
  }

  lemma WriteTargets(cfg: Config, sh: Shared, id: nat, r: Run, e: Env)
    requires Targeting(cfg, sh, r) && r.at.pc.Applying?
    ensures Targeted(cfg, sh, id, r, WriteStep(cfg, sh, id, r, e))
  {
    var p := (r.req.service, r.at.target);
    assert p in sh.git.held && cfg.parse(p.1).Some?;
  }

  lemma RestartingTargets(cfg: Config, sh: Shared, id: nat, r: Run, e: Env)
    requires Targeting(cfg, sh, r)
    requires r.at.pc.Restarting?
    ensures Targeted(cfg, sh, id, r, ProbeStep(sh, id, r, e))
  {
  }

  lemma ProbingHostTargets(cfg: Config, sh: Shared, id: nat, r: Run, e: Env)
    requires Targeting(cfg, sh, r)
    requires r.at.pc.ProbingHost?
    ensures Targeted(cfg, sh, id, r, ProbeStep(sh, id, r, e))
  {
  }

  lemma RestoringTargets(cfg: Config, sh: Shared, id: nat, r: Run, e: Env)
    requires Targeting(cfg, sh, r)
    requires r.at.pc.Restoring?
    ensures Targeted(cfg, sh, id, r, UndoStep(cfg, sh, id, r, e))
  {
  }

  lemma RevertTopTargets(cfg: Config, sh: Shared, id: nat, r: Run, e: Env)
    requires Targeting(cfg, sh, r)
    requires r.at.pc.RevertTop?
    ensures Targeted(cfg, sh, id, r, UndoStep(cfg, sh, id, r, e))
  {
  }

  lemma RevertBackoffTargets(cfg: Config, sh: Shared, id: nat, r: Run, e: Env)
    requires Targeting(cfg, sh, r)
    requires r.at.pc.RevertBackoff?
    ensures Targeted(cfg, sh, id, r, UndoStep(cfg, sh, id, r, e))
  {
  }

  lemma FinishingTargets(cfg: Config, sh: Shared, id: nat, r: Run, e: Env)
    requires Targeting(cfg, sh, r)
    requires r.at.pc.Finishing?
    ensures Targeted(cfg, sh, id, r, EndStep(sh, id, r, e))
  {
  }

  lemma ReleasingTargets(cfg: Config, sh: Shared, id: nat, r: Run, e: Env)
    requires Targeting(cfg, sh, r)
    requires r.at.pc.Releasing?
    ensures Targeted(cfg, sh, id, r, EndStep(sh, id, r, e))
  {
  }

  lemma LeavingTargets(cfg: Config, sh: Shared, id: nat, r: Run, e: Env)
    requires Targeting(cfg, sh, r)
    requires r.at.pc.Leaving?
    ensures Targeted(cfg, sh, id, r, EndStep(sh, id, r, e))
  {
  }

  lemma MainwardTargets(cfg: Config, sh: Shared, id: nat, r: Run, e: Env)
    requires Targeting(cfg, sh, r) && Mainward(r.at.pc)
    ensures Targeted(cfg, sh, id, r, Act(cfg, sh, id, r, e))
  {
    match r.at.pc
    case Begun => BegunTargets(cfg, sh, id, r, e);
    case ClickSync => ClickSyncTargets(cfg, sh, id, r, e);
    case WaitService => WaitServiceTargets(cfg, sh, id, r, e);
    case WaitMerge => WaitMergeTargets(cfg, sh, id, r, e);
    case FrontRead => FrontReadTargets(cfg, sh, id, r, e);
    case Inspect => InspectTargets(cfg, sh, id, r, e);
    case Opening => OpeningTargets(cfg, sh, id, r, e);
    case RecordPR => RecordPRTargets(cfg, sh, id, r, e);
    case Checking => CheckingTargets(cfg, sh, id, r, e);
    case Updating => UpdatingTargets(cfg, sh, id, r, e);
    case Merging => LandTargets(cfg, sh, id, r, e);
    case Closing | RecordMerge => MergedTargets(cfg, sh, id, r, e);
  }

  lemma HostwardTargets(cfg: Config, sh: Shared, id: nat, r: Run, e: Env)
    requires Targeting(cfg, sh, r) && !Mainward(r.at.pc) && !IsOver(r.at.pc)
    ensures Targeted(cfg, sh, id, r, Act(cfg, sh, id, r, e))
  {
    match r.at.pc
    case Announce => AnnounceTargets(cfg, sh, id, r, e);
    case ApplySync => ApplySyncTargets(cfg, sh, id, r, e);
    case ApplyRead => ApplyReadTargets(cfg, sh, id, r, e);
    case ConvergeSync => ConvergeSyncTargets(cfg, sh, id, r, e);
    case ConvergeRead => ConvergeReadTargets(cfg, sh, id, r, e);
    case Applying => WriteTargets(cfg, sh, id, r, e);
    case Restarting => RestartingTargets(cfg, sh, id, r, e);
    case ProbingHost => ProbingHostTargets(cfg, sh, id, r, e);
    case Restoring => RestoringTargets(cfg, sh, id, r, e);
    case RevertTop => RevertTopTargets(cfg, sh, id, r, e);
    case RevertBackoff => RevertBackoffTargets(cfg, sh, id, r, e);
    case Finishing(_) => FinishingTargets(cfg, sh, id, r, e);
    case Releasing => ReleasingTargets(cfg, sh, id, r, e);
    case Leaving => LeavingTargets(cfg, sh, id, r, e);
  }

  lemma StepTargets(cfg: Config, sh: Shared, id: nat, r: Run, e: Env)
    requires Targeting(cfg, sh, r) && !IsOver(r.at.pc)
    ensures Targeted(cfg, sh, id, r, Act(cfg, sh, id, r, e))
  {
    if Mainward(r.at.pc) { MainwardTargets(cfg, sh, id, r, e); } else { HostwardTargets(cfg, sh, id, r, e); }
  }
}
