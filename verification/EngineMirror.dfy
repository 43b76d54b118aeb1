/**
 * Main and its mirror: when what a run reads from the mirror is what main holds.
 */
module EngineMirror {
  import opened Options
  import opened Digests
  import opened Journals
  import opened Engine
  import opened EngineControl
  import opened EngineCalls
  import opened EngineHost
  import opened EngineRuns
  import opened EngineTheorems

  // ---- What one step does to main and the mirror ----------------------------------

  predicate Syncing(pc: Pc) {
    pc.ClickSync? || pc.ApplySync? || pc.ConvergeSync?
  }

  lemma SyncsGit(cfg: Config, sh: Shared, id: nat, r: Run, e: Env)
    ensures QueueStep(sh, id, r, e).sh.git == if r.at.pc.ClickSync? then Sync(sh, e).git else sh.git
    ensures PullStep(cfg, sh, id, r, e).sh.git == if r.at.pc.ApplySync? then Sync(sh, e).git else sh.git
    ensures ConvergeStep(cfg, sh, id, r, e).sh.git == if r.at.pc.ConvergeSync? then Sync(sh, e).git else sh.git
  {
  }

  /** How main moves when a merge lands, and who is known to have moved it. */
  function Landed(git: Git, id: nat, r: Run, e: Env): Git {
    if !e.ok && !e.partly then git
    else
      var exact := e.ok && e.content == Proposal(r);
      MoveMain(git, r.req.service, e.content, if exact then ByRun(id, r.at.undo) else Elsewhere)
  }

  /** If anything lands, it is what the run proposed and had checked, and the run is told so. */
  predicate AsProposed(r: Run, e: Env) {
    e.ok || e.partly ==> e.ok && e.content == Proposal(r)
  }

  lemma LandsGit(sh: Shared, id: nat, r: Run, e: Env)
    ensures LandStep(sh, id, r, e).sh.git == Landed(sh.git, id, r, e)
    ensures e.ok ==> var did := LandStep(sh, id, r, e).run.did; if r.at.undo then did.reverted else did.merged
    ensures LandStep(sh, id, r, e).run.req == r.req
    ensures Alone(LandStep(sh, id, r, e).sh.host) <==> Alone(sh.host) && AsProposed(r, e)
  {
  }

  lemma ProposalsLeaveGit(cfg: Config, sh: Shared, id: nat, r: Run, e: Env)
    ensures FrontStep(cfg, sh, id, r, e).sh.git == ProposeStep(sh, id, r, e).sh.git == sh.git
    ensures CheckStep(sh, id, r, e).sh.git == MergedStep(sh, id, r, e).sh.git == sh.git
  {
  }

  lemma HostLeavesGit(cfg: Config, sh: Shared, id: nat, r: Run, e: Env)
    ensures WriteStep(cfg, sh, id, r, e).sh.git == ProbeStep(sh, id, r, e).sh.git == sh.git
    ensures UndoStep(cfg, sh, id, r, e).sh.git == EndStep(sh, id, r, e).sh.git == sh.git
  {
  }

  /** What one step does to main and the mirror: a sync, a landing, or nothing. */
  lemma StepGit(cfg: Config, sh: Shared, id: nat, r: Run, e: Env)
    ensures Act(cfg, sh, id, r, e).sh.git ==
              if Syncing(r.at.pc) then Sync(sh, e).git
              else if r.at.pc.Merging? then Landed(sh.git, id, r, e)
              else sh.git
  {
    SyncsGit(cfg, sh, id, r, e);
    LandsGit(sh, id, r, e);
    ProposalsLeaveGit(cfg, sh, id, r, e);
    HostLeavesGit(cfg, sh, id, r, e);
  }

  lemma SyncsAlone(cfg: Config, sh: Shared, id: nat, r: Run, e: Env)
    ensures QueueStep(sh, id, r, e).sh.host == FrontStep(cfg, sh, id, r, e).sh.host == sh.host
    ensures ProposeStep(sh, id, r, e).sh.host == CheckStep(sh, id, r, e).sh.host == sh.host
    ensures MergedStep(sh, id, r, e).sh.host == PullStep(cfg, sh, id, r, e).sh.host == sh.host
  {
  }

  lemma HostAlone(cfg: Config, sh: Shared, id: nat, r: Run, e: Env)
    ensures ConvergeStep(cfg, sh, id, r, e).sh.host == ProbeStep(sh, id, r, e).sh.host == sh.host
    ensures UndoStep(cfg, sh, id, r, e).sh.host == EndStep(sh, id, r, e).sh.host == sh.host
    ensures var h := WriteStep(cfg, sh, id, r, e).sh.host; h.pushed == sh.host.pushed && h.inexact == sh.host.inexact
  {
  }

  /** Only a merge can end the engine's being alone. */
  lemma StepAlone(cfg: Config, sh: Shared, id: nat, r: Run, e: Env)
    ensures !r.at.pc.Merging? ==> (Alone(Act(cfg, sh, id, r, e).sh.host) <==> Alone(sh.host))
  {
    SyncsAlone(cfg, sh, id, r, e);
    HostAlone(cfg, sh, id, r, e);
  }

  // ---- When the engine is alone ------------------------------------------------------

  /** Nothing outside interferes with main: no push, and no merge that lands something else than was checked. */
  predicate Leaves(w: World, l: Label) {
    match l
    case Pushing(_, _) => false
    case Stepping(id, e) => id < |w.runs| && w.runs[id].at.pc.Merging? ==> AsProposed(w.runs[id], e)
    case _ => true
  }

  predicate LeftAlone(cfg: Config, w: World, ls: seq<Label>)
    requires LegalTrace(cfg, w, ls)
    decreases |ls|
  {
    ls == [] || (Leaves(w, ls[0]) && LeftAlone(cfg, Next(cfg, w, ls[0]), ls[1..]))
  }

  lemma NextAlone(cfg: Config, w: World, l: Label)
    requires Legal(w, l)
    ensures Alone(Next(cfg, w, l).sh.host) <==> Alone(w.sh.host) && Leaves(w, l)
  {
    if l.Stepping? {
      StepAlone(cfg, w.sh, l.id, w.runs[l.id], l.env);
      LandsGit(w.sh, l.id, w.runs[l.id], l.env);
    } else {
      QuietAlone(cfg, w, l);
    }
  }

  lemma QuietAlone(cfg: Config, w: World, l: Label)
    requires Legal(w, l) && !l.Stepping?
    ensures Alone(Quiet(cfg, w, l).sh.host) <==> Alone(w.sh.host) && !l.Pushing?
  {
  }

  /**
   * Merge names the pull request and not the head whose checks were green, so
   * that the two are the same is up to the outside: over any trace the engine
   * stays alone exactly when nobody pushed and each landing was the checked one.
   */
  lemma {:induction false} AloneIffLeftAlone(cfg: Config, w: World, ls: seq<Label>)
    requires LegalTrace(cfg, w, ls)
    ensures Alone(Exec(cfg, w, ls).sh.host) <==> Alone(w.sh.host) && LeftAlone(cfg, w, ls)
    decreases |ls|
  {
    if ls != [] {
      NextAlone(cfg, w, ls[0]);
      AloneIffLeftAlone(cfg, Next(cfg, w, ls[0]), ls[1..]);
    }
  }

  // ---- The invariant ----------------------------------------------------------------

  /** The content a run's merge, or its revert's, lands. */
  function Landing(r: Run, undo: bool): Bytes {
    if undo then r.req.originalRaw else r.req.newContent
  }

  /** Where nothing moved main since the mirror last followed it, the mirror is main. */
  ghost predicate Followed(git: Git) {
    git.synced ==> forall s :: s !in git.moved ==> Get(git.main, s) == Get(git.mirror, s)
  }

  /** Where a run is known to have moved it last, main holds what that run's own request says. */
  ghost predicate Moves(git: Git, runs: seq<Run>) {
    forall s :: s in git.moved && git.moved[s].ByRun? ==>
      && git.moved[s].id < |runs|
      && var (r, undo) := (runs[git.moved[s].id], git.moved[s].undo);
         && r.req.service == s && (if undo then r.did.reverted else r.did.merged)
         && Get(git.main, s) == Some(Landing(r, undo))
  }

  /** With nobody else pushing and exact merges, a run is always known. */
  ghost predicate KnowsMovers(git: Git, h: Host) {
    Alone(h) ==> forall s :: s in git.moved ==> git.moved[s].ByRun?
  }

  ghost predicate Mirrored(w: World) {
    Followed(w.sh.git) && Moves(w.sh.git, w.runs) && KnowsMovers(w.sh.git, w.sh.host)
  }

  lemma MovesStay(git: Git, runs: seq<Run>, runs': seq<Run>)
    requires Moves(git, runs) && |runs| <= |runs'| && forall i :: 0 <= i < |runs| ==> KeepsContent(runs[i], runs'[i])
    ensures Moves(git, runs')
  {
  }

  lemma LandingMoves(sh: Shared, runs: seq<Run>, id: nat, e: Env)
    requires id < |runs| && Moves(sh.git, runs) && KeepsContent(runs[id], LandStep(sh, id, runs[id], e).run)
    ensures Moves(LandStep(sh, id, runs[id], e).sh.git, runs[id := LandStep(sh, id, runs[id], e).run])
  {
    var a := LandStep(sh, id, runs[id], e);
    LandsGit(sh, id, runs[id], e);
    MovesStay(sh.git, runs, runs[id := a.run]);
  }

  lemma SteppingMirrored(cfg: Config, w: World, id: nat, e: Env)
    requires Mirrored(w) && id < |w.runs| && !IsOver(w.runs[id].at.pc)
    requires Calling(cfg, w.runs[id])
    ensures Mirrored(Replace(w, id, Act(cfg, w.sh, id, w.runs[id], e)))
  {
    var (r, a) := (w.runs[id], Act(cfg, w.sh, id, w.runs[id], e));
    StepCalls(cfg, w.sh, id, r, e);
    StepGit(cfg, w.sh, id, r, e);
    StepAlone(cfg, w.sh, id, r, e);
    MovesStay(w.sh.git, w.runs, w.runs[id := a.run]);
    if r.at.pc.Merging? {
      LandsGit(w.sh, id, r, e);
      LandingMoves(w.sh, w.runs, id, e);
    }
  }

  lemma PushMirrored(w: World, service: string, content: Option<Bytes>)
    requires Mirrored(w)
    ensures Mirrored(Push(w, service, content))
  {
    if content.None? {} else {}
  }

  lemma QuietMirrored(cfg: Config, w: World, l: Label)
    requires Mirrored(w) && Legal(w, l) && !l.Stepping?
    ensures Mirrored(Quiet(cfg, w, l))
  {
    match l
    case Stepping(_, _) => {}
    case Registering(ask, recordOk, now) => MovesStay(w.sh.git, w.runs, Register(w, ask, recordOk, now).runs);
    case Crashing => MovesStay(w.sh.git, w.runs, KillAll(w.runs));
    case Pushing(service, content) => PushMirrored(w, service, content);
    case _ => assert Quiet(cfg, w, l).runs == w.runs;
  }

  lemma {:induction false} ExecMirrored(cfg: Config, w: World, ls: seq<Label>)
    requires cfg.revertAttempts >= 1 && Inv(cfg, w) && Mirrored(w) && LegalTrace(cfg, w, ls)
    ensures Mirrored(Exec(cfg, w, ls))
    decreases |ls|
  {
    if ls != [] {
      NextInv(cfg, w, ls[0]);
      NextMirrored(cfg, w, ls[0]);
      ExecMirrored(cfg, Next(cfg, w, ls[0]), ls[1..]);
    }
  }

  lemma NextMirrored(cfg: Config, w: World, l: Label)
    requires AllCalls(w.runs) && (forall i :: 0 <= i < |w.runs| ==> Control(cfg, w.runs[i]))
    requires Mirrored(w) && Legal(w, l)
    ensures Mirrored(Next(cfg, w, l))
  {
    if l.Stepping? { SteppingMirrored(cfg, w, l.id, l.env); } else { QuietMirrored(cfg, w, l); }
  }

  lemma ReachableMirrored(cfg: Config, w: World)
    requires cfg.revertAttempts >= 1 && Reachable(cfg, w)
    ensures Mirrored(w)
  {
    var w0, ls :| Fresh(w0) && LegalTrace(cfg, w0, ls) && Exec(cfg, w0, ls) == w;
    FreshInv(cfg, w0);
    ExecMirrored(cfg, w0, ls);
  }

  // ---- The restore point ---------------------------------------------------------------

  /** Nothing, or some run's own exact merge, moved main last since the mirror followed it. */
  predicate MoverKnown(git: Git, s: string) {
    s in git.moved ==> git.moved[s].ByRun?
  }

  /** What the engine can tell without asking main: nothing moved it, or the run that did landed these bytes. */
  predicate KnownToHold(git: Git, runs: seq<Run>, s: string, raw: Bytes) {
    s in git.moved ==>
      && git.moved[s].ByRun? && git.moved[s].id < |runs|
      && raw == Landing(runs[git.moved[s].id], git.moved[s].undo)
  }

  /**
   * What a run proposing at the front takes as its restore point is the
   * mirror's file. It is main's exactly when nothing moved main since the mirror
   * followed it, or the run that moved it last landed these very bytes: its own
   * restore point if that was its revert, its rewritten file otherwise. When the
   * engine is alone, that tells for every run.
   */
  lemma RestorePointIsMain(cfg: Config, w: World, id: nat, e: Env)
    requires cfg.revertAttempts >= 1 && Reachable(cfg, w) && Legal(w, Stepping(id, e)) && w.runs[id].at.pc.FrontRead?
    ensures Act(cfg, w.sh, id, w.runs[id], e) == FrontStep(cfg, w.sh, id, w.runs[id], e)
    ensures var a := FrontStep(cfg, w.sh, id, w.runs[id], e);
            var (git, s, raw) := (w.sh.git, w.runs[id].req.service, a.run.req.originalRaw);
            a.run.at.pc.Opening? ==>
              && Get(git.mirror, s) == Some(raw)
              && (MoverKnown(git, s) ==> (Get(git.main, s) == Some(raw) <==> KnownToHold(git, w.runs, s, raw)))
              && (Alone(w.sh.host) ==> MoverKnown(git, s))
  {
    ReachableMirrored(cfg, w);
  }
}
