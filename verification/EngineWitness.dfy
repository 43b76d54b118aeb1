/**
 * Worlds the engine does reach in which something one might expect fails: what
 * the theorems' hypotheses and conditions are there for.
 */
module EngineWitness {
  import opened Options
  import opened Digests
  import opened Journals
  import opened Engine
  import opened EngineControl
  import opened EngineReceipts
  import opened EngineHost
  import opened EngineTheorems

  // ---- Leading a reachable world on -------------------------------------------

  lemma {:induction false} ExecOneMore(cfg: Config, w: World, ls: seq<Label>, l: Label)
    requires LegalTrace(cfg, w, ls) && Legal(Exec(cfg, w, ls), l)
    ensures LegalTrace(cfg, w, ls + [l]) && Exec(cfg, w, ls + [l]) == Next(cfg, Exec(cfg, w, ls), l)
    decreases |ls|
  {
    if ls == [] {
      assert (ls + [l])[1..] == [];
    } else {
      assert (ls + [l])[0] == ls[0] && (ls + [l])[1..] == ls[1..] + [l];
      ExecOneMore(cfg, Next(cfg, w, ls[0]), ls[1..], l);
    }
  }

  lemma ReachNext(cfg: Config, w: World, l: Label)
    requires Reachable(cfg, w) && Legal(w, l)
    ensures Reachable(cfg, Next(cfg, w, l))
  {
    var w0, ls :| Fresh(w0) && LegalTrace(cfg, w0, ls) && Exec(cfg, w0, ls) == w;
    ExecOneMore(cfg, w0, ls, l);
  }

  lemma FreshIsReachable(cfg: Config, w: World)
    requires Fresh(w)
    ensures Reachable(cfg, w)
  {
    assert LegalTrace(cfg, w, []) && Exec(cfg, w, []) == w;
  }

  /** One run steps through these answers, never blocked, and ends up so. */
  ghost predicate Drives(cfg: Config, id: nat, a: After, es: seq<Env>, b: After)
    decreases |es|
  {
    if es == [] then a == b
    else Enabled(a.sh.q, a.run, es[0]) && Drives(cfg, id, Act(cfg, a.sh, id, a.run, es[0]), es[1..], b)
  }

  lemma {:induction false} DrivesOn(cfg: Config, id: nat, a: After, es: seq<Env>, b: After, fs: seq<Env>, c: After)
    requires Drives(cfg, id, a, es, b) && Drives(cfg, id, b, fs, c)
    ensures Drives(cfg, id, a, es + fs, c)
    decreases |es|
  {
    if es == [] {
      assert es + fs == fs;
    } else {
      assert (es + fs)[0] == es[0] && (es + fs)[1..] == es[1..] + fs;
      DrivesOn(cfg, id, Act(cfg, a.sh, id, a.run, es[0]), es[1..], b, fs, c);
    }
  }

  lemma {:induction false} DriveReaches(cfg: Config, w: World, id: nat, es: seq<Env>, b: After)
    requires Reachable(cfg, w) && w.up && id < |w.runs| && Drives(cfg, id, After(w.sh, w.runs[id]), es, b)
    ensures Reachable(cfg, Replace(w, id, b))
    decreases |es|
  {
    if es == [] {
      assert Replace(w, id, b) == w;
    } else {
      var l := Stepping(id, es[0]);
      var w1 := Next(cfg, w, l);
      ReachNext(cfg, w, l);
      DriveReaches(cfg, w1, id, es[1..], b);
      assert Replace(w1, id, b) == Replace(w, id, b);
    }
  }

  // ---- Scenes -------------------------------------------------------------------

  const Refused := CarryOn.(ok := false)

  function Landing(content: Bytes): Env {
    CarryOn.(content := content)
  }

  lemma DrivesStep(cfg: Config, id: nat, a: After, e: Env, b: After, es: seq<Env>, c: After)
    requires Enabled(a.sh.q, a.run, e) && b == Act(cfg, a.sh, id, a.run, e) && Drives(cfg, id, b, es, c)
    ensures Drives(cfg, id, a, [e] + es, c)
  {
    assert ([e] + es)[1..] == es;
  }

  lemma DrivesTwo(cfg: Config, id: nat, a: After, e: Env, b: After, f: Env, c: After)
    requires Enabled(a.sh.q, a.run, e) && b == Act(cfg, a.sh, id, a.run, e)
    requires Enabled(b.sh.q, b.run, f) && c == Act(cfg, b.sh, id, b.run, f)
    ensures Drives(cfg, id, a, [e, f], c)
  {
    DrivesStep(cfg, id, b, f, c, [], c);
    DrivesStep(cfg, id, a, e, b, [f], c);
    assert [e] + [f] == [e, f];
  }

  lemma DrivesThree(cfg: Config, id: nat, a: After, e: Env, b: After, f: Env, c: After, g: Env, d: After)
    requires Enabled(a.sh.q, a.run, e) && b == Act(cfg, a.sh, id, a.run, e)
    requires Enabled(b.sh.q, b.run, f) && c == Act(cfg, b.sh, id, b.run, f)
    requires Enabled(c.sh.q, c.run, g) && d == Act(cfg, c.sh, id, c.run, g)
    ensures Drives(cfg, id, a, [e, f, g], d)
  {
    DrivesTwo(cfg, id, b, f, c, g, d);
    DrivesStep(cfg, id, a, e, b, [f, g], d);
    assert [e] + [f, g] == [e, f, g];
  }

  /** A run's deeds but for what it said. */
  function Unsaid(did: Deeds): Deeds {
    did.(events := [])
  }

  /** What a scene leaves: everything but the journal's rows and the events sent. */
  ghost predicate Became(b: After, git: Git, q: Queues, host: Host, req: Request, at: Place, did: Deeds) {
    && b.sh.git == git && b.sh.q == q && b.sh.host == host
    && b.run.req == req && b.run.at == at && Unsaid(b.run.did) == Unsaid(did)
  }

  /** Sync as it leaves main and the mirror. */
  function Caught(git: Git): Git {
    git.(mirror := git.main, moved := map[], synced := true)
  }

  /** Main after a run's merge was pulled and its revert then landed. */
  function ThereAndBack(git: Git, service: string, id: nat, next: Bytes, raw: Bytes): Git {
    MoveMain(Caught(MoveMain(git, service, next, ByRun(id, false))), service, raw, ByRun(id, true))
  }

  /** A fresh run announces itself, syncs and waits for its service. */
  lemma QueuesUp(cfg: Config, id: nat, a: After) returns (b: After)
    requires a.run.at == Place(Begun, false, false, 0, 0, [])
    ensures Drives(cfg, id, a, [CarryOn, CarryOn], b)
    ensures Became(b, Caught(a.sh.git), a.sh.q.(queued := a.sh.q.queued + 1), a.sh.host,
                   a.run.req, a.run.at.(pc := WaitService), a.run.did)
  {
    var a1 := Act(cfg, a.sh, id, a.run, CarryOn);
    b := Act(cfg, a1.sh, id, a1.run, CarryOn);
    DrivesTwo(cfg, id, a, CarryOn, a1, CarryOn, b);
  }

  /** A deploy takes its service lock and the merge lock. */
  lemma TakesLocks(cfg: Config, id: nat, a: After) returns (b: After)
    requires a.run.at == Place(WaitService, false, false, 0, 0, []) && a.run.req.action == Deploy
    requires a.run.req.service !in a.sh.q.locks && !a.sh.q.mergeMu
    ensures Drives(cfg, id, a, [CarryOn, CarryOn], b)
    ensures Became(b, a.sh.git,
                   a.sh.q.(locks := a.sh.q.locks + {a.run.req.service}, mergeMu := true, queued := a.sh.q.queued - 1),
                   a.sh.host, a.run.req, Place(FrontRead, false, true, 0, 0, []),
                   a.run.did.(found := Get(a.sh.git.main, a.run.req.service),
                              stood := Get(a.sh.host.units, a.run.req.service)))
  {
    var a1 := Act(cfg, a.sh, id, a.run, CarryOn);
    b := Act(cfg, a1.sh, id, a1.run, CarryOn);
    DrivesTwo(cfg, id, a, CarryOn, a1, CarryOn, b);
  }

  /** The merge answers success, whatever landed. */
  lemma MergeAnswers(cfg: Config, id: nat, a: After, content: Bytes) returns (b: After)
    requires a.run.at == Place(Merging, false, true, 1, 0, [])
    ensures Drives(cfg, id, a, [Landing(content)], b)
    ensures b.sh == LeaveSpan(Land(a.sh, id, a.run, content, true))
    ensures b.run.req == a.run.req && b.run.at == Place(RecordMerge, false, true, 1, 0, [])
    ensures b.run.did == Noting(a.run, MergeTried(false, true)).did.(merged := true)
  {
    b := Act(cfg, a.sh, id, a.run, Landing(content));
    DrivesStep(cfg, id, a, Landing(content), b, [], b);
  }

  lemma RecordsMerge(cfg: Config, id: nat, a: After) returns (b: After)
    requires a.run.at == Place(RecordMerge, false, true, 1, 0, [])
    ensures Drives(cfg, id, a, [CarryOn, CarryOn], b)
    ensures Became(b, a.sh.git, a.sh.q, a.sh.host, a.run.req, a.run.at.(pc := ApplySync), a.run.did)
  {
    var a1 := Act(cfg, a.sh, id, a.run, CarryOn);
    b := Act(cfg, a1.sh, id, a1.run, CarryOn);
    DrivesTwo(cfg, id, a, CarryOn, a1, CarryOn, b);
  }

  /** The merge lands the proposal and the run goes on to apply it. */
  lemma Merges(cfg: Config, id: nat, a: After) returns (b: After)
    requires a.run.at == Place(Merging, false, true, 1, 0, [])
    ensures Drives(cfg, id, a, [Landing(a.run.req.newContent)] + [CarryOn, CarryOn], b)
    ensures b.sh.git == MoveMain(a.sh.git, a.run.req.service, a.run.req.newContent, ByRun(id, false))
    ensures b.sh.q == a.sh.q.(mergeMu := false)
    ensures b.sh.host == a.sh.host.(lastTouch := a.sh.host.lastTouch[a.run.req.service := id])
    ensures b.run.req == a.run.req && b.run.at == Place(ApplySync, false, true, 1, 0, [])
    ensures b.run.did.merged && b.run.did.reverted == a.run.did.reverted && b.run.did.found == a.run.did.found
  {
    var c := MergeAnswers(cfg, id, a, a.run.req.newContent);
    b := RecordsMerge(cfg, id, c);
    DrivesOn(cfg, id, a, [Landing(a.run.req.newContent)], c, [CarryOn, CarryOn], b);
  }

  /** What main pins now is pulled, but cannot be applied. */
  lemma ApplyFails(cfg: Config, id: nat, a: After, m: Manifest, raw: Bytes) returns (b: After)
    requires a.run.at.pc == ApplySync && !a.run.at.undo && a.run.req.action == Deploy
    requires Get(a.sh.git.main, a.run.req.service) == Some(raw) && cfg.parse(raw) == Some(m)
    requires m.digest == a.run.req.newDigest
    ensures Drives(cfg, id, a, [CarryOn, CarryOn, Refused], b)
    ensures b.sh.git == Caught(a.sh.git) && b.sh.q == a.sh.q && b.sh.host == a.sh.host && b.run.req == a.run.req
    ensures b.run.at == a.run.at.(pc := Restoring, target := raw)
    ensures b.run.did.merged == a.run.did.merged && b.run.did.reverted == a.run.did.reverted
    ensures b.run.did.found == a.run.did.found
  {
    var a1 := Act(cfg, a.sh, id, a.run, CarryOn);
    var a2 := Act(cfg, a1.sh, id, a1.run, CarryOn);
    b := Act(cfg, a2.sh, id, a2.run, Refused);
    DrivesThree(cfg, id, a, CarryOn, a1, CarryOn, a2, Refused, b);
  }

  /** The restore point goes back on the host. */
  lemma RestoresFile(cfg: Config, id: nat, a: After, m: Manifest) returns (b: After)
    requires a.run.at.pc == Restoring && cfg.parse(a.run.req.originalRaw) == Some(m) && m.name == a.run.req.service
    ensures Drives(cfg, id, a, [CarryOn, CarryOn], b)
    ensures b.sh.git == a.sh.git && b.sh.q == a.sh.q
    ensures b.sh.host == a.sh.host.(units := a.sh.host.units[a.run.req.service := a.run.req.originalRaw],
                                    lastTouch := a.sh.host.lastTouch[a.run.req.service := id])
    ensures b.run.req == a.run.req.(prNumber := 0)
    ensures b.run.at == a.run.at.(pc := Restarting, undo := true, target := a.run.req.originalRaw)
    ensures b.run.did.merged == a.run.did.merged && b.run.did.reverted == a.run.did.reverted
    ensures b.run.did.found == a.run.did.found
  {
    var a1 := Act(cfg, a.sh, id, a.run, CarryOn);
    b := Act(cfg, a1.sh, id, a1.run, CarryOn);
    DrivesTwo(cfg, id, a, CarryOn, a1, CarryOn, b);
  }

  /** And runs. */
  lemma RestoredRuns(cfg: Config, id: nat, a: After) returns (b: After)
    requires a.run.at.pc == Restarting && a.run.at.undo
    ensures Drives(cfg, id, a, [CarryOn, CarryOn], b)
    ensures b.sh.git == a.sh.git && b.sh.q == a.sh.q && b.sh.host == a.sh.host && b.run.req == a.run.req
    ensures b.run.at == a.run.at.(pc := RevertTop, tries := 1)
    ensures b.run.did.merged == a.run.did.merged && b.run.did.reverted == a.run.did.reverted
    ensures b.run.did.found == a.run.did.found
  {
    var a1 := Act(cfg, a.sh, id, a.run, CarryOn);
    b := Act(cfg, a1.sh, id, a1.run, CarryOn);
    DrivesTwo(cfg, id, a, CarryOn, a1, CarryOn, b);
  }

  /** The revert opens and is green. */
  lemma RevertOpens(cfg: Config, id: nat, a: After) returns (b: After)
    requires a.run.at.pc == RevertTop && a.run.at.undo && !a.sh.q.mergeMu
    ensures Drives(cfg, id, a, [CarryOn, CarryOn, CarryOn, CarryOn], b)
    ensures b.sh.git == a.sh.git && b.sh.q == a.sh.q.(mergeMu := true) && b.sh.host == a.sh.host
    ensures b.run.req == a.run.req.(prNumber := 0) && b.run.at == a.run.at.(pc := Merging, attempt := 1)
  {
    var a1 := Act(cfg, a.sh, id, a.run, CarryOn);
    var a2 := Act(cfg, a1.sh, id, a1.run, CarryOn);
    var a3 := Act(cfg, a2.sh, id, a2.run, CarryOn);
    b := Act(cfg, a3.sh, id, a3.run, CarryOn);
    DrivesThree(cfg, id, a1, CarryOn, a2, CarryOn, a3, CarryOn, b);
    DrivesStep(cfg, id, a, CarryOn, a1, [CarryOn, CarryOn, CarryOn], b);
    assert [CarryOn] + [CarryOn, CarryOn, CarryOn] == [CarryOn, CarryOn, CarryOn, CarryOn];
  }

  /** And it lands. */
  lemma RevertLands(cfg: Config, id: nat, a: After) returns (b: After)
    requires a.run.at.pc == Merging && a.run.at.undo
    ensures Drives(cfg, id, a, [Landing(a.run.req.originalRaw)], b)
    ensures b.sh.git == MoveMain(a.sh.git, a.run.req.service, a.run.req.originalRaw, ByRun(id, true))
    ensures b.sh.q == a.sh.q.(mergeMu := false)
    ensures b.sh.host == a.sh.host.(lastTouch := a.sh.host.lastTouch[a.run.req.service := id])
    ensures b.run.req == a.run.req && b.run.at == a.run.at.(pc := Finishing(RolledBack))
  {
    b := Act(cfg, a.sh, id, a.run, Landing(a.run.req.originalRaw));
    DrivesStep(cfg, id, a, Landing(a.run.req.originalRaw), b, [], b);
  }

  /** The only revert attempt cannot open its proposal. */
  lemma RevertIsRefused(cfg: Config, id: nat, a: After) returns (b: After)
    requires a.run.at.pc == RevertTop && a.run.at.undo && !a.sh.q.mergeMu && !a.sh.q.cancelled
    requires a.run.at.tries >= cfg.revertAttempts
    ensures Drives(cfg, id, a, [CarryOn, CarryOn, Refused, CarryOn], b)
    ensures b.sh.git == a.sh.git && b.sh.q == a.sh.q && b.sh.host == a.sh.host
    ensures b.run.req == a.run.req.(prNumber := 0) && b.run.at.pc == Finishing(RolledBack)
    ensures b.run.did.merged == a.run.did.merged && b.run.did.reverted == a.run.did.reverted
    ensures b.run.did.found == a.run.did.found
  {
    var a1 := Act(cfg, a.sh, id, a.run, CarryOn);
    var a2 := Act(cfg, a1.sh, id, a1.run, CarryOn);
    var a3 := Act(cfg, a2.sh, id, a2.run, Refused);
    b := Act(cfg, a3.sh, id, a3.run, CarryOn);
    DrivesThree(cfg, id, a1, CarryOn, a2, Refused, a3, CarryOn, b);
    DrivesStep(cfg, id, a, CarryOn, a1, [CarryOn, Refused, CarryOn], b);
    assert [CarryOn] + [CarryOn, Refused, CarryOn] == [CarryOn, CarryOn, Refused, CarryOn];
  }

  /** The receipt. */
  lemma SendsReceipt(cfg: Config, id: nat, a: After) returns (b: After)
    requires a.run.at.pc.Finishing? && a.run.at.holds
    ensures Drives(cfg, id, a, [CarryOn], b)
    ensures b.sh.git == a.sh.git && b.sh.host == a.sh.host && b.sh.q == a.sh.q
    ensures b.run.req == a.run.req && b.run.at == a.run.at.(pc := Releasing)
  {
    b := Act(cfg, a.sh, id, a.run, CarryOn);
    DrivesStep(cfg, id, a, CarryOn, b, [], b);
  }

  /** The lock and the entry. */
  lemma LetsGo(cfg: Config, id: nat, a: After) returns (b: After)
    requires a.run.at.pc.Releasing?
    ensures Drives(cfg, id, a, [CarryOn, CarryOn], b)
    ensures b.sh.git == a.sh.git && b.sh.host == a.sh.host && b.run.at.pc == Gone
    ensures b.sh.q == a.sh.q.(locks := a.sh.q.locks - {a.run.req.service},
                              pending := Deregister(a.sh.q.pending, a.run.req.service, id))
  {
    var a1 := Act(cfg, a.sh, id, a.run, CarryOn);
    b := Act(cfg, a1.sh, id, a1.run, CarryOn);
    DrivesTwo(cfg, id, a, CarryOn, a1, CarryOn, b);
  }

  /** The mirror pins the request, but the host does not run it. */
  lemma FindsItPinned(cfg: Config, id: nat, a: After, pinned: Manifest) returns (b: After)
    requires a.run.at == Place(FrontRead, false, true, 0, 0, []) && a.sh.git.synced && a.run.req.newDigest != ""
    requires a.run.req.service in a.sh.git.mirror && cfg.parse(a.sh.git.mirror[a.run.req.service]) == Some(pinned)
    requires pinned.digest == a.run.req.newDigest
    ensures Drives(cfg, id, a, [CarryOn, CarryOn], b)
    ensures b.sh.git == a.sh.git && b.sh.q == a.sh.q.(mergeMu := false) && b.sh.host == a.sh.host
    ensures b.run.req == a.run.req && b.run.at == Place(ApplySync, false, true, 0, 0, [])
    ensures b.run.did.merged == a.run.did.merged && b.run.did.reverted == a.run.did.reverted
    ensures b.run.did.found == a.run.did.found
  {
    var a1 := Act(cfg, a.sh, id, a.run, CarryOn);
    b := Act(cfg, a1.sh, id, a1.run, CarryOn);
    DrivesTwo(cfg, id, a, CarryOn, a1, CarryOn, b);
  }

  /** What is pulled pins something else by now. */
  lemma PullsAnother(cfg: Config, id: nat, a: After, m: Manifest) returns (b: After)
    requires a.run.at == Place(ApplySync, false, true, 0, 0, [])
    requires a.run.req.service in a.sh.git.main && cfg.parse(a.sh.git.main[a.run.req.service]) == Some(m)
    requires m.digest != a.run.req.newDigest
    ensures Drives(cfg, id, a, [CarryOn, CarryOn], b)
    ensures Became(b, Caught(a.sh.git), a.sh.q, a.sh.host, a.run.req, a.run.at.(pc := Restoring), a.run.did)
  {
    var a1 := Act(cfg, a.sh, id, a.run, CarryOn);
    b := Act(cfg, a1.sh, id, a1.run, CarryOn);
    DrivesTwo(cfg, id, a, CarryOn, a1, CarryOn, b);
  }

  /** The mirror pins the request, the host does not run it, and main has been taken back meanwhile. */
  lemma FindsItUndone(cfg: Config, id: nat, a: After, pinned: Manifest, m: Manifest) returns (b: After)
    requires a.run.at == Place(FrontRead, false, true, 0, 0, []) && a.sh.git.synced && a.run.req.newDigest != ""
    requires a.run.req.service in a.sh.git.mirror && cfg.parse(a.sh.git.mirror[a.run.req.service]) == Some(pinned)
    requires pinned.digest == a.run.req.newDigest
    requires a.run.req.service in a.sh.git.main && cfg.parse(a.sh.git.main[a.run.req.service]) == Some(m)
    requires m.digest != a.run.req.newDigest
    ensures Drives(cfg, id, a, [CarryOn, CarryOn] + [CarryOn, CarryOn], b)
    ensures b.sh.git == Caught(a.sh.git) && b.sh.q == a.sh.q.(mergeMu := false) && b.sh.host == a.sh.host
    ensures b.run.req == a.run.req && b.run.at == Place(Restoring, false, true, 0, 0, [])
    ensures b.run.did.merged == a.run.did.merged && b.run.did.reverted == a.run.did.reverted
    ensures b.run.did.found == a.run.did.found
  {
    var c := FindsItPinned(cfg, id, a, pinned);
    b := PullsAnother(cfg, id, c, m);
    DrivesOn(cfg, id, a, [CarryOn, CarryOn], c, [CarryOn, CarryOn], b);
  }

  /** At the front the mirror's file becomes the restore point. */
  lemma RewritesAtFront(cfg: Config, id: nat, a: After, pinned: Manifest, raw: Bytes, next: Bytes) returns (b: After)
    requires a.run.at == Place(FrontRead, false, true, 0, 0, []) && a.sh.git.synced
    requires Get(a.sh.git.mirror, a.run.req.service) == Some(raw) && cfg.parse(raw) == Some(pinned)
    requires pinned.digest != a.run.req.newDigest
    requires SetDigest(raw, pinned.digest, a.run.req.newDigest) == Ok(next)
    ensures Drives(cfg, id, a, [CarryOn], b)
    ensures b.sh == a.sh && b.run.at == a.run.at.(pc := Opening) && b.run.did == a.run.did
    ensures b.run.req == a.run.req.(newContent := next, originalRaw := raw, oldDigest := pinned.digest)
  {
    b := Act(cfg, a.sh, id, a.run, CarryOn);
    DrivesStep(cfg, id, a, CarryOn, b, [], b);
  }

  /** The merged branch cannot be pulled. */
  lemma CannotSync(cfg: Config, id: nat, a: After) returns (b: After)
    requires a.run.at.pc == ApplySync
    ensures Drives(cfg, id, a, [Refused], b)
    ensures b.sh == a.sh && b.run.req == a.run.req && b.run.at == a.run.at.(pc := Restoring)
    ensures Unsaid(b.run.did) == Unsaid(a.run.did)
  {
    b := Act(cfg, a.sh, id, a.run, Refused);
    DrivesStep(cfg, id, a, Refused, b, [], b);
  }

  /** A converge gets its turn and reads the manifest as main has it. */
  lemma ReadsMain(cfg: Config, id: nat, a: After, m: Manifest, raw: Bytes) returns (b: After)
    requires a.run.at == Place(WaitService, false, false, 0, 0, []) && a.run.req.action == Converge
    requires a.run.req.service !in a.sh.q.locks
    requires Get(a.sh.git.main, a.run.req.service) == Some(raw) && cfg.parse(raw) == Some(m)
    ensures Drives(cfg, id, a, [CarryOn, CarryOn, CarryOn], b)
    ensures b.sh.git == Caught(a.sh.git) && b.sh.host == a.sh.host
    ensures b.run.req == a.run.req.(oldDigest := m.digest, newDigest := m.digest)
    ensures b.run.at == Place(Applying, false, true, 0, 0, raw)
  {
    var a1 := Act(cfg, a.sh, id, a.run, CarryOn);
    var a2 := Act(cfg, a1.sh, id, a1.run, CarryOn);
    b := Act(cfg, a2.sh, id, a2.run, CarryOn);
    DrivesThree(cfg, id, a, CarryOn, a1, CarryOn, a2, CarryOn, b);
  }

  /** The manifest is written to the unit it names, which restarts and is healthy. */
  lemma AppliesWell(cfg: Config, id: nat, a: After, m: Manifest) returns (b: After)
    requires a.run.at.pc == Applying && !a.run.at.undo && cfg.parse(a.run.at.target) == Some(m)
    ensures Drives(cfg, id, a, [CarryOn, CarryOn, CarryOn], b)
    ensures b.sh.git == a.sh.git && b.run.req == a.run.req && b.run.at.pc == Finishing(Healthy)
    ensures b.sh.host == a.sh.host.(units := a.sh.host.units[m.name := a.run.at.target],
                                    lastTouch := a.sh.host.lastTouch[a.run.req.service := id],
                                    misplaced := a.sh.host.misplaced || m.name != a.run.req.service)
  {
    var a1 := Act(cfg, a.sh, id, a.run, CarryOn);
    var a2 := Act(cfg, a1.sh, id, a1.run, CarryOn);
    b := Act(cfg, a2.sh, id, a2.run, CarryOn);
    DrivesThree(cfg, id, a, CarryOn, a1, CarryOn, a2, CarryOn, b);
  }

  /** A run whose first sync fails sends its terminal event, and the journal refuses the receipt. */
  lemma LosesReceipt(cfg: Config, id: nat, a: After) returns (b: After)
    requires a.run.at == Place(Begun, false, false, 0, 0, []) && a.run.did.events == []
    requires id < |a.sh.rows| && !a.sh.rows[id].IsFinished()
    ensures Drives(cfg, id, a, [CarryOn, Refused, CarryOn.(journalOk := false)], b)
    ensures b.run.at.pc == Leaving && b.run.did.events == [Detected, Failed]
    ensures |b.sh.rows| == |a.sh.rows| && !b.sh.rows[id].IsFinished()
  {
    var a1 := Act(cfg, a.sh, id, a.run, CarryOn);
    var a2 := Act(cfg, a1.sh, id, a1.run, Refused);
    b := Act(cfg, a2.sh, id, a2.run, CarryOn.(journalOk := false));
    DrivesThree(cfg, id, a, CarryOn, a1, Refused, a2, CarryOn.(journalOk := false), b);
  }

  /** The proposal is opened, recorded and found green. */
  lemma OpensGreen(cfg: Config, id: nat, a: After) returns (b: After)
    requires a.run.at == Place(Opening, false, true, 0, 0, [])
    ensures Drives(cfg, id, a, [CarryOn, CarryOn, CarryOn], b)
    ensures b.sh.git == a.sh.git && b.sh.q == a.sh.q && b.sh.host == a.sh.host
    ensures b.run.req == a.run.req.(prNumber := 0) && b.run.at == Place(Merging, false, true, 1, 0, [])
    ensures b.run.did.reverted == a.run.did.reverted && b.run.did.found == a.run.did.found
    ensures b.run.did.calls == Then(Then(a.run.did.calls, Opened(false, a.run.req.newContent)), Checked(true))
  {
    var a1 := Act(cfg, a.sh, id, a.run, CarryOn);
    var a2 := Act(cfg, a1.sh, id, a1.run, CarryOn);
    b := Act(cfg, a2.sh, id, a2.run, CarryOn);
    DrivesThree(cfg, id, a, CarryOn, a1, CarryOn, a2, CarryOn, b);
  }

  /** At the front the mirror's file is rewritten, proposed and found green. */
  lemma Proposes(cfg: Config, id: nat, a: After, pinned: Manifest, raw: Bytes, next: Bytes) returns (b: After)
    requires a.run.at == Place(FrontRead, false, true, 0, 0, []) && a.sh.git.synced
    requires Get(a.sh.git.mirror, a.run.req.service) == Some(raw) && cfg.parse(raw) == Some(pinned)
    requires pinned.digest != a.run.req.newDigest
    requires SetDigest(raw, pinned.digest, a.run.req.newDigest) == Ok(next)
    ensures Drives(cfg, id, a, [CarryOn] + [CarryOn, CarryOn, CarryOn], b)
    ensures b.sh.git == a.sh.git && b.sh.q == a.sh.q && b.sh.host == a.sh.host
    ensures b.run.req == a.run.req.(newContent := next, originalRaw := raw, oldDigest := pinned.digest, prNumber := 0)
    ensures b.run.at == Place(Merging, false, true, 1, 0, [])
    ensures b.run.did.calls == Then(Then(a.run.did.calls, Opened(false, next)), Checked(true))
  {
    var c := RewritesAtFront(cfg, id, a, pinned, raw, next);
    b := OpensGreen(cfg, id, c);
    DrivesOn(cfg, id, a, [CarryOn], c, [CarryOn, CarryOn, CarryOn], b);
  }

  // ---- Acts -----------------------------------------------------------------------

  /** A whole deploy that merges, cannot be applied, is restored and reverted. */
  lemma DeployIsReverted(cfg: Config, id: nat, a: After, raw: Bytes, next: Bytes, m: Manifest, m': Manifest)
    returns (es: seq<Env>, b: After)
    requires a.run.at == Place(Begun, false, false, 0, 0, []) && a.run.req.action == Deploy
    requires a.run.req.service !in a.sh.q.locks && !a.sh.q.mergeMu
    requires Get(a.sh.git.main, a.run.req.service) == Some(raw) && cfg.parse(raw) == Some(m)
    requires m.name == a.run.req.service && m.digest != a.run.req.newDigest
    requires SetDigest(raw, m.digest, a.run.req.newDigest) == Ok(next)
    requires cfg.parse(next) == Some(m') && m'.digest == a.run.req.newDigest
    ensures Drives(cfg, id, a, es, b)
    ensures var s := a.run.req.service;
            && b.sh.git == ThereAndBack(Caught(a.sh.git), s, id, next, raw)
            && b.sh.q == a.sh.q.(pending := Deregister(a.sh.q.pending, s, id))
            && b.sh.host == a.sh.host.(units := a.sh.host.units[s := raw], lastTouch := a.sh.host.lastTouch[s := id])
  {
    var c, fs := DeployMerges(cfg, id, a, raw, next, m);
    var d, gs := MergedIsUndone(cfg, id, c, raw, next, m, m');
    DrivesOn(cfg, id, a, fs, c, gs, d);
    es, b := fs + gs, d;
    assert a.sh.q.locks + {a.run.req.service} - {a.run.req.service} == a.sh.q.locks;
  }

  lemma DeployMerges(cfg: Config, id: nat, a: After, raw: Bytes, next: Bytes, m: Manifest)
    returns (b: After, es: seq<Env>)
    requires a.run.at == Place(Begun, false, false, 0, 0, []) && a.run.req.action == Deploy
    requires a.run.req.service !in a.sh.q.locks && !a.sh.q.mergeMu
    requires Get(a.sh.git.main, a.run.req.service) == Some(raw) && cfg.parse(raw) == Some(m)
    requires m.digest != a.run.req.newDigest && SetDigest(raw, m.digest, a.run.req.newDigest) == Ok(next)
    ensures Drives(cfg, id, a, es, b)
    ensures var s := a.run.req.service;
            && b.sh.git == MoveMain(Caught(a.sh.git), s, next, ByRun(id, false))
            && b.sh.q == a.sh.q.(locks := a.sh.q.locks + {s})
            && b.sh.host == a.sh.host.(lastTouch := a.sh.host.lastTouch[s := id])
            && b.run.req == a.run.req.(newContent := next, originalRaw := raw, oldDigest := m.digest, prNumber := 0)
            && b.run.at == Place(ApplySync, false, true, 1, 0, [])
  {
    var c := QueuesUp(cfg, id, a);
    var d := TakesLocks(cfg, id, c);
    var f := Proposes(cfg, id, d, m, raw, next);
    b := Merges(cfg, id, f);
    es := [CarryOn, CarryOn] + [CarryOn, CarryOn] + ([CarryOn] + [CarryOn, CarryOn, CarryOn])
      + ([Landing(next)] + [CarryOn, CarryOn]);
    DrivesOn(cfg, id, a, [CarryOn, CarryOn], c, [CarryOn, CarryOn], d);
    DrivesOn(cfg, id, a, [CarryOn, CarryOn] + [CarryOn, CarryOn], d, [CarryOn] + [CarryOn, CarryOn, CarryOn], f);
    DrivesOn(cfg, id, a, [CarryOn, CarryOn] + [CarryOn, CarryOn] + ([CarryOn] + [CarryOn, CarryOn, CarryOn]), f,
             [Landing(next)] + [CarryOn, CarryOn], b);
  }

  lemma Restores(cfg: Config, id: nat, a: After, m: Manifest) returns (b: After)
    requires a.run.at.pc == Restoring && cfg.parse(a.run.req.originalRaw) == Some(m) && m.name == a.run.req.service
    ensures Drives(cfg, id, a, [CarryOn, CarryOn] + [CarryOn, CarryOn], b)
    ensures var s := a.run.req.service;
            && b.sh.git == a.sh.git && b.sh.q == a.sh.q
            && b.sh.host == a.sh.host.(units := a.sh.host.units[s := a.run.req.originalRaw],
                                       lastTouch := a.sh.host.lastTouch[s := id])
            && b.run.req == a.run.req.(prNumber := 0)
            && b.run.at == a.run.at.(pc := RevertTop, undo := true, tries := 1, target := a.run.req.originalRaw)
    ensures b.run.did.merged == a.run.did.merged && b.run.did.reverted == a.run.did.reverted
    ensures b.run.did.found == a.run.did.found
  {
    var c := RestoresFile(cfg, id, a, m);
    b := RestoredRuns(cfg, id, c);
    DrivesOn(cfg, id, a, [CarryOn, CarryOn], c, [CarryOn, CarryOn], b);
  }

  lemma MergedIsUndone(cfg: Config, id: nat, a: After, raw: Bytes, next: Bytes, m: Manifest, m': Manifest)
    returns (b: After, es: seq<Env>)
    requires a.run.at == Place(ApplySync, false, true, 1, 0, []) && a.run.req.action == Deploy && !a.sh.q.mergeMu
    requires Get(a.sh.git.main, a.run.req.service) == Some(next) && cfg.parse(next) == Some(m')
    requires m'.digest == a.run.req.newDigest
    requires a.run.req.originalRaw == raw && cfg.parse(raw) == Some(m) && m.name == a.run.req.service
    ensures Drives(cfg, id, a, es, b)
    ensures var s := a.run.req.service;
            && b.sh.git == MoveMain(Caught(a.sh.git), s, raw, ByRun(id, true))
            && b.sh.q == a.sh.q.(locks := a.sh.q.locks - {s}, pending := Deregister(a.sh.q.pending, s, id))
            && b.sh.host == a.sh.host.(units := a.sh.host.units[s := raw], lastTouch := a.sh.host.lastTouch[s := id])
  {
    var c, e1 := MergedIsRestored(cfg, id, a, raw, next, m, m');
    var d, fs := RevertsAndEnds(cfg, id, c);
    DrivesOn(cfg, id, a, e1, c, fs, d);
    b, es := d, e1 + fs;
  }

  lemma MergedIsRestored(cfg: Config, id: nat, a: After, raw: Bytes, next: Bytes, m: Manifest, m': Manifest)
    returns (b: After, es: seq<Env>)
    requires a.run.at == Place(ApplySync, false, true, 1, 0, []) && a.run.req.action == Deploy
    requires Get(a.sh.git.main, a.run.req.service) == Some(next) && cfg.parse(next) == Some(m')
    requires m'.digest == a.run.req.newDigest
    requires a.run.req.originalRaw == raw && cfg.parse(raw) == Some(m) && m.name == a.run.req.service
    ensures Drives(cfg, id, a, es, b)
    ensures b.sh.git == Caught(a.sh.git) && b.sh.q == a.sh.q
    ensures var s := a.run.req.service;
            b.sh.host == a.sh.host.(units := a.sh.host.units[s := raw], lastTouch := a.sh.host.lastTouch[s := id])
    ensures b.run.req == a.run.req.(prNumber := 0) && b.run.at.pc == RevertTop && b.run.at.undo && b.run.at.holds
  {
    var c := ApplyFails(cfg, id, a, m', next);
    b := Restores(cfg, id, c, m);
    es := [CarryOn, CarryOn, Refused] + ([CarryOn, CarryOn] + [CarryOn, CarryOn]);
    DrivesOn(cfg, id, a, [CarryOn, CarryOn, Refused], c, [CarryOn, CarryOn] + [CarryOn, CarryOn], b);
  }

  lemma RevertsAndEnds(cfg: Config, id: nat, a: After) returns (b: After, es: seq<Env>)
    requires a.run.at.pc == RevertTop && a.run.at.undo && a.run.at.holds && !a.sh.q.mergeMu
    ensures Drives(cfg, id, a, es, b)
    ensures var s := a.run.req.service;
            && b.sh.git == MoveMain(a.sh.git, s, a.run.req.originalRaw, ByRun(id, true))
            && b.sh.q == a.sh.q.(locks := a.sh.q.locks - {s}, pending := Deregister(a.sh.q.pending, s, id))
            && b.sh.host == a.sh.host.(lastTouch := a.sh.host.lastTouch[s := id])
  {
    var c := RevertOpens(cfg, id, a);
    var d := RevertLands(cfg, id, c);
    var f := SendsReceipt(cfg, id, d);
    b := LetsGo(cfg, id, f);
    var e1 := [CarryOn, CarryOn, CarryOn, CarryOn] + [Landing(a.run.req.originalRaw)];
    DrivesOn(cfg, id, a, [CarryOn, CarryOn, CarryOn, CarryOn], c, [Landing(a.run.req.originalRaw)], d);
    DrivesOn(cfg, id, a, e1, d, [CarryOn], f);
    DrivesOn(cfg, id, a, e1 + [CarryOn], f, [CarryOn, CarryOn], b);
    es := e1 + [CarryOn] + [CarryOn, CarryOn];
  }

  /** A deploy whose change was taken back while it waited: it rolls back what it never did, and cannot revert. */
  lemma UndoneWhileWaiting(cfg: Config, id: nat, a: After, pinned: Manifest, m: Manifest)
    returns (b: After, es: seq<Env>)
    requires a.run.at == Place(WaitService, false, false, 0, 0, []) && a.run.req.action == Deploy
    requires a.run.req.newDigest != ""
    requires a.run.req.service !in a.sh.q.locks && !a.sh.q.mergeMu && !a.sh.q.cancelled && a.sh.git.synced
    requires var s := a.run.req.service;
             && s in a.sh.git.mirror && cfg.parse(a.sh.git.mirror[s]) == Some(pinned)
             && pinned.digest == a.run.req.newDigest
             && Get(a.sh.git.main, s) == Some(a.run.req.originalRaw)
    requires cfg.parse(a.run.req.originalRaw) == Some(m) && m.digest != a.run.req.newDigest
    requires m.name == a.run.req.service
    requires cfg.revertAttempts == 1
    ensures Drives(cfg, id, a, es, b)
    ensures var s := a.run.req.service;
            && b.sh.git == Caught(a.sh.git)
            && b.sh.host == a.sh.host.(units := a.sh.host.units[s := a.run.req.originalRaw],
                                       lastTouch := a.sh.host.lastTouch[s := id])
            && b.run.at.pc == Finishing(RolledBack)
            && b.run.req.service == s && b.run.req.originalRaw == a.run.req.originalRaw
            && b.run.did.merged == a.run.did.merged && b.run.did.reverted == a.run.did.reverted
  {
    var c := TakesLocks(cfg, id, a);
    var d := FindsItUndone(cfg, id, c, pinned, m);
    var f := Restores(cfg, id, d, m);
    b := RevertIsRefused(cfg, id, f);
    var e1 := [CarryOn, CarryOn] + ([CarryOn, CarryOn] + [CarryOn, CarryOn]);
    DrivesOn(cfg, id, a, [CarryOn, CarryOn], c, [CarryOn, CarryOn] + [CarryOn, CarryOn], d);
    var e2 := e1 + ([CarryOn, CarryOn] + [CarryOn, CarryOn]);
    DrivesOn(cfg, id, a, e1, d, [CarryOn, CarryOn] + [CarryOn, CarryOn], f);
    es := e2 + [CarryOn, CarryOn, Refused, CarryOn];
    DrivesOn(cfg, id, a, e2, f, [CarryOn, CarryOn, Refused, CarryOn], b);
  }

  // ---- The opening: three deploys of one service are clicked -------------------------

  /** A file is its own pin: it parses exactly when it is a digest, and names this service. */
  function Pins(service: string): Bytes -> Option<Manifest> {
    (raw: Bytes) => if IsDigest(raw) then Some(Manifest(service, raw, "")) else None
  }

  function Plain(service: string): Config {
    Config(Pins(service), 1)
  }

  predicate ThreePins(d1: string, d2: string, d3: string) {
    IsDigest(d1) && IsDigest(d2) && IsDigest(d3) && d1 != d2 && d2 != d3 && d1 != d3
  }

  lemma RewritesPin(d: string, e: string)
    requires IsDigest(d) && IsDigest(e)
    ensures SetDigest(d, d, e) == Ok(e)
  {
    SetDigestIsExact(d, d, e);
    assert d[0..DIGEST_LENGTH] == d && OnlyAt(d, d, 0);
    assert d[..0] + e + d[DIGEST_LENGTH..] == e;
  }

  function AskFor(service: string, pinned: string, digest: string): Ask {
    Ask(Deploy, service, digest, pinned, pinned, digest)
  }

  function Installed(s: string, d1: string): World {
    World(Shared(Git(map[s := d1], {(s, d1)}, map[], map[], false), Queues({}, false, 0, map[], false),
                 Host(map[s := d1], map[], false, false, false), []),
          [], multiset{}, {}, true)
  }

  function Mirrored(s: string, d1: string): World {
    var w := Installed(s, d1);
    w.(sh := w.sh.(git := Caught(w.sh.git)))
  }

  lemma MirroredReach(s: string, d1: string)
    ensures Reachable(Plain(s), Mirrored(s, d1))
  {
    FreshIsReachable(Plain(s), Installed(s, d1));
    ReachNext(Plain(s), Installed(s, d1), Drifting(CarryOn));
  }

  /** A click on a deploy of another digest than the pinned one gets as far as its own row and run. */
  lemma ClickReach(s: string, w: World, d1: string, d: string) returns (w': World)
    requires Reachable(Plain(s), w) && w.up && w.sh.git.synced && Get(w.sh.git.mirror, s) == Some(d1)
    requires IsDigest(d1) && IsDigest(d) && d != d1 && w.asks == multiset{}
    requires Joins(w.sh.q.pending, AskFor(s, d1, d)).None?
    ensures Reachable(Plain(s), w') && w' == Register(w, AskFor(s, d1, d), true, 0) && w'.asks == multiset{}
  {
    RewritesPin(d1, d);
    var ask := AskFor(s, d1, d);
    var l := Asking(Deploy, s, d, CarryOn);
    assert Prepare(Plain(s), w.sh, Deploy, s, d, CarryOn) == Ok(ask);
    var w1 := Next(Plain(s), w, l);
    ReachNext(Plain(s), w, l);
    assert w1.asks == multiset{ask};
    ReachNext(Plain(s), w1, Registering(ask, true, 0));
    w' := Register(w1, ask, true, 0);
    assert w' == Register(w, ask, true, 0);
  }

  function Clicked(s: string, d1: string, d2: string, d3: string): World {
    var w := Mirrored(s, d1);
    w.(sh := w.sh.(rows := [NewRow(AskFor(s, d1, d3), 0), NewRow(AskFor(s, d1, d2), 0), NewRow(AskFor(s, d1, d2), 0)],
                   q := w.sh.q.(pending := map[s := Pending(Deploy, d3, 0)])),
       runs := [NewRun(AskFor(s, d1, d3)), NewRun(AskFor(s, d1, d2)), NewRun(AskFor(s, d1, d2))])
  }

  function FirstClicked(s: string, d1: string, d3: string): World {
    var w := Mirrored(s, d1);
    w.(sh := w.sh.(rows := [NewRow(AskFor(s, d1, d3), 0)], q := w.sh.q.(pending := map[s := Pending(Deploy, d3, 0)])),
       runs := [NewRun(AskFor(s, d1, d3))])
  }

  lemma FirstClickedReach(s: string, d1: string, d3: string)
    requires IsDigest(d1) && IsDigest(d3) && d1 != d3
    ensures Reachable(Plain(s), FirstClicked(s, d1, d3))
  {
    MirroredReach(s, d1);
    var w := ClickReach(s, Mirrored(s, d1), d1, d3);
    assert w == FirstClicked(s, d1, d3);
  }

  /** A click while the pending entry pins another digest gets a run of its own and leaves the entry. */
  lemma RivalClick(s: string, w: World, d1: string, d2: string) returns (w': World)
    requires Reachable(Plain(s), w) && w.up && w.sh.git.synced && Get(w.sh.git.mirror, s) == Some(d1)
    requires w.asks == multiset{}
    requires IsDigest(d1) && IsDigest(d2) && d1 != d2 && s in w.sh.q.pending && w.sh.q.pending[s].digest != d2
    ensures Reachable(Plain(s), w')
    ensures w' == w.(sh := w.sh.(rows := w.sh.rows + [NewRow(AskFor(s, d1, d2), 0)]),
                     runs := w.runs + [NewRun(AskFor(s, d1, d2))])
  {
    w' := ClickReach(s, w, d1, d2);
  }

  /** The second and third click cannot join the first: it holds the pending entry for another digest. */
  lemma ClickedReach(s: string, d1: string, d2: string, d3: string)
    requires ThreePins(d1, d2, d3)
    ensures Reachable(Plain(s), Clicked(s, d1, d2, d3))
  {
    FirstClickedReach(s, d1, d3);
    var w := RivalClick(s, FirstClicked(s, d1, d3), d1, d2);
    var w' := RivalClick(s, w, d1, d2);
    assert w' == Clicked(s, d1, d2, d3);
  }

  // ---- The first of the two identical deploys is taken back ---------------------------

  /** The others wait for the service lock; main pins the old digest again, the mirror still the one that failed. */
  ghost predicate TakenBack(s: string, d1: string, d2: string, d3: string, w: World) {
    && w.up && |w.runs| == 3
    && w.sh.git == ThereAndBack(Mirrored(s, d1).sh.git, s, 1, d2, d1)
    && w.sh.q.locks == {} && !w.sh.q.mergeMu && !w.sh.q.cancelled
    && w.sh.host == Host(map[s := d1], map[s := 1], false, false, false)
    && IsQueued(w.runs[0], AskFor(s, d1, d3)) && IsQueued(w.runs[2], AskFor(s, d1, d2))
  }

  ghost predicate IsQueued(r: Run, ask: Ask) {
    r.req == NewRun(ask).req && r.at == Place(WaitService, false, false, 0, 0, []) && Unsaid(r.did) == NewRun(ask).did
  }

  /** Two of them are queued before anything else happens. */
  lemma QueuedReach(s: string, d1: string, d2: string, d3: string) returns (w: World)
    requires ThreePins(d1, d2, d3)
    ensures Reachable(Plain(s), w) && w.up && |w.runs| == 3
    ensures w.sh.git == Mirrored(s, d1).sh.git && w.sh.host == Mirrored(s, d1).sh.host
    ensures w.sh.q.locks == {} && !w.sh.q.mergeMu && !w.sh.q.cancelled
    ensures IsQueued(w.runs[0], AskFor(s, d1, d3)) && w.runs[1] == NewRun(AskFor(s, d1, d2))
    ensures IsQueued(w.runs[2], AskFor(s, d1, d2))
  {
    var cfg := Plain(s);
    ClickedReach(s, d1, d2, d3);
    var w0 := Clicked(s, d1, d2, d3);
    var a := QueuesUp(cfg, 0, After(w0.sh, w0.runs[0]));
    DriveReaches(cfg, w0, 0, [CarryOn, CarryOn], a);
    var w1 := Replace(w0, 0, a);
    var b := QueuesUp(cfg, 2, After(w1.sh, w1.runs[2]));
    DriveReaches(cfg, w1, 2, [CarryOn, CarryOn], b);
    w := Replace(w1, 2, b);
  }

  lemma TakenBackReach(s: string, d1: string, d2: string, d3: string) returns (w: World)
    requires ThreePins(d1, d2, d3)
    ensures Reachable(Plain(s), w) && TakenBack(s, d1, d2, d3, w)
  {
    var cfg := Plain(s);
    var w0 := QueuedReach(s, d1, d2, d3);
    RewritesPin(d1, d2);
    var es, b := DeployIsReverted(cfg, 1, After(w0.sh, w0.runs[1]), d1, d2, Manifest(s, d1, ""), Manifest(s, d2, ""));
    DriveReaches(cfg, w0, 1, es, b);
    w := Replace(w0, 1, b);
  }

  lemma TakenBackIsNamed(s: string, d1: string, d2: string)
    ensures NamedForService(Plain(s), ThereAndBack(Mirrored(s, d1).sh.git, s, 1, d2, d1).held)
  {
  }

  // ---- The worlds ----------------------------------------------------------------------

  /**
   * Undisturbed, a run can end rolled back having neither merged nor reverted
   * anything, its revert refused, and still leave main and the host equal: main
   * had been taken back before it got its turn, and the mirror had not followed.
   */
  lemma RolledBackForNothing(s: string, d1: string, d2: string, d3: string) returns (w: World, id: nat)
    requires ThreePins(d1, d2, d3)
    ensures Reachable(Plain(s), w) && Alone(w.sh.host) && NamedForService(Plain(s), w.sh.git.held)
    ensures Get(w.sh.host.lastTouch, s) == Some(id) && id < |w.runs|
    ensures var r := w.runs[id];
            && Outcome(r) == Some(RolledBack) && !r.did.merged && !r.did.reverted
            && Get(w.sh.host.units, s) == Get(w.sh.git.main, s) == Some(r.req.originalRaw)
  {
    var cfg := Plain(s);
    var w0 := TakenBackReach(s, d1, d2, d3);
    var b, es := UndoneWhileWaiting(cfg, 2, After(w0.sh, w0.runs[2]), Manifest(s, d2, ""), Manifest(s, d1, ""));
    DriveReaches(cfg, w0, 2, es, b);
    TakenBackIsNamed(s, d1, d2);
    w, id := Replace(w0, 2, b), 2;
    assert w.runs[id] == b.run && w.sh == b.sh;
  }

  /**
   * With nobody pushing, a deploy at the front can take as its restore point
   * not what main pins but the very digest another deploy was just taken back
   * from: main moved since the mirror last followed it.
   */
  lemma RestorePointThatFailed(s: string, d1: string, d2: string, d3: string) returns (w: World, id: nat)
    requires ThreePins(d1, d2, d3)
    ensures Reachable(Plain(s), w) && Alone(w.sh.host) && id < |w.runs|
    ensures w.runs[id].at.pc == Opening && w.runs[id].req.originalRaw == d2 && Get(w.sh.git.main, s) == Some(d1)
    ensures Get(w.sh.git.moved, s) == Some(ByRun(1, true))
  {
    var cfg := Plain(s);
    var w0 := TakenBackReach(s, d1, d2, d3);
    var a := TakesLocks(cfg, 0, After(w0.sh, w0.runs[0]));
    RewritesPin(d2, d3);
    var b := RewritesAtFront(cfg, 0, a, Manifest(s, d2, ""), d2, d3);
    DrivesOn(cfg, 0, After(w0.sh, w0.runs[0]), [CarryOn, CarryOn], a, [CarryOn], b);
    DriveReaches(cfg, w0, 0, [CarryOn, CarryOn] + [CarryOn], b);
    w, id := Replace(w0, 0, b), 0;
  }

  /**
   * That main moved since is not enough: when a merge could not be pulled and
   * its revert then landed, the mirror pins what main pins without having
   * followed either.
   */
  lemma RestorePointDespiteMerges(s: string, d1: string, d2: string, d3: string) returns (w: World, id: nat)
    requires ThreePins(d1, d2, d3)
    ensures Reachable(Plain(s), w) && Alone(w.sh.host) && id < |w.runs|
    ensures w.runs[id].at.pc == Opening && Get(w.sh.git.main, s) == Some(w.runs[id].req.originalRaw)
    ensures s in w.sh.git.moved
  {
    var cfg := Plain(s);
    var w0 := QueuedReach(s, d1, d2, d3);
    var w1 := UnpulledReach(s, d1, d2, d3, w0);
    var a := TakesLocks(cfg, 0, After(w1.sh, w1.runs[0]));
    RewritesPin(d1, d3);
    var b := RewritesAtFront(cfg, 0, a, Manifest(s, d1, ""), d1, d3);
    DrivesOn(cfg, 0, After(w1.sh, w1.runs[0]), [CarryOn, CarryOn], a, [CarryOn], b);
    DriveReaches(cfg, w1, 0, [CarryOn, CarryOn] + [CarryOn], b);
    w, id := Replace(w1, 0, b), 0;
  }

  lemma UnpulledReach(s: string, d1: string, d2: string, d3: string, w0: World) returns (w: World)
    requires ThreePins(d1, d2, d3) && Reachable(Plain(s), w0) && w0.up && |w0.runs| == 3
    requires w0.sh.git == Mirrored(s, d1).sh.git && w0.sh.host == Mirrored(s, d1).sh.host
    requires w0.sh.q.locks == {} && !w0.sh.q.mergeMu && w0.runs[1] == NewRun(AskFor(s, d1, d2))
    ensures Reachable(Plain(s), w) && w.up && |w.runs| == 3 && w.runs[0] == w0.runs[0]
    ensures w.sh.git == MoveMain(MoveMain(Mirrored(s, d1).sh.git, s, d2, ByRun(1, false)), s, d1, ByRun(1, true))
    ensures Alone(w.sh.host)
    ensures w.sh.q.locks == {} && !w.sh.q.mergeMu
  {
    var (cfg, a) := (Plain(s), After(w0.sh, w0.runs[1]));
    RewritesPin(d1, d2);
    var b, es := DeployMerges(cfg, 1, a, d1, d2, Manifest(s, d1, ""));
    var c := CannotSync(cfg, 1, b);
    var d := Restores(cfg, 1, c, Manifest(s, d1, ""));
    var f, fs := RevertsAndEnds(cfg, 1, d);
    DrivesOn(cfg, 1, a, es, b, [Refused], c);
    DrivesOn(cfg, 1, a, es + [Refused], c, [CarryOn, CarryOn] + [CarryOn, CarryOn], d);
    DrivesOn(cfg, 1, a, es + [Refused] + ([CarryOn, CarryOn] + [CarryOn, CarryOn]), d, fs, f);
    DriveReaches(cfg, w0, 1, es + [Refused] + ([CarryOn, CarryOn] + [CarryOn, CarryOn]) + fs, f);
    w := Replace(w0, 1, f);
  }

  /**
   * A run can be past its receipt, its terminal event sent, and its row still in
   * flight: nothing closes it but a restart.
   */
  lemma ReceiptLost(s: string, d1: string, d2: string) returns (w: World)
    requires IsDigest(d1) && IsDigest(d2) && d1 != d2
    ensures Reachable(Plain(s), w) && |w.runs| == 1 == |w.sh.rows|
    ensures AfterReceipt(w.runs[0].at.pc) && !w.runs[0].at.pc.Killed? && OneReceipt(w.runs[0].did.events)
    ensures !w.sh.rows[0].IsFinished()
  {
    MirroredReach(s, d1);
    var w0 := ClickReach(s, Mirrored(s, d1), d1, d2);
    var b := LosesReceipt(Plain(s), 0, After(w0.sh, w0.runs[0]));
    DriveReaches(Plain(s), w0, 0, [CarryOn, Refused, CarryOn.(journalOk := false)], b);
    w := Replace(w0, 0, b);
  }

  /**
   * The merge names a pull request, not the head whose checks were green: a run
   * nobody else pushed beside merges straight after a green check of what it
   * opened, is told that this merged, and main holds something else.
   */
  lemma MergedUnchecked(s: string, d1: string, d2: string, other: Bytes) returns (w: World, calls: Calls)
    requires IsDigest(d1) && IsDigest(d2) && d1 != d2 && other != d2
    ensures Reachable(Plain(s), w) && !w.sh.host.pushed && |w.runs| == 1 && w.runs[0].did.merged
    ensures w.runs[0].did.calls == Then(Then(Then(calls, Opened(false, d2)), Checked(true)), MergeTried(false, true))
    ensures Get(w.sh.git.main, s) == Some(other)
  {
    var cfg := Plain(s);
    FirstClickedReach(s, d1, d2);
    RewritesPin(d1, d2);
    var w0 := FirstClicked(s, d1, d2);
    var a := After(w0.sh, w0.runs[0]);
    var b := QueuesUp(cfg, 0, a);
    var c := TakesLocks(cfg, 0, b);
    var d := Proposes(cfg, 0, c, Manifest(s, d1, ""), d1, d2);
    var f := MergeAnswers(cfg, 0, d, other);
    var es := [CarryOn, CarryOn] + [CarryOn, CarryOn];
    DrivesOn(cfg, 0, a, [CarryOn, CarryOn], b, [CarryOn, CarryOn], c);
    DrivesOn(cfg, 0, a, es, c, [CarryOn] + [CarryOn, CarryOn, CarryOn], d);
    DrivesOn(cfg, 0, a, es + ([CarryOn] + [CarryOn, CarryOn, CarryOn]), d, [Landing(other)], f);
    DriveReaches(cfg, w0, 0, es + ([CarryOn] + [CarryOn, CarryOn, CarryOn]) + [Landing(other)], f);
    w, calls := Replace(w0, 0, f), c.run.did.calls;
  }

  /** A call that failed can have taken effect all the same: a sync, a merge, a write to the host. */
  lemma FailedCallsCanTakeEffect(cfg: Config, sh: Shared, id: nat, r: Run)
    ensures exists e: Env :: !e.ok && Sync(sh, e).git.mirror == sh.git.main
    ensures r.at.pc.Merging? ==>
              exists e: Env :: !e.ok && Get(Act(cfg, sh, id, r, e).sh.git.main, r.req.service) == Some(Proposal(r))
    ensures r.at.pc.Applying? ==>
              exists e: Env :: !e.ok && Get(Act(cfg, sh, id, r, e).sh.host.units, UnitOf(cfg, r)) == Some(r.at.target)
  {
    var e := Refused.(partly := true, content := Proposal(r));
    assert Sync(sh, e).git.mirror == sh.git.main;
    assert r.at.pc.Merging? ==> Get(Act(cfg, sh, id, r, e).sh.git.main, r.req.service) == Some(Proposal(r));
    assert r.at.pc.Applying? ==> Get(Act(cfg, sh, id, r, e).sh.host.units, UnitOf(cfg, r)) == Some(r.at.target);
  }

  // ---- A manifest that names another service -------------------------------------------

  function Elsewhere(t: string): Config {
    Config((raw: Bytes) => if IsDigest(raw) then Some(Manifest(t, raw, "")) else None, 1)
  }

  function Bare(s: string, d: string): World {
    var w := Installed(s, d);
    w.(sh := w.sh.(host := w.sh.host.(units := map[])))
  }

  /**
   * With a manifest that names another service, a healthy run of its own
   * service leaves that service's unit unwritten, and writes the other's unit
   * without ever holding the other's lock.
   */
  lemma UnitOfAnother(s: string, t: string, d: string) returns (w: World, id: nat)
    requires IsDigest(d) && s != t
    ensures Reachable(Elsewhere(t), w) && Alone(w.sh.host) && !NamedForService(Elsewhere(t), w.sh.git.held)
    ensures Get(w.sh.host.lastTouch, s) == Some(id) && id < |w.runs| && Outcome(w.runs[id]) == Some(Healthy)
    ensures Get(w.sh.git.main, s) == Some(d) && s !in w.sh.host.units
    ensures Get(w.sh.host.units, t) == Some(d) && t !in w.sh.host.lastTouch
  {
    var (cfg, m) := (Elsewhere(t), Manifest(t, d, ""));
    var w0 := ConvergeClicked(s, t, d);
    var a := QueuesUp(cfg, 0, After(w0.sh, w0.runs[0]));
    var b := ReadsMain(cfg, 0, a, m, d);
    var c := AppliesWell(cfg, 0, b, m);
    DrivesOn(cfg, 0, After(w0.sh, w0.runs[0]), [CarryOn, CarryOn], a, [CarryOn, CarryOn, CarryOn], b);
    var es := [CarryOn, CarryOn] + [CarryOn, CarryOn, CarryOn];
    DrivesOn(cfg, 0, After(w0.sh, w0.runs[0]), es, b, [CarryOn, CarryOn, CarryOn], c);
    DriveReaches(cfg, w0, 0, es + [CarryOn, CarryOn, CarryOn], c);
    w, id := Replace(w0, 0, c), 0;
    assert (s, d) in w.sh.git.held && cfg.parse(d) == Some(m);
  }

  lemma ConvergeAsked(s: string, t: string, d: string) returns (w: World)
    requires IsDigest(d)
    ensures Reachable(Elsewhere(t), w) && w.up
    ensures w == Bare(s, d).(sh := Bare(s, d).sh.(git := Caught(Bare(s, d).sh.git)),
                             asks := multiset{Ask(Converge, s, d, d, d, d)})
  {
    var (cfg, w0) := (Elsewhere(t), Bare(s, d));
    FreshIsReachable(cfg, w0);
    ReachNext(cfg, w0, Drifting(CarryOn));
    var w1 := Next(cfg, w0, Drifting(CarryOn));
    assert Prepare(cfg, w1.sh, Converge, s, "", CarryOn) == Ok(Ask(Converge, s, d, d, d, d));
    ReachNext(cfg, w1, Asking(Converge, s, "", CarryOn));
    w := Next(cfg, w1, Asking(Converge, s, "", CarryOn));
  }

  lemma ConvergeClicked(s: string, t: string, d: string) returns (w: World)
    requires IsDigest(d)
    ensures Reachable(Elsewhere(t), w) && w.up && |w.runs| == 1
    ensures w.runs[0].at == Place(Begun, false, false, 0, 0, []) && w.runs[0].req.action == Converge
    ensures w.runs[0].req.service == s
    ensures w.sh.git == Caught(Bare(s, d).sh.git) && w.sh.host == Bare(s, d).sh.host && w.sh.q.locks == {}
  {
    var w0 := ConvergeAsked(s, t, d);
    var ask := Ask(Converge, s, d, d, d, d);
    assert ask in w0.asks;
    ReachNext(Elsewhere(t), w0, Registering(ask, true, 0));
    w := Register(w0, ask, true, 0);
  }
}
