/**
 * The whole course of a deploy or rollback that meets no failure: that the way
 * from the click to a healthy host is there, and what it leaves behind.
 */
module EngineCourse {
  import opened Options
  import opened Digests
  import opened Journals
  import opened Engine
  import opened EngineControl
  import opened EngineWitness

  // ---- Two or three steps at a time ----------------------------------------------

  /** The run's row brought to a state. */
  function Stated(sh: Shared, id: nat, row: Row): Shared
    requires id < |sh.rows|
  {
    sh.(rows := sh.rows[id := row])
  }

  function Saying(did: Deeds, said: seq<State>): Deeds {
    did.(events := did.events + said)
  }

  ghost predicate Open(sh: Shared, id: nat) {
    id < |sh.rows| && !sh.rows[id].IsFinished()
  }

  lemma Announces(cfg: Config, id: nat, a: After) returns (b: After)
    requires Open(a.sh, id) && a.run.at == Place(Begun, false, false, 0, 0, [])
    ensures Drives(cfg, id, a, [CarryOn, CarryOn], b)
    ensures b.sh == Stated(a.sh, id, a.sh.rows[id].(state := Detected))
                    .(git := Caught(a.sh.git), q := a.sh.q.(queued := a.sh.q.queued + 1))
    ensures b.run == a.run.(at := a.run.at.(pc := WaitService), did := Saying(a.run.did, [Detected, Detected]))
  {
    var a1 := Act(cfg, a.sh, id, a.run, CarryOn);
    b := Act(cfg, a1.sh, id, a1.run, CarryOn);
    DrivesTwo(cfg, id, a, CarryOn, a1, CarryOn, b);
  }

  lemma ComesToTheFront(cfg: Config, id: nat, a: After) returns (b: After)
    requires a.run.at == Place(WaitService, false, false, 0, 0, []) && a.run.req.action != Converge
    requires a.run.req.service !in a.sh.q.locks && !a.sh.q.mergeMu
    ensures Drives(cfg, id, a, [CarryOn, CarryOn], b)
    ensures b.sh == a.sh.(q := a.sh.q.(locks := a.sh.q.locks + {a.run.req.service}, mergeMu := true,
                                       queued := a.sh.q.queued - 1))
    ensures b.run.req == a.run.req && b.run.at == Place(FrontRead, false, true, 0, 0, [])
    ensures b.run.did.events == a.run.did.events
  {
    var a1 := Act(cfg, a.sh, id, a.run, CarryOn);
    b := Act(cfg, a1.sh, id, a1.run, CarryOn);
    DrivesTwo(cfg, id, a, CarryOn, a1, CarryOn, b);
  }

  lemma OpensProposal(cfg: Config, id: nat, a: After, pinned: Manifest, raw: Bytes, next: Bytes, number: nat)
    returns (b: After)
    requires Open(a.sh, id) && a.run.at == Place(FrontRead, false, true, 0, 0, []) && a.sh.git.synced
    requires Get(a.sh.git.mirror, a.run.req.service) == Some(raw) && cfg.parse(raw) == Some(pinned)
    requires pinned.digest != a.run.req.newDigest
    requires SetDigest(raw, pinned.digest, a.run.req.newDigest) == Ok(next)
    ensures Drives(cfg, id, a, [CarryOn, CarryOn.(number := number), CarryOn], b)
    ensures b.sh == Stated(a.sh, id, a.sh.rows[id].(prNumber := number, state := PrOpen))
    ensures b.run.req == a.run.req.(newContent := next, originalRaw := raw, oldDigest := pinned.digest,
                                    prNumber := number)
    ensures b.run.at == Place(Checking, false, true, 1, 0, []) && b.run.did.events == a.run.did.events + [PrOpen]
  {
    var opening := CarryOn.(number := number);
    var a1 := Act(cfg, a.sh, id, a.run, CarryOn);
    var a2 := Act(cfg, a1.sh, id, a1.run, opening);
    b := Act(cfg, a2.sh, id, a2.run, CarryOn);
    DrivesThree(cfg, id, a, CarryOn, a1, opening, a2, CarryOn, b);
  }

  lemma MergesGreen(cfg: Config, id: nat, a: After) returns (b: After)
    requires Open(a.sh, id) && a.run.at == Place(Checking, false, true, 1, 0, [])
    ensures Drives(cfg, id, a, [CarryOn, Landing(a.run.req.newContent)], b)
    ensures var s := a.run.req.service;
            b.sh == Stated(a.sh, id, a.sh.rows[id].(state := Checks))
                    .(git := MoveMain(a.sh.git, s, a.run.req.newContent, ByRun(id, false)),
                      q := a.sh.q.(mergeMu := false),
                      host := a.sh.host.(lastTouch := a.sh.host.lastTouch[s := id]))
    ensures b.run.req == a.run.req && b.run.at == Place(RecordMerge, false, true, 1, 0, [])
    ensures b.run.did.events == a.run.did.events + [Checks]
  {
    var a1 := Act(cfg, a.sh, id, a.run, CarryOn);
    b := Act(cfg, a1.sh, id, a1.run, Landing(a.run.req.newContent));
    DrivesTwo(cfg, id, a, CarryOn, a1, Landing(a.run.req.newContent), b);
  }

  lemma NotesMerge(cfg: Config, id: nat, a: After, sha: string) returns (b: After)
    requires Open(a.sh, id) && a.run.at == Place(RecordMerge, false, true, 1, 0, [])
    ensures Drives(cfg, id, a, [CarryOn.(text := sha), CarryOn], b)
    ensures b.sh == Stated(a.sh, id, a.sh.rows[id].(mergeSHA := sha, state := Reconciling))
    ensures b.run == a.run.(at := a.run.at.(pc := ApplySync), did := Saying(a.run.did, [Merged, Reconciling]))
  {
    var a1 := Act(cfg, a.sh, id, a.run, CarryOn.(text := sha));
    b := Act(cfg, a1.sh, id, a1.run, CarryOn);
    DrivesTwo(cfg, id, a, CarryOn.(text := sha), a1, CarryOn, b);
  }

  lemma PullsMerged(cfg: Config, id: nat, a: After, raw: Bytes, m: Manifest) returns (b: After)
    requires a.run.at.pc == ApplySync && Get(a.sh.git.main, a.run.req.service) == Some(raw)
    requires cfg.parse(raw) == Some(m) && m.digest == a.run.req.newDigest
    ensures Drives(cfg, id, a, [CarryOn, CarryOn], b)
    ensures b.sh == a.sh.(git := Caught(a.sh.git))
    ensures b.run == a.run.(at := a.run.at.(pc := Applying, target := raw))
  {
    var a1 := Act(cfg, a.sh, id, a.run, CarryOn);
    b := Act(cfg, a1.sh, id, a1.run, CarryOn);
    DrivesTwo(cfg, id, a, CarryOn, a1, CarryOn, b);
  }

  lemma ComesUp(cfg: Config, id: nat, a: After, m: Manifest) returns (b: After)
    requires Open(a.sh, id) && a.run.at.pc == Applying && !a.run.at.undo
    requires cfg.parse(a.run.at.target) == Some(m) && m.name == a.run.req.service
    ensures Drives(cfg, id, a, [CarryOn, CarryOn, CarryOn], b)
    ensures b.sh == Stated(a.sh, id, a.sh.rows[id].(state := Probing))
                    .(host := a.sh.host.(units := a.sh.host.units[m.name := a.run.at.target],
                                         lastTouch := a.sh.host.lastTouch[m.name := id]))
    ensures b.run.req == a.run.req && b.run.at == a.run.at.(pc := Finishing(Healthy))
    ensures b.run.did.events == a.run.did.events + [Reconciling, Probing]
  {
    var a1 := Act(cfg, a.sh, id, a.run, CarryOn);
    var a2 := Act(cfg, a1.sh, id, a1.run, CarryOn);
    b := Act(cfg, a2.sh, id, a2.run, CarryOn);
    DrivesThree(cfg, id, a, CarryOn, a1, CarryOn, a2, CarryOn, b);
  }

  lemma SendsHealthy(cfg: Config, id: nat, a: After, now: int) returns (b: After)
    requires Open(a.sh, id) && a.run.at.pc == Finishing(Healthy) && a.run.at.holds
    ensures Drives(cfg, id, a, [CarryOn.(now := now)], b)
    ensures b.sh == Stated(a.sh, id, a.sh.rows[id].(state := Healthy, finishedAt := Some(now)))
    ensures b.run == a.run.(at := a.run.at.(pc := Releasing), did := Saying(a.run.did, [Healthy]))
  {
    b := Act(cfg, a.sh, id, a.run, CarryOn.(now := now));
    DrivesStep(cfg, id, a, CarryOn.(now := now), b, [], b);
  }

  lemma LeavesAll(cfg: Config, id: nat, a: After) returns (b: After)
    requires a.run.at.pc.Releasing?
    ensures Drives(cfg, id, a, [CarryOn, CarryOn], b)
    ensures b.sh == a.sh.(q := a.sh.q.(locks := a.sh.q.locks - {a.run.req.service},
                                       pending := Deregister(a.sh.q.pending, a.run.req.service, id)))
    ensures b.run.at.pc == Gone && b.run.did == a.run.did
  {
    var a1 := Act(cfg, a.sh, id, a.run, CarryOn);
    b := Act(cfg, a1.sh, id, a1.run, CarryOn);
    DrivesTwo(cfg, id, a, CarryOn, a1, CarryOn, b);
  }

  // ---- The course -------------------------------------------------------------------

  /** Nothing is in a run's way: free locks, a pin to change once, and a rewritten file that reads well. */
  ghost predicate Clear(cfg: Config, id: nat, a: After, raw: Bytes, next: Bytes, m: Manifest, m': Manifest) {
    && Open(a.sh, id) && a.run.at == Place(Begun, false, false, 0, 0, []) && a.run.req.action != Converge
    && a.run.did.events == [] && a.run.req.service !in a.sh.q.locks && !a.sh.q.mergeMu
    && Get(a.sh.git.main, a.run.req.service) == Some(raw) && cfg.parse(raw) == Some(m)
    && m.digest != a.run.req.newDigest && SetDigest(raw, m.digest, a.run.req.newDigest) == Ok(next)
    && cfg.parse(next) == Some(m') && m'.digest == a.run.req.newDigest && m'.name == a.run.req.service
  }

  /** From the click to the front of both queues. */
  lemma Queues(cfg: Config, id: nat, a: After) returns (b: After, es: seq<Env>)
    requires Open(a.sh, id) && a.run.at == Place(Begun, false, false, 0, 0, []) && a.run.req.action != Converge
    requires a.run.req.service !in a.sh.q.locks && !a.sh.q.mergeMu
    ensures Drives(cfg, id, a, es, b)
    ensures b.sh == Stated(a.sh, id, a.sh.rows[id].(state := Detected))
                    .(git := Caught(a.sh.git),
                      q := a.sh.q.(locks := a.sh.q.locks + {a.run.req.service}, mergeMu := true))
    ensures b.run.req == a.run.req && b.run.at == Place(FrontRead, false, true, 0, 0, [])
    ensures b.run.did.events == a.run.did.events + [Detected, Detected]
  {
    var c := Announces(cfg, id, a);
    b := ComesToTheFront(cfg, id, c);
    DrivesOn(cfg, id, a, [CarryOn, CarryOn], c, [CarryOn, CarryOn], b);
    es := [CarryOn, CarryOn] + [CarryOn, CarryOn];
  }

  /** From the click to the merge. */
  lemma Lands(cfg: Config, id: nat, a: After, raw: Bytes, next: Bytes, m: Manifest, m': Manifest, number: nat)
    returns (b: After, es: seq<Env>)
    requires Clear(cfg, id, a, raw, next, m, m')
    ensures Drives(cfg, id, a, es, b)
    ensures var s := a.run.req.service;
            && b.sh.git.main == a.sh.git.main[s := next] && b.sh.host.units == a.sh.host.units
            && b.sh.q == a.sh.q.(locks := a.sh.q.locks + {s})
    ensures b.sh.rows == a.sh.rows[id := a.sh.rows[id].(prNumber := number, state := Checks)]
    ensures b.run.req.service == a.run.req.service && b.run.req.newDigest == a.run.req.newDigest
    ensures b.run.at == Place(RecordMerge, false, true, 1, 0, [])
    ensures b.run.did.events == [Detected, Detected, PrOpen, Checks]
  {
    var c, fs := Queues(cfg, id, a);
    var d := OpensProposal(cfg, id, c, m, raw, next, number);
    b := MergesGreen(cfg, id, d);
    var open := [CarryOn, CarryOn.(number := number), CarryOn];
    DrivesOn(cfg, id, a, fs, c, open, d);
    DrivesOn(cfg, id, a, fs + open, d, [CarryOn, Landing(next)], b);
    es := fs + open + [CarryOn, Landing(next)];
  }

  /** From the merge to the applier. */
  lemma Pulls(cfg: Config, id: nat, a: After, next: Bytes, m': Manifest, sha: string) returns (b: After, es: seq<Env>)
    requires Open(a.sh, id) && a.run.at == Place(RecordMerge, false, true, 1, 0, [])
    requires Get(a.sh.git.main, a.run.req.service) == Some(next) && cfg.parse(next) == Some(m')
    requires m'.digest == a.run.req.newDigest
    ensures Drives(cfg, id, a, es, b)
    ensures b.sh == Stated(a.sh, id, a.sh.rows[id].(mergeSHA := sha, state := Reconciling)).(git := Caught(a.sh.git))
    ensures b.run.req == a.run.req && b.run.at == Place(Applying, false, true, 1, 0, next)
    ensures b.run.did.events == a.run.did.events + [Merged, Reconciling]
  {
    var c := NotesMerge(cfg, id, a, sha);
    b := PullsMerged(cfg, id, c, next, m');
    DrivesOn(cfg, id, a, [CarryOn.(text := sha), CarryOn], c, [CarryOn, CarryOn], b);
    es := [CarryOn.(text := sha), CarryOn] + [CarryOn, CarryOn];
  }

  /** From the applier to the end. */
  lemma Settles(cfg: Config, id: nat, a: After, m': Manifest, now: int) returns (b: After, es: seq<Env>)
    requires Open(a.sh, id) && a.run.at.pc == Applying && !a.run.at.undo && a.run.at.holds
    requires cfg.parse(a.run.at.target) == Some(m') && m'.name == a.run.req.service
    ensures Drives(cfg, id, a, es, b)
    ensures var s := a.run.req.service;
            b.sh == Stated(a.sh, id, a.sh.rows[id].(state := Healthy, finishedAt := Some(now)))
                    .(q := a.sh.q.(locks := a.sh.q.locks - {s}, pending := Deregister(a.sh.q.pending, s, id)),
                      host := a.sh.host.(units := a.sh.host.units[s := a.run.at.target],
                                         lastTouch := a.sh.host.lastTouch[s := id]))
    ensures b.run.at.pc == Gone
    ensures b.run.did.events == a.run.did.events + [Reconciling, Probing, Healthy]
  {
    var c := ComesUp(cfg, id, a, m');
    var d := SendsHealthy(cfg, id, c, now);
    b := LeavesAll(cfg, id, d);
    var applied := [CarryOn, CarryOn, CarryOn] + [CarryOn.(now := now)];
    DrivesOn(cfg, id, a, [CarryOn, CarryOn, CarryOn], c, [CarryOn.(now := now)], d);
    DrivesOn(cfg, id, a, applied, d, [CarryOn, CarryOn], b);
    es := applied + [CarryOn, CarryOn];
  }

  /** From the merge to the end. */
  lemma Applies(cfg: Config, id: nat, a: After, next: Bytes, m': Manifest, sha: string, now: int)
    returns (b: After, es: seq<Env>)
    requires Open(a.sh, id) && a.run.at == Place(RecordMerge, false, true, 1, 0, [])
    requires Get(a.sh.git.main, a.run.req.service) == Some(next) && cfg.parse(next) == Some(m')
    requires m'.digest == a.run.req.newDigest && m'.name == a.run.req.service
    ensures Drives(cfg, id, a, es, b)
    ensures var s := a.run.req.service;
            && b.sh.git.main == a.sh.git.main == b.sh.git.mirror && b.sh.host.units == a.sh.host.units[s := next]
            && b.sh.q == a.sh.q.(locks := a.sh.q.locks - {s}, pending := Deregister(a.sh.q.pending, s, id))
    ensures b.sh.rows == a.sh.rows[id := a.sh.rows[id].(mergeSHA := sha, state := Healthy, finishedAt := Some(now))]
    ensures b.run.at.pc == Gone
    ensures b.run.did.events == a.run.did.events + [Merged, Reconciling, Reconciling, Probing, Healthy]
  {
    var c, fs := Pulls(cfg, id, a, next, m', sha);
    var d, gs := Settles(cfg, id, c, m', now);
    DrivesOn(cfg, id, a, fs, c, gs, d);
    b, es := d, fs + gs;
  }

  lemma LockedAndFreed(q: Queues, service: string, id: nat)
    requires service !in q.locks
    ensures var locked := q.(locks := q.locks + {service});
            locked.(locks := locked.locks - {service}, pending := Deregister(locked.pending, service, id)) ==
              q.(pending := Deregister(q.pending, service, id))
  {
    assert q.locks + {service} - {service} == q.locks;
  }

  lemma WrittenTwice(rows: seq<Row>, id: nat, r: Row, r': Row)
    requires id < |rows|
    ensures rows[id := r][id := r'] == rows[id := r']
  {
  }

  /**
   * When every call is answered well, a deploy or rollback with the locks free
   * goes through: main, mirror and host hold its rewritten file, the row has the
   * pull request, the merge commit and a healthy receipt, the events tell the
   * whole lifecycle in order, and the engine's fields are as before but for the
   * run's own entry.
   */
  lemma GoesThrough(cfg: Config, id: nat, a: After, raw: Bytes, next: Bytes, m: Manifest, m': Manifest,
                    number: nat, sha: string, now: int)
    returns (b: After, es: seq<Env>)
    requires Clear(cfg, id, a, raw, next, m, m')
    ensures Drives(cfg, id, a, es, b)
    ensures var s := a.run.req.service;
            && b.sh.git.main == a.sh.git.main[s := next] == b.sh.git.mirror
            && b.sh.host.units == a.sh.host.units[s := next]
            && b.sh.q == a.sh.q.(pending := Deregister(a.sh.q.pending, s, id))
    ensures b.sh.rows == a.sh.rows[id := a.sh.rows[id].(prNumber := number, mergeSHA := sha, state := Healthy,
                                                        finishedAt := Some(now))]
    ensures b.run.at.pc == Gone
    ensures b.run.did.events ==
              [Detected, Detected, PrOpen, Checks, Merged, Reconciling, Reconciling, Probing, Healthy]
  {
    var c, fs := Lands(cfg, id, a, raw, next, m, m', number);
    var d, gs := Applies(cfg, id, c, next, m', sha, now);
    DrivesOn(cfg, id, a, fs, c, gs, d);
    b, es := d, fs + gs;
    LockedAndFreed(a.sh.q, a.run.req.service, id);
    WrittenTwice(a.sh.rows, id, c.sh.rows[id], d.sh.rows[id]);
  }
}
