/**
 * The invariant of the whole engine, kept by every label of every legal trace.
 */
module EngineRuns {
  import opened Options
  import opened Digests
  import opened Journals
  import opened Engine
  import opened EngineControl
  import opened EngineReceipts
  import opened EngineTargets
  import opened EngineCalls
  import opened EngineHost

  // ---- The invariant ----------------------------------------------------------

  ghost predicate AllReceipts(rows: seq<Row>, closed: set<nat>, runs: seq<Run>, up: bool) {
    && |rows| == |runs| && (forall id :: id in closed ==> id < |runs|)
    && (forall i :: 0 <= i < |runs| ==> Receipts(rows[i], i in closed, runs[i]))
    && (up ==> forall i :: 0 <= i < |runs| && runs[i].at.pc.Killed? ==> rows[i].IsFinished())
  }

  ghost predicate AllBacked(cfg: Config, runs: seq<Run>) {
    forall i :: 0 <= i < |runs| ==> Backed(cfg, runs[i])
  }

  ghost predicate AllTargets(cfg: Config, git: Git, runs: seq<Run>) {
    Held(git) && forall i :: 0 <= i < |runs| ==> Targets(cfg, git.held, runs[i])
  }

  ghost predicate AllCalls(runs: seq<Run>) {
    forall i :: 0 <= i < |runs| ==> CallsInPlace(runs[i])
  }

  ghost predicate AllInPlace(git: Git, h: Host, runs: seq<Run>) {
    && (forall s :: s in h.lastTouch ==> h.lastTouch[s] < |runs| && runs[h.lastTouch[s]].req.service == s)
    && (Undisturbed(h) ==> forall i :: 0 <= i < |runs| ==> InPlace(git, h, i, runs[i]))
  }

  ghost predicate AllGrounded(git: Git, h: Host, runs: seq<Run>) {
    Undisturbed(h) ==> forall i :: 0 <= i < |runs| ==> Grounded(git, h, i, runs[i])
  }

  /** A pending entry belongs to a run that has not deregistered and pins what the entry says. */
  ghost predicate Pendings(pending: map<string, Pending>, runs: seq<Run>) {
    forall s :: s in pending ==>
      && pending[s].id < |runs|
      && var r := runs[pending[s].id];
         r.req.service == s && r.req.action == pending[s].action && !IsOver(r.at.pc)
         && (r.req.action != Converge || Undecided(r.at.pc) ==> r.req.newDigest == pending[s].digest)
  }

  ghost predicate AskOk(cfg: Config, held: set<(string, Bytes)>, ask: Ask) {
    && IsDigest(ask.digest)
    && (if ask.action == Converge then ask.digest == ask.oldDigest else RestorePoint(cfg, held, NewRun(ask).req))
  }

  ghost predicate Inv(cfg: Config, w: World) {
    && ControlInv(cfg, w)
    && AllReceipts(w.sh.rows, w.closed, w.runs, w.up) && AllBacked(cfg, w.runs)
    && AllTargets(cfg, w.sh.git, w.runs) && AllCalls(w.runs)
    && AllInPlace(w.sh.git, w.sh.host, w.runs) && AllGrounded(w.sh.git, w.sh.host, w.runs)
    && Pendings(w.sh.q.pending, w.runs)
    && (forall ask :: ask in w.asks ==> AskOk(cfg, w.sh.git.held, ask))
    && (w.sh.host.misplaced ==> Misnamed(cfg, w.sh.git.held))
  }

  // ---- One run steps: the others keep what they rely on -------------------------

  lemma TargetsGrow(cfg: Config, held: set<(string, Bytes)>, held': set<(string, Bytes)>, r: Run)
    requires Targets(cfg, held, r) && held <= held'
    ensures Targets(cfg, held', r)
  {
  }

  lemma MisnamedGrows(cfg: Config, held: set<(string, Bytes)>, held': set<(string, Bytes)>)
    requires Misnamed(cfg, held) && held <= held'
    ensures Misnamed(cfg, held')
  {
    var p :| p in held && cfg.parse(p.1).Some? && cfg.parse(p.1).value.name != p.0;
    assert p in held';
  }

  lemma AllTargetsGrow(cfg: Config, git: Git, git': Git, runs: seq<Run>)
    requires AllTargets(cfg, git, runs) && Held(git') && git.held <= git'.held
    ensures AllTargets(cfg, git', runs)
  {
    forall i | 0 <= i < |runs| ensures Targets(cfg, git'.held, runs[i]) {
      TargetsGrow(cfg, git.held, git'.held, runs[i]);
    }
  }

  /** What another run relies on survives a step: it stands behind another service's lock, or it is done. */
  lemma InPlaceStable(cfg: Config, sh: Shared, sh': Shared, id: nat, r: Run, j: nat, q: Run)
    requires Framed(sh, id, r, sh') && Undisturbed(sh'.host) && InPlace(sh.git, sh.host, j, q) && Control(cfg, q)
    requires j != id && (q.at.holds && r.at.holds ==> q.req.service != r.req.service)
    ensures InPlace(sh'.git, sh'.host, j, q)
  {
    assert Get(sh'.git.mirror, q.req.service) == Get(sh.git.mirror, q.req.service)
        || Get(sh'.git.mirror, q.req.service) == Get(sh'.git.main, q.req.service);
  }

  lemma GroundedStable(cfg: Config, sh: Shared, sh': Shared, id: nat, r: Run, j: nat, q: Run)
    requires Framed(sh, id, r, sh') && Undisturbed(sh'.host) && Grounded(sh.git, sh.host, j, q)
    requires j != id && (q.at.holds && r.at.holds ==> q.req.service != r.req.service)
    ensures Grounded(sh'.git, sh'.host, j, q)
  {
    assert Get(sh'.git.main, q.req.service) == Get(sh.git.main, q.req.service)
        || (q.req.service == r.req.service && r.at.holds && TouchedLast(sh'.host, q.req.service, id));
  }

  lemma ReplaceGrounded(cfg: Config, w: World, id: nat, a: After)
    requires ControlInv(cfg, w) && AllGrounded(w.sh.git, w.sh.host, w.runs)
    requires id < |w.runs| && Hosted(w.sh, id, w.runs[id], a)
    ensures AllGrounded(a.sh.git, a.sh.host, w.runs[id := a.run])
  {
    if Undisturbed(a.sh.host) {
      forall j | 0 <= j < |w.runs| && j != id ensures Grounded(a.sh.git, a.sh.host, j, w.runs[j]) {
        GroundedStable(cfg, w.sh, a.sh, id, w.runs[id], j, w.runs[j]);
      }
    }
  }

  lemma ReplaceInPlace(cfg: Config, w: World, id: nat, a: After)
    requires ControlInv(cfg, w) && AllInPlace(w.sh.git, w.sh.host, w.runs)
    requires id < |w.runs| && Hosted(w.sh, id, w.runs[id], a) && a.run.req.service == w.runs[id].req.service
    ensures AllInPlace(a.sh.git, a.sh.host, w.runs[id := a.run])
  {
    forall s | s in a.sh.host.lastTouch
      ensures a.sh.host.lastTouch[s] < |w.runs| && w.runs[id := a.run][a.sh.host.lastTouch[s]].req.service == s
    {
      assert Get(a.sh.host.lastTouch, s) == Some(a.sh.host.lastTouch[s]);
    }
    if Undisturbed(a.sh.host) {
      forall j | 0 <= j < |w.runs| && j != id ensures InPlace(a.sh.git, a.sh.host, j, w.runs[j]) {
        InPlaceStable(cfg, w.sh, a.sh, id, w.runs[id], j, w.runs[j]);
      }
    }
  }

  lemma ReplacePendings(cfg: Config, w: World, id: nat, a: After)
    requires Pendings(w.sh.q.pending, w.runs) && id < |w.runs| && Targeted(cfg, w.sh, id, w.runs[id], a)
    requires IsOver(a.run.at.pc) ==> w.runs[id].at.pc.Leaving?
    ensures Pendings(a.sh.q.pending, w.runs[id := a.run])
  {
  }

  lemma ReplaceReceipts(cfg: Config, w: World, id: nat, a: After)
    requires AllReceipts(w.sh.rows, w.closed, w.runs, w.up) && AllBacked(cfg, w.runs)
    requires id < |w.runs| && id !in w.closed && !a.run.at.pc.Killed? && Journalled(cfg, w.sh, id, a)
    ensures AllReceipts(a.sh.rows, w.closed, w.runs[id := a.run], w.up) && AllBacked(cfg, w.runs[id := a.run])
  {
  }

  lemma ReplaceInv(cfg: Config, w: World, id: nat, a: After)
    requires Inv(cfg, w) && w.up && id < |w.runs| && id !in w.closed
    requires Controlled(cfg, w.sh, w.runs[id], a) && Journalled(cfg, w.sh, id, a)
    requires Targeted(cfg, w.sh, id, w.runs[id], a) && CallsInPlace(a.run) && Hosted(w.sh, id, w.runs[id], a)
    ensures Inv(cfg, Replace(w, id, a))
  {
    ReplaceControl(cfg, w, id, a);
    ReplaceReceipts(cfg, w, id, a);
    ReplaceInPlace(cfg, w, id, a);
    ReplaceGrounded(cfg, w, id, a);
    ReplacePendings(cfg, w, id, a);
    AllTargetsGrow(cfg, w.sh.git, a.sh.git, w.runs);
    if w.sh.host.misplaced { MisnamedGrows(cfg, w.sh.git.held, a.sh.git.held); }
  }

  /** Everything one step keeps, for the run that takes it. */
  lemma StepsWell(cfg: Config, sh: Shared, id: nat, r: Run, e: Env)
    requires Controllable(cfg, sh, r, e) && Journalling(cfg, sh, id, r) && Targeting(cfg, sh, r)
    requires CallsInPlace(r) && Grounding(cfg, sh, id, r)
    ensures var a := Act(cfg, sh, id, r, e);
            && Controlled(cfg, sh, r, a) && Journalled(cfg, sh, id, a) && Targeted(cfg, sh, id, r, a)
            && CallsInPlace(a.run) && Hosted(sh, id, r, a)
  {
    StepControl(cfg, sh, id, r, e);
    StepReceipts(cfg, sh, id, r, e);
    StepTargets(cfg, sh, id, r, e);
    StepCalls(cfg, sh, id, r, e);
    StepInPlace(cfg, sh, id, r, e);
  }

  lemma RunStandsWell(cfg: Config, w: World, id: nat)
    requires Inv(cfg, w) && id < |w.runs| && !IsOver(w.runs[id].at.pc)
    ensures Control(cfg, w.runs[id]) && Journalling(cfg, w.sh, id, w.runs[id]) && Targeting(cfg, w.sh, w.runs[id])
    ensures CallsInPlace(w.runs[id]) && Grounding(cfg, w.sh, id, w.runs[id]) && id !in w.closed
  {
    assert Receipts(w.sh.rows[id], id in w.closed, w.runs[id]);
  }

  lemma StepKeepsInv(cfg: Config, w: World, id: nat, e: Env)
    requires Inv(cfg, w) && w.up && id < |w.runs| && id !in w.closed
    requires Controllable(cfg, w.sh, w.runs[id], e) && Journalling(cfg, w.sh, id, w.runs[id])
    requires Targeting(cfg, w.sh, w.runs[id]) && CallsInPlace(w.runs[id]) && Grounding(cfg, w.sh, id, w.runs[id])
    ensures Inv(cfg, Replace(w, id, Act(cfg, w.sh, id, w.runs[id], e)))
  {
    StepsWell(cfg, w.sh, id, w.runs[id], e);
    ReplaceInv(cfg, w, id, Act(cfg, w.sh, id, w.runs[id], e));
  }

  lemma SteppingInv(cfg: Config, w: World, id: nat, e: Env)
    requires cfg.revertAttempts >= 1 && Inv(cfg, w) && Legal(w, Stepping(id, e))
    ensures Inv(cfg, Replace(w, id, Act(cfg, w.sh, id, w.runs[id], e)))
  {
    RunStandsWell(cfg, w, id);
    StepKeepsInv(cfg, w, id, e);
  }

  // ---- The other labels ---------------------------------------------------------

  /** What a prepared request carries: a well-formed pin, and a restore point taken from the mirror. */
  lemma PreparedAsk(cfg: Config, sh: Shared, action: Action, service: string, want: string, e: Env)
    requires Held(sh.git) && Prepare(cfg, sh, action, service, want, e).Ok?
    ensures AskOk(cfg, sh.git.held, Prepare(cfg, sh, action, service, want, e).value)
  {
  }

  /** A run just registered relies on nothing but its request. */
  lemma NewRunIsGood(cfg: Config, sh: Shared, id: nat, ask: Ask, now: int)
    requires AskOk(cfg, sh.git.held, ask) && Get(sh.host.lastTouch, ask.service) != Some(id)
    ensures Receipts(NewRow(ask, now), false, NewRun(ask)) && Backed(cfg, NewRun(ask))
    ensures Targets(cfg, sh.git.held, NewRun(ask)) && CallsInPlace(NewRun(ask))
    ensures InPlace(sh.git, sh.host, id, NewRun(ask)) && Grounded(sh.git, sh.host, id, NewRun(ask))
  {
  }

  lemma AppendReceipts(cfg: Config, rows: seq<Row>, closed: set<nat>, runs: seq<Run>, up: bool, row: Row, r: Run)
    requires AllReceipts(rows, closed, runs, up) && AllBacked(cfg, runs) && AllCalls(runs)
    requires Receipts(row, false, r) && Backed(cfg, r) && CallsInPlace(r) && !r.at.pc.Killed?
    ensures AllReceipts(rows + [row], closed, runs + [r], up) && AllBacked(cfg, runs + [r]) && AllCalls(runs + [r])
  {
  }

  lemma AppendPlaces(cfg: Config, git: Git, h: Host, runs: seq<Run>, r: Run)
    requires AllTargets(cfg, git, runs) && AllInPlace(git, h, runs) && AllGrounded(git, h, runs)
    requires Targets(cfg, git.held, r) && InPlace(git, h, |runs|, r) && Grounded(git, h, |runs|, r)
    ensures AllTargets(cfg, git, runs + [r]) && AllInPlace(git, h, runs + [r]) && AllGrounded(git, h, runs + [r])
  {
  }

  lemma AppendPending(pending: map<string, Pending>, runs: seq<Run>, ask: Ask)
    requires Pendings(pending, runs)
    ensures Pendings(Enter(pending, ask, |runs|), runs + [NewRun(ask)])
  {
  }

  lemma RegisterInv(cfg: Config, w: World, ask: Ask, recordOk: bool, now: int)
    requires Inv(cfg, w) && Legal(w, Registering(ask, recordOk, now))
    ensures Inv(cfg, Register(w, ask, recordOk, now))
  {
    RegisterControl(cfg, w, ask, recordOk, now);
    assert forall a :: a in w.asks - multiset{ask} ==> a in w.asks;
    if Joins(w.sh.q.pending, ask).None? && recordOk {
      NewRunIsGood(cfg, w.sh, |w.runs|, ask, now);
      AppendReceipts(cfg, w.sh.rows, w.closed, w.runs, w.up, NewRow(ask, now), NewRun(ask));
      AppendPlaces(cfg, w.sh.git, w.sh.host, w.runs, NewRun(ask));
      AppendPending(w.sh.q.pending, w.runs, ask);
    }
  }

  lemma AsksGrow(cfg: Config, w: World, held: set<(string, Bytes)>)
    requires (forall ask :: ask in w.asks ==> AskOk(cfg, w.sh.git.held, ask)) && w.sh.git.held <= held
    ensures forall ask :: ask in w.asks ==> AskOk(cfg, held, ask)
  {
  }

  lemma KilledIsGood(cfg: Config, held: set<(string, Bytes)>, row: Row, closed: bool, r: Run)
    requires Receipts(row, closed, r) && Backed(cfg, r) && Targets(cfg, held, r) && CallsInPlace(r)
    ensures Receipts(row, closed, Kill(r)) && Backed(cfg, Kill(r))
    ensures Targets(cfg, held, Kill(r)) && CallsInPlace(Kill(r))
  {
  }

  lemma KilledInPlace(cfg: Config, git: Git, h: Host, id: nat, r: Run)
    requires Control(cfg, r) && InPlace(git, h, id, r)
    requires !AfterReceipt(r.at.pc) && r.did.events != [] ==> !r.did.events[|r.did.events| - 1].IsTerminal()
    ensures InPlace(git.(synced := false), h, id, Kill(r))
  {
  }

  lemma KilledGrounded(cfg: Config, git: Git, h: Host, id: nat, r: Run)
    requires Control(cfg, r) && Grounded(git, h, id, r)
    requires !AfterReceipt(r.at.pc) && r.did.events != [] ==> !r.did.events[|r.did.events| - 1].IsTerminal()
    ensures Grounded(git.(synced := false), h, id, Kill(r))
  {
  }

  lemma KillReceipts(cfg: Config, rows: seq<Row>, closed: set<nat>, runs: seq<Run>, git: Git, up: bool)
    requires AllReceipts(rows, closed, runs, up) && AllBacked(cfg, runs) && AllTargets(cfg, git, runs) && AllCalls(runs)
    ensures AllReceipts(rows, closed, KillAll(runs), false) && AllBacked(cfg, KillAll(runs))
    ensures AllTargets(cfg, git.(synced := false), KillAll(runs)) && AllCalls(KillAll(runs))
  {
    forall i | 0 <= i < |runs|
      ensures Receipts(rows[i], i in closed, KillAll(runs)[i]) && Backed(cfg, KillAll(runs)[i])
      ensures Targets(cfg, git.held, KillAll(runs)[i]) && CallsInPlace(KillAll(runs)[i])
    {
      KilledIsGood(cfg, git.held, rows[i], i in closed, runs[i]);
    }
  }

  lemma KillPlaces(cfg: Config, git: Git, h: Host, rows: seq<Row>, closed: set<nat>, runs: seq<Run>, up: bool)
    requires AllInPlace(git, h, runs) && AllGrounded(git, h, runs) && AllReceipts(rows, closed, runs, up)
    requires forall i :: 0 <= i < |runs| ==> Control(cfg, runs[i])
    ensures AllInPlace(git.(synced := false), h, KillAll(runs)) && AllGrounded(git.(synced := false), h, KillAll(runs))
  {
    if Undisturbed(h) {
      forall i | 0 <= i < |runs|
        ensures InPlace(git.(synced := false), h, i, KillAll(runs)[i])
        ensures Grounded(git.(synced := false), h, i, KillAll(runs)[i])
      {
        assert Receipts(rows[i], i in closed, runs[i]);
        KilledInPlace(cfg, git, h, i, runs[i]);
        KilledGrounded(cfg, git, h, i, runs[i]);
      }
    }
  }

  lemma CrashInv(cfg: Config, w: World)
    requires Inv(cfg, w)
    ensures Inv(cfg, Crash(w))
  {
    CrashControl(cfg, w.runs);
    KillReceipts(cfg, w.sh.rows, w.closed, w.runs, w.sh.git, w.up);
    KillPlaces(cfg, w.sh.git, w.sh.host, w.sh.rows, w.closed, w.runs, w.up);
  }

  lemma RecoverReceipts(rows: seq<Row>, closed: set<nat>, runs: seq<Run>, id: nat, at: int)
    requires AllReceipts(rows, closed, runs, false) && id < |rows| && IsOver(runs[id].at.pc)
    ensures AllReceipts(Update(rows, id, Finish(Failed, at)),
                        if rows[id].IsFinished() then closed else closed + {id}, runs, false)
  {
  }

  lemma RecoverInv(cfg: Config, w: World, id: nat, at: int)
    requires Inv(cfg, w) && Legal(w, Recovering(id, at))
    ensures Inv(cfg, Quiet(cfg, w, Recovering(id, at)))
  {
    RecoverReceipts(w.sh.rows, w.closed, w.runs, id, at);
  }

  /** Syncs and pushes: the mirror catches up with main, or main moves and disturbs. */
  lemma GitMoves(cfg: Config, w: World, git: Git, h: Host)
    requires Inv(cfg, w) && Held(git) && w.sh.git.held <= git.held
    requires h.lastTouch == w.sh.host.lastTouch && h.misplaced == w.sh.host.misplaced
    requires h.pushed || (h == w.sh.host && git.main == w.sh.git.main && git.mirror in {git.main, w.sh.git.mirror})
    ensures Inv(cfg, w.(sh := w.sh.(git := git, host := h)))
  {
    AllTargetsGrow(cfg, w.sh.git, git, w.runs);
    if h.misplaced { MisnamedGrows(cfg, w.sh.git.held, git.held); }
    AsksGrow(cfg, w, git.held);
    if Undisturbed(h) {
      forall i | 0 <= i < |w.runs| ensures InPlace(git, h, i, w.runs[i]) && Grounded(git, h, i, w.runs[i]) {
        assert InPlace(w.sh.git, w.sh.host, i, w.runs[i]) && Grounded(w.sh.git, w.sh.host, i, w.runs[i]);
      }
    }
  }

  lemma PushingInv(cfg: Config, w: World, service: string, content: Option<Bytes>)
    requires Inv(cfg, w)
    ensures Inv(cfg, Push(w, service, content))
  {
    var sh := Push(w, service, content).sh;
    GitMoves(cfg, w, sh.git, sh.host);
  }

  lemma AskingInv(cfg: Config, w: World, action: Action, service: string, want: string, e: Env)
    requires Inv(cfg, w) && w.up
    ensures Inv(cfg, Quiet(cfg, w, Asking(action, service, want, e)))
  {
    if Prepare(cfg, w.sh, action, service, want, e).Ok? {
      PreparedAsk(cfg, w.sh, action, service, want, e);
    }
  }

  lemma FlagInv(cfg: Config, w: World, l: Label)
    requires Inv(cfg, w) && Legal(w, l) && (l.Cancelling? || l.Booting?)
    ensures Inv(cfg, Quiet(cfg, w, l))
  {
  }

  lemma FreshInv(cfg: Config, w: World)
    requires Fresh(w)
    ensures Inv(cfg, w)
  {
  }

  lemma MovingInv(cfg: Config, w: World, l: Label)
    requires Inv(cfg, w) && Legal(w, l) && (l.Drifting? || l.Pushing? || l.Crashing?)
    ensures Inv(cfg, Quiet(cfg, w, l))
  {
    match l
    case Drifting(e) => GitMoves(cfg, w, Sync(w.sh, e).git, w.sh.host);
    case Pushing(service, content) => PushingInv(cfg, w, service, content);
    case Crashing => CrashInv(cfg, w);
  }

  /** Every label but a run's step keeps the invariant. */
  lemma QuietInv(cfg: Config, w: World, l: Label)
    requires Inv(cfg, w) && Legal(w, l) && !l.Stepping?
    ensures Inv(cfg, Quiet(cfg, w, l))
  {
    match l
    case Asking(action, service, want, e) => AskingInv(cfg, w, action, service, want, e);
    case Registering(ask, recordOk, now) => RegisterInv(cfg, w, ask, recordOk, now);
    case Stepping(_, _) => {}
    case Drifting(_) | Pushing(_, _) | Crashing => MovingInv(cfg, w, l);
    case Recovering(id, at) => RecoverInv(cfg, w, id, at);
    case Cancelling | Booting => FlagInv(cfg, w, l);
  }

  /** Every label keeps the invariant. */
  lemma NextInv(cfg: Config, w: World, l: Label)
    requires cfg.revertAttempts >= 1 && Inv(cfg, w) && Legal(w, l)
    ensures Inv(cfg, Next(cfg, w, l))
  {
    if l.Stepping? { SteppingInv(cfg, w, l.id, l.env); } else { QuietInv(cfg, w, l); }
  }

  lemma {:induction false} ExecInv(cfg: Config, w: World, ls: seq<Label>)
    requires cfg.revertAttempts >= 1 && Inv(cfg, w) && LegalTrace(cfg, w, ls)
    ensures Inv(cfg, Exec(cfg, w, ls))
    decreases |ls|
  {
    if ls != [] {
      NextInv(cfg, w, ls[0]);
      ExecInv(cfg, Next(cfg, w, ls[0]), ls[1..]);
    }
  }
}
