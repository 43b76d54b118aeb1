/**
 * The merge-first deploy engine (internal/deploy/engine.go) as a transition
 * system: any number of runs, each at a program point, over the state they
 * share. One step of a run is one call on something shared (a lock, the mirror,
 * main, the host, the journal, a pull request) with the local work around it;
 * releasing the merge lock joins the step before it. Whatever the outside world
 * answers is the step's Env argument.
 */
module Engine {
  import opened Options
  import opened Digests
  import opened Journals

  const MERGE_ATTEMPTS: nat := 3

  /** What a manifest names and pins; the daemon takes the name as it is written. */
  datatype Manifest = Manifest(name: string, digest: string, template: string)

  /** What a daemon is built with: how manifests parse, and how often a revert is retried. */
  datatype Config = Config(parse: Bytes -> Option<Manifest>, revertAttempts: nat)

  /** The calls one run made on pull requests and on the host, each after the ones before it. */
  datatype Calls = NoCalls | Then(before: Calls, call: Call)
  {
    predicate Has(c: Call) {
      Then? && (call == c || before.Has(c))
    }
  }

  datatype Call =
    | Opened(undo: bool, content: Bytes)
    | Checked(green: bool)
    | MergeTried(undo: bool, merged: bool)
    | BranchUpdated(ok: bool)
    | Applied(undo: bool, raw: Bytes)
    | Probed(healthy: bool)
    | Inspected(running: Option<string>)

  datatype Pc =
    | Begun | ClickSync | WaitService
    | WaitMerge | FrontRead | Inspect
    | Opening | RecordPR | Checking | Merging | Updating | Closing | RecordMerge
    | Announce | ApplySync | ApplyRead
    | Applying | Restarting | ProbingHost
    | Restoring | RevertTop | RevertBackoff
    | ConvergeSync | ConvergeRead
    | Finishing(final: State) | Releasing | Leaving | Gone | Killed

  /** internal/deploy/engine.go, runRequest. */
  datatype Request = Request(
    action: Action,
    service: string,
    oldDigest: string,
    newDigest: string,
    originalRaw: Bytes,
    newContent: Bytes,
    prNumber: nat)

  /** Where a goroutine stands. */
  datatype Place = Place(
    pc: Pc,
    undo: bool,       // the automatic rollback has begun
    holds: bool,      // the deferred release of the service lock is armed
    attempt: nat,     // of the merge loop
    tries: nat,       // of the revert loop
    target: Bytes)    // the manifest being applied

  /** What a run has done so far. */
  datatype Deeds = Deeds(
    events: seq<State>,
    calls: Calls,
    proposed: bool,
    merged: bool,
    reverted: bool,
    found: Option<Bytes>,                // main's manifest when the service lock was taken
    stood: Option<Bytes>)                // and its unit's

  datatype Run = Run(req: Request, at: Place, did: Deeds)

  /** The entry a click can join: internal/deploy/engine.go, pendingRun. */
  datatype Pending = Pending(action: Action, digest: string, id: nat)

  /** What moved main for a service: a run's merge that landed its proposal as answered, or anything else. */
  datatype Mover = ByRun(id: nat, undo: bool) | Elsewhere

  /** The remote branch and its mirror, per service. */
  datatype Git = Git(
    main: map<string, Bytes>,
    held: set<(string, Bytes)>,          // everything main ever held
    mirror: map<string, Bytes>,          // what Manifest reads
    moved: map<string, Mover>,           // what moved main last, where the mirror has not followed since
    synced: bool)

  /** The engine's own fields. */
  datatype Queues = Queues(
    locks: set<string>,                  // the service channels that are full
    mergeMu: bool,
    queued: int,
    pending: map<string, Pending>,
    cancelled: bool)

  /** The host, and what is remembered about how it and main came to be. */
  datatype Host = Host(
    units: map<string, Bytes>,           // the manifest each unit was last written from, by unit
    lastTouch: map<string, nat>,         // the last run that moved main or the host
    pushed: bool,                        // main moved without this engine
    inexact: bool,                       // a merge did something else than it answered
    misplaced: bool)                     // a manifest was written to another service's unit

  datatype Shared = Shared(git: Git, q: Queues, host: Host, rows: seq<Row>)

  /** The outside world's answer to one step. */
  datatype Env = Env(
    ok: bool,            // the external call succeeded
    partly: bool,        // a failed call still took effect
    recordOk: bool,      // a journal write whose failure the engine heeds
    journalOk: bool,     // a journal write whose failure the engine ignores
    giveUp: bool,        // the cancelled context won the race
    now: int,
    number: nat,
    text: string,
    content: Bytes)

  datatype After = After(sh: Shared, run: Run)

  // ---- Program points ---------------------------------------------------------

  predicate OnHost(pc: Pc) {
    pc.Applying? || pc.Restarting? || pc.ProbingHost?
  }

  predicate InSpan(pc: Pc) {
    pc.FrontRead? || pc.Inspect? || pc.Opening? || pc.RecordPR? || pc.Checking? || pc.Merging? || pc.Updating?
  }

  predicate Waiting(pc: Pc) {
    pc.WaitService? || pc.WaitMerge?
  }

  predicate PreLock(pc: Pc) {
    pc.Begun? || pc.ClickSync? || pc.WaitService?
  }

  predicate IsOver(pc: Pc) {
    pc.Gone? || pc.Killed?
  }

  /** On the way to a merge on main; what follows is the way to the host and back. */
  predicate Mainward(pc: Pc) {
    PreLock(pc) || pc.WaitMerge? || InSpan(pc) || pc.Closing? || pc.RecordMerge?
  }

  /** Past its receipt, or killed before it. */
  predicate AfterReceipt(pc: Pc) {
    pc.Releasing? || pc.Leaving? || IsOver(pc)
  }

  // ---- Shared actions ---------------------------------------------------------

  function Emit(a: After, id: nat, state: State, e: Env): After {
    After(
      if e.journalOk then Record(a.sh, id, Progress(state)) else a.sh,
      a.run.(did := a.run.did.(events := a.run.did.events + [state])))
  }

  function Record(sh: Shared, id: nat, c: Change): Shared {
    sh.(rows := Update(sh.rows, id, c))
  }

  function Goto(a: After, pc: Pc): After {
    a.(run := a.run.(at := a.run.at.(pc := pc)))
  }

  function Noting(r: Run, c: Call): Run {
    r.(did := r.did.(calls := Then(r.did.calls, c)))
  }

  function LeaveSpan(sh: Shared): Shared {
    sh.(q := sh.q.(mergeMu := false))
  }

  function AddWait(sh: Shared, n: int): Shared {
    sh.(q := sh.q.(queued := sh.q.queued + n))
  }

  /** Sync resets the mirror to main; one that fails late may have moved the tree already. */
  function Sync(sh: Shared, e: Env): Shared {
    if e.ok then sh.(git := sh.git.(mirror := sh.git.main, moved := map[], synced := true))
    else if e.partly then sh.(git := sh.git.(mirror := sh.git.main, moved := map[]))
    else sh
  }

  /** Manifest reads the mirror, which must have been synced once by this process. */
  function ReadManifest(cfg: Config, git: Git, service: string, e: Env): Option<(Manifest, Bytes)> {
    if !e.ok || !git.synced || service !in git.mirror then None
    else
      match cfg.parse(git.mirror[service])
      case None => None
      case Some(m) => Some((m, git.mirror[service]))
  }

  function Proposal(r: Run): Bytes {
    if r.at.undo then r.req.originalRaw else r.req.newContent
  }

  function MoveMain(git: Git, service: string, content: Bytes, mover: Mover): Git {
    git.(main := git.main[service := content], held := git.held + {(service, content)},
         moved := git.moved[service := mover])
  }

  /** A merge moves main for one service; what lands is the proposal unless something else was pushed. */
  function Land(sh: Shared, id: nat, r: Run, content: Bytes, answered: bool): Shared {
    var exact := answered && content == Proposal(r);
    sh.(git := MoveMain(sh.git, r.req.service, content, if exact then ByRun(id, r.at.undo) else Elsewhere),
        host := sh.host.(lastTouch := sh.host.lastTouch[r.req.service := id], inexact := sh.host.inexact || !exact))
  }

  /** The unit a manifest is written to: the one it names, whichever service was asked for. */
  function UnitOf(cfg: Config, r: Run): string {
    match cfg.parse(r.at.target)
    case None => r.req.service
    case Some(m) => m.name
  }

  function WriteUnit(cfg: Config, sh: Shared, id: nat, r: Run): Shared {
    sh.(host := sh.host.(units := sh.host.units[UnitOf(cfg, r) := r.at.target],
                         lastTouch := sh.host.lastTouch[r.req.service := id],
                         misplaced := sh.host.misplaced || UnitOf(cfg, r) != r.req.service))
  }

  // ---- Steps ------------------------------------------------------------------

  /** Whether a run can step at all: it is blocked only on a full channel or a held mutex. */
  predicate Enabled(q: Queues, r: Run, e: Env) {
    match r.at.pc
    case WaitService => if e.giveUp then q.cancelled else r.req.service !in q.locks
    case WaitMerge => !q.mergeMu
    case Gone | Killed => false
    case _ => true
  }

  /** run, up to the front of both queues. */
  function QueueStep(sh: Shared, id: nat, r: Run, e: Env): After {
    var a := After(sh, r);
    match r.at.pc
    case Begun => Goto(Emit(a, id, Detected, e), ClickSync)
    case ClickSync =>
      if !e.ok then Goto(After(Sync(sh, e), r), Finishing(Failed))
      else Goto(Emit(After(AddWait(Sync(sh, e), 1), r), id, Detected, e), WaitService)
    case WaitService =>
      if e.giveUp then Goto(After(AddWait(sh, -1), r), Finishing(Failed))
      else
        var front := r.(did := r.did.(found := Get(sh.git.main, r.req.service),
                                      stood := Get(sh.host.units, r.req.service)));
        if r.req.action == Converge then
          After(sh.(q := sh.q.(locks := sh.q.locks + {r.req.service}, queued := sh.q.queued - 1)),
                front.(at := r.at.(holds := true, pc := ConvergeSync)))
        else
          After(sh.(q := sh.q.(locks := sh.q.locks + {r.req.service})),
                front.(at := r.at.(holds := true, pc := WaitMerge)))
    case WaitMerge =>
      Goto(After(sh.(q := sh.q.(mergeMu := true, queued := sh.q.queued - 1)), r),
           if r.at.undo then Opening else FrontRead)
    case _ => a
  }

  /** The deferred removal of a run's own entry. */
  function Deregister(pending: map<string, Pending>, service: string, id: nat): map<string, Pending> {
    if service in pending && pending[service].id == id then pending - {service} else pending
  }

  /** The receipt and the deferred calls after it. */
  function EndStep(sh: Shared, id: nat, r: Run, e: Env): After {
    var a := After(sh, r);
    match r.at.pc
    case Finishing(final) =>
      After(
        if e.journalOk then Record(sh, id, Finish(final, e.now)) else sh,
        r.(did := r.did.(events := r.did.events + [final]),
           at := r.at.(pc := if r.at.holds then Releasing else Leaving)))
    case Releasing =>
      After(sh.(q := sh.q.(locks := sh.q.locks - {r.req.service})), r.(at := r.at.(holds := false, pc := Leaving)))
    case Leaving => Goto(After(sh.(q := sh.q.(pending := Deregister(sh.q.pending, r.req.service, id))), r), Gone)
    case _ => a
  }

  /** run, at the front of the merge queue: the file as it is now. */
  function FrontStep(cfg: Config, sh: Shared, id: nat, r: Run, e: Env): After {
    var a := After(sh, r);
    match r.at.pc
    case FrontRead =>
      (match ReadManifest(cfg, sh.git, r.req.service, e)
       case None => Goto(After(LeaveSpan(sh), r), Finishing(Failed))
       case Some((m, raw)) =>
         if m.digest == r.req.newDigest then Goto(a, Inspect)
         else
           (match SetDigest(raw, m.digest, r.req.newDigest)
            case Err(_) => Goto(After(LeaveSpan(sh), r), Finishing(Failed))
            case Ok(rewritten) =>
              Goto(After(sh, r.(req := r.req.(newContent := rewritten, originalRaw := raw, oldDigest := m.digest))),
                   Opening)))
    case Inspect =>
      var called := Noting(r, Inspected(if e.ok then Some(e.text) else None));
      if e.ok && e.text == r.req.newDigest then Goto(After(LeaveSpan(sh), called), Finishing(Healthy))
      else Goto(Emit(After(LeaveSpan(sh), called), id, Reconciling, e), ApplySync)
    case _ => a
  }

  /** Where a failed revert attempt goes on: an ended context ends the loop before any backoff. */
  function RevertFailed(q: Queues): Pc {
    if q.cancelled then Finishing(RolledBack) else RevertBackoff
  }

  /** Opening a proposal, a deploy's or a revert's. */
  function ProposeStep(sh: Shared, id: nat, r: Run, e: Env): After {
    var a := After(sh, r);
    match r.at.pc
    case Opening =>
      var called := Noting(r, Opened(r.at.undo, Proposal(r)));
      var noted := called.(did := called.did.(proposed := called.did.proposed || !r.at.undo));
      if !e.ok then Goto(After(LeaveSpan(sh), noted), if r.at.undo then RevertFailed(sh.q) else Finishing(Failed))
      else
        After(sh, noted.(req := r.req.(prNumber := e.number),
                         at := r.at.(attempt := 1, pc := if r.at.undo then Checking else RecordPR)))
    case RecordPR =>
      if !e.recordOk then Goto(After(LeaveSpan(sh), r), Finishing(Failed))
      else Goto(Emit(After(Record(sh, id, SetPR(r.req.prNumber)), r), id, PrOpen, e), Checking)
    case _ => a
  }

  /** How a merge loop that gave up is left: the span ends, then the proposal is closed or the revert retried. */
  function GiveUpMerge(a: After): After {
    Goto(After(LeaveSpan(a.sh), a.run), if a.run.at.undo then RevertFailed(a.sh.q) else Closing)
  }

  /** One merge attempt of mergeThroughChecks. */
  function LandStep(sh: Shared, id: nat, r: Run, e: Env): After {
    var called := Noting(r, MergeTried(r.at.undo, e.ok));
    if e.ok && r.at.undo then
      Goto(After(LeaveSpan(Land(sh, id, r, e.content, true)), called.(did := called.did.(reverted := true))),
           Finishing(RolledBack))
    else if e.ok then
      Goto(After(LeaveSpan(Land(sh, id, r, e.content, true)), called.(did := called.did.(merged := true))), RecordMerge)
    else
      var b := After(if e.partly then Land(sh, id, r, e.content, false) else sh, called);
      if sh.q.cancelled then GiveUpMerge(b) else Goto(b, Updating)
  }

  /** The checks before a merge attempt, and the branch update after a refused one. */
  function CheckStep(sh: Shared, id: nat, r: Run, e: Env): After {
    var a := After(sh, r);
    match r.at.pc
    case Checking =>
      var b := Emit(After(sh, Noting(r, Checked(e.ok))), id, Checks, e);
      if e.ok then Goto(b, Merging) else GiveUpMerge(b)
    case Updating =>
      var b := After(sh, Noting(r, BranchUpdated(e.ok)));
      if !e.ok || (sh.q.cancelled && e.giveUp) || r.at.attempt >= MERGE_ATTEMPTS then GiveUpMerge(b)
      else After(sh, b.run.(at := r.at.(attempt := r.at.attempt + 1, pc := Checking)))
    case _ => a
  }

  /** What run does with the merge loop's answer. */
  function MergedStep(sh: Shared, id: nat, r: Run, e: Env): After {
    var a := After(sh, r);
    match r.at.pc
    case Closing => Goto(a, Finishing(Failed))
    case RecordMerge =>
      if !e.recordOk then Goto(a, Finishing(Failed))
      else Goto(Emit(After(Record(sh, id, SetMergeSHA(e.text)), r), id, Merged, e), Announce)
    case _ => a
  }

  /** applyMerged: the merged manifest is pulled and must pin what was asked. */
  function PullStep(cfg: Config, sh: Shared, id: nat, r: Run, e: Env): After {
    var a := After(sh, r);
    match r.at.pc
    case Announce => Goto(Emit(a, id, Reconciling, e), ApplySync)
    case ApplySync => Goto(After(Sync(sh, e), r), if e.ok then ApplyRead else Restoring)
    case ApplyRead =>
      (match ReadManifest(cfg, sh.git, r.req.service, e)
       case None => Goto(a, Restoring)
       case Some((m, raw)) =>
         if m.digest != r.req.newDigest then Goto(a, Restoring)
         else After(sh, r.(at := r.at.(target := raw, pc := Applying))))
    case _ => a
  }

  /** converge: the manifest as main holds it now, whatever it pins. */
  function ConvergeStep(cfg: Config, sh: Shared, id: nat, r: Run, e: Env): After {
    var a := After(sh, r);
    match r.at.pc
    case ConvergeSync => Goto(After(Sync(sh, e), r), if e.ok then ConvergeRead else Finishing(Failed))
    case ConvergeRead =>
      (match ReadManifest(cfg, sh.git, r.req.service, e)
       case None => Goto(a, Finishing(Failed))
       case Some((m, raw)) =>
         if m.digest != r.req.newDigest && !e.recordOk then Goto(a, Finishing(Failed))
         else
           var settled := if m.digest == r.req.newDigest then sh else Record(sh, id, SetDigests(m.digest, m.digest));
           Emit(After(settled, r.(req := r.req.(oldDigest := m.digest, newDigest := m.digest),
                                  at := r.at.(target := raw, pc := Applying))),
                id, Reconciling, e))
    case _ => a
  }

  /** A failed apply: a deploy rolls back, a converge and a restore have nothing left to try. */
  function ApplyFailed(a: After): After {
    Goto(a, if a.run.at.undo || a.run.req.action == Converge then Finishing(Failed) else Restoring)
  }

  /** Applier.Apply up to the written unit; a refused manifest or render never gets that far. */
  function WriteStep(cfg: Config, sh: Shared, id: nat, r: Run, e: Env): After {
    var called := Noting(r, Applied(r.at.undo, r.at.target));
    if !e.ok then ApplyFailed(After(if e.partly then WriteUnit(cfg, sh, id, r) else sh, called))
    else if r.at.undo then Goto(After(WriteUnit(cfg, sh, id, r), called), Restarting)
    else Goto(Emit(After(WriteUnit(cfg, sh, id, r), called), id, Reconciling, e), Restarting)
  }

  /** Applier.Apply from the restart to the probe's verdict. */
  function ProbeStep(sh: Shared, id: nat, r: Run, e: Env): After {
    var a := After(sh, r);
    match r.at.pc
    case Restarting =>
      if e.ok then Goto(Emit(a, id, Probing, e), ProbingHost) else ApplyFailed(a)
    case ProbingHost =>
      var called := Noting(r, Probed(e.ok));
      if !e.ok then ApplyFailed(After(sh, called))
      else if r.at.undo then After(sh, called.(at := r.at.(tries := 1, pc := RevertTop)))
      else Goto(After(sh, called), Finishing(Healthy))
    case _ => a
  }

  /** rollback, restorePrevious and revertMain: undo on the host, then on main. */
  function UndoStep(cfg: Config, sh: Shared, id: nat, r: Run, e: Env): After {
    var a := After(sh, r);
    match r.at.pc
    case Restoring =>
      var undone := r.(req := r.req.(prNumber := 0), at := r.at.(undo := true, target := r.req.originalRaw));
      Goto(Emit(After(sh, undone), id, Reconciling, e),
           if cfg.parse(r.req.originalRaw).None? then Finishing(Failed) else Applying)
    case RevertTop =>
      Goto(Emit(After(AddWait(sh, 1), r.(req := r.req.(prNumber := 0))), id, Reconciling, e), WaitMerge)
    case RevertBackoff =>
      if (sh.q.cancelled && e.giveUp) || r.at.tries >= cfg.revertAttempts then Goto(a, Finishing(RolledBack))
      else After(sh, r.(at := r.at.(tries := r.at.tries + 1, pc := RevertTop)))
    case _ => a
  }

  /** One step of one run. */
  function Act(cfg: Config, sh: Shared, id: nat, r: Run, e: Env): After {
    match r.at.pc
    case Begun | ClickSync | WaitService | WaitMerge => QueueStep(sh, id, r, e)
    case FrontRead | Inspect => FrontStep(cfg, sh, id, r, e)
    case Opening | RecordPR => ProposeStep(sh, id, r, e)
    case Checking | Updating => CheckStep(sh, id, r, e)
    case Merging => LandStep(sh, id, r, e)
    case Closing | RecordMerge => MergedStep(sh, id, r, e)
    case Announce | ApplySync | ApplyRead => PullStep(cfg, sh, id, r, e)
    case ConvergeSync | ConvergeRead => ConvergeStep(cfg, sh, id, r, e)
    case Applying => WriteStep(cfg, sh, id, r, e)
    case Restarting | ProbingHost => ProbeStep(sh, id, r, e)
    case Restoring | RevertTop | RevertBackoff => UndoStep(cfg, sh, id, r, e)
    case Finishing(_) | Releasing | Leaving => EndStep(sh, id, r, e)
    case Gone | Killed => After(sh, r)
  }

  // ---- Requests ---------------------------------------------------------------

  /** A request whose target is resolved but which has not reached the critical section. */
  datatype Ask = Ask(action: Action, service: string, digest: string, oldDigest: string, raw: Bytes, newContent: Bytes)

  datatype AskError = Unreadable | NoHealthyDeploy | NotAPin | AlreadyAtDigest | NotOnce(count: nat)

  /** The digest a request means, given what is pinned: Deploy, Rollback and Converge's resolve functions. */
  function Resolve(rows: seq<Row>, action: Action, service: string, want: string, current: string): Option<string> {
    match action
    case Deploy => Some(want)
    case Rollback => if want != "" then Some(want) else PreviousHealthyDigest(rows, service, current)
    case Converge => Some(current)
  }

  /** start, up to the critical section. */
  function Prepare(cfg: Config, sh: Shared, action: Action, service: string, want: string, e: Env)
    : Result<Ask, AskError>
  {
    if (action == Deploy || (action == Rollback && want != "")) && !IsDigest(want) then Err(NotAPin)
    else
      match ReadManifest(cfg, sh.git, service, e)
      case None => Err(Unreadable)
      case Some((m, raw)) =>
        match Resolve(sh.rows, action, service, want, m.digest)
        case None => Err(NoHealthyDeploy)
        case Some(digest) =>
          if !IsDigest(digest) then Err(NotAPin)
          else if action == Converge then Ok(Ask(action, service, digest, m.digest, raw, raw))
          else if m.digest == digest then Err(AlreadyAtDigest)
          else
            match SetDigest(raw, m.digest, digest)
            case Err(count) => Err(NotOnce(count))
            case Ok(rewritten) => Ok(Ask(action, service, digest, m.digest, raw, rewritten))
  }

  /** The run a click joins, if it joins one: same service, same kind, same digest. */
  function Joins(pending: map<string, Pending>, ask: Ask): Option<nat> {
    if && ask.service in pending
       && (pending[ask.service].action == Converge) == (ask.action == Converge)
       && pending[ask.service].digest == ask.digest
    then Some(pending[ask.service].id)
    else None
  }

  function NewRow(ask: Ask, now: int): Row {
    Row(ask.service, ask.action, ask.oldDigest, ask.digest, 0, "", Detected, now, None)
  }

  function NewRun(ask: Ask): Run {
    Run(Request(ask.action, ask.service, ask.oldDigest, ask.digest, ask.raw, ask.newContent, 0),
        Place(Begun, false, false, 0, 0, []),
        Deeds([], NoCalls, false, false, false, None, None))
  }

  /** The entry a fresh run leaves for later clicks, unless a live one is already there. */
  function Enter(pending: map<string, Pending>, ask: Ask, id: nat): map<string, Pending> {
    if ask.service in pending then pending else pending[ask.service := Pending(ask.action, ask.digest, id)]
  }

  // ---- The whole system -------------------------------------------------------

  datatype World = World(
    sh: Shared,
    runs: seq<Run>,          // every run this journal knows; its row has the same position
    asks: multiset<Ask>,     // requests on their way to the critical section
    closed: set<nat>,        // the rows start-up recovery closed
    up: bool)

  datatype Label =
    | Asking(action: Action, service: string, want: string, env: Env)
    | Registering(ask: Ask, recordOk: bool, now: int)
    | Stepping(id: nat, env: Env)
    | Drifting(env: Env)                              // Drift and start-up sync the mirror too
    | Pushing(service: string, content: Option<Bytes>)  // someone else moves main
    | Cancelling                                      // the daemon is asked to stop
    | Crashing                                        // the process is gone
    | Recovering(id: nat, at: int)                    // start-up closes one orphan
    | Booting                                         // recovery is complete

  predicate Legal(w: World, l: Label) {
    match l
    case Asking(_, _, _, _) => w.up
    case Registering(ask, _, _) => w.up && ask in w.asks
    case Stepping(id, e) => w.up && id < |w.runs| && Enabled(w.sh.q, w.runs[id], e)
    case Drifting(_) => w.up
    case Pushing(_, _) => true
    case Cancelling => w.up
    case Crashing => true
    case Recovering(id, _) => !w.up && id < |w.sh.rows|
    case Booting => !w.up && forall id :: 0 <= id < |w.sh.rows| ==> w.sh.rows[id].IsFinished()
  }

  function Kill(r: Run): Run {
    if r.at.pc.Gone? then r else r.(at := r.at.(pc := Killed, holds := false))
  }

  function KillAll(runs: seq<Run>): seq<Run> {
    seq(|runs|, (k: nat) requires k < |runs| => Kill(runs[k]))
  }

  /** What a dead process leaves behind: main, the mirror on disk, the host and the journal. */
  function Crash(w: World): World {
    World(w.sh.(git := w.sh.git.(synced := false), q := Queues({}, false, 0, map[], false)),
          KillAll(w.runs), multiset{}, w.closed, false)
  }

  function Register(w: World, ask: Ask, recordOk: bool, now: int): World {
    var left := w.(asks := w.asks - multiset{ask});
    if Joins(w.sh.q.pending, ask).Some? || !recordOk then left
    else
      left.(sh := w.sh.(rows := w.sh.rows + [NewRow(ask, now)],
                        q := w.sh.q.(pending := Enter(w.sh.q.pending, ask, |w.runs|))),
            runs := w.runs + [NewRun(ask)])
  }

  function Push(w: World, service: string, content: Option<Bytes>): World {
    var git := match content
      case None => w.sh.git.(main := w.sh.git.main - {service}, moved := w.sh.git.moved[service := Elsewhere])
      case Some(bytes) => MoveMain(w.sh.git, service, bytes, Elsewhere);
    w.(sh := w.sh.(git := git, host := w.sh.host.(pushed := true)))
  }

  function Replace(w: World, id: nat, a: After): World
    requires id < |w.runs|
  {
    w.(sh := a.sh, runs := w.runs[id := a.run])
  }

  function Next(cfg: Config, w: World, l: Label): World
    requires Legal(w, l)
  {
    if l.Stepping? then Replace(w, l.id, Act(cfg, w.sh, l.id, w.runs[l.id], l.env)) else Quiet(cfg, w, l)
  }

  /** Everything that happens beside the steps of runs. */
  function Quiet(cfg: Config, w: World, l: Label): World
    requires Legal(w, l)
  {
    match l
    case Asking(action, service, want, e) =>
      (match Prepare(cfg, w.sh, action, service, want, e)
       case Err(_) => w
       case Ok(ask) => w.(asks := w.asks + multiset{ask}))
    case Registering(ask, recordOk, now) => Register(w, ask, recordOk, now)
    case Stepping(_, _) => w
    case Drifting(e) => w.(sh := Sync(w.sh, e))
    case Pushing(service, content) => Push(w, service, content)
    case Cancelling => w.(sh := w.sh.(q := w.sh.q.(cancelled := true)))
    case Crashing => Crash(w)
    case Recovering(id, at) =>
      w.(sh := Record(w.sh, id, Finish(Failed, at)),
         closed := if w.sh.rows[id].IsFinished() then w.closed else w.closed + {id})
    case Booting => w.(up := true)
  }

  /** A new installation: an empty journal, a mirror never synced, any main and any host. */
  ghost predicate Fresh(w: World) {
    && w.runs == [] && w.asks == multiset{} && w.closed == {} && w.up
    && (forall s :: s in w.sh.git.main ==> (s, w.sh.git.main[s]) in w.sh.git.held)
    && (forall p :: p in w.sh.git.held ==> Get(w.sh.git.main, p.0) == Some(p.1))
    && w.sh.git.mirror == map[] && w.sh.git.moved == map[] && !w.sh.git.synced
    && w.sh.host.lastTouch == map[] && !w.sh.host.misplaced
    && w.sh.q == Queues({}, false, 0, map[], w.sh.q.cancelled)
    && w.sh.rows == []
  }

  predicate LegalTrace(cfg: Config, w: World, ls: seq<Label>)
    decreases |ls|
  {
    ls == [] || (Legal(w, ls[0]) && LegalTrace(cfg, Next(cfg, w, ls[0]), ls[1..]))
  }

  function Exec(cfg: Config, w: World, ls: seq<Label>): World
    requires LegalTrace(cfg, w, ls)
    decreases |ls|
  {
    if ls == [] then w else Exec(cfg, Next(cfg, w, ls[0]), ls[1..])
  }
}
