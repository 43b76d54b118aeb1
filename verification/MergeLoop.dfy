/**
 * The engine's two bounded retry loops in their own form
 * (internal/deploy/engine.go, mergeThroughChecks and revertMain): what they
 * call, when they stop, and that they walk the program points of the
 * transition system, answer by answer.
 */
module MergeLoop {
  import opened Options
  import opened Digests
  import opened Journals
  import opened Engine
  import opened EngineControl
  import opened EngineCalls

  /** The outside world's answer to one call, and whether the context had ended by then. */
  datatype Reply = Reply(answer: Env, cancelled: bool)

  /** The outside world over time: its replies in order, and what it replies for ever after. */
  datatype Script = Script(replies: seq<Reply>, later: Reply)
  {
    function At(clock: nat): Reply {
      if clock < |replies| then replies[clock] else later
    }

    function Answer(clock: nat): Env { At(clock).answer }

    predicate Cancelled(clock: nat) { At(clock).cancelled }
  }

  datatype End = End(calls: Calls, clock: nat, won: bool)

  datatype Spot = AtCheck | AtMerge | AtUpdate

  /** Whether the context had ended by the answer before this moment. */
  predicate EndedBy(s: Script, clock: nat) {
    clock > 0 && s.Cancelled(clock - 1)
  }

  predicate Interrupted(s: Script, clock: nat) {
    s.Cancelled(clock) && s.Answer(clock).giveUp
  }

  /** The last thing done was a merge that succeeded. */
  predicate EndsMerged(calls: Calls, undo: bool) {
    calls.Then? && calls.call == MergeTried(undo, true)
  }

  // ---- What the loops are to do -------------------------------------------------

  /** The merge loop, call by call. */
  function Loop(s: Script, undo: bool, spot: Spot, attempt: nat, calls: Calls, clock: nat): End
    requires attempt <= MERGE_ATTEMPTS
    decreases MERGE_ATTEMPTS - attempt, if spot == AtCheck then 2 else if spot == AtMerge then 1 else 0
  {
    var e := s.Answer(clock);
    match spot
    case AtCheck =>
      var after := Then(calls, Checked(e.ok));
      if e.ok then Loop(s, undo, AtMerge, attempt, after, clock + 1) else End(after, clock + 1, false)
    case AtMerge =>
      var after := Then(calls, MergeTried(undo, e.ok));
      if e.ok || s.Cancelled(clock) then End(after, clock + 1, e.ok)
      else Loop(s, undo, AtUpdate, attempt, after, clock + 1)
    case AtUpdate =>
      var after := Then(calls, BranchUpdated(e.ok));
      if !e.ok || Interrupted(s, clock) || attempt >= MERGE_ATTEMPTS then End(after, clock + 1, false)
      else Loop(s, undo, AtCheck, attempt + 1, after, clock + 1)
  }

  /** One revert: queued for the merge lock, opened, and merged through its checks. */
  function Once(s: Script, content: Bytes, calls: Calls, clock: nat): End {
    var proposed := Then(calls, Opened(true, content));
    if !s.Answer(clock + 1).ok then End(proposed, clock + 2, false)
    else Loop(s, true, AtCheck, 1, proposed, clock + 2)
  }

  /**
   * Reverts, each announced, until one merges, the context ends, or the attempts
   * are used up. A context that had ended by an attempt's last answer ends the
   * loop at once; one that ends later cuts the pause short.
   */
  function Revert(s: Script, content: Bytes, attempts: nat, tries: nat, calls: Calls, clock: nat): End
    decreases attempts - tries, 1
  {
    AfterOnce(s, content, attempts, tries, Once(s, content, calls, clock + 1))
  }

  function AfterOnce(s: Script, content: Bytes, attempts: nat, tries: nat, once: End): End
    decreases attempts - tries, 0
  {
    if once.won then once
    else if EndedBy(s, once.clock) then End(once.calls, once.clock, false)
    else if Interrupted(s, once.clock) || tries >= attempts then End(once.calls, once.clock + 1, false)
    else Revert(s, content, attempts, tries + 1, once.calls, once.clock + 1)
  }

  /** The loop is won exactly when the last thing it did was a merge that succeeded. */
  lemma {:induction false} WonByLastMerge(s: Script, undo: bool, spot: Spot, attempt: nat, calls: Calls, clock: nat)
    requires attempt <= MERGE_ATTEMPTS
    ensures var end := Loop(s, undo, spot, attempt, calls, clock); end.won <==> EndsMerged(end.calls, undo)
    decreases MERGE_ATTEMPTS - attempt, if spot == AtCheck then 2 else if spot == AtMerge then 1 else 0
  {
    var e := s.Answer(clock);
    match spot
    case AtCheck => if e.ok { WonByLastMerge(s, undo, AtMerge, attempt, Then(calls, Checked(true)), clock + 1); }
    case AtMerge =>
      if !e.ok && !s.Cancelled(clock) {
        WonByLastMerge(s, undo, AtUpdate, attempt, Then(calls, MergeTried(undo, false)), clock + 1);
      }
    case AtUpdate =>
      if e.ok && !Interrupted(s, clock) && attempt < MERGE_ATTEMPTS {
        WonByLastMerge(s, undo, AtCheck, attempt + 1, Then(calls, BranchUpdated(true)), clock + 1);
      }
  }

  lemma OnceByLastMerge(s: Script, content: Bytes, calls: Calls, clock: nat)
    ensures var once := Once(s, content, calls, clock); once.won <==> EndsMerged(once.calls, true)
  {
    WonByLastMerge(s, true, AtCheck, 1, Then(calls, Opened(true, content)), clock + 2);
  }

  /** Main is restored exactly when the last thing the revert did was a merge that succeeded. */
  lemma {:induction false} RestoredByLastMerge(s: Script, content: Bytes, attempts: nat, tries: nat,
                                               calls: Calls, clock: nat)
    ensures var end := Revert(s, content, attempts, tries, calls, clock); end.won <==> EndsMerged(end.calls, true)
    decreases attempts - tries
  {
    var once := Once(s, content, calls, clock + 1);
    OnceByLastMerge(s, content, calls, clock + 1);
    if !once.won && !EndedBy(s, once.clock) && !Interrupted(s, once.clock) && tries < attempts {
      RestoredByLastMerge(s, content, attempts, tries + 1, once.calls, once.clock + 1);
    }
  }

  // ---- The loops ----------------------------------------------------------------

  /** Everything the loops call; each call takes the next answer of the script and is noted. */
  class Outside {
    const script: Script
    var clock: nat
    var calls: Calls

    constructor (script: Script, calls: Calls)
      ensures this.script == script && this.calls == calls && clock == 0
    {
      this.script, this.calls, clock := script, calls, 0;
    }

    method WaitChecks() returns (ok: bool)
      modifies this
      ensures clock == old(clock) + 1 && ok == script.Answer(old(clock)).ok && calls == Then(old(calls), Checked(ok))
    {
      ok := script.Answer(clock).ok;
      clock, calls := clock + 1, Then(calls, Checked(ok));
    }

    /** Merge, and whether the context has ended by the time it answers. */
    method Merge(undo: bool) returns (sha: Option<string>, ended: bool)
      modifies this
      ensures clock == old(clock) + 1 && ended == script.Cancelled(old(clock))
      ensures sha == (if script.Answer(old(clock)).ok then Some(script.Answer(old(clock)).text) else None)
      ensures calls == Then(old(calls), MergeTried(undo, sha.Some?))
    {
      var e := script.Answer(clock);
      sha, ended := if e.ok then Some(e.text) else None, script.Cancelled(clock);
      clock, calls := clock + 1, Then(calls, MergeTried(undo, e.ok));
    }

    /** UpdateBranch and the pause after it, which an ended context may cut short. */
    method UpdateBranch() returns (ok: bool, ended: bool)
      modifies this
      ensures clock == old(clock) + 1 && ok == script.Answer(old(clock)).ok && ended == Interrupted(script, old(clock))
      ensures calls == Then(old(calls), BranchUpdated(ok))
    {
      ok, ended := script.Answer(clock).ok, script.Cancelled(clock) && script.Answer(clock).giveUp;
      clock, calls := clock + 1, Then(calls, BranchUpdated(ok));
    }

    method OpenManifestPR(undo: bool, content: Bytes) returns (ok: bool)
      modifies this
      ensures clock == old(clock) + 1 && ok == script.Answer(old(clock)).ok
      ensures calls == Then(old(calls), Opened(undo, content))
    {
      ok := script.Answer(clock).ok;
      clock, calls := clock + 1, Then(calls, Opened(undo, content));
    }

    /** Whether the context had ended by the last answer. */
    method Ended() returns (ended: bool)
      ensures ended == EndedBy(script, clock)
    {
      ended := clock > 0 && script.Cancelled(clock - 1);
    }

    /** A step no proposal sees: an emit, a lock, a pause; and whether an ended context cut it short. */
    method Pass() returns (ended: bool)
      modifies this
      ensures clock == old(clock) + 1 && calls == old(calls) && ended == Interrupted(script, old(clock))
    {
      ended := script.Cancelled(clock) && script.Answer(clock).giveUp;
      clock := clock + 1;
    }
  }

  /** The merge commit, exactly when the last merge tried succeeded. */
  method MergeThroughChecks(o: Outside, undo: bool) returns (sha: Option<string>)
    modifies o
    ensures End(o.calls, o.clock, sha.Some?) == Loop(o.script, undo, AtCheck, 1, old(o.calls), old(o.clock))
    ensures sha.Some? <==> EndsMerged(o.calls, undo)
  {
    ghost var goal := Loop(o.script, undo, AtCheck, 1, o.calls, o.clock);
    WonByLastMerge(o.script, undo, AtCheck, 1, o.calls, o.clock);
    var attempt := 1;
    while attempt <= MERGE_ATTEMPTS
      invariant 1 <= attempt <= MERGE_ATTEMPTS + 1
      invariant attempt <= MERGE_ATTEMPTS ==> goal == Loop(o.script, undo, AtCheck, attempt, o.calls, o.clock)
      invariant attempt > MERGE_ATTEMPTS ==> goal == End(o.calls, o.clock, false)
    {
      var green := o.WaitChecks();
      assert goal == if green then Loop(o.script, undo, AtMerge, attempt, o.calls, o.clock)
                     else End(o.calls, o.clock, false);
      if !green {
        return None;
      }
      var ended;
      sha, ended := o.Merge(undo);
      assert goal == if sha.Some? || ended then End(o.calls, o.clock, sha.Some?)
                     else Loop(o.script, undo, AtUpdate, attempt, o.calls, o.clock);
      if sha.Some? {
        return;
      }
      if ended {
        return None;
      }
      var updated;
      updated, ended := o.UpdateBranch();
      assert goal == if !updated || ended || attempt == MERGE_ATTEMPTS then End(o.calls, o.clock, false)
                     else Loop(o.script, undo, AtCheck, attempt + 1, o.calls, o.clock);
      if !updated || ended {
        return None;
      }
      attempt := attempt + 1;
    }
    sha := None;
  }

  method RevertOnce(o: Outside, content: Bytes) returns (restored: bool)
    modifies o
    ensures End(o.calls, o.clock, restored) == Once(o.script, content, old(o.calls), old(o.clock))
  {
    var _ := o.Pass();  // waiting for the merge lock
    var proposed := o.OpenManifestPR(true, content);
    if !proposed {
      return false;
    }
    var sha := MergeThroughChecks(o, true);
    restored := sha.Some?;
  }

  method RevertMain(o: Outside, content: Bytes, attempts: nat) returns (restored: bool)
    requires attempts >= 1
    modifies o
    ensures End(o.calls, o.clock, restored) == Revert(o.script, content, attempts, 1, old(o.calls), old(o.clock))
  {
    ghost var goal := Revert(o.script, content, attempts, 1, o.calls, o.clock);
    var attempt := 1;
    restored := false;
    while attempt <= attempts
      invariant 1 <= attempt <= attempts + 1 && !restored
      invariant attempt <= attempts ==> goal == Revert(o.script, content, attempts, attempt, o.calls, o.clock)
      invariant attempt > attempts ==> goal == End(o.calls, o.clock, false)
    {
      ghost var once := Once(o.script, content, o.calls, o.clock + 1);
      assert goal == AfterOnce(o.script, content, attempts, attempt, once);
      var _ := o.Pass();  // the attempt is announced
      restored := RevertOnce(o, content);
      assert once == End(o.calls, o.clock, restored);
      if restored {
        return;
      }
      var ended := o.Ended();
      if ended {
        return;
      }
      ended := o.Pass();
      if ended {
        return;
      }
      attempt := attempt + 1;
    }
  }

  // ---- What the loops keep --------------------------------------------------------

  /** Where a history stands in its open proposal's merge loop. */
  predicate InSpot(undo: bool, spot: Spot, attempt: nat, calls: Calls) {
    && Disciplined(calls) && SpanOf(calls) == Some(undo)
    && MergesTried(calls) == (if spot == AtUpdate then attempt else attempt - 1)
    && (spot == AtMerge ==> calls.Then? && calls.call == Checked(true))
  }

  /** Nothing merges on red, and at most three merges are tried. */
  lemma {:induction false} LoopKeepsDiscipline(s: Script, undo: bool, spot: Spot, attempt: nat,
                                               calls: Calls, clock: nat)
    requires 1 <= attempt <= MERGE_ATTEMPTS && InSpot(undo, spot, attempt, calls)
    ensures var end := Loop(s, undo, spot, attempt, calls, clock);
            Disciplined(end.calls) && SpanOf(end.calls) == Some(undo) && MergesTried(end.calls) <= 3
    decreases MERGE_ATTEMPTS - attempt, if spot == AtCheck then 2 else if spot == AtMerge then 1 else 0
  {
    var e := s.Answer(clock);
    match spot
    case AtCheck => if e.ok { LoopKeepsDiscipline(s, undo, AtMerge, attempt, Then(calls, Checked(true)), clock + 1); }
    case AtMerge =>
      if !e.ok && !s.Cancelled(clock) {
        LoopKeepsDiscipline(s, undo, AtUpdate, attempt, Then(calls, MergeTried(undo, false)), clock + 1);
      }
    case AtUpdate =>
      if e.ok && !Interrupted(s, clock) && attempt < MERGE_ATTEMPTS {
        LoopKeepsDiscipline(s, undo, AtCheck, attempt + 1, Then(calls, BranchUpdated(true)), clock + 1);
      }
  }

  /** Why a merge loop can stop without a merge: by its last call, and whether the context had ended by its answer. */
  predicate GaveUp(s: Script, calls: Calls, clock: nat) {
    && calls.Then? && clock > 0
    && match calls.call
       case Checked(green) => !green
       case MergeTried(_, merged) => !merged && s.Cancelled(clock - 1)
       case BranchUpdated(ok) => !ok || Interrupted(s, clock - 1) || MergesTried(calls) == 3
       case _ => false
  }

  /** A refused merge is tried again, three times in all: the loop is left for no other reason than these. */
  lemma {:induction false} LoopGivesUpOnlyIf(s: Script, undo: bool, spot: Spot, attempt: nat, calls: Calls, clock: nat)
    requires 1 <= attempt <= MERGE_ATTEMPTS
    requires MergesTried(calls) == if spot == AtUpdate then attempt else attempt - 1
    ensures var end := Loop(s, undo, spot, attempt, calls, clock); end.won || GaveUp(s, end.calls, end.clock)
    decreases MERGE_ATTEMPTS - attempt, if spot == AtCheck then 2 else if spot == AtMerge then 1 else 0
  {
    var e := s.Answer(clock);
    match spot
    case AtCheck => if e.ok { LoopGivesUpOnlyIf(s, undo, AtMerge, attempt, Then(calls, Checked(true)), clock + 1); }
    case AtMerge =>
      if !e.ok && !s.Cancelled(clock) {
        LoopGivesUpOnlyIf(s, undo, AtUpdate, attempt, Then(calls, MergeTried(undo, false)), clock + 1);
      }
    case AtUpdate =>
      if e.ok && !Interrupted(s, clock) && attempt < MERGE_ATTEMPTS {
        LoopGivesUpOnlyIf(s, undo, AtCheck, attempt + 1, Then(calls, BranchUpdated(true)), clock + 1);
      }
  }

  // ---- The loops are the transition system's ----------------------------------------

  /** One run stepping alone: step k meets answer k and the context as it is then. */
  function StepAt(cfg: Config, id: nat, a: After, s: Script, clock: nat): After {
    Act(cfg, a.sh.(q := a.sh.q.(cancelled := s.Cancelled(clock))), id, a.run, s.Answer(clock))
  }

  /** The same step again and again, each at its own moment. */
  function Iterate<S>(step: (S, nat) -> S, a: S, clock: nat, n: nat): S
    decreases n
  {
    if n == 0 then a else Iterate(step, step(a, clock), clock + 1, n - 1)
  }

  lemma {:induction false} IterateOn<S>(step: (S, nat) -> S, a: S, clock: nat, m: nat, n: nat)
    ensures Iterate(step, a, clock, m + n) == Iterate(step, Iterate(step, a, clock, m), clock + m, n)
    decreases m
  {
    if m > 0 { IterateOn(step, step(a, clock), clock + 1, m - 1, n); }
  }

  function Stepper(cfg: Config, id: nat, s: Script): (After, nat) -> After {
    (a: After, clock: nat) => StepAt(cfg, id, a, s, clock)
  }

  function Walk(cfg: Config, id: nat, a: After, s: Script, clock: nat, n: nat): After {
    Iterate(Stepper(cfg, id, s), a, clock, n)
  }

  /** Where the merge loop is left after its merge, and where after giving up. */
  predicate LeftAt(pc: Pc, undo: bool, won: bool, ended: bool) {
    if won then (if undo then pc == Finishing(RolledBack) else pc == RecordMerge)
    else if !undo then pc == Closing
    else pc == if ended then Finishing(RolledBack) else RevertBackoff
  }

  function SpotOf(pc: Pc): Spot
    requires InLoop(pc)
  {
    match pc
    case Checking => AtCheck
    case Merging => AtMerge
    case Updating => AtUpdate
  }

  /** What a machine step inside the loop does, told as the loop's step. */
  ghost predicate LoopStepped(r: Run, b: Run, s: Script, clock: nat)
    requires InLoop(r.at.pc) && r.at.attempt <= MERGE_ATTEMPTS
  {
    var end := Loop(s, r.at.undo, SpotOf(r.at.pc), r.at.attempt, r.did.calls, clock);
    && b.at.undo == r.at.undo && b.at.tries == r.at.tries && b.req.originalRaw == r.req.originalRaw
    && b.did.reverted == (r.did.reverted || (r.at.undo && !InLoop(b.at.pc) && end.won))
    && (if InLoop(b.at.pc) then
          1 <= b.at.attempt <= MERGE_ATTEMPTS
          && end == Loop(s, b.at.undo, SpotOf(b.at.pc), b.at.attempt, b.did.calls, clock + 1)
        else end == End(b.did.calls, clock + 1, end.won) && LeftAt(b.at.pc, b.at.undo, end.won, s.Cancelled(clock)))
  }

  lemma CheckingLoopStep(cfg: Config, id: nat, a: After, s: Script, clock: nat)
    requires a.run.at.pc.Checking? && 1 <= a.run.at.attempt <= MERGE_ATTEMPTS
    ensures LoopStepped(a.run, StepAt(cfg, id, a, s, clock).run, s, clock)
  {
  }

  lemma MergingLoopStep(cfg: Config, id: nat, a: After, s: Script, clock: nat)
    requires a.run.at.pc.Merging? && 1 <= a.run.at.attempt <= MERGE_ATTEMPTS
    ensures LoopStepped(a.run, StepAt(cfg, id, a, s, clock).run, s, clock)
  {
  }

  lemma UpdatingLoopStep(cfg: Config, id: nat, a: After, s: Script, clock: nat)
    requires a.run.at.pc.Updating? && 1 <= a.run.at.attempt <= MERGE_ATTEMPTS
    ensures LoopStepped(a.run, StepAt(cfg, id, a, s, clock).run, s, clock)
  {
  }

  /** A machine step inside the loop is the loop's step. */
  lemma LoopStep(cfg: Config, id: nat, a: After, s: Script, clock: nat)
    requires InLoop(a.run.at.pc) && 1 <= a.run.at.attempt <= MERGE_ATTEMPTS
    ensures LoopStepped(a.run, StepAt(cfg, id, a, s, clock).run, s, clock)
  {
    match a.run.at.pc
    case Checking => CheckingLoopStep(cfg, id, a, s, clock);
    case Merging => MergingLoopStep(cfg, id, a, s, clock);
    case Updating => UpdatingLoopStep(cfg, id, a, s, clock);
  }

  /** From a place in the loop on, the machine makes these calls in this many steps and leaves as it should. */
  ghost predicate LoopWalks(cfg: Config, id: nat, a: After, s: Script, clock: nat, end: End) {
    end.clock > clock && LeftTheLoop(a.run, Walk(cfg, id, a, s, clock, end.clock - clock).run, s, end)
  }

  /** A run that has left the loop as this end says. */
  predicate LeftTheLoop(r: Run, b: Run, s: Script, end: End) {
    && b.did.calls == end.calls && LeftAt(b.at.pc, r.at.undo, end.won, EndedBy(s, end.clock))
    && b.at.undo == r.at.undo && b.at.tries == r.at.tries && b.req.originalRaw == r.req.originalRaw
    && b.did.reverted == (r.did.reverted || (r.at.undo && end.won))
  }

  lemma LoopResumes(cfg: Config, id: nat, a: After, b: After, s: Script, clock: nat, end: End)
    requires b == StepAt(cfg, id, a, s, clock) && LoopWalks(cfg, id, b, s, clock + 1, end)
    requires b.run.at.undo == a.run.at.undo && b.run.at.tries == a.run.at.tries
    requires b.run.req.originalRaw == a.run.req.originalRaw && b.run.did.reverted == a.run.did.reverted
    ensures LoopWalks(cfg, id, a, s, clock, end)
  {
  }

  lemma LoopStops(r: Run, b: Run, s: Script, clock: nat, end: End)
    requires end == End(b.did.calls, clock + 1, end.won)
    requires LeftAt(b.at.pc, r.at.undo, end.won, s.Cancelled(clock))
    requires b.at.undo == r.at.undo && b.at.tries == r.at.tries && b.req.originalRaw == r.req.originalRaw
    requires b.did.reverted == (r.did.reverted || (r.at.undo && end.won))
    ensures LeftTheLoop(r, b, s, end)
  {
  }

  /** The calls, the number of steps and the exit of the loop are the machine's. */
  lemma {:induction false} LoopIsTheMachine(cfg: Config, id: nat, a: After, s: Script, clock: nat)
    requires InLoop(a.run.at.pc) && 1 <= a.run.at.attempt <= MERGE_ATTEMPTS
    ensures var r := a.run;
            LoopWalks(cfg, id, a, s, clock, Loop(s, r.at.undo, SpotOf(r.at.pc), r.at.attempt, r.did.calls, clock))
    decreases MERGE_ATTEMPTS - a.run.at.attempt,
              if a.run.at.pc.Checking? then 2 else if a.run.at.pc.Merging? then 1 else 0
  {
    var (r, b) := (a.run, StepAt(cfg, id, a, s, clock));
    var end := Loop(s, r.at.undo, SpotOf(r.at.pc), r.at.attempt, r.did.calls, clock);
    LoopStep(cfg, id, a, s, clock);
    if InLoop(b.run.at.pc) {
      LoopStepOrder(cfg, id, a, s, clock);
      LoopIsTheMachine(cfg, id, b, s, clock + 1);
      LoopResumes(cfg, id, a, b, s, clock, end);
    } else {
      WalkOne(cfg, id, a, s, clock);
      LoopStops(r, b.run, s, clock, end);
    }
  }

  lemma LoopStepOrder(cfg: Config, id: nat, a: After, s: Script, clock: nat)
    requires InLoop(a.run.at.pc)
    ensures var b := StepAt(cfg, id, a, s, clock).run;
            InLoop(b.at.pc) ==>
              || b.at.attempt == a.run.at.attempt + 1
              || (b.at.attempt == a.run.at.attempt
                  && ((a.run.at.pc.Checking? && b.at.pc.Merging?) || (a.run.at.pc.Merging? && b.at.pc.Updating?)))
  {
  }

  lemma WalkOn(cfg: Config, id: nat, a: After, s: Script, clock: nat, m: nat, n: nat)
    ensures Walk(cfg, id, a, s, clock, m + n) == Walk(cfg, id, Walk(cfg, id, a, s, clock, m), s, clock + m, n)
  {
    IterateOn(Stepper(cfg, id, s), a, clock, m, n);
  }

  /** A revert attempt starts here: the host is restored, main is not. */
  predicate AtRevertTop(r: Run) {
    r.at.pc.RevertTop? && r.at.undo && !r.did.reverted
  }

  lemma AnnounceStep(cfg: Config, id: nat, a: After, s: Script, clock: nat)
    requires AtRevertTop(a.run)
    ensures var b := StepAt(cfg, id, a, s, clock).run;
            b.at.pc == WaitMerge && b.at == a.run.at.(pc := WaitMerge) && b.did.calls == a.run.did.calls
            && !b.did.reverted && b.req.originalRaw == a.run.req.originalRaw
  {
  }

  lemma LockStep(cfg: Config, id: nat, a: After, s: Script, clock: nat)
    requires a.run.at.pc.WaitMerge? && a.run.at.undo
    ensures StepAt(cfg, id, a, s, clock).run == a.run.(at := a.run.at.(pc := Opening))
  {
  }

  lemma OpenStep(cfg: Config, id: nat, a: After, s: Script, clock: nat)
    requires a.run.at.pc.Opening? && a.run.at.undo
    ensures var b := StepAt(cfg, id, a, s, clock).run;
            && b.did.calls == Then(a.run.did.calls, Opened(true, a.run.req.originalRaw))
            && b.did.reverted == a.run.did.reverted && b.req.originalRaw == a.run.req.originalRaw
            && b.at.undo && b.at.tries == a.run.at.tries
            && (if s.Answer(clock).ok then b.at.pc == Checking && b.at.attempt == 1
                else LeftAt(b.at.pc, true, false, s.Cancelled(clock)))
  {
  }

  lemma BackoffStep(cfg: Config, id: nat, a: After, s: Script, clock: nat)
    requires a.run.at.pc.RevertBackoff?
    ensures var b := StepAt(cfg, id, a, s, clock).run;
            b == a.run.(at := if Interrupted(s, clock) || a.run.at.tries >= cfg.revertAttempts
                              then a.run.at.(pc := Finishing(RolledBack))
                              else a.run.at.(tries := a.run.at.tries + 1, pc := RevertTop))
  {
  }

  /** Announcing, queueing and opening are three machine steps. */
  lemma ProposalIsTheMachine(cfg: Config, id: nat, a: After, s: Script, clock: nat)
    requires AtRevertTop(a.run)
    ensures var d := Walk(cfg, id, a, s, clock, 3).run;
            && d.did.calls == Then(a.run.did.calls, Opened(true, a.run.req.originalRaw))
            && !d.did.reverted && d.req.originalRaw == a.run.req.originalRaw
            && d.at.undo && d.at.tries == a.run.at.tries
            && (if s.Answer(clock + 2).ok then d.at.pc == Checking && d.at.attempt == 1
                else LeftAt(d.at.pc, true, false, s.Cancelled(clock + 2)))
  {
    var b := StepAt(cfg, id, a, s, clock);
    AnnounceStep(cfg, id, a, s, clock);
    var c := StepAt(cfg, id, b, s, clock + 1);
    LockStep(cfg, id, b, s, clock + 1);
    var d := StepAt(cfg, id, c, s, clock + 2);
    OpenStep(cfg, id, c, s, clock + 2);
    WalkThree(cfg, id, a, b, c, d, s, clock);
  }

  /** From the announcement to the backoff or the end, an attempt's calls and steps are the machine's. */
  ghost predicate OnceWalks(cfg: Config, id: nat, a: After, s: Script, clock: nat, once: End) {
    && once.clock > clock
    && var b := Walk(cfg, id, a, s, clock, once.clock - clock).run;
       && b.did.calls == once.calls && b.did.reverted == once.won
       && LeftAt(b.at.pc, true, once.won, EndedBy(s, once.clock))
       && b.at.undo && b.at.tries == a.run.at.tries && b.req.originalRaw == a.run.req.originalRaw
  }

  lemma OnceIsTheMachine(cfg: Config, id: nat, a: After, s: Script, clock: nat)
    requires AtRevertTop(a.run)
    ensures OnceWalks(cfg, id, a, s, clock, Once(s, a.run.req.originalRaw, a.run.did.calls, clock + 1))
  {
    ProposalIsTheMachine(cfg, id, a, s, clock);
    var d := Walk(cfg, id, a, s, clock, 3);
    if s.Answer(clock + 2).ok {
      LoopIsTheMachine(cfg, id, d, s, clock + 3);
      OnceResumes(cfg, id, a, d, s, clock, clock + 3, Loop(s, true, AtCheck, 1, d.run.did.calls, clock + 3));
    }
  }

  lemma OnceResumes(cfg: Config, id: nat, a: After, d: After, s: Script, clock: nat, mid: nat, end: End)
    requires clock < mid && d == Walk(cfg, id, a, s, clock, mid - clock) && LoopWalks(cfg, id, d, s, mid, end)
    requires d.run.at.undo && !d.run.did.reverted
    requires d.run.at.tries == a.run.at.tries && d.run.req.originalRaw == a.run.req.originalRaw
    ensures OnceWalks(cfg, id, a, s, clock, end)
  {
    WalkOn(cfg, id, a, s, clock, mid - clock, end.clock - mid);
  }

  lemma WalkThree(cfg: Config, id: nat, a: After, b: After, c: After, d: After, s: Script, clock: nat)
    requires b == StepAt(cfg, id, a, s, clock) && c == StepAt(cfg, id, b, s, clock + 1)
    requires d == StepAt(cfg, id, c, s, clock + 2)
    ensures Walk(cfg, id, a, s, clock, 3) == d
  {
    assert Walk(cfg, id, d, s, clock + 3, 0) == d;
    assert Walk(cfg, id, c, s, clock + 2, 1) == d;
    assert Walk(cfg, id, b, s, clock + 1, 2) == d;
  }

  /** A failed attempt and its backoff: the revert is given up, or the next attempt starts. */
  lemma BackoffIsTheMachine(cfg: Config, id: nat, a: After, s: Script, clock: nat, once: End)
    requires OnceWalks(cfg, id, a, s, clock, once) && !once.won && !EndedBy(s, once.clock)
    ensures var c := Walk(cfg, id, a, s, clock, once.clock + 1 - clock).run;
            && c.did.calls == once.calls && !c.did.reverted && c.at.undo && c.req.originalRaw == a.run.req.originalRaw
            && (if Interrupted(s, once.clock) || a.run.at.tries >= cfg.revertAttempts
                then c.at.pc == Finishing(RolledBack)
                else c.at.pc == RevertTop && c.at.tries == a.run.at.tries + 1)
  {
    var b := Walk(cfg, id, a, s, clock, once.clock - clock);
    BackoffStep(cfg, id, b, s, once.clock);
    WalkOne(cfg, id, b, s, once.clock);
    WalkOn(cfg, id, a, s, clock, once.clock - clock, 1);
  }

  lemma WalkOne(cfg: Config, id: nat, a: After, s: Script, clock: nat)
    ensures Walk(cfg, id, a, s, clock, 1) == StepAt(cfg, id, a, s, clock)
  {
    var b := StepAt(cfg, id, a, s, clock);
    assert Walk(cfg, id, b, s, clock + 1, 0) == b;
  }

  /** The revert loop from one attempt on is the machine's: same calls, same number of steps, same ending. */
  ghost predicate RevertWalks(cfg: Config, id: nat, a: After, s: Script, clock: nat, end: End) {
    && end.clock > clock
    && var b := Walk(cfg, id, a, s, clock, end.clock - clock).run;
       b.did.calls == end.calls && b.at.pc == Finishing(RolledBack) && b.did.reverted == end.won
  }

  lemma RevertResumes(cfg: Config, id: nat, a: After, c: After, s: Script, clock: nat, mid: nat, end: End)
    requires clock < mid && c == Walk(cfg, id, a, s, clock, mid - clock) && RevertWalks(cfg, id, c, s, mid, end)
    ensures RevertWalks(cfg, id, a, s, clock, end)
  {
    WalkOn(cfg, id, a, s, clock, mid - clock, end.clock - mid);
  }

  /** An attempt after which the loop ends, won or not, is the machine's ending. */
  lemma RevertEnds(cfg: Config, id: nat, a: After, s: Script, clock: nat, once: End)
    requires OnceWalks(cfg, id, a, s, clock, once)
    requires once.won || EndedBy(s, once.clock) || Interrupted(s, once.clock) || a.run.at.tries >= cfg.revertAttempts
    ensures RevertWalks(cfg, id, a, s, clock,
                        if once.won then once
                        else if EndedBy(s, once.clock) then End(once.calls, once.clock, false)
                        else End(once.calls, once.clock + 1, false))
  {
    if !once.won && !EndedBy(s, once.clock) { BackoffIsTheMachine(cfg, id, a, s, clock, once); }
  }

  /** After a failed attempt the machine is at the top of the next one. */
  lemma NextAttempt(cfg: Config, id: nat, a: After, s: Script, clock: nat, once: End) returns (c: After)
    requires OnceWalks(cfg, id, a, s, clock, once)
    requires !once.won && !EndedBy(s, once.clock) && !Interrupted(s, once.clock) && a.run.at.tries < cfg.revertAttempts
    ensures clock < once.clock && c == Walk(cfg, id, a, s, clock, once.clock + 1 - clock)
    ensures AtRevertTop(c.run) && c.run.at.tries == a.run.at.tries + 1
    ensures c.run.did.calls == once.calls && c.run.req.originalRaw == a.run.req.originalRaw
  {
    c := Walk(cfg, id, a, s, clock, once.clock + 1 - clock);
    BackoffIsTheMachine(cfg, id, a, s, clock, once);
  }

  lemma {:induction false} RevertGoesOn(cfg: Config, id: nat, a: After, c: After, s: Script, clock: nat, mid: nat,
                                       content: Bytes, tries: nat, calls: Calls)
    requires clock < mid && c == Walk(cfg, id, a, s, clock, mid - clock)
    requires AtRevertTop(c.run) && c.run.at.tries == tries <= cfg.revertAttempts
    requires c.run.req.originalRaw == content && c.run.did.calls == calls
    ensures RevertWalks(cfg, id, a, s, clock, Revert(s, content, cfg.revertAttempts, tries, calls, mid))
    decreases cfg.revertAttempts - tries, 2
  {
    RevertIsTheMachine(cfg, id, c, s, mid);
    RevertResumes(cfg, id, a, c, s, clock, mid, Revert(s, content, cfg.revertAttempts, tries, calls, mid));
  }

  /** Whatever follows one attempt is the machine's. */
  lemma {:induction false} RevertFrom(cfg: Config, id: nat, a: After, s: Script, clock: nat, once: End)
    requires a.run.at.tries <= cfg.revertAttempts && OnceWalks(cfg, id, a, s, clock, once)
    ensures var r := a.run;
            RevertWalks(cfg, id, a, s, clock, AfterOnce(s, r.req.originalRaw, cfg.revertAttempts, r.at.tries, once))
    decreases cfg.revertAttempts - a.run.at.tries, 0
  {
    var r := a.run;
    if once.won || EndedBy(s, once.clock) || Interrupted(s, once.clock) || r.at.tries >= cfg.revertAttempts {
      RevertEnds(cfg, id, a, s, clock, once);
    } else {
      var c := NextAttempt(cfg, id, a, s, clock, once);
      RevertGoesOn(cfg, id, a, c, s, clock, once.clock + 1, r.req.originalRaw, r.at.tries + 1, once.calls);
    }
  }

  /** The whole revert loop is the machine's. */
  lemma {:induction false} RevertIsTheMachine(cfg: Config, id: nat, a: After, s: Script, clock: nat)
    requires AtRevertTop(a.run) && a.run.at.tries <= cfg.revertAttempts
    ensures var r := a.run;
            RevertWalks(cfg, id, a, s, clock,
                        Revert(s, r.req.originalRaw, cfg.revertAttempts, r.at.tries, r.did.calls, clock))
    decreases cfg.revertAttempts - a.run.at.tries, 1
  {
    OnceIsTheMachine(cfg, id, a, s, clock);
    RevertFrom(cfg, id, a, s, clock, Once(s, a.run.req.originalRaw, a.run.did.calls, clock + 1));
  }
}
