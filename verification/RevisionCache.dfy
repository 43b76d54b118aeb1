/**
 * The revision cache (internal/revision/revision.go): lookups that share one
 * detached fill per key, over a bounded map that must agree with the slow
 * source. Lookups and fills are interleaved; what a fill's resolve answers is
 * the label's argument.
 */
module RevisionCache {
  import opened Options

  datatype Revision = Revision(sha: string, url: string, subject: string)

  const MAX_ENTRIES: nat := 512
  const FAILURE_RETRY: int := 600  // seconds

  /** A remembered answer; None is a failed lookup. */
  datatype Entry = Entry(rev: Option<Revision>, at: int)

  /** A fill's goroutine: resolving; published but its channel still open; done. */
  datatype Phase = Resolving | Published(result: Option<Revision>) | Closed(result: Option<Revision>)
  {
    predicate Completed(rev: Option<Revision>) {
      !Resolving? && result == rev
    }
  }

  datatype Fill = Fill(repository: string, digest: string, phase: Phase)
  {
    function Key(): string { KeyOf(repository, digest) }
  }

  datatype Stage = Reading | Waiting(fill: nat) | Answered(rev: Option<Revision>) | GaveUp

  /** One call of Lookup. */
  datatype Call = Call(repository: string, digest: string, stage: Stage)
  {
    function Key(): string { KeyOf(repository, digest) }
  }

  datatype Cache = Cache(entries: map<string, Entry>, fills: map<string, nat>, started: seq<Fill>)

  datatype State = State(cache: Cache, calls: seq<Call>, now: int)

  function KeyOf(repository: string, digest: string): string {
    repository + "@" + digest
  }

  /** In a key whose digest holds no '@', the last '@' is the separator. */
  lemma SeparatorIsLast(repository: string, digest: string)
    requires '@' !in digest
    ensures var key := KeyOf(repository, digest);
            key[|repository|] == '@' && forall k :: |repository| < k < |key| ==> key[k] != '@'
  {
    var key := KeyOf(repository, digest);
    forall k | |repository| < k < |key| ensures key[k] != '@' {
      assert key[k] == digest[k - |repository| - 1];
    }
  }

  /** Keys tell apart any two images whose digests hold no '@'. */
  lemma KeysAreInjective(r1: string, d1: string, r2: string, d2: string)
    requires '@' !in d1 && '@' !in d2 && KeyOf(r1, d1) == KeyOf(r2, d2)
    ensures r1 == r2 && d1 == d2
  {
    var key := KeyOf(r1, d1);
    SeparatorIsLast(r1, d1);
    SeparatorIsLast(r2, d2);
    assert |r1| == |r2|;
    assert key[..|r1|] == r1 && key[..|r2|] == r2;
    assert key[|r1| + 1..] == d1 && key[|r2| + 1..] == d2;
  }

  // ---- The critical sections ----------------------------------------------------

  datatype Reply = Decided(rev: Option<Revision>) | WaitOn(fill: nat)

  /** What the cache can answer by itself: a success always, a failure while it is recent. */
  function Known(cache: Cache, key: string, now: int): Option<Option<Revision>> {
    if key !in cache.entries then None
    else if cache.entries[key].rev.Some? then Some(cache.entries[key].rev)
    else if now - cache.entries[key].at < FAILURE_RETRY then Some(None)
    else None
  }

  function ReplyTo(cache: Cache, key: string, now: int): Reply {
    match Known(cache, key, now)
    case Some(rev) => Decided(rev)
    case None => WaitOn(if key in cache.fills then cache.fills[key] else |cache.started|)
  }

  /** The cache after a caller asked: a miss nobody is filling starts a fill. */
  function AfterAsking(cache: Cache, repository: string, digest: string, now: int): Cache {
    var key := KeyOf(repository, digest);
    if Known(cache, key, now).Some? || key in cache.fills then cache
    else
      cache.(fills := cache.fills[key := |cache.started|],
             started := cache.started + [Fill(repository, digest, Resolving)])
  }

  function Store(entries: map<string, Entry>, key: string, rev: Option<Revision>, now: int): map<string, Entry> {
    (if |entries| >= MAX_ENTRIES then map[] else entries)[key := Entry(rev, now)]
  }

  /** The cache after fill f published: stored, and no longer in flight. */
  function AfterFill(cache: Cache, f: nat, rev: Option<Revision>, now: int): Cache
    requires f < |cache.started|
  {
    var key := cache.started[f].Key();
    cache.(entries := Store(cache.entries, key, rev, now),
           fills := cache.fills - {key},
           started := cache.started[f := cache.started[f].(phase := Published(rev))])
  }

  /** The object itself; the channels it hands out are positions in started. */
  class CachedSource {
    var entries: map<string, Entry>
    var fills: map<string, nat>
    var started: seq<Fill>

    function View(): Cache
      reads this
    {
      Cache(entries, fills, started)
    }

    constructor ()
      ensures View() == Cache(map[], map[], [])
    {
      entries, fills, started := map[], map[], [];
    }

    method CachedOrFilling(repository: string, digest: string, now: int) returns (reply: Reply)
      modifies this
      ensures reply == ReplyTo(old(View()), KeyOf(repository, digest), now)
      ensures View() == AfterAsking(old(View()), repository, digest, now)
      ensures var key := repository + "@" + digest;
              if key in old(entries) && (old(entries)[key].rev.Some? || now - old(entries)[key].at < 600)
              then reply == Decided(old(entries)[key].rev) && View() == old(View())
              else
                && entries == old(entries) && key in fills && reply == WaitOn(fills[key])
                && if key in old(fills) then View() == old(View())
                   else
                     && fills == old(fills)[key := |old(started)|]
                     && started == old(started) + [Fill(repository, digest, Resolving)]
    {
      var key := repository + "@" + digest;
      if key in entries {
        var e := entries[key];
        if e.rev.Some? {
          return Decided(e.rev);
        }
        if now - e.at < FAILURE_RETRY {
          return Decided(None);
        }
      }
      if key !in fills {
        fills := fills[key := |started|];
        started := started + [Fill(repository, digest, Resolving)];
      }
      reply := WaitOn(fills[key]);
    }

    method StoreOutcome(key: string, rev: Option<Revision>, now: int)
      modifies this`entries
      ensures entries == Store(old(entries), key, rev, now)
      ensures |old(entries)| <= MAX_ENTRIES ==> |entries| <= MAX_ENTRIES
    {
      if |entries| >= MAX_ENTRIES {
        entries := map[];
      }
      entries := entries[key := Entry(rev, now)];
    }

    /** The end of a fill, under the lock: what it resolved is stored and the key is free again. */
    method Publish(f: nat, rev: Option<Revision>, now: int)
      requires f < |started|
      modifies this
      ensures View() == AfterFill(old(View()), f, rev, now)
    {
      var key := KeyOf(started[f].repository, started[f].digest);
      StoreOutcome(key, rev, now);
      fills := fills - {key};
      started := started[f := started[f].(phase := Published(rev))];
    }
  }

  // ---- Interleavings --------------------------------------------------------------

  datatype Label =
    | Lookup(repository: string, digest: string)
    | Read(call: nat)                          // cachedOrFilling
    | Wake(call: nat)                          // the fill's channel is closed
    | Abandon(call: nat)                       // the caller's context is done first
    | Fills(fill: nat, rev: Option<Revision>)  // resolve answers and the fill publishes
    | Closes(fill: nat)                        // and then closes its channel
    | Tick(to: int)

  predicate Legal(s: State, l: Label) {
    match l
    case Lookup(_, _) => true
    case Read(c) => c < |s.calls| && s.calls[c].stage.Reading?
    case Wake(c) =>
      && c < |s.calls| && s.calls[c].stage.Waiting?
      && s.calls[c].stage.fill < |s.cache.started| && s.cache.started[s.calls[c].stage.fill].phase.Closed?
    case Abandon(c) => c < |s.calls| && s.calls[c].stage.Waiting?
    case Fills(f, _) => f < |s.cache.started| && s.cache.started[f].phase.Resolving?
    case Closes(f) => f < |s.cache.started| && s.cache.started[f].phase.Published?
    case Tick(to) => s.now <= to
  }

  function At(calls: seq<Call>, c: nat, stage: Stage): seq<Call>
    requires c < |calls|
  {
    calls[c := calls[c].(stage := stage)]
  }

  function Replied(call: Call, reply: Reply): Call {
    call.(stage := if reply.Decided? then Answered(reply.rev) else Waiting(reply.fill))
  }

  function Next(s: State, l: Label): State
    requires Legal(s, l)
  {
    match l
    case Lookup(repository, digest) => s.(calls := s.calls + [Call(repository, digest, Reading)])
    case Read(c) =>
      var reply := ReplyTo(s.cache, s.calls[c].Key(), s.now);
      s.(cache := AfterAsking(s.cache, s.calls[c].repository, s.calls[c].digest, s.now),
         calls := s.calls[c := Replied(s.calls[c], reply)])
    case Wake(c) => s.(calls := At(s.calls, c, Reading))
    case Abandon(c) => s.(calls := At(s.calls, c, GaveUp))
    case Fills(f, rev) => s.(cache := AfterFill(s.cache, f, rev, s.now))
    case Closes(f) =>
      var fill := s.cache.started[f];
      s.(cache := s.cache.(started := s.cache.started[f := fill.(phase := Closed(fill.phase.result))]))
    case Tick(to) => s.(now := to)
  }

  predicate LegalTrace(s: State, ls: seq<Label>)
    decreases |ls|
  {
    ls == [] || (Legal(s, ls[0]) && LegalTrace(Next(s, ls[0]), ls[1..]))
  }

  function Exec(s: State, ls: seq<Label>): State
    requires LegalTrace(s, ls)
    decreases |ls|
  {
    if ls == [] then s else Exec(Next(s, ls[0]), ls[1..])
  }

  const Empty := State(Cache(map[], map[], []), [], 0)

  // ---- The invariant ----------------------------------------------------------------

  /** A fill of this key completed with this answer. */
  ghost predicate Resolved(cache: Cache, key: string, rev: Option<Revision>) {
    exists f :: 0 <= f < |cache.started| && cache.started[f].Key() == key && cache.started[f].phase.Completed(rev)
  }

  /** Keys in flight and live fills are the same thing, and neither has a success stored. */
  ghost predicate SingleFlight(cache: Cache) {
    && (forall k :: k in cache.fills ==>
          && cache.fills[k] < |cache.started|
          && cache.started[cache.fills[k]].Key() == k && cache.started[cache.fills[k]].phase.Resolving?)
    && (forall f :: 0 <= f < |cache.started| && cache.started[f].phase.Resolving? ==>
          && cache.started[f].Key() in cache.fills && cache.fills[cache.started[f].Key()] == f
          && (cache.started[f].Key() in cache.entries ==> cache.entries[cache.started[f].Key()].rev.None?))
  }

  ghost predicate Agrees(cache: Cache) {
    && |cache.entries| <= MAX_ENTRIES
    && forall k :: k in cache.entries ==> Resolved(cache, k, cache.entries[k].rev)
  }

  ghost predicate CallOk(cache: Cache, call: Call) {
    match call.stage
    case Waiting(f) => f < |cache.started| && cache.started[f].Key() == call.Key()
    case Answered(rev) => Resolved(cache, call.Key(), rev)
    case _ => true
  }

  ghost predicate CallsOk(cache: Cache, calls: seq<Call>) {
    forall c :: 0 <= c < |calls| ==> CallOk(cache, calls[c])
  }

  ghost predicate Inv(s: State) {
    SingleFlight(s.cache) && Agrees(s.cache) && CallsOk(s.cache, s.calls)
  }

  /** Fills are only added, and a completed one keeps what it resolved. */
  ghost predicate Grows(a: Cache, b: Cache) {
    && |a.started| <= |b.started|
    && forall f :: 0 <= f < |a.started| ==>
         && b.started[f].Key() == a.started[f].Key()
         && (!a.started[f].phase.Resolving? ==>
               !b.started[f].phase.Resolving? && b.started[f].phase.result == a.started[f].phase.result)
  }

  lemma ResolvedStays(a: Cache, b: Cache, key: string, rev: Option<Revision>)
    requires Grows(a, b) && Resolved(a, key, rev)
    ensures Resolved(b, key, rev)
  {
    var f :| 0 <= f < |a.started| && a.started[f].Key() == key && a.started[f].phase.Completed(rev);
    assert b.started[f].phase.Completed(rev);
  }

  lemma CallsStay(a: Cache, b: Cache, calls: seq<Call>)
    requires Grows(a, b) && CallsOk(a, calls)
    ensures CallsOk(b, calls)
  {
    forall c | 0 <= c < |calls| && calls[c].stage.Answered?
      ensures Resolved(b, calls[c].Key(), calls[c].stage.rev)
    {
      ResolvedStays(a, b, calls[c].Key(), calls[c].stage.rev);
    }
  }

  lemma AnswersStay(a: Cache, b: Cache)
    requires Grows(a, b) && Agrees(a) && b.entries == a.entries
    ensures Agrees(b)
  {
    forall k | k in b.entries ensures Resolved(b, k, b.entries[k].rev) {
      ResolvedStays(a, b, k, a.entries[k].rev);
    }
  }

  lemma AskingKeeps(cache: Cache, repository: string, digest: string, now: int)
    requires SingleFlight(cache)
    ensures var after := AfterAsking(cache, repository, digest, now); SingleFlight(after) && Grows(cache, after)
  {
    var key := KeyOf(repository, digest);
    if Known(cache, key, now).None? && key !in cache.fills {
      var fill := Fill(repository, digest, Resolving);
      assert fill.Key() == key && fill.phase.Resolving?;
      AddingAFill(cache, key, fill);
    }
  }

  lemma AddingAFill(cache: Cache, key: string, fill: Fill)
    requires SingleFlight(cache) && key !in cache.fills && fill.Key() == key && fill.phase.Resolving?
    requires key in cache.entries ==> cache.entries[key].rev.None?
    ensures var after := cache.(fills := cache.fills[key := |cache.started|], started := cache.started + [fill]);
            SingleFlight(after) && Grows(cache, after)
  {
  }

  lemma FillFrees(cache: Cache, f: nat, rev: Option<Revision>, now: int)
    requires SingleFlight(cache) && f < |cache.started| && cache.started[f].phase.Resolving?
    ensures var after := AfterFill(cache, f, rev, now); SingleFlight(after) && Grows(cache, after)
  {
    var after := AfterFill(cache, f, rev, now);
    var key := cache.started[f].Key();
    assert after.started[f].Key() == key;
    forall g | 0 <= g < |after.started| && after.started[g].phase.Resolving?
      ensures var k := after.started[g].Key();
              k in after.fills && after.fills[k] == g && (k in after.entries ==> after.entries[k].rev.None?)
    {
      assert cache.started[g].Key() != key;
    }
  }

  lemma FillAgrees(cache: Cache, f: nat, rev: Option<Revision>, now: int)
    requires Agrees(cache) && f < |cache.started| && cache.started[f].phase.Resolving?
    requires Grows(cache, AfterFill(cache, f, rev, now))
    ensures Agrees(AfterFill(cache, f, rev, now))
  {
    var after := AfterFill(cache, f, rev, now);
    var key := cache.started[f].Key();
    assert after.started[f].Key() == key && after.started[f].phase.Completed(rev);
    forall k | k in after.entries ensures Resolved(after, k, after.entries[k].rev) {
      if k != key { ResolvedStays(cache, after, k, cache.entries[k].rev); }
    }
  }

  lemma ReplyIsSound(cache: Cache, call: Call, now: int)
    requires SingleFlight(cache) && Agrees(cache)
    ensures CallOk(AfterAsking(cache, call.repository, call.digest, now),
                   Replied(call, ReplyTo(cache, call.Key(), now)))
  {
    var after := AfterAsking(cache, call.repository, call.digest, now);
    AskingKeeps(cache, call.repository, call.digest, now);
    var reply := ReplyTo(cache, call.Key(), now);
    if reply.Decided? {
      ResolvedStays(cache, after, call.Key(), reply.rev);
    }
  }

  lemma ReadKeeps(s: State, c: nat)
    requires Inv(s) && Legal(s, Read(c))
    ensures Inv(Next(s, Read(c))) && Grows(s.cache, Next(s, Read(c)).cache)
  {
    var call := s.calls[c];
    var after := AfterAsking(s.cache, call.repository, call.digest, s.now);
    AskingKeeps(s.cache, call.repository, call.digest, s.now);
    AnswersStay(s.cache, after);
    CallsStay(s.cache, after, s.calls);
    ReplyIsSound(s.cache, call, s.now);
  }

  lemma ClosingKeeps(cache: Cache, f: nat, fill: Fill)
    requires SingleFlight(cache) && f < |cache.started| && cache.started[f].phase.Published?
    requires fill == cache.started[f].(phase := Closed(cache.started[f].phase.result))
    ensures var after := cache.(started := cache.started[f := fill]); SingleFlight(after) && Grows(cache, after)
  {
    assert fill.Key() == cache.started[f].Key();
  }

  lemma NextKeeps(s: State, l: Label)
    requires Inv(s) && Legal(s, l)
    ensures Inv(Next(s, l)) && Grows(s.cache, Next(s, l).cache)
  {
    var t := Next(s, l);
    match l
    case Read(c) => ReadKeeps(s, c);
    case Fills(f, rev) =>
      FillFrees(s.cache, f, rev, s.now);
      FillAgrees(s.cache, f, rev, s.now);
      CallsStay(s.cache, t.cache, s.calls);
    case Closes(f) =>
      ClosingKeeps(s.cache, f, t.cache.started[f]);
      AnswersStay(s.cache, t.cache);
      CallsStay(s.cache, t.cache, s.calls);
    case _ =>
  }

  lemma {:induction false} ExecKeeps(s: State, ls: seq<Label>)
    requires Inv(s) && LegalTrace(s, ls)
    ensures Inv(Exec(s, ls))
    decreases |ls|
  {
    if ls != [] {
      NextKeeps(s, ls[0]);
      ExecKeeps(Next(s, ls[0]), ls[1..]);
    }
  }

  // ---- What it guarantees -------------------------------------------------------------

  /** At most one fill per key is ever resolving at a time. */
  lemma OneFillPerKey(ls: seq<Label>, f: nat, g: nat)
    requires LegalTrace(Empty, ls)
    requires f < |Exec(Empty, ls).cache.started| && g < |Exec(Empty, ls).cache.started|
    requires var started := Exec(Empty, ls).cache.started;
             started[f].phase.Resolving? && started[g].phase.Resolving? && started[f].Key() == started[g].Key()
    ensures f == g
  {
    ExecKeeps(Empty, ls);
  }

  /**
   * Every answer a lookup ever gives, a commit or none, is what a completed
   * resolve of that very repository and digest found; and the cache stays bounded.
   */
  lemma AnswersAgreeWithSource(ls: seq<Label>, c: nat)
    requires LegalTrace(Empty, ls) && c < |Exec(Empty, ls).calls|
    requires forall f :: 0 <= f < |Exec(Empty, ls).cache.started| ==> '@' !in Exec(Empty, ls).cache.started[f].digest
    requires var call := Exec(Empty, ls).calls[c]; call.stage.Answered? && '@' !in call.digest
    ensures var call := Exec(Empty, ls).calls[c];
            exists f :: 0 <= f < |Exec(Empty, ls).cache.started|
              && var fill := Exec(Empty, ls).cache.started[f];
                 && fill.repository == call.repository && fill.digest == call.digest
                 && fill.phase.Completed(call.stage.rev)
    ensures |Exec(Empty, ls).cache.entries| <= 512
  {
    ExecKeeps(Empty, ls);
    var s := Exec(Empty, ls);
    var call := s.calls[c];
    var f :| 0 <= f < |s.cache.started| && s.cache.started[f].Key() == call.Key()
      && s.cache.started[f].phase.Completed(call.stage.rev);
    KeysAreInjective(s.cache.started[f].repository, s.cache.started[f].digest, call.repository, call.digest);
  }

  /** A stored success is never replaced: a step leaves it as it is, or drops the whole map for another key. */
  lemma SuccessIsNeverReplaced(s: State, l: Label, key: string)
    requires Inv(s) && Legal(s, l) && key in s.cache.entries && s.cache.entries[key].rev.Some?
    ensures var after := Next(s, l).cache.entries;
            || (key in after && after[key] == s.cache.entries[key])
            || (l.Fills? && |s.cache.entries| >= MAX_ENTRIES && key !in after && |after| == 1)
  {
    if l.Fills? {
      assert s.cache.started[l.fill].Key() != key;
      var k := s.cache.started[l.fill].Key();
      assert map[k := Entry(l.rev, s.now)].Keys == {k};
    }
  }

  lemma StepStartsNoSecond(s: State, l: Label, f: nat, g: nat)
    requires SingleFlight(s.cache) && Legal(s, l) && f < |s.cache.started| && s.cache.started[f].phase.Resolving?
    requires |s.cache.started| <= g < |Next(s, l).cache.started|
    ensures Next(s, l).cache.started[g].Key() != s.cache.started[f].Key()
  {
    match l
    case Read(c) => assert Next(s, l).cache.started[g].Key() == s.calls[c].Key() && s.calls[c].Key() !in s.cache.fills;
    case _ =>
  }

  /** While a key's fill is resolving, no lookup starts another one for it. */
  lemma {:induction false} ConcurrentLookupsShare(s: State, ls: seq<Label>, f: nat, g: nat)
    requires Inv(s) && LegalTrace(s, ls) && f < |s.cache.started| && s.cache.started[f].phase.Resolving?
    requires |s.cache.started| <= g < |Exec(s, ls).cache.started| && Exec(s, ls).cache.started[f].phase.Resolving?
    ensures Exec(s, ls).cache.started[g].Key() != s.cache.started[f].Key()
    decreases |ls|
  {
    if ls != [] {
      var t := Next(s, ls[0]);
      NextKeeps(s, ls[0]);
      GrowsOn(t, ls[1..]);
      if g < |t.cache.started| {
        StepStartsNoSecond(s, ls[0], f, g);
      } else {
        ConcurrentLookupsShare(t, ls[1..], f, g);
      }
    }
  }

  lemma {:induction false} GrowsOn(s: State, ls: seq<Label>)
    requires Inv(s) && LegalTrace(s, ls)
    ensures Grows(s.cache, Exec(s, ls).cache)
    decreases |ls|
  {
    if ls != [] {
      NextKeeps(s, ls[0]);
      GrowsOn(Next(s, ls[0]), ls[1..]);
    }
  }

  /** What the goroutine of fill f still does before it ends. */
  function Remaining(s: State, f: nat, rev: Option<Revision>): seq<Label>
    requires f < |s.cache.started|
  {
    match s.cache.started[f].phase
    case Resolving => [Fills(f, rev), Closes(f)]
    case Published(_) => [Closes(f)]
    case Closed(_) => []
  }

  lemma FillEnds(s: State, f: nat, rev: Option<Revision>)
    requires f < |s.cache.started|
    ensures var ls := Remaining(s, f, rev);
            && LegalTrace(s, ls)
            && f < |Exec(s, ls).cache.started| && Exec(s, ls).cache.started[f].phase.Closed?
            && Exec(s, ls).calls == s.calls
    decreases |Remaining(s, f, rev)|
  {
    var ls := Remaining(s, f, rev);
    if ls != [] {
      var t := Next(s, ls[0]);
      assert Remaining(t, f, rev) == ls[1..];
      FillEnds(t, f, rev);
    }
  }

  /** No waiter is stranded: the fill it waits on has a goroutine that still publishes and closes, and then it wakes. */
  lemma WaiterIsWoken(s: State, c: nat, rev: Option<Revision>)
    requires Inv(s) && c < |s.calls| && s.calls[c].stage.Waiting?
    ensures s.calls[c].stage.fill < |s.cache.started|
    ensures var ls := Remaining(s, s.calls[c].stage.fill, rev);
            LegalTrace(s, ls) && Legal(Exec(s, ls), Wake(c))
  {
    FillEnds(s, s.calls[c].stage.fill, rev);
  }

  /** A step moves no call but its own, a call asks for one image for good, and giving up leaves the cache alone. */
  lemma OnlyItsCallMoves(s: State, l: Label, c: nat)
    requires Legal(s, l) && c < |s.calls|
    ensures var t := Next(s, l);
            && c < |t.calls|
            && t.calls[c].repository == s.calls[c].repository && t.calls[c].digest == s.calls[c].digest
            && (l != Read(c) && l != Wake(c) && l != Abandon(c) ==> t.calls[c] == s.calls[c])
            && (l == Abandon(c) ==> t.calls[c].stage == GaveUp && t.cache == s.cache)
            && (l == Wake(c) ==> t.calls[c].stage == Reading && t.cache == s.cache)
            && (l.Lookup? ==> t.calls == s.calls + [Call(l.repository, l.digest, Reading)] && t.cache == s.cache)
  {
  }

  /**
   * What a lookup is told: what is remembered, if that is a success or a failure
   * less than ten minutes old; otherwise it waits on the key's one fill.
   */
  lemma ReadTellsWhatIsRemembered(s: State, c: nat)
    requires Legal(s, Read(c))
    ensures var (call, after) := (s.calls[c], Next(s, Read(c)));
            var key := call.repository + "@" + call.digest;
            && after.cache.entries == s.cache.entries && after.now == s.now && |after.calls| == |s.calls|
            && (forall d :: 0 <= d < |s.calls| && d != c ==> after.calls[d] == s.calls[d])
            && if key in s.cache.entries && (s.cache.entries[key].rev.Some? || s.now - s.cache.entries[key].at < 600)
               then after.calls[c] == call.(stage := Answered(s.cache.entries[key].rev)) && after.cache == s.cache
               else after.calls[c].stage.Waiting? && Get(after.cache.fills, key) == Some(after.calls[c].stage.fill)
  {
  }

  lemma ExecFirst(s: State, l: Label, ls: seq<Label>)
    requires Legal(s, l) && LegalTrace(Next(s, l), ls)
    ensures LegalTrace(s, [l] + ls) && Exec(s, [l] + ls) == Exec(Next(s, l), ls)
  {
    assert ([l] + ls)[0] == l && ([l] + ls)[1..] == ls;
  }

  lemma ExecTwo(s: State, l: Label, m: Label)
    requires Legal(s, l) && Legal(Next(s, l), m)
    ensures LegalTrace(s, [l, m]) && Exec(s, [l, m]) == Next(Next(s, l), m)
  {
    ExecFirst(Next(s, l), m, []);
    assert [m] + [] == [m] && [l] + [m] == [l, m];
    ExecFirst(s, l, [m]);
  }

  lemma FillIsStored(s: State, f: nat, rev: Option<Revision>)
    requires Legal(s, Fills(f, rev))
    ensures LegalTrace(s, [Fills(f, rev), Closes(f)])
    ensures var after := Exec(s, [Fills(f, rev), Closes(f)]);
            && after.calls == s.calls && after.now == s.now
            && Get(after.cache.entries, s.cache.started[f].Key()) == Some(Entry(rev, s.now))
            && f < |after.cache.started| && after.cache.started[f].phase.Closed?
  {
    var key := s.cache.started[f].Key();
    var t := Next(s, Fills(f, rev));
    assert t.cache.entries == Store(s.cache.entries, key, rev, s.now);
    assert t.cache.started[f].phase == Published(rev);
    ExecTwo(s, Fills(f, rev), Closes(f));
  }

  /**
   * A waiter gets what its fill finds, a failure included: when the fill
   * resolves, publishes and closes its channel, the waiter wakes, asks the cache
   * again and is answered so.
   */
  lemma WaiterGetsTheAnswer(s: State, c: nat, rev: Option<Revision>) returns (t: State)
    requires Inv(s) && c < |s.calls| && s.calls[c].stage.Waiting?
    requires s.calls[c].stage.fill < |s.cache.started| && s.cache.started[s.calls[c].stage.fill].phase.Resolving?
    ensures var f := s.calls[c].stage.fill;
            && LegalTrace(s, [Fills(f, rev), Closes(f)])
            && LegalTrace(Exec(s, [Fills(f, rev), Closes(f)]), [Wake(c), Read(c)])
            && t == Exec(Exec(s, [Fills(f, rev), Closes(f)]), [Wake(c), Read(c)])
    ensures c < |t.calls| && t.calls[c] == s.calls[c].(stage := Answered(rev))
  {
    var f := s.calls[c].stage.fill;
    FillIsStored(s, f, rev);
    assert CallOk(s.cache, s.calls[c]);
    var u := Exec(s, [Fills(f, rev), Closes(f)]);
    ExecTwo(u, Wake(c), Read(c));
    ReadTellsWhatIsRemembered(Next(u, Wake(c)), c);
    t := Exec(u, [Wake(c), Read(c)]);
  }

  // ---- Giving up changes nothing --------------------------------------------------------

  function WithoutAbandoning(ls: seq<Label>): seq<Label> {
    if ls == [] then []
    else (if ls[0].Abandon? then [] else [ls[0]]) + WithoutAbandoning(ls[1..])
  }

  /** The same cache and clock, and the same calls but for those the first state gave up. */
  ghost predicate Patient(s: State, t: State) {
    && s.cache == t.cache && s.now == t.now && |s.calls| == |t.calls|
    && forall c :: 0 <= c < |s.calls| ==>
         || s.calls[c] == t.calls[c]
         || (s.calls[c].stage.GaveUp? && s.calls[c].repository == t.calls[c].repository
             && s.calls[c].digest == t.calls[c].digest)
  }

  /** Whoever gives up, and whenever, every fill stores exactly what it would have stored had all callers waited. */
  lemma {:induction false} GivingUpChangesNothing(s: State, t: State, ls: seq<Label>)
    requires Patient(s, t) && LegalTrace(s, ls)
    ensures LegalTrace(t, WithoutAbandoning(ls))
    ensures Patient(Exec(s, ls), Exec(t, WithoutAbandoning(ls)))
    ensures Exec(s, ls).cache == Exec(t, WithoutAbandoning(ls)).cache
    decreases |ls|
  {
    if ls != [] {
      var rest := WithoutAbandoning(ls[1..]);
      if ls[0].Abandon? {
        assert WithoutAbandoning(ls) == rest;
        GivingUpChangesNothing(Next(s, ls[0]), t, ls[1..]);
      } else {
        assert WithoutAbandoning(ls)[0] == ls[0] && WithoutAbandoning(ls)[1..] == rest;
        GivingUpChangesNothing(Next(s, ls[0]), Next(t, ls[0]), ls[1..]);
      }
    }
  }
}
