/**
 * The durable record of every deploy (internal/journal/journal.go) and the
 * recovery pass over it at start-up (cmd/snowdeployd/main.go). Rows are kept in
 * insertion order and a row's id is its position.
 */
module Journals {
  import opened Options

  datatype Action = Deploy | Rollback | Converge

  datatype State =
    | Detected | PrOpen | Checks | Merged | Reconciling | Probing
    | Healthy | RolledBack | Failed
  {
    predicate IsTerminal() {
      Healthy? || RolledBack? || Failed?
    }
  }

  datatype Row = Row(
    service: string,
    action: Action,
    oldDigest: string,
    newDigest: string,
    prNumber: nat,
    mergeSHA: string,
    state: State,
    startedAt: int,
    finishedAt: Option<int>)
  {
    predicate IsFinished() {
      finishedAt.Some?
    }
  }

  /** The column assignments the engine makes, one per guarded UPDATE statement. */
  datatype Change =
    | Progress(state: State)
    | Finish(final: State, at: int)
    | SetPR(prNumber: nat)
    | SetDigests(oldDigest: string, newDigest: string)
    | SetMergeSHA(sha: string)

  datatype UpdateError = NotFound | AlreadyFinished

  function Assign(row: Row, c: Change): Row {
    match c
    case Progress(state) => row.(state := state)
    case Finish(final, at) => row.(state := final, finishedAt := Some(at))
    case SetPR(n) => row.(prNumber := n)
    case SetDigests(o, n) => row.(oldDigest := o, newDigest := n)
    case SetMergeSHA(sha) => row.(mergeSHA := sha)
  }

  /** UPDATE ... WHERE id = ? AND finished_at IS NULL */
  function Update(rows: seq<Row>, id: nat, c: Change): (after: seq<Row>)
    ensures |after| == |rows|
  {
    if id < |rows| && !rows[id].IsFinished() then rows[id := Assign(rows[id], c)] else rows
  }

  // ---- Queries ----------------------------------------------------------------

  /** ORDER BY started_at DESC, id DESC: the first id comes strictly before the second. */
  predicate Newer(rows: seq<Row>, a: nat, b: nat)
    requires a < |rows| && b < |rows|
  {
    rows[a].startedAt > rows[b].startedAt || (rows[a].startedAt == rows[b].startedAt && a > b)
  }

  ghost predicate Ordered(rows: seq<Row>, ids: seq<nat>) {
    && (forall k :: 0 <= k < |ids| ==> ids[k] < |rows|)
    && (forall a, b :: 0 <= a < b < |ids| ==> Newer(rows, ids[a], ids[b]))
  }

  function InsertNewest(rows: seq<Row>, ids: seq<nat>, id: nat): seq<nat>
    requires id < |rows| && forall k :: 0 <= k < |ids| ==> ids[k] < |rows|
  {
    if ids == [] || Newer(rows, id, ids[0]) then [id] + ids
    else [ids[0]] + InsertNewest(rows, ids[1..], id)
  }

  /** The ids below a bound whose rows a query selects, newest first. */
  function NewestFirst(rows: seq<Row>, select: Row -> bool, bound: nat): (ids: seq<nat>)
    requires bound <= |rows|
    ensures forall k :: 0 <= k < |ids| ==> ids[k] < |rows|
  {
    if bound == 0 then []
    else
      var rest := NewestFirst(rows, select, bound - 1);
      if select(rows[bound - 1]) then
        InsertNewestBounds(rows, rest, bound - 1);
        InsertNewest(rows, rest, bound - 1)
      else rest
  }

  lemma {:induction false} InsertNewestBounds(rows: seq<Row>, ids: seq<nat>, id: nat)
    requires id < |rows| && forall k :: 0 <= k < |ids| ==> ids[k] < |rows|
    ensures forall k {:trigger k in InsertNewest(rows, ids, id)} ::
              k in InsertNewest(rows, ids, id) <==> k == id || k in ids
    ensures forall k :: 0 <= k < |InsertNewest(rows, ids, id)| ==> InsertNewest(rows, ids, id)[k] < |rows|
  {
    if ids == [] || Newer(rows, id, ids[0]) {
    } else {
      InsertNewestBounds(rows, ids[1..], id);
      assert ids == [ids[0]] + ids[1..];
    }
  }

  lemma {:induction false} InsertNewestKeepsOrder(rows: seq<Row>, ids: seq<nat>, id: nat)
    requires id < |rows| && Ordered(rows, ids) && id !in ids
    ensures Ordered(rows, InsertNewest(rows, ids, id))
  {
    InsertNewestBounds(rows, ids, id);
    var out := InsertNewest(rows, ids, id);
    if ids == [] || Newer(rows, id, ids[0]) {
      forall a, b | 0 <= a < b < |out| ensures Newer(rows, out[a], out[b]) {
        if a == 0 && b > 1 { assert Newer(rows, ids[0], ids[b - 1]); }
      }
    } else {
      InsertNewestKeepsOrder(rows, ids[1..], id);
      InsertNewestBounds(rows, ids[1..], id);
      assert ids[0] in ids;
      forall b | 0 < b < |out| ensures Newer(rows, out[0], out[b]) {
        assert out[b] in InsertNewest(rows, ids[1..], id);
      }
    }
  }

  lemma {:induction false} NewestFirstAnswers(rows: seq<Row>, select: Row -> bool, bound: nat)
    requires bound <= |rows|
    ensures Ordered(rows, NewestFirst(rows, select, bound))
    ensures forall id: nat {:trigger id in NewestFirst(rows, select, bound)} ::
              id in NewestFirst(rows, select, bound) <==> id < bound && select(rows[id])
  {
    if bound > 0 {
      NewestFirstAnswers(rows, select, bound - 1);
      if select(rows[bound - 1]) {
        var rest := NewestFirst(rows, select, bound - 1);
        assert bound - 1 !in rest;
        InsertNewestBounds(rows, rest, bound - 1);
        InsertNewestKeepsOrder(rows, rest, bound - 1);
        assert NewestFirst(rows, select, bound) == InsertNewest(rows, rest, bound - 1);
      }
    }
  }

  /** A query's answer: exactly the selected rows, each once, newest first by start time and then by id. */
  lemma NewestFirstIsTheQuery(rows: seq<Row>, select: Row -> bool, bound: nat)
    requires bound <= |rows|
    ensures Ordered(rows, NewestFirst(rows, select, bound))
    ensures var ids := NewestFirst(rows, select, bound);
            forall a, b :: 0 <= a < b < |ids| ==>
              var (x, y) := (rows[ids[a]].startedAt, rows[ids[b]].startedAt); x > y || (x == y && ids[a] > ids[b])
    ensures forall id: nat {:trigger id in NewestFirst(rows, select, bound)} ::
              id in NewestFirst(rows, select, bound) <==> id < bound && select(rows[id])
  {
    NewestFirstAnswers(rows, select, bound);
    assert forall a, b :: 0 <= a < b < |NewestFirst(rows, select, bound)| ==>
        Newer(rows, NewestFirst(rows, select, bound)[a], NewestFirst(rows, select, bound)[b]);
  }

  function OfService(service: string): Row -> bool {
    (row: Row) => row.service == service
  }

  function HealthyOther(service: string, notDigest: string): Row -> bool {
    (row: Row) => row.service == service && row.state == Healthy && row.newDigest != "" && row.newDigest != notDigest
  }

  /** What a rollback without a target means: the newest healthy digest that is not the given one. */
  function PreviousHealthyDigest(rows: seq<Row>, service: string, notDigest: string): Option<string> {
    var ids := NewestFirst(rows, HealthyOther(service, notDigest), |rows|);
    if ids == [] then None else Some(rows[ids[0]].newDigest)
  }

  /** A healthy receipt of the service for another digest than the given one. */
  ghost predicate HealthyReceipt(rows: seq<Row>, id: nat, service: string, notDigest: string) {
    && id < |rows| && rows[id].service == service && rows[id].state == Healthy
    && rows[id].newDigest != "" && rows[id].newDigest != notDigest
  }

  /** It is the newest of them: started later than any other, or at the same time and inserted later. */
  ghost predicate NewestHealthy(rows: seq<Row>, id: nat, service: string, notDigest: string) {
    && HealthyReceipt(rows, id, service, notDigest)
    && forall other: nat :: HealthyReceipt(rows, other, service, notDigest) && other != id ==>
         || rows[id].startedAt > rows[other].startedAt
         || (rows[id].startedAt == rows[other].startedAt && id > other)
  }

  lemma PreviousHealthyDigestIsNewest(rows: seq<Row>, service: string, notDigest: string)
    ensures match PreviousHealthyDigest(rows, service, notDigest)
            case None => forall id: nat :: !HealthyReceipt(rows, id, service, notDigest)
            case Some(d) => exists id: nat :: NewestHealthy(rows, id, service, notDigest) && rows[id].newDigest == d
  {
    var select := HealthyOther(service, notDigest);
    var ids := NewestFirst(rows, select, |rows|);
    NewestFirstIsTheQuery(rows, select, |rows|);
    if ids == [] {
      forall id: nat ensures !HealthyReceipt(rows, id, service, notDigest) { assert id !in ids; }
    } else {
      assert ids[0] in ids;
      forall other: nat | HealthyReceipt(rows, other, service, notDigest) && other != ids[0]
        ensures Newer(rows, ids[0], other)
      {
        assert other in ids;
      }
      assert NewestHealthy(rows, ids[0], service, notDigest);
    }
  }

  // ---- Permanence -------------------------------------------------------------

  /** What start-up recovery leaves of one row: an orphan is closed as failed. */
  function Closed(row: Row, at: int): Row {
    if row.IsFinished() then row else Assign(row, Finish(Failed, at))
  }

  /** One thing that can happen to the table; Recover stops early when a write fails. */
  datatype Op = Begin(row: Row) | Change(id: nat, change: Change) | Recover(at: int, closed: set<nat>)

  function Perform(rows: seq<Row>, op: Op): seq<Row> {
    match op
    case Begin(row) => rows + [row]
    case Change(id, c) => Update(rows, id, c)
    case Recover(at, closed) =>
      seq(|rows|, (k: nat) requires k < |rows| => if k in closed then Closed(rows[k], at) else rows[k])
  }

  function PerformAll(rows: seq<Row>, ops: seq<Op>): seq<Row>
    decreases |ops|
  {
    if ops == [] then rows else PerformAll(Perform(rows, ops[0]), ops[1..])
  }

  /** Over any history of writes and recoveries, a finished row keeps every field. */
  lemma {:induction false} ReceiptsArePermanent(rows: seq<Row>, ops: seq<Op>)
    ensures |PerformAll(rows, ops)| >= |rows|
    ensures forall id :: 0 <= id < |rows| && rows[id].IsFinished() ==> PerformAll(rows, ops)[id] == rows[id]
    decreases |ops|
  {
    if ops != [] {
      ReceiptsArePermanent(Perform(rows, ops[0]), ops[1..]);
    }
  }

  // ---- The store --------------------------------------------------------------

  class Journal {
    var rows: seq<Row>

    constructor ()
      ensures rows == []
    {
      rows := [];
    }

    method Begin(row: Row) returns (id: nat)
      modifies this
      ensures rows == old(rows) + [row.(finishedAt := None)] && id == |old(rows)|
    {
      id := |rows|;
      rows := rows + [row.(finishedAt := None)];
    }

    /** The shared tail of every write: change the row, or say why it did not change. */
    method Write(id: nat, c: Change) returns (error: Option<UpdateError>)
      modifies this
      ensures rows == Update(old(rows), id, c)
      ensures error == if id >= |old(rows)| then Some(NotFound)
                       else if old(rows)[id].finishedAt.Some? then Some(AlreadyFinished)
                       else None
      ensures error.Some? ==> rows == old(rows)
      ensures error.None? ==>
                && |rows| == |old(rows)| && (forall k :: 0 <= k < |rows| && k != id ==> rows[k] == old(rows)[k])
                && var row := old(rows)[id];
                   match c
                   case Progress(state) => rows[id] == row.(state := state)
                   case Finish(final, at) => rows[id] == row.(state := final, finishedAt := Some(at))
                   case SetPR(n) => rows[id] == row.(prNumber := n)
                   case SetDigests(o, n) => rows[id] == row.(oldDigest := o, newDigest := n)
                   case SetMergeSHA(sha) => rows[id] == row.(mergeSHA := sha)
    {
      var affected := 0;
      if id < |rows| && !rows[id].IsFinished() {
        rows := rows[id := Assign(rows[id], c)];
        affected := 1;
      }
      if affected == 1 {
        return None;
      }
      error := if id >= |rows| then Some(NotFound) else Some(AlreadyFinished);
    }

    /** A service's rows by id, newest first, at most n of them, or twenty when n is not positive. */
    method Recent(service: string, n: int) returns (out: seq<nat>)
      ensures var ids := NewestFirst(rows, OfService(service), |rows|);
              var limit := if n <= 0 then 20 else n;
              out == ids[..if |ids| < limit then |ids| else limit]
      ensures forall k :: 0 <= k < |out| ==> out[k] < |rows| && rows[out[k]].service == service
      ensures |out| < (if n <= 0 then 20 else n) ==>
                forall id: nat :: id < |rows| && rows[id].service == service ==> id in out
    {
      NewestFirstIsTheQuery(rows, OfService(service), |rows|);
      var limit := if n <= 0 then 20 else n;
      var ids := NewestFirst(rows, OfService(service), |rows|);
      out := [];
      while |out| < limit && |out| < |ids|
        invariant |out| <= limit && |out| <= |ids| && out == ids[..|out|]
      {
        out := out + [ids[|out|]];
      }
      assert forall k :: 0 <= k < |out| ==> out[k] in ids;
      assert |out| < limit ==> out == ids;
    }

    /** The ids of every row that never received a receipt, oldest first. */
    method Unfinished() returns (out: seq<nat>)
      ensures forall id: nat :: id in out <==> id < |rows| && !rows[id].IsFinished()
      ensures forall k :: 0 <= k < |out| ==> out[k] < |rows|
      ensures forall a, b :: 0 <= a < b < |out| ==> Newer(rows, out[b], out[a])
    {
      var newest := NewestFirst(rows, (row: Row) => !row.IsFinished(), |rows|);
      NewestFirstIsTheQuery(rows, (row: Row) => !row.IsFinished(), |rows|);
      out := [];
      while |out| < |newest|
        invariant |out| <= |newest|
        invariant forall k :: 0 <= k < |out| ==> out[k] == newest[|newest| - 1 - k]
      {
        out := out + [newest[|newest| - 1 - |out|]];
      }
      forall id: nat ensures id in out <==> id in newest {
        if id in newest {
          var k :| 0 <= k < |newest| && newest[k] == id;
          assert out[|newest| - 1 - k] == id;
        }
      }
    }

    /**
     * Start-up recovery: close every orphan as failed. A write that fails stops
     * the pass, and start-up with it, after the orphans already closed.
     */
    method FailOrphanedDeploys(at: int, writes: seq<bool>) returns (ok: bool)
      modifies this
      ensures |rows| == |old(rows)|
      ensures forall id :: 0 <= id < |rows| ==>
                var row := old(rows)[id];
                if row.finishedAt.Some? then rows[id] == row
                else rows[id] == row.(state := Failed, finishedAt := Some(at)) || (!ok && rows[id] == row)
      ensures exists closed :: rows == Perform(old(rows), Recover(at, closed))
    {
      var orphans := Unfinished();
      var n := 0;
      ghost var closed: set<nat> := {};
      while n < |orphans|
        invariant n <= |orphans| && |rows| == |old(rows)|
        invariant closed == set k | 0 <= k < n :: orphans[k]
        invariant forall id: nat :: id < |rows| ==>
                    rows[id] == if id in closed then Closed(old(rows)[id], at) else old(rows)[id]
      {
        var id := orphans[n];
        assert id in orphans && id !in closed by {
          assert forall a, b :: 0 <= a < b < |orphans| ==> orphans[a] != orphans[b];
        }
        if n < |writes| && !writes[n] {
          assert rows == Perform(old(rows), Recover(at, closed));
          return false;
        }
        var _ := Write(id, Finish(Failed, at));
        closed := closed + {id};
        n := n + 1;
      }
      forall id | 0 <= id < |rows| ensures rows[id] == Closed(old(rows)[id], at) {
        if !old(rows)[id].IsFinished() { assert id in orphans; }
      }
      assert rows == Perform(old(rows), Recover(at, closed));
      ok := true;
    }
  }
}
