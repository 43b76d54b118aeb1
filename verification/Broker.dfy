/**
 * The event stream (internal/api/sse.go): a broker that fans deploy events out
 * to bounded channels without ever blocking, and the snapshot a fresh
 * connection is sent first. Subscribers are positions in a table.
 */
module Broadcast {
  import opened Options
  import Journals

  datatype Event = Event(
    service: string,
    action: Option<Journals.Action>,
    state: Journals.State,
    detail: string,
    journalId: nat,
    at: int,
    prNumber: Option<nat>,
    prUrl: Option<string>,
    mergeUrl: Option<string>)

  const SUBSCRIBER_BUFFER: nat := 64

  /** A buffered channel: sending on it or closing it once it is closed would panic. */
  datatype Channel = Channel(buffer: seq<Event>, closed: bool)
  {
    function Send(ev: Event): Channel
      requires !closed && |buffer| < SUBSCRIBER_BUFFER
    {
      this.(buffer := buffer + [ev])
    }

    function Close(): Channel
      requires !closed
    {
      this.(closed := true)
    }
  }

  datatype Subscriber = Subscriber(ch: Channel, warned: bool)

  // ---- What one subscriber lived through -----------------------------------------

  /** The events published while a subscription stood, and whether its buffer took each. */
  datatype History = Silence | Heard(before: History, ev: Event, kept: bool)

  datatype Log = Log(heard: History, taken: seq<Event>)

  function All(h: History): seq<Event> {
    match h case Silence => [] case Heard(before, ev, _) => All(before) + [ev]
  }

  function Kept(h: History): seq<Event> {
    match h case Silence => [] case Heard(before, ev, kept) => Kept(before) + (if kept then [ev] else [])
  }

  function Lost(h: History): nat {
    match h case Silence => 0 case Heard(before, _, kept) => Lost(before) + (if kept then 0 else 1)
  }

  function TotalLost(logs: seq<Log>): nat {
    if logs == [] then 0 else TotalLost(logs[..|logs| - 1]) + Lost(logs[|logs| - 1].heard)
  }

  lemma {:induction false} TotalChangesByOne(logs: seq<Log>, i: nat, log: Log)
    requires i < |logs|
    ensures TotalLost(logs[i := log]) == TotalLost(logs) - Lost(logs[i].heard) + Lost(log.heard)
  {
    var n := |logs| - 1;
    if i < n {
      assert logs[i := log][..n] == logs[..n][i := log];
      TotalChangesByOne(logs[..n], i, log);
    } else {
      assert logs[i := log][..n] == logs[..n];
    }
  }

  /** Positions of one sequence inside another, strictly increasing. */
  ghost predicate Embeds(ids: seq<nat>, part: seq<Event>, whole: seq<Event>) {
    && |ids| == |part|
    && (forall k :: 0 <= k < |ids| ==> ids[k] < |whole| && whole[ids[k]] == part[k])
    && (forall j, k :: 0 <= j < k < |ids| ==> ids[j] < ids[k])
  }

  /** What was kept is an in-order subsequence of what was heard, and with what was lost it is all of it. */
  lemma {:induction false} KeptIsInOrder(h: History) returns (ids: seq<nat>)
    ensures Embeds(ids, Kept(h), All(h))
    ensures |Kept(h)| + Lost(h) == |All(h)|
  {
    match h
    case Silence => ids := [];
    case Heard(before, ev, kept) =>
      ids := KeptIsInOrder(before);
      if kept { ids := ids + [|All(before)|]; }
  }

  /** The books of one subscriber: nothing is delivered that was not heard, and every loss is accounted for. */
  ghost predicate Balanced(sub: Subscriber, log: Log) {
    && |sub.ch.buffer| <= SUBSCRIBER_BUFFER
    && log.taken + sub.ch.buffer == Kept(log.heard)
    && (sub.warned <==> Lost(log.heard) > 0)
  }

  /**
   * Conservation: received then buffered events are an in-order subsequence of
   * what was published during the subscription, and received, buffered and
   * dropped add up to it.
   */
  lemma Conservation(sub: Subscriber, log: Log) returns (ids: seq<nat>)
    requires Balanced(sub, log)
    ensures Embeds(ids, log.taken + sub.ch.buffer, All(log.heard))
    ensures |log.taken| + |sub.ch.buffer| + Lost(log.heard) == |All(log.heard)|
  {
    ids := KeptIsInOrder(log.heard);
  }

  // ---- The broker ------------------------------------------------------------------

  /** A subscriber after one publish: the event is buffered, or there was no room for it. */
  function Delivered(sub: Subscriber, ev: Event): Subscriber
    requires !sub.ch.closed
  {
    if |sub.ch.buffer| < SUBSCRIBER_BUFFER then sub.(ch := sub.ch.Send(ev)) else sub.(warned := true)
  }

  function Noted(sub: Subscriber, log: Log, ev: Event): Log {
    log.(heard := Heard(log.heard, ev, |sub.ch.buffer| < SUBSCRIBER_BUFFER))
  }

  lemma DeliveryBalances(sub: Subscriber, log: Log, ev: Event)
    requires Balanced(sub, log) && !sub.ch.closed
    ensures Balanced(Delivered(sub, ev), Noted(sub, log, ev))
    ensures Lost(Noted(sub, log, ev).heard) == Lost(log.heard) + if |sub.ch.buffer| < SUBSCRIBER_BUFFER then 0 else 1
  {
  }

  /** The map holds exactly the subscribers whose channel is open. */
  ghost predicate Opened(table: seq<Subscriber>, subs: set<nat>) {
    && (forall i :: i in subs ==> i < |table|)
    && forall i :: 0 <= i < |table| ==> (table[i].ch.closed <==> i !in subs)
  }

  ghost predicate AllBalanced(table: seq<Subscriber>, logs: seq<Log>) {
    |table| == |logs| && forall i :: 0 <= i < |table| ==> Balanced(table[i], logs[i])
  }

  /** The open subscribers but for those left over have been offered the event; the others are as they were. */
  ghost predicate Reached(table: seq<Subscriber>, logs: seq<Log>, table': seq<Subscriber>, logs': seq<Log>,
                          subs: set<nat>, left: set<nat>, ev: Event)
  {
    && |table'| == |table| == |logs| == |logs'|
    && forall i :: 0 <= i < |table| ==>
         if i in subs && i !in left
         then !table[i].ch.closed && table'[i] == Delivered(table[i], ev) && logs'[i] == Noted(table[i], logs[i], ev)
         else table'[i] == table[i] && logs'[i] == logs[i]
  }

  lemma ReachesOneMore(table: seq<Subscriber>, logs: seq<Log>, table': seq<Subscriber>, logs': seq<Log>,
                       subs: set<nat>, left: set<nat>, id: nat, ev: Event)
    requires Reached(table, logs, table', logs', subs, left, ev) && Opened(table', subs)
    requires id in left && left <= subs
    ensures var t := table'[id := Delivered(table'[id], ev)];
            && Reached(table, logs, t, logs'[id := Noted(table'[id], logs'[id], ev)], subs, left - {id}, ev)
            && Opened(t, subs)
  {
  }

  lemma OfferBalances(table: seq<Subscriber>, logs: seq<Log>, id: nat, ev: Event)
    requires AllBalanced(table, logs) && id < |table| && !table[id].ch.closed
    ensures var logs' := logs[id := Noted(table[id], logs[id], ev)];
            && AllBalanced(table[id := Delivered(table[id], ev)], logs')
            && TotalLost(logs') == TotalLost(logs) + if |table[id].ch.buffer| < SUBSCRIBER_BUFFER then 0 else 1
  {
    DeliveryBalances(table[id], logs[id], ev);
    TotalChangesByOne(logs, id, Noted(table[id], logs[id], ev));
  }

  lemma TakingBalances(table: seq<Subscriber>, logs: seq<Log>, subs: set<nat>, id: nat)
    requires AllBalanced(table, logs) && Opened(table, subs) && id < |table| && table[id].ch.buffer != []
    ensures var buffer := table[id].ch.buffer;
            var table' := table[id := table[id].(ch := table[id].ch.(buffer := buffer[1..]))];
            var logs' := logs[id := logs[id].(taken := logs[id].taken + [buffer[0]])];
            AllBalanced(table', logs') && Opened(table', subs) && TotalLost(logs') == TotalLost(logs)
  {
    var (sub, log) := (table[id], logs[id]);
    var taken := log.taken + [sub.ch.buffer[0]];
    assert taken + sub.ch.buffer[1..] == log.taken + sub.ch.buffer;
    TotalChangesByOne(logs, id, log.(taken := taken));
  }

  datatype Receipt = Received(ev: Event) | Blocked | EndOfStream

  class Broker {
    const counted: bool  // whether onDrop was given
    var next: nat
    var subs: set<nat>
    var table: seq<Subscriber>
    var drops: nat  // calls of onDrop
    ghost var logs: seq<Log>

    ghost predicate Valid()
      reads this
    {
      && |table| == |logs| == next
      && Opened(table, subs)
      && Booked()
    }

    /** Every subscriber's books balance, and every loss was counted. */
    ghost predicate Booked()
      reads this
    {
      AllBalanced(table, logs) && drops == if counted then TotalLost(logs) else 0
    }

    constructor (counted: bool)
      ensures Valid() && this.counted == counted && next == 0 && subs == {} && drops == 0
    {
      this.counted := counted;
      next, subs, table, drops := 0, {}, [], 0;
      logs := [];
    }

    /** A new stream starts empty, and hears only what is published from here on. */
    method Subscribe() returns (id: nat)
      requires Valid()
      modifies this
      ensures Valid() && id == old(next) && id !in old(subs) && subs == old(subs) + {id} && drops == old(drops)
      ensures table == old(table) + [Subscriber(Channel([], false), false)] && logs == old(logs) + [Log(Silence, [])]
    {
      id := next;
      next := next + 1;
      subs := subs + {id};
      table := table + [Subscriber(Channel([], false), false)];
      assert (logs + [Log(Silence, [])])[..|logs|] == logs;
      logs := logs + [Log(Silence, [])];
    }

    /** What subscribe hands back: the channel is closed once, however often it is called, and keeps its buffer. */
    method Unsubscribe(id: nat)
      requires Valid() && id < next
      modifies this`subs, this`table
      ensures Valid() && subs == old(subs) - {id}
      ensures table == old(table)[id := old(table)[id].(ch := old(table)[id].ch.(closed := true))]
      ensures id !in old(subs) ==> table == old(table)
    {
      if id in subs {
        subs := subs - {id};
        table := table[id := table[id].(ch := table[id].ch.Close())];
      }
    }

    /** One pass of publish's loop: whoever has no room loses the event, is warned once, and the loss is counted. */
    method Offer(id: nat, ev: Event)
      requires Booked() && id < |table| && !table[id].ch.closed
      modifies this`table, this`drops, this`logs
      ensures Booked()
      ensures table == old(table)[id := Delivered(old(table)[id], ev)]
      ensures logs == old(logs)[id := Noted(old(table)[id], old(logs)[id], ev)]
    {
      var sub := table[id];
      OfferBalances(table, logs, id, ev);
      logs := logs[id := Noted(sub, logs[id], ev)];
      if |sub.ch.buffer| < SUBSCRIBER_BUFFER {
        table := table[id := sub.(ch := sub.ch.Send(ev))];
      } else {
        if !sub.warned {
          table := table[id := sub.(warned := true)];
        }
        if counted {
          drops := drops + 1;
        }
      }
      assert table == old(table)[id := Delivered(sub, ev)];
    }

    /** Never blocks: every open subscriber is offered the event, in whatever order the map yields them. */
    method Publish(ev: Event)
      requires Valid()
      modifies this`table, this`drops, this`logs
      ensures Valid() && Reached(old(table), old(logs), table, logs, subs, {}, ev)
      ensures forall i :: 0 <= i < |table| ==>
                var (sub, room) := (old(table)[i], |old(table)[i].ch.buffer| < 64);
                && table[i].ch.closed == sub.ch.closed
                && table[i].ch.buffer == (if i in subs && room then sub.ch.buffer + [ev] else sub.ch.buffer)
                && table[i].warned == (sub.warned || (i in subs && !room))
    {
      var rest := subs;
      while rest != {}
        invariant rest <= subs && Booked() && Opened(table, subs)
        invariant Reached(old(table), old(logs), table, logs, subs, rest, ev)
        decreases |rest|
      {
        var id :| id in rest;
        ReachesOneMore(old(table), old(logs), table, logs, subs, rest, id, ev);
        rest := rest - {id};
        Offer(id, ev);
      }
    }

    /** The stream's reader: the oldest buffered event, also after the close, and the end only once it is drained. */
    method Receive(id: nat) returns (r: Receipt)
      requires Valid() && id < next
      modifies this`table, this`logs
      ensures Valid()
      ensures var (sub, log) := (old(table)[id], old(logs)[id]);
              match r
              case Received(ev) =>
                && sub.ch.buffer != [] && ev == sub.ch.buffer[0]
                && table == old(table)[id := sub.(ch := sub.ch.(buffer := sub.ch.buffer[1..]))]
                && logs == old(logs)[id := log.(taken := log.taken + [ev])]
              case Blocked => sub.ch.buffer == [] && id in subs && table == old(table) && logs == old(logs)
              case EndOfStream => sub.ch.buffer == [] && id !in subs && table == old(table) && logs == old(logs)
    {
      var ch := table[id].ch;
      if ch.buffer == [] {
        return if ch.closed then EndOfStream else Blocked;
      }
      TakingBalances(table, logs, subs, id);
      logs := logs[id := logs[id].(taken := logs[id].taken + [ch.buffer[0]])];
      table := table[id := table[id].(ch := ch.(buffer := ch.buffer[1..]))];
      r := Received(ch.buffer[0]);
    }
  }

  // ---- The snapshot ------------------------------------------------------------------

  /** What a row's free text and addresses read; how they are worded is not modelled. */
  datatype Text = Text(detail: string, prUrl: Option<string>, mergeUrl: Option<string>)

  function EventFrom(rows: seq<Journals.Row>, id: nat, text: nat -> Text): Event
    requires id < |rows|
  {
    var row := rows[id];
    Event(row.service, Some(row.action), row.state, text(id).detail, id, row.startedAt,
          if row.prNumber > 0 then Some(row.prNumber) else None, text(id).prUrl, text(id).mergeUrl)
  }

  function NewestOf(rows: seq<Journals.Row>, service: string): (id: Option<nat>)
    ensures id.Some? ==> id.value < |rows|
  {
    var ids := Journals.NewestFirst(rows, Journals.OfService(service), |rows|);
    if ids == [] then None else Some(ids[0])
  }

  /** The run a fresh connection is owed an event for: the service's newest, if it is readable and still in flight. */
  function Owed(rows: seq<Journals.Row>, service: string, unreadable: set<string>): (id: Option<nat>)
    ensures id.Some? ==> id.value < |rows|
  {
    var newest := NewestOf(rows, service);
    if service in unreadable || newest.None? || rows[newest.value].IsFinished() then None else newest
  }

  function OwedEvent(rows: seq<Journals.Row>, service: string, unreadable: set<string>, text: nat -> Text)
    : Option<Event>
  {
    match Owed(rows, service, unreadable)
    case None => None
    case Some(id) => Some(EventFrom(rows, id, text))
  }

  /** What there is of a list of options, in order. */
  function Present<T>(xs: seq<Option<T>>): seq<T> {
    if xs == [] then []
    else Present(xs[..|xs| - 1]) + (match xs[|xs| - 1] case None => [] case Some(x) => [x])
  }

  /** Where in the list each of them stands. */
  function Places<T>(xs: seq<Option<T>>): (ids: seq<nat>)
    ensures |ids| == |Present(xs)|
  {
    if xs == [] then [] else Places(xs[..|xs| - 1]) + (if xs[|xs| - 1].Some? then [|xs| - 1] else [])
  }

  lemma {:induction false} PlaceHolds<T>(xs: seq<Option<T>>, k: nat)
    requires k < |Places(xs)|
    ensures Places(xs)[k] < |xs| && xs[Places(xs)[k]] == Some(Present(xs)[k])
  {
    var n := |xs| - 1;
    if k < |Places(xs[..n])| { PlaceHolds(xs[..n], k); }
  }

  lemma {:induction false} PlacesAscend<T>(xs: seq<Option<T>>, j: nat, k: nat)
    requires j < k < |Places(xs)|
    ensures Places(xs)[j] < Places(xs)[k]
  {
    var n := |xs| - 1;
    if k < |Places(xs[..n])| { PlacesAscend(xs[..n], j, k); } else { PlaceHolds(xs[..n], j); }
  }

  lemma {:induction false} PlacesCover<T>(xs: seq<Option<T>>, m: nat)
    requires m < |xs| && xs[m].Some?
    ensures m in Places(xs)
  {
    var n := |xs| - 1;
    if m < n { PlacesCover(xs[..n], m); }
  }

  function Owings(rows: seq<Journals.Row>, names: seq<string>, unreadable: set<string>, text: nat -> Text)
    : seq<Option<Event>>
  {
    seq(|names|, (n: nat) requires n < |names| => OwedEvent(rows, names[n], unreadable, text))
  }

  /** The events owed for the named services, in the order of the names. */
  function Snapshot(rows: seq<Journals.Row>, names: seq<string>, unreadable: set<string>, text: nat -> Text)
    : seq<Event>
  {
    Present(Owings(rows, names, unreadable, text))
  }

  method SnapshotEvents(journal: Journals.Journal, names: Option<seq<string>>, unreadable: set<string>,
                        text: nat -> Text)
    returns (out: seq<Event>)
    ensures out == match names case None => [] case Some(ns) => Snapshot(journal.rows, ns, unreadable, text)
  {
    out := [];
    if names.None? {
      return;
    }
    ghost var owings := Owings(journal.rows, names.value, unreadable, text);
    for n := 0 to |names.value|
      invariant out == Present(owings[..n])
    {
      var name := names.value[n];
      assert owings[..n + 1][..n] == owings[..n] && owings[n] == OwedEvent(journal.rows, name, unreadable, text);
      if name in unreadable {
        continue;
      }
      var recent := journal.Recent(name, 1);
      if |recent| == 0 || journal.rows[recent[0]].IsFinished() {
        continue;
      }
      out := out + [EventFrom(journal.rows, recent[0], text)];
    }
    assert owings[..|names.value|] == owings;
  }

  /** No run of the service started later, and of those that started together none was journalled later. */
  ghost predicate IsNewest(rows: seq<Journals.Row>, service: string, id: nat) {
    && id < |rows| && rows[id].service == service
    && forall other: nat :: other < |rows| && rows[other].service == service && other != id ==>
         || rows[id].startedAt > rows[other].startedAt
         || (rows[id].startedAt == rows[other].startedAt && id > other)
  }

  /** The service is readable and its newest run has no receipt. */
  ghost predicate InFlight(rows: seq<Journals.Row>, service: string, unreadable: set<string>, id: nat) {
    service !in unreadable && IsNewest(rows, service, id) && rows[id].finishedAt.None?
  }

  lemma OwedIsInFlight(rows: seq<Journals.Row>, service: string, unreadable: set<string>)
    ensures match Owed(rows, service, unreadable)
            case None => forall id: nat :: !InFlight(rows, service, unreadable, id)
            case Some(id) => InFlight(rows, service, unreadable, id)
  {
    var ids := Journals.NewestFirst(rows, Journals.OfService(service), |rows|);
    Journals.NewestFirstIsTheQuery(rows, Journals.OfService(service), |rows|);
    if ids == [] {
      forall id: nat ensures !InFlight(rows, service, unreadable, id) { assert id !in ids; }
    } else {
      assert ids[0] in ids;
      forall other: nat | other < |rows| && rows[other].service == service && other != ids[0]
        ensures Journals.Newer(rows, ids[0], other)
      {
        assert other in ids;
      }
      assert IsNewest(rows, service, ids[0]);
    }
  }

  /**
   * One event for each named, readable service whose newest run is in flight,
   * saying what that run's row says, none for any other, in the order of the names.
   */
  lemma SnapshotIsInOrder(rows: seq<Journals.Row>, names: seq<string>, unreadable: set<string>, text: nat -> Text)
    returns (ids: seq<nat>)
    ensures |ids| == |Snapshot(rows, names, unreadable, text)| && forall j, k :: 0 <= j < k < |ids| ==> ids[j] < ids[k]
    ensures forall k :: 0 <= k < |ids| ==>
              && ids[k] < |names|
              && var ev := Snapshot(rows, names, unreadable, text)[k];
                 && InFlight(rows, names[ids[k]], unreadable, ev.journalId)
                 && var row := rows[ev.journalId];
                    && ev.service == names[ids[k]] && ev.action == Some(row.action) && ev.state == row.state
                    && ev.at == row.startedAt && ev.prNumber == (if row.prNumber == 0 then None else Some(row.prNumber))
                    && Text(ev.detail, ev.prUrl, ev.mergeUrl) == text(ev.journalId)
    ensures forall m: nat, id: nat :: m < |names| && InFlight(rows, names[m], unreadable, id) ==> m in ids
  {
    var owings := Owings(rows, names, unreadable, text);
    ids := Places(owings);
    forall m: nat | m < |names| { OwedIsInFlight(rows, names[m], unreadable); }
    forall k | 0 <= k < |ids|
      ensures ids[k] < |names|
      ensures OwedEvent(rows, names[ids[k]], unreadable, text) == Some(Snapshot(rows, names, unreadable, text)[k])
    {
      PlaceHolds(owings, k);
    }
    forall j, k | 0 <= j < k < |ids| ensures ids[j] < ids[k] { PlacesAscend(owings, j, k); }
    forall m: nat, id: nat | m < |names| && InFlight(rows, names[m], unreadable, id) ensures m in ids {
      PlacesCover(owings, m);
    }
  }
}
