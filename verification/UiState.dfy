/**
 * The reducer behind the UI (web/src/lib/state.ts): one store that folds in
 * server events, refetched catalogs and refetched histories. The stream has
 * no replay, so the catalog must repair what dropped frames left behind.
 */
module UiState {
  import opened Options
  import Journals
  import Broadcast

  datatype Revision = Revision(sha: string, url: string, subject: string)

  /** A row of the history table. */
  datatype Receipt = Receipt(
    id: nat, service: string, action: Journals.Action, actor: string,
    oldDigest: string, newDigest: string, prNumber: nat, mergeSHA: string,
    state: Journals.State, detail: string, startedAt: int, finishedAt: int)

  /** One service of the catalog; an empty address is none. */
  datatype Status = Status(
    name: string, lastDeploy: Option<Receipt>, revisions: map<string, Revision>, repoWebUrl: string)

  /** An in-flight deploy, as the rail shows it. */
  datatype Progress = Progress(
    journalId: nat, service: string, state: Journals.State, detail: string, at: int,
    prNumber: Option<nat>, prUrl: Option<string>, mergeUrl: Option<string>)

  datatype Store = Store(
    services: seq<Status>,
    active: map<string, Progress>,
    history: map<string, seq<Receipt>>,
    revisions: map<string, Revision>,
    repoWebUrl: string,
    loaded: bool,
    error: Option<string>)

  const Initial := Store([], map[], map[], map[], "", false, None)

  function Or<T>(a: Option<T>, b: Option<T>): Option<T> {
    if a.Some? then a else b
  }

  function GetOr<T>(a: Option<T>, b: T): T {
    match a case Some(x) => x case None => b
  }

  // ---- Events -------------------------------------------------------------------

  function HistoryOf(store: Store, service: string): seq<Receipt> {
    GetOr(Get(store.history, service), [])
  }

  predicate HasReceipt(receipts: seq<Receipt>, id: nat) {
    exists r :: r in receipts && r.id == id
  }

  /** Every receipt of this run brought to the event's outcome. */
  function Amended(receipts: seq<Receipt>, ev: Broadcast.Event): seq<Receipt> {
    seq(|receipts|, (k: nat) requires k < |receipts| =>
      if receipts[k].id == ev.journalId
      then receipts[k].(state := ev.state, detail := ev.detail, finishedAt := ev.at)
      else receipts[k])
  }

  function NewReceipt(ev: Broadcast.Event, started: Option<Progress>): Receipt {
    Receipt(ev.journalId, ev.service, GetOr(ev.action, Journals.Deploy), "", "", "", GetOr(ev.prNumber, 0), "",
            ev.state, ev.detail, if started.Some? then started.value.at else ev.at, ev.at)
  }

  function Receipted(receipts: seq<Receipt>, ev: Broadcast.Event, started: Option<Progress>): seq<Receipt> {
    if HasReceipt(receipts, ev.journalId) then Amended(receipts, ev) else [NewReceipt(ev, started)] + receipts
  }

  /** The rail after a progress event: when it began and the links known so far are carried forward. */
  function Progressed(before: Option<Progress>, ev: Broadcast.Event): Progress {
    match before
    case None => Progress(ev.journalId, ev.service, ev.state, ev.detail, ev.at, ev.prNumber, ev.prUrl, ev.mergeUrl)
    case Some(b) =>
      Progress(ev.journalId, ev.service, ev.state, ev.detail, b.at,
               Or(ev.prNumber, b.prNumber), Or(ev.prUrl, b.prUrl), Or(ev.mergeUrl, b.mergeUrl))
  }

  function ApplyEvent(prev: Store, ev: Broadcast.Event): Store {
    if ev.state.IsTerminal() then
      prev.(active := prev.active - {ev.service},
            history := prev.history[ev.service :=
              Receipted(HistoryOf(prev, ev.service), ev, Get(prev.active, ev.service))])
    else
      prev.(active := prev.active[ev.service := Progressed(Get(prev.active, ev.service), ev)])
  }

  // ---- The catalog ----------------------------------------------------------------

  function Decimal(n: nat): string {
    (if n < 10 then "" else Decimal(n / 10)) + [('0' as int + n % 10) as char]
  }

  function PrLink(repoWebUrl: string, prNumber: nat): Option<string> {
    if repoWebUrl == "" || prNumber == 0 then None else Some(repoWebUrl + "/pull/" + Decimal(prNumber))
  }

  function FirstUrl(services: seq<Status>, otherwise: string): string {
    if services == [] then otherwise
    else if services[0].repoWebUrl != "" then services[0].repoWebUrl
    else FirstUrl(services[1..], otherwise)
  }

  function FromRow(name: string, last: Receipt, url: string): Progress {
    Progress(last.id, name, last.state, last.detail, last.startedAt,
             if last.prNumber == 0 then None else Some(last.prNumber), PrLink(url, last.prNumber), None)
  }

  predicate Knows(services: seq<Status>, name: string) {
    exists s :: s in services && s.name == name
  }

  /** What the journal's word makes of one rail: it ends a finished run's, starts a running one's, or says nothing. */
  function Settled(current: Option<Progress>, service: Status, url: string): Option<Progress> {
    match service.lastDeploy
    case None => current
    case Some(last) =>
      if current.Some? && last.state.IsTerminal() && last.id >= current.value.journalId then None
      else if current.None? && !last.state.IsTerminal() then Some(FromRow(service.name, last, url))
      else current
  }

  function Put(active: map<string, Progress>, name: string, rail: Option<Progress>): map<string, Progress> {
    if rail.Some? then active[name := rail.value] else active - {name}
  }

  /** Settling the listed services one after the other, in the catalog's order. */
  function SettledAll(active: map<string, Progress>, services: seq<Status>, url: string): map<string, Progress> {
    if services == [] then active
    else
      var (before, last) := (SettledAll(active, services[..|services| - 1], url), services[|services| - 1]);
      Put(before, last.name, Settled(Get(before, last.name), last, url))
  }

  function Merged(revisions: map<string, Revision>, services: seq<Status>): map<string, Revision> {
    if services == [] then revisions
    else Merged(revisions, services[..|services| - 1]) + services[|services| - 1].revisions
  }

  function Pruned(active: map<string, Progress>, services: seq<Status>): map<string, Progress> {
    map name | name in active && Knows(services, name) :: active[name]
  }

  function Catalogued(prev: Store, services: seq<Status>): Store {
    var url := FirstUrl(services, prev.repoWebUrl);
    prev.(services := services, revisions := Merged(prev.revisions, services),
          active := SettledAll(Pruned(prev.active, services), services, url),
          repoWebUrl := url, loaded := true, error := None)
  }

  lemma PutBack(active: map<string, Progress>, name: string)
    ensures Put(active, name, Get(active, name)) == active
  {
  }

  lemma SettlesNext(active: map<string, Progress>, revisions: map<string, Revision>,
                    services: seq<Status>, i: nat, url: string)
    requires i < |services|
    ensures Merged(revisions, services[..i + 1]) == Merged(revisions, services[..i]) + services[i].revisions
    ensures var (before, name) := (SettledAll(active, services[..i], url), services[i].name);
            && SettledAll(active, services[..i + 1], url) ==
                 Put(before, name, Settled(Get(before, name), services[i], url))
            && (Settled(Get(before, name), services[i], url) == Get(before, name) ==>
                  SettledAll(active, services[..i + 1], url) == before)
  {
    assert services[..i + 1][..i] == services[..i];
    PutBack(SettledAll(active, services[..i], url), services[i].name);
  }

  method SetServices(prev: Store, services: seq<Status>) returns (store: Store)
    ensures store == Catalogued(prev, services)
  {
    var revisions, active := prev.revisions, prev.active;
    var repoWebUrl := FirstUrl(services, prev.repoWebUrl);
    var names := active.Keys;
    while names != {}
      invariant names <= prev.active.Keys
      invariant active == map name | name in prev.active && (name in names || Knows(services, name))
                            :: prev.active[name]
    {
      var name :| name in names;
      names := names - {name};
      if !Knows(services, name) {
        active := active - {name};
      }
    }
    assert active == Pruned(prev.active, services);
    for i := 0 to |services|
      invariant active == SettledAll(Pruned(prev.active, services), services[..i], repoWebUrl)
      invariant revisions == Merged(prev.revisions, services[..i])
    {
      var service := services[i];
      SettlesNext(Pruned(prev.active, services), prev.revisions, services, i, repoWebUrl);
      revisions := revisions + service.revisions;
      if service.lastDeploy.None? {
        continue;
      }
      var last := service.lastDeploy.value;
      if service.name in active && last.state.IsTerminal() && last.id >= active[service.name].journalId {
        active := active - {service.name};
      } else if service.name !in active && !last.state.IsTerminal() {
        active := active[service.name :=
          Progress(last.id, service.name, last.state, last.detail, last.startedAt,
                   if last.prNumber == 0 then None else Some(last.prNumber), PrLink(repoWebUrl, last.prNumber), None)];
      }
    }
    assert services[..|services|] == services;
    store := prev.(services := services, revisions := revisions, active := active,
                   repoWebUrl := repoWebUrl, loaded := true, error := None);
  }

  ghost predicate DistinctNames(services: seq<Status>) {
    forall i, j :: 0 <= i < j < |services| ==> services[i].name != services[j].name
  }

  lemma {:induction false} SettledByName(active: map<string, Progress>, services: seq<Status>,
                                         url: string, name: string)
    requires DistinctNames(services)
    ensures !Knows(services, name) ==> Get(SettledAll(active, services, url), name) == Get(active, name)
    ensures forall i :: 0 <= i < |services| && services[i].name == name ==>
              Get(SettledAll(active, services, url), name) == Settled(Get(active, name), services[i], url)
  {
    if services != [] {
      var n := |services| - 1;
      SettledByName(active, services[..n], url, name);
      if services[n].name == name {
        assert !Knows(services[..n], name);
      } else {
        assert Knows(services[..n], name) ==> Knows(services, name);
        assert !Knows(services, name) ==> !Knows(services[..n], name);
        forall i | 0 <= i < |services| && services[i].name == name
          ensures Get(SettledAll(active, services, url), name) == Settled(Get(active, name), services[i], url)
        {
          assert services[..n][i] == services[i];
        }
      }
    }
  }

  /**
   * The journal's word is final in both directions. After a catalog of
   * distinct names a rail stands exactly for: a run whose last row is still in
   * flight, or a run the page already followed that no finished last row at
   * least as new has overtaken.
   */
  lemma RailsAfterCatalog(prev: Store, services: seq<Status>, i: nat)
    requires DistinctNames(services) && i < |services|
    ensures var rail := Get(Catalogued(prev, services).active, services[i].name);
            var before := Get(prev.active, services[i].name);
            match services[i].lastDeploy
            case None => rail == before
            case Some(last) =>
              && (rail.None? <==> last.state.IsTerminal() && (before.Some? ==> last.id >= before.value.journalId))
              && (rail.Some? && before.Some? ==> rail == before)
              && (rail.Some? && before.None? ==>
                    rail.value == Progress(last.id, services[i].name, last.state, last.detail, last.startedAt,
                                           if last.prNumber == 0 then None else Some(last.prNumber),
                                           PrLink(Catalogued(prev, services).repoWebUrl, last.prNumber), None))
    ensures forall name :: name in Catalogued(prev, services).active ==> Knows(services, name)
  {
    var url := FirstUrl(services, prev.repoWebUrl);
    var name := services[i].name;
    assert services[i] in services;
    SettledByName(Pruned(prev.active, services), services, url, name);
    assert Get(Pruned(prev.active, services), name) == Get(prev.active, name);
    forall other | other in Catalogued(prev, services).active ensures Knows(services, other) {
      SettledByName(Pruned(prev.active, services), services, url, other);
    }
  }

  predicate AreDigits(s: string) {
    forall k :: 0 <= k < |s| ==> '0' <= s[k] <= '9'
  }

  /** The number some decimal digits write. */
  function Value(digits: string): int
    requires AreDigits(digits)
  {
    if digits == "" then 0
    else 10 * Value(digits[..|digits| - 1]) + (digits[|digits| - 1] as int - '0' as int)
  }

  /** A number is written in decimal digits, without a leading zero. */
  lemma {:induction false} DecimalReads(n: nat)
    ensures var digits := Decimal(n);
            digits != "" && AreDigits(digits) && Value(digits) == n && (n > 0 ==> digits[0] != '0')
  {
    var digits := Decimal(n);
    if n >= 10 {
      DecimalReads(n / 10);
      assert digits[..|digits| - 1] == Decimal(n / 10);
    } else {
      assert digits[..|digits| - 1] == "";
    }
  }

  /** Where a row's pull request is found: under the repository's address, by its number, unless either is missing. */
  lemma LinkNamesPullRequest(url: string, prNumber: nat)
    ensures match PrLink(url, prNumber)
            case None => url == "" || prNumber == 0
            case Some(link) =>
              && url != "" && prNumber != 0 && |link| > |url| + 6 && link[..|url| + 6] == url + "/pull/"
              && AreDigits(link[|url| + 6..]) && Value(link[|url| + 6..]) == prNumber && link[|url| + 6] != '0'
  {
    DecimalReads(prNumber);
    if PrLink(url, prNumber).Some? {
      assert PrLink(url, prNumber).value == (url + "/pull/") + Decimal(prNumber);
      assert ((url + "/pull/") + Decimal(prNumber))[|url| + 6..] == Decimal(prNumber);
    }
  }

  /** The first service of a list that has an address. */
  ghost predicate HasAddress(services: seq<Status>, i: int) {
    0 <= i < |services| && services[i].repoWebUrl != "" && forall j :: 0 <= j < i ==> services[j].repoWebUrl == ""
  }

  /** The address a list gives, or what it was if the list gives none. */
  ghost predicate IsAddress(url: string, services: seq<Status>, otherwise: string) {
    || (url == otherwise && forall s :: s in services ==> s.repoWebUrl == "")
    || (exists i :: HasAddress(services, i) && url == services[i].repoWebUrl)
  }

  lemma {:induction false} FirstUrlIs(services: seq<Status>, otherwise: string)
    ensures IsAddress(FirstUrl(services, otherwise), services, otherwise)
  {
    if services == [] {
    } else if services[0].repoWebUrl == "" {
      FirstUrlIs(services[1..], otherwise);
      if i :| HasAddress(services[1..], i) && FirstUrl(services, otherwise) == services[1..][i].repoWebUrl {
        assert forall j :: 0 < j <= i ==> services[j] == services[1..][j - 1];
        assert HasAddress(services, i + 1);
      }
    } else {
      assert HasAddress(services, 0);
    }
  }

  /** The last service of a list that knows a digest's commit. */
  ghost predicate KnowsCommit(services: seq<Status>, i: int, digest: string) {
    && 0 <= i < |services| && digest in services[i].revisions
    && forall j :: i < j < |services| ==> digest !in services[j].revisions
  }

  /** The commit a list gives for a digest, or what was known if it gives none. */
  ghost predicate IsCommit(found: Option<Revision>, revisions: map<string, Revision>, services: seq<Status>,
                           digest: string)
  {
    || (found == Get(revisions, digest) && forall s :: s in services ==> digest !in s.revisions)
    || (exists i :: KnowsCommit(services, i, digest) && found == Some(services[i].revisions[digest]))
  }

  lemma {:induction false} MergedIsLatest(revisions: map<string, Revision>, services: seq<Status>, digest: string)
    ensures IsCommit(Get(Merged(revisions, services), digest), revisions, services, digest)
  {
    if services != [] {
      var n := |services| - 1;
      if digest in services[n].revisions {
        assert KnowsCommit(services, n, digest);
      } else {
        MergedIsLatest(revisions, services[..n], digest);
        var found := Get(Merged(revisions, services), digest);
        if i :| KnowsCommit(services[..n], i, digest) && found == Some(services[..n][i].revisions[digest]) {
          assert forall j :: i < j < n ==> services[j] == services[..n][j];
          assert KnowsCommit(services, i, digest);
        }
      }
    }
  }

  /**
   * What else a catalog changes: the list and the repository's address are the
   * catalog's, the address kept if it names none; a commit is the last listed
   * service's that knows it, or what was known; histories stay.
   */
  lemma CatalogIsLoaded(prev: Store, services: seq<Status>, digest: string)
    ensures var after := Catalogued(prev, services);
            && after.services == services && after.loaded && after.error.None? && after.history == prev.history
            && IsAddress(after.repoWebUrl, services, prev.repoWebUrl)
            && IsCommit(Get(after.revisions, digest), prev.revisions, services, digest)
  {
    FirstUrlIs(services, prev.repoWebUrl);
    MergedIsLatest(prev.revisions, services, digest);
  }

  // ---- Runs of updates ------------------------------------------------------------

  datatype Update =
    | Streamed(ev: Broadcast.Event)
    | Catalog(services: seq<Status>)
    | Fetched(service: string, entries: seq<Receipt>)
    | Found(revisions: map<string, Revision>)
    | Failing(error: Option<string>)

  function Apply(store: Store, u: Update): Store {
    match u
    case Streamed(ev) => ApplyEvent(store, ev)
    case Catalog(services) => Catalogued(store, services)
    case Fetched(service, entries) => store.(history := store.history[service := entries])
    case Found(revisions) => store.(revisions := store.revisions + revisions)
    case Failing(error) => store.(loaded := store.loaded || error.Some?, error := error)
  }

  /** A fetched history, found commits and an error each replace only themselves; an error also ends the loading. */
  lemma OtherUpdates(store: Store, u: Update, digest: string)
    requires !u.Streamed? && !u.Catalog?
    ensures var after := Apply(store, u);
            && after.active == store.active && after.services == store.services && after.repoWebUrl == store.repoWebUrl
            && (u.Fetched? ==> OnlyOf(store, after, u.service) && HistoryOf(after, u.service) == u.entries)
            && (u.Found? ==>
                  && after.(revisions := store.revisions) == store
                  && Get(after.revisions, digest) ==
                       Get(if digest in u.revisions then u.revisions else store.revisions, digest))
            && (u.Failing? ==>
                  && after.history == store.history && after.revisions == store.revisions
                  && after.error == u.error && (after.loaded <==> store.loaded || u.error.Some?))
  {
  }

  function ApplyAll(store: Store, us: seq<Update>): Store {
    if us == [] then store else Apply(ApplyAll(store, us[..|us| - 1]), us[|us| - 1])
  }

  /** Folding the same event in twice in a row is folding it in once. */
  lemma ReplayChangesNothing(prev: Store, ev: Broadcast.Event)
    ensures ApplyEvent(ApplyEvent(prev, ev), ev) == ApplyEvent(prev, ev)
  {
    var once := ApplyEvent(prev, ev);
    if ev.state.IsTerminal() {
      var receipts := HistoryOf(once, ev.service);
      var before := HistoryOf(prev, ev.service);
      if HasReceipt(before, ev.journalId) {
        var r :| r in before && r.id == ev.journalId;
        var k :| 0 <= k < |before| && before[k] == r;
        assert receipts[k] in receipts;
      } else {
        assert receipts[0] in receipts && receipts[0].id == ev.journalId;
        assert forall j :: 0 < j < |receipts| ==> receipts[j] in before;
      }
      assert Amended(receipts, ev) == receipts;
    }
  }

  ghost predicate DistinctReceipts(receipts: seq<Receipt>) {
    forall i, j :: 0 <= i < j < |receipts| ==> receipts[i].id != receipts[j].id
  }

  ghost predicate OneReceiptEach(store: Store) {
    forall service :: service in store.history ==> DistinctReceipts(store.history[service])
  }

  lemma ReceiptedStaysDistinct(receipts: seq<Receipt>, ev: Broadcast.Event, started: Option<Progress>)
    requires DistinctReceipts(receipts)
    ensures DistinctReceipts(Receipted(receipts, ev, started))
    ensures exists k :: 0 <= k < |Receipted(receipts, ev, started)|
              && var r := Receipted(receipts, ev, started)[k];
                 r.id == ev.journalId && r.state == ev.state && r.finishedAt == ev.at
  {
    var out := Receipted(receipts, ev, started);
    if HasReceipt(receipts, ev.journalId) {
      var r :| r in receipts && r.id == ev.journalId;
      var k :| 0 <= k < |receipts| && receipts[k] == r;
      assert out[k].id == ev.journalId;
    } else {
      forall j | 0 < j < |out| ensures out[0].id != out[j].id {
        assert out[j] == receipts[j - 1] && receipts[j - 1] in receipts;
      }
      assert out[0].id == ev.journalId;
    }
  }

  /** Receipt ids stay unique per service over any stream, as long as what is fetched has unique ids. */
  lemma {:induction false} ReceiptsStayUnique(store: Store, us: seq<Update>)
    requires OneReceiptEach(store)
    requires forall k :: 0 <= k < |us| && us[k].Fetched? ==> DistinctReceipts(us[k].entries)
    ensures OneReceiptEach(ApplyAll(store, us))
  {
    if us != [] {
      var n := |us| - 1;
      ReceiptsStayUnique(store, us[..n]);
      var before := ApplyAll(store, us[..n]);
      if us[n].Streamed? {
        var ev := us[n].ev;
        ReceiptedStaysDistinct(HistoryOf(before, ev.service), ev, Get(before.active, ev.service));
      }
    }
  }

  /**
   * A terminal event ends its service's rail. If the history has the run
   * already, its receipts alone are brought to the outcome, each keeping what
   * else it says; if not, the run's receipt is put before all earlier ones.
   * Given unique ids that leaves exactly one receipt of the run. Nothing else
   * in the store changes.
   */
  lemma OutcomeIsShown(prev: Store, ev: Broadcast.Event)
    requires ev.state.IsTerminal()
    ensures var (after, before) := (ApplyEvent(prev, ev), HistoryOf(prev, ev.service));
            && ev.service !in after.active && ev.service in after.history
            && var now := after.history[ev.service];
               if forall r :: r in before ==> r.id != ev.journalId then
                 && |now| == |before| + 1 && now[1..] == before
                 && now[0] == Receipt(ev.journalId, ev.service,
                                      if ev.action.Some? then ev.action.value else Journals.Deploy, "", "", "",
                                      if ev.prNumber.Some? then ev.prNumber.value else 0, "", ev.state, ev.detail,
                                      if ev.service in prev.active then prev.active[ev.service].at else ev.at, ev.at)
               else
                 && |now| == |before|
                 && forall k :: 0 <= k < |now| ==>
                      now[k] == if before[k].id != ev.journalId then before[k]
                                else before[k].(state := ev.state, detail := ev.detail, finishedAt := ev.at)
    ensures OneReceiptEach(prev) ==>
              var now := ApplyEvent(prev, ev).history[ev.service];
              exists k :: 0 <= k < |now| && now[k].id == ev.journalId && now[k].state == ev.state
                && forall j :: 0 <= j < |now| && j != k ==> now[j].id != ev.journalId
    ensures OnlyOf(prev, ApplyEvent(prev, ev), ev.service)
  {
    var receipts := HistoryOf(prev, ev.service);
    if OneReceiptEach(prev) { ReceiptedStaysDistinct(receipts, ev, Get(prev.active, ev.service)); }
  }

  /** Only this service's rail and history may differ. */
  ghost predicate OnlyOf(a: Store, b: Store, service: string) {
    && b.(active := a.active, history := a.history) == a
    && (forall other :: other != service ==> Get(b.active, other) == Get(a.active, other))
    && (forall other :: other != service ==> Get(b.history, other) == Get(a.history, other))
  }

  /**
   * A progress event shows on its service's rail: the run, its state and detail
   * are the event's; the beginning is the standing rail's, if there is one; and
   * a link is the event's, or what the rail had.
   */
  lemma ProgressIsShown(prev: Store, ev: Broadcast.Event)
    requires !ev.state.IsTerminal()
    ensures var (after, had) := (ApplyEvent(prev, ev), ev.service in prev.active);
            && after.history == prev.history && OnlyOf(prev, after, ev.service) && ev.service in after.active
            && var rail := after.active[ev.service];
               && rail.journalId == ev.journalId && rail.service == ev.service
               && rail.state == ev.state && rail.detail == ev.detail
               && rail.at == (if had then prev.active[ev.service].at else ev.at)
               && (ev.prNumber.Some? || !had ==> rail.prNumber == ev.prNumber)
               && (ev.prUrl.Some? || !had ==> rail.prUrl == ev.prUrl)
               && (ev.mergeUrl.Some? || !had ==> rail.mergeUrl == ev.mergeUrl)
               && (had && ev.prNumber.None? ==> rail.prNumber == prev.active[ev.service].prNumber)
               && (had && ev.prUrl.None? ==> rail.prUrl == prev.active[ev.service].prUrl)
               && (had && ev.mergeUrl.None? ==> rail.mergeUrl == prev.active[ev.service].mergeUrl)
  {
  }

  ghost predicate Ends(u: Update, service: string) {
    u.Catalog? || (u.Streamed? && u.ev.service == service && u.ev.state.IsTerminal())
  }

  /** The rail b continues the rail a: it began when a did, and whatever a linked to, b links to something. */
  ghost predicate Continues(a: Progress, b: Progress) {
    && b.at == a.at
    && (a.prNumber.Some? ==> b.prNumber.Some?)
    && (a.prUrl.Some? ==> b.prUrl.Some?)
    && (a.mergeUrl.Some? ==> b.mergeUrl.Some?)
  }

  lemma LinksStayOnce(store: Store, u: Update, service: string)
    requires service in store.active && !Ends(u, service)
    ensures service in Apply(store, u).active
    ensures Continues(store.active[service], Apply(store, u).active[service])
    ensures (u.Streamed? && u.ev.service == service) || Apply(store, u).active[service] == store.active[service]
  {
  }

  /**
   * A dropped frame never un-links a rail: until its service's terminal event
   * or the next catalog, a link once shown stays shown or is replaced by a newer
   * one, and the rail keeps the moment it began.
   */
  lemma {:induction false} LinksStay(store: Store, us: seq<Update>, service: string)
    requires service in store.active && forall k :: 0 <= k < |us| ==> !Ends(us[k], service)
    ensures service in ApplyAll(store, us).active
    ensures Continues(store.active[service], ApplyAll(store, us).active[service])
    ensures (exists k :: 0 <= k < |us| && us[k].Streamed? && us[k].ev.service == service)
            || ApplyAll(store, us).active[service] == store.active[service]
  {
    if us != [] {
      var n := |us| - 1;
      LinksStay(store, us[..n], service);
      LinksStayOnce(ApplyAll(store, us[..n]), us[n], service);
      assert forall k :: 0 <= k < n ==> us[..n][k] == us[k];
    }
  }

  // ---- Healing ----------------------------------------------------------------------

  /** An update that named a run of this service. */
  ghost predicate Mentions(u: Update, service: string, id: nat) {
    match u
    case Streamed(ev) => ev.service == service && ev.journalId == id
    case Catalog(services) =>
      exists i :: 0 <= i < |services| && services[i].name == service
        && services[i].lastDeploy.Some? && services[i].lastDeploy.value.id == id
    case _ => false
  }

  ghost predicate Seen(us: seq<Update>, service: string, id: nat) {
    exists k :: 0 <= k < |us| && Mentions(us[k], service, id)
  }

  /** A rail after a catalog is the one before it, or built from the last row of its service. */
  ghost predicate FromCatalog(services: seq<Status>, url: string, name: string, rail: Progress) {
    exists i :: 0 <= i < |services| && services[i].name == name && services[i].lastDeploy.Some?
      && rail == FromRow(name, services[i].lastDeploy.value, url)
  }

  lemma {:induction false} SettledIsOldOrListed(active: map<string, Progress>, services: seq<Status>,
                                                url: string, name: string)
    requires name in SettledAll(active, services, url)
    ensures var rail := SettledAll(active, services, url)[name];
            (name in active && active[name] == rail) || FromCatalog(services, url, name, rail)
  {
    if services != [] {
      var n := |services| - 1;
      var (before, rail) := (SettledAll(active, services[..n], url), SettledAll(active, services, url)[name]);
      if name in before && before[name] == rail {
        SettledIsOldOrListed(active, services[..n], url, name);
        if FromCatalog(services[..n], url, name, rail) {
          var i :| 0 <= i < n && services[..n][i].name == name && services[..n][i].lastDeploy.Some?
            && rail == FromRow(name, services[..n][i].lastDeploy.value, url);
          assert services[i] == services[..n][i];
        }
      } else {
        assert services[n].name == name && rail == FromRow(name, services[n].lastDeploy.value, url);
      }
    }
  }

  /** Whatever the rail shows was named by some event or catalog the page received. */
  lemma {:induction false} RailsWereSeen(us: seq<Update>, service: string)
    requires service in ApplyAll(Initial, us).active
    ensures Seen(us, service, ApplyAll(Initial, us).active[service].journalId)
  {
    var n := |us| - 1;
    var before := ApplyAll(Initial, us[..n]);
    var id := ApplyAll(Initial, us).active[service].journalId;
    if us[n].Catalog? {
      SettledIsOldOrListed(Pruned(before.active, us[n].services), us[n].services,
                           FirstUrl(us[n].services, before.repoWebUrl), service);
    }
    if Mentions(us[n], service, id) {
    } else {
      RailsWereSeen(us[..n], service);
      var k :| 0 <= k < n && Mentions(us[..n][k], service, id);
      assert us[k] == us[..n][k];
    }
  }

  /**
   * Dropped frames heal: whatever the page received or missed, a catalog whose
   * last deploy of a service is finished and at least as new as every run the
   * page ever saw of it leaves that service without a rail.
   */
  lemma DroppedFramesHeal(us: seq<Update>, services: seq<Status>, i: nat)
    requires DistinctNames(services) && i < |services|
    requires services[i].lastDeploy.Some? && services[i].lastDeploy.value.state.IsTerminal()
    requires forall id: nat :: Seen(us, services[i].name, id) ==> id <= services[i].lastDeploy.value.id
    ensures services[i].name !in Apply(ApplyAll(Initial, us), Catalog(services)).active
  {
    var before := ApplyAll(Initial, us);
    RailsAfterCatalog(before, services, i);
    if services[i].name in before.active {
      RailsWereSeen(us, services[i].name);
    }
  }

  // ---- Whose rail it is -----------------------------------------------------------

  /** A progress event of another run than the rail's: the rail's own terminal frame was never seen. */
  predicate HandsOver(store: Store, u: Update, service: string) {
    && u.Streamed? && !u.ev.state.IsTerminal() && u.ev.service == service
    && service in store.active && store.active[service].journalId != u.ev.journalId
  }

  predicate HandsOverIn(us: seq<Update>, service: string) {
    && us != []
    && (HandsOverIn(us[..|us| - 1], service) || HandsOver(ApplyAll(Initial, us[..|us| - 1]), us[|us| - 1], service))
  }

  /** The last deploy some entry of a catalog gives for a service. */
  ghost predicate Lists(services: seq<Status>, service: string, last: Receipt) {
    exists i :: 0 <= i < |services| && services[i].name == service && services[i].lastDeploy == Some(last)
  }

  ghost predicate SaysStart(u: Update, service: string, id: nat, at: int) {
    match u
    case Streamed(ev) => ev.service == service && ev.journalId == id && ev.at == at
    case Catalog(services) => exists last :: Lists(services, service, last) && last.id == id && last.startedAt == at
    case _ => false
  }

  ghost predicate SaysNumber(u: Update, service: string, id: nat, prNumber: nat) {
    match u
    case Streamed(ev) => ev.service == service && ev.journalId == id && ev.prNumber == Some(prNumber)
    case Catalog(services) =>
      exists last :: Lists(services, service, last) && last.id == id && last.prNumber == prNumber
    case _ => false
  }

  /** An address said of a run: sent with an event, or built from its row on some base. */
  ghost predicate SaysUrl(u: Update, service: string, id: nat, prUrl: string) {
    match u
    case Streamed(ev) => ev.service == service && ev.journalId == id && ev.prUrl == Some(prUrl)
    case Catalog(services) =>
      exists last, base :: Lists(services, service, last) && last.id == id && PrLink(base, last.prNumber) == Some(prUrl)
    case _ => false
  }

  predicate SaysMerge(u: Update, service: string, id: nat, mergeUrl: string) {
    u.Streamed? && u.ev.service == service && u.ev.journalId == id && u.ev.mergeUrl == Some(mergeUrl)
  }

  /** What a rail shows of its start and of each of its links was said of the very run it names. */
  ghost predicate Own(us: seq<Update>, service: string, p: Progress) {
    && (exists k :: 0 <= k < |us| && SaysStart(us[k], service, p.journalId, p.at))
    && (p.prNumber.Some? ==> exists k :: 0 <= k < |us| && SaysNumber(us[k], service, p.journalId, p.prNumber.value))
    && (p.prUrl.Some? ==> exists k :: 0 <= k < |us| && SaysUrl(us[k], service, p.journalId, p.prUrl.value))
    && (p.mergeUrl.Some? ==> exists k :: 0 <= k < |us| && SaysMerge(us[k], service, p.journalId, p.mergeUrl.value))
  }

  lemma OwnStays(us: seq<Update>, u: Update, service: string, p: Progress)
    requires Own(us, service, p)
    ensures Own(us + [u], service, p)
  {
    var all := us + [u];
    assert forall k :: 0 <= k < |us| ==> all[k] == us[k];
    var k :| 0 <= k < |us| && SaysStart(us[k], service, p.journalId, p.at);
    assert SaysStart(all[k], service, p.journalId, p.at);
    if p.prNumber.Some? {
      var j :| 0 <= j < |us| && SaysNumber(us[j], service, p.journalId, p.prNumber.value);
      assert SaysNumber(all[j], service, p.journalId, p.prNumber.value);
    }
    if p.prUrl.Some? {
      var j :| 0 <= j < |us| && SaysUrl(us[j], service, p.journalId, p.prUrl.value);
      assert SaysUrl(all[j], service, p.journalId, p.prUrl.value);
    }
    if p.mergeUrl.Some? {
      var j :| 0 <= j < |us| && SaysMerge(us[j], service, p.journalId, p.mergeUrl.value);
      assert SaysMerge(all[j], service, p.journalId, p.mergeUrl.value);
    }
  }

  lemma OwnFromEvent(us: seq<Update>, ev: Broadcast.Event, before: Option<Progress>)
    requires before.Some? ==> Own(us, ev.service, before.value) && before.value.journalId == ev.journalId
    ensures Own(us + [Streamed(ev)], ev.service, Progressed(before, ev))
  {
    var (all, p) := (us + [Streamed(ev)], Progressed(before, ev));
    if before.Some? { OwnStays(us, Streamed(ev), ev.service, before.value); }
    assert all[|us|] == Streamed(ev);
    assert before.None? ==> SaysStart(all[|us|], ev.service, p.journalId, p.at);
    assert ev.prNumber.Some? ==> SaysNumber(all[|us|], ev.service, p.journalId, p.prNumber.value);
    assert ev.prUrl.Some? ==> SaysUrl(all[|us|], ev.service, p.journalId, p.prUrl.value);
    assert ev.mergeUrl.Some? ==> SaysMerge(all[|us|], ev.service, p.journalId, p.mergeUrl.value);
  }

  lemma OwnFromCatalog(us: seq<Update>, services: seq<Status>, url: string, service: string, p: Progress)
    requires FromCatalog(services, url, service, p)
    ensures Own(us + [Catalog(services)], service, p)
  {
    var i :| 0 <= i < |services| && services[i].name == service && services[i].lastDeploy.Some?
      && p == FromRow(service, services[i].lastDeploy.value, url);
    var last := services[i].lastDeploy.value;
    assert Lists(services, service, last);
    var all := us + [Catalog(services)];
    assert all[|us|] == Catalog(services);
    assert SaysStart(all[|us|], service, p.journalId, p.at);
    assert p.prNumber.Some? ==> SaysNumber(all[|us|], service, p.journalId, p.prNumber.value);
    assert PrLink(url, last.prNumber) == p.prUrl;
    assert p.prUrl.Some? ==> SaysUrl(all[|us|], service, p.journalId, p.prUrl.value);
  }

  lemma OwnAfterOne(us: seq<Update>, u: Update, before: Store, service: string)
    requires service in before.active ==> Own(us, service, before.active[service])
    requires !HandsOver(before, u, service) && service in Apply(before, u).active
    ensures Own(us + [u], service, Apply(before, u).active[service])
  {
    var p := Apply(before, u).active[service];
    if u.Streamed? && u.ev.service == service {
      OwnFromEvent(us, u.ev, Get(before.active, service));
    } else if u.Catalog? {
      var url := FirstUrl(u.services, before.repoWebUrl);
      SettledIsOldOrListed(Pruned(before.active, u.services), u.services, url, service);
      if FromCatalog(u.services, url, service, p) {
        OwnFromCatalog(us, u.services, url, service, p);
      } else {
        OwnStays(us, u, service, p);
      }
    } else {
      OwnStays(us, u, service, p);
    }
  }

  /**
   * As long as no progress event of another run meets a standing rail, what
   * the rail shows of its start and its links belongs to the run it names.
   */
  lemma {:induction false} RailsAreTheirOwn(us: seq<Update>, service: string)
    requires !HandsOverIn(us, service) && service in ApplyAll(Initial, us).active
    ensures Own(us, service, ApplyAll(Initial, us).active[service])
  {
    var n := |us| - 1;
    var before := ApplyAll(Initial, us[..n]);
    assert us == us[..n] + [us[n]];
    if service in before.active { RailsAreTheirOwn(us[..n], service); }
    OwnAfterOne(us[..n], us[n], before, service);
  }

  /** Whatever an update says of a run, it mentions it. */
  lemma SayingIsMentioning(u: Update, service: string, p: Progress)
    ensures SaysStart(u, service, p.journalId, p.at) ==> Mentions(u, service, p.journalId)
    ensures p.prNumber.Some? && SaysNumber(u, service, p.journalId, p.prNumber.value) ==>
              Mentions(u, service, p.journalId)
    ensures p.prUrl.Some? && SaysUrl(u, service, p.journalId, p.prUrl.value) ==> Mentions(u, service, p.journalId)
    ensures p.mergeUrl.Some? && SaysMerge(u, service, p.journalId, p.mergeUrl.value) ==>
              Mentions(u, service, p.journalId)
  {
  }

  /** Of a run only the last event speaks of, a rail is its own exactly when that event says all of it. */
  lemma OwnIsSaidLast(us: seq<Update>, ev: Broadcast.Event, p: Progress)
    requires !Seen(us, ev.service, ev.journalId) && p.journalId == ev.journalId
    ensures Own(us + [Streamed(ev)], ev.service, p)
            <==> && p.at == ev.at && (p.prNumber.Some? ==> p.prNumber == ev.prNumber)
                 && (p.prUrl.Some? ==> p.prUrl == ev.prUrl) && (p.mergeUrl.Some? ==> p.mergeUrl == ev.mergeUrl)
  {
    var (all, n) := (us + [Streamed(ev)], |us|);
    assert all[n] == Streamed(ev);
    assert forall k :: 0 <= k < n ==> all[k] == us[k] && !Mentions(us[k], ev.service, ev.journalId);
    forall k | 0 <= k < |all| { SayingIsMentioning(all[k], ev.service, p); }
    assert p.at == ev.at ==> SaysStart(all[n], ev.service, p.journalId, p.at);
    assert p.prNumber.Some? && p.prNumber == ev.prNumber ==>
        SaysNumber(all[n], ev.service, p.journalId, p.prNumber.value);
    assert p.prUrl.Some? && p.prUrl == ev.prUrl ==> SaysUrl(all[n], ev.service, p.journalId, p.prUrl.value);
    assert p.mergeUrl.Some? && p.mergeUrl == ev.mergeUrl ==>
        SaysMerge(all[n], ev.service, p.journalId, p.mergeUrl.value);
  }

  /**
   * When the first event of a run meets another run's rail, what the rail then
   * shows belongs to the new run exactly when the old rail began at the same
   * moment and had no link the event does not carry itself; and then nothing of
   * the old rail is left on it.
   */
  lemma HandoverIsCleanIff(us: seq<Update>, ev: Broadcast.Event)
    requires HandsOver(ApplyAll(Initial, us), Streamed(ev), ev.service) && !Seen(us, ev.service, ev.journalId)
    ensures var rail := ApplyAll(Initial, us).active[ev.service];
            var after := ApplyAll(Initial, us + [Streamed(ev)]).active;
            var clean := && rail.at == ev.at
                         && (rail.prNumber.Some? ==> ev.prNumber.Some?)
                         && (rail.prUrl.Some? ==> ev.prUrl.Some?)
                         && (rail.mergeUrl.Some? ==> ev.mergeUrl.Some?);
            && ev.service in after
            && (Own(us + [Streamed(ev)], ev.service, after[ev.service]) <==> clean)
            && (after[ev.service] == Progressed(None, ev) <==> clean)
  {
    var all := us + [Streamed(ev)];
    assert all[..|us|] == us;
    OwnIsSaidLast(us, ev, ApplyAll(Initial, all).active[ev.service]);
  }

  /** A dropped terminal frame leaves the next run under the old one's start and pull request. */
  lemma DroppedTerminalMixesRuns(service: string, first: Broadcast.Event, ended: Broadcast.Event, next: Broadcast.Event)
    requires first.service == service && first.state == Journals.PrOpen && first.prNumber.Some?
    requires ended.service == service && ended.journalId == first.journalId && ended.state.IsTerminal()
    requires next.service == service && next.state == Journals.Detected && next.prNumber.None?
    requires next.journalId != first.journalId && first.at < next.at
    ensures var seen := ApplyAll(Initial, [Streamed(first), Streamed(next)]).active[service];
            seen.journalId == next.journalId && seen.at == first.at && seen.prNumber == first.prNumber
    ensures ApplyAll(Initial, [Streamed(first), Streamed(ended), Streamed(next)]).active[service] ==
              Progressed(None, next)
  {
    var (a, b, c) := (Streamed(first), Streamed(ended), Streamed(next));
    assert [a][..0] == [] && [a, c][..1] == [a] && [a, b][..1] == [a] && [a, b, c][..2] == [a, b];
    assert ApplyAll(Initial, [a]) == Apply(Initial, a);
    assert ApplyAll(Initial, [a, b]) == Apply(Apply(Initial, a), b);
  }

  // ---- A fresh connection ---------------------------------------------------------

  lemma {:induction false} LastWordStands(store: Store, us: seq<Update>, service: string, ev: Broadcast.Event)
    requires forall k :: 0 <= k < |us| ==> us[k].Streamed? && !us[k].ev.state.IsTerminal()
    requires forall k :: 0 <= k < |us| && us[k].ev.service == service ==> us[k].ev == ev
    ensures var after := ApplyAll(store, us);
            if exists k :: 0 <= k < |us| && us[k].ev.service == service
            then
              && service in after.active && after.active[service].journalId == ev.journalId
              && after.active[service].state == ev.state
            else Get(after.active, service) == Get(store.active, service)
  {
    if us != [] {
      var n := |us| - 1;
      LastWordStands(store, us[..n], service, ev);
      if exists k :: 0 <= k < |us| && us[k].ev.service == service {
        var k :| 0 <= k < |us| && us[k].ev.service == service;
        assert k < n ==> us[..n][k].ev.service == service;
      }
    }
  }

  function AsUpdates(evs: seq<Broadcast.Event>): seq<Update> {
    seq(|evs|, (k: nat) requires k < |evs| => Streamed(evs[k]))
  }

  /**
   * A page opened mid-deploy: once the snapshot of a journal is folded in, into
   * whatever the page held, every named service whose newest run is in flight
   * shows that run in its journalled state.
   */
  lemma SnapshotShowsWhatRuns(store: Store, rows: seq<Journals.Row>, names: seq<string>, unreadable: set<string>,
                              text: nat -> Broadcast.Text, n: nat, id: nat)
    requires forall id :: 0 <= id < |rows| && rows[id].state.IsTerminal() ==> rows[id].IsFinished()
    requires n < |names| && Broadcast.InFlight(rows, names[n], unreadable, id)
    ensures var after := ApplyAll(store, AsUpdates(Broadcast.Snapshot(rows, names, unreadable, text)));
            && names[n] in after.active && after.active[names[n]].journalId == id
            && after.active[names[n]].state == rows[id].state
  {
    var ev := Broadcast.EventFrom(rows, id, text);
    var evs := Broadcast.Snapshot(rows, names, unreadable, text);
    var us := AsUpdates(evs);
    var ids := Broadcast.SnapshotIsInOrder(rows, names, unreadable, text);
    forall k | 0 <= k < |us|
      ensures us[k].Streamed? && !us[k].ev.state.IsTerminal() && (us[k].ev.service == names[n] ==> us[k].ev == ev)
    {
      assert Broadcast.InFlight(rows, names[ids[k]], unreadable, evs[k].journalId);
    }
    assert n in ids;
    var k :| 0 <= k < |ids| && ids[k] == n;
    assert us[k].ev == ev && us[k].ev.service == names[n];
    LastWordStands(store, us, names[n], ev);
  }
}
