/** Whether a proposal's checks are green (internal/gitops/github.go). */
module CheckRuns {
  import opened Options

  datatype CheckRun = CheckRun(status: string, conclusion: string)

  datatype Verdict = Pending | Green | Red

  /** One page of check runs is read, of this size. */
  const PAGE: nat := 100

  predicate Acceptable(conclusion: string) {
    conclusion == "success" || conclusion == "neutral" || conclusion == "skipped"
  }

  predicate Passed(run: CheckRun) {
    run.status == "completed" && Acceptable(run.conclusion)
  }

  /** What green is for: there are checks, and all of them completed acceptably. */
  ghost predicate AllPassed(runs: seq<CheckRun>) {
    runs != [] && forall run :: run in runs ==> Passed(run)
  }

  /** The answer to one listing: how many runs there are, and the first page of them. */
  function FirstPage(runs: seq<CheckRun>): seq<CheckRun> {
    if |runs| <= PAGE then runs else runs[..PAGE]
  }

  /** The first run that is not completed or not acceptable decides. */
  function Summary(page: seq<CheckRun>): Verdict
    decreases |page|
  {
    if page == [] then Green
    else if page[0].status != "completed" then Pending
    else if !Acceptable(page[0].conclusion) then Red
    else Summary(page[1..])
  }

  lemma {:induction false} SummarySkipsPassed(page: seq<CheckRun>, n: nat)
    requires n <= |page| && forall k :: 0 <= k < n ==> Passed(page[k])
    ensures Summary(page) == Summary(page[n..])
    decreases n
  {
    if n > 0 {
      SummarySkipsPassed(page[1..], n - 1);
      assert page[1..][n - 1..] == page[n..];
    } else {
      assert page[0..] == page;
    }
  }

  method SummarizeChecks(total: nat, page: seq<CheckRun>) returns (verdict: Verdict)
    ensures verdict == Green <==>
              && total != 0 && page != []
              && forall run :: run in page ==>
                   run.status == "completed" && run.conclusion in {"success", "neutral", "skipped"}
    ensures total != 0 && page != [] && verdict != Green ==>
              exists n :: 0 <= n < |page| && (forall k :: 0 <= k < n ==> Passed(page[k]))
                && if page[n].status != "completed" then verdict == Pending
                   else verdict == Red && page[n].conclusion !in {"success", "neutral", "skipped"}
    ensures verdict == if total == 0 || page == [] then Pending else Summary(page)
  {
    if total == 0 || page == [] {
      return Pending;
    }
    var n := 0;
    while n < |page|
      invariant n <= |page| && forall k :: 0 <= k < n ==> Passed(page[k])
    {
      SummarySkipsPassed(page, n);
      assert page[n..][0] == page[n] && page[n] in page;
      if page[n].status != "completed" {
        return Pending;
      }
      if !Acceptable(page[n].conclusion) {
        return Red;
      }
      n := n + 1;
    }
    SummarySkipsPassed(page, n);
    verdict := Green;
  }

  /** What one poll sees: the total, and the first page. */
  function Polled(runs: seq<CheckRun>): Verdict {
    if runs == [] then Pending else Summary(FirstPage(runs))
  }

  /** How a wait ends: the checks concluded, a poll could not be read, or the context ended first. */
  datatype Waited = Concluded(green: bool) | Unreadable | TimedOut

  /** The first poll that concludes or cannot be read decides; the polls run dry only when the context ends the wait. */
  method WaitChecks(listings: seq<Option<seq<CheckRun>>>) returns (r: Waited, polls: nat)
    ensures polls <= |listings|
    ensures match r
            case Concluded(green) =>
              && polls > 0 && listings[polls - 1].Some?
              && Polled(listings[polls - 1].value) == if green then Green else Red
            case Unreadable => polls > 0 && listings[polls - 1].None?
            case TimedOut => polls == |listings|
    ensures forall k :: 0 <= k < (if r.TimedOut? then polls else polls - 1) ==>
              listings[k].Some? && Polled(listings[k].value) == Pending
    ensures r == Concluded(true) ==> AllPassed(FirstPage(listings[polls - 1].value))
  {
    polls := 0;
    while polls < |listings|
      invariant polls <= |listings|
      invariant forall k :: 0 <= k < polls ==> listings[k].Some? && Polled(listings[k].value) == Pending
    {
      var listing := listings[polls];
      polls := polls + 1;
      if listing.None? {
        return Unreadable, polls;
      }
      var verdict := SummarizeChecks(|listing.value|, FirstPage(listing.value));
      if verdict != Pending {
        return Concluded(verdict == Green), polls;
      }
    }
    r := TimedOut;
  }

  // ---- What green says ------------------------------------------------------------

  predicate Unfinished(run: CheckRun) {
    run.status != "completed"
  }

  predicate Failed(run: CheckRun) {
    run.status == "completed" && !Acceptable(run.conclusion)
  }

  /** A page's summary where one kind of trouble is absent: then the other kind alone decides it. */
  lemma {:induction false} SummaryOf(page: seq<CheckRun>)
    ensures Summary(page) == Green <==> forall run :: run in page ==> Passed(run)
    ensures (forall run :: run in page ==> !Failed(run)) ==> Summary(page) != Red
    ensures (forall run :: run in page ==> !Unfinished(run)) ==> Summary(page) != Pending
    decreases |page|
  {
    if page != [] {
      SummaryOf(page[1..]);
      assert page[0] in page && forall run :: run in page <==> run == page[0] || run in page[1..];
    }
  }

  /** A listing that fits a page reads green exactly when all its runs passed; a longer one when its first page did. */
  lemma GreenIsThePage(runs: seq<CheckRun>)
    ensures Polled(runs) == Green <==> AllPassed(FirstPage(runs))
  {
    SummaryOf(FirstPage(runs));
    if runs != [] { assert FirstPage(runs)[0] == runs[0]; }
  }

  /** A page of passed runs, and failed ones after it. */
  lemma MisreadListing(n: nat) returns (runs: seq<CheckRun>)
    requires n > PAGE
    ensures |runs| == n && Polled(runs) == Green && !AllPassed(runs) && exists run :: run in runs && !Passed(run)
  {
    var good, bad := CheckRun("completed", "success"), CheckRun("completed", "failure");
    runs := seq(n, (k: int) => if k < PAGE then good else bad);
    assert forall run :: run in runs[..PAGE] ==> run == good;
    assert runs[PAGE] == bad && bad in runs;
    GreenIsThePage(runs);
  }

  /** For every length past a page there is a listing that reads green though one of its runs failed. */
  lemma RedBeyondThePage(n: nat)
    requires n > 100
    ensures exists runs: seq<CheckRun> :: |runs| == n && Polled(runs) == Green && !AllPassed(runs)
  {
    var runs := MisreadListing(n);
  }

  /** Green speaks for all the checks there are exactly when they are no more than a page. */
  lemma GreenSpeaksForAll(n: nat)
    ensures (forall runs: seq<CheckRun> :: |runs| == n && Polled(runs) == Green ==> AllPassed(runs)) <==> n <= 100
  {
    if n > PAGE {
      RedBeyondThePage(n);
    } else {
      forall runs: seq<CheckRun> | |runs| == n && Polled(runs) == Green ensures AllPassed(runs) {
        GreenIsThePage(runs);
      }
    }
  }

  // ---- What order says ------------------------------------------------------------

  lemma SameMembers(a: seq<CheckRun>, b: seq<CheckRun>)
    requires multiset(a) == multiset(b)
    ensures |a| == |b| && forall run :: run in a <==> run in b
  {
    assert |a| == |multiset(a)| == |multiset(b)| == |b|;
    forall run ensures run in a <==> run in b {
      assert run in a <==> run in multiset(a);
      assert run in b <==> run in multiset(b);
    }
  }

  /** However the listing is reordered, it reads green or it does not. */
  ghost predicate GreenBlind(n: nat) {
    forall a: seq<CheckRun>, b: seq<CheckRun> ::
      |a| == n && multiset(a) == multiset(b) && Polled(a) == Green ==> Polled(b) == Green
  }

  lemma GreenWithinPage(a: seq<CheckRun>, b: seq<CheckRun>)
    requires multiset(a) == multiset(b) && |a| <= PAGE
    ensures Polled(a) == Green <==> Polled(b) == Green
  {
    SameMembers(a, b);
    GreenIsThePage(a);
    GreenIsThePage(b);
  }

  lemma MovedToFront(page: seq<CheckRun>, run: CheckRun) returns (front: seq<CheckRun>)
    requires run in page
    ensures multiset(front) == multiset(page) && front != [] && front[0] == run
  {
    var k :| 0 <= k < |page| && page[k] == run;
    front := [run] + (page[..k] + page[k + 1..]);
    assert page == page[..k] + [run] + page[k + 1..];
  }

  /**
   * Green is the same in every order exactly when the runs are no more than a
   * page: else a failed one can be listed off it.
   */
  lemma GreenIgnoresOrder(n: nat)
    ensures GreenBlind(n) <==> n <= 100
  {
    if n <= PAGE {
      forall a: seq<CheckRun>, b: seq<CheckRun> | |a| == n && multiset(a) == multiset(b) && Polled(a) == Green
        ensures Polled(b) == Green
      {
        GreenWithinPage(a, b);
      }
    } else {
      var a := MisreadListing(n);
      var failed: CheckRun :| failed in a && !Passed(failed);
      var b := MovedToFront(a, failed);
      GreenIsThePage(b);
      assert FirstPage(b)[0] == failed && |a| == n && multiset(a) == multiset(b);
      assert GreenBlind(n) ==> Polled(b) == Green;
    }
  }

  /** However the page is reordered, it is summed up the same. */
  ghost predicate OrderBlind(page: seq<CheckRun>) {
    forall other: seq<CheckRun> :: multiset(other) == multiset(page) ==> Summary(other) == Summary(page)
  }

  /**
   * Order decides nothing exactly when a page does not hold both a run that is
   * not completed and one that completed unacceptably: with both, whichever is
   * listed first makes it pending or red.
   */
  lemma OrderMattersIff(page: seq<CheckRun>)
    ensures OrderBlind(page) <==> !((exists u :: u in page && Unfinished(u)) && (exists f :: f in page && Failed(f)))
  {
    if (exists u :: u in page && Unfinished(u)) && (exists f :: f in page && Failed(f)) {
      var u :| u in page && Unfinished(u);
      var f :| f in page && Failed(f);
      var a := MovedToFront(page, u);
      var b := MovedToFront(page, f);
      assert Summary(a) == Pending && Summary(b) == Red;
      assert OrderBlind(page) ==> Summary(a) == Summary(page) && Summary(b) == Summary(page);
    } else {
      forall other: seq<CheckRun> | multiset(other) == multiset(page) ensures Summary(other) == Summary(page) {
        SameMembers(other, page);
        SummaryOf(other);
        SummaryOf(page);
      }
    }
  }

  /** Two orders of the same two runs, of which one reads red and the other pending. */
  lemma RedDependsOnOrder()
    ensures exists a, b :: multiset(a) == multiset(b) && Polled(a) == Red && Polled(b) == Pending
  {
    var failed, running := CheckRun("completed", "failure"), CheckRun("in_progress", "");
    var a, b := [failed, running], [running, failed];
    assert multiset(a) == multiset(b) && Polled(a) == Red && Polled(b) == Pending;
  }
}
