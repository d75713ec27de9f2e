/** Stored intents, the filters of a listing, and walks from page to page. */
module Intents {
  datatype Status =
    | UNSPECIFIED | PENDING | VALIDATED | SCHEDULED | EXECUTING | COMPLETED | FAILED | REJECTED | CANCELLED

  /** `createdAt` counts nanoseconds from the zero time of the clock library. */
  datatype Intent = Intent(id: string, status: Status, submitter: string, createdAt: int)

  datatype Filter = Filter(status: Status, submitter: string)

  /** UNSPECIFIED and the empty name do not filter. */
  predicate Matches(f: Filter, x: Intent) {
    (f.status == UNSPECIFIED || x.status == f.status) && (f.submitter == "" || x.submitter == f.submitter)
  }

  /** The matching intents, in the order of the list. */
  function Matching(f: Filter, xs: seq<Intent>): (ys: seq<Intent>)
    ensures |ys| <= |xs|
  {
    if xs == [] then []
    else
      var front := Matching(f, xs[..|xs| - 1]);
      if Matches(f, xs[|xs| - 1]) then front + [xs[|xs| - 1]] else front
  }

  lemma {:induction false} MatchingAppend(f: Filter, xs: seq<Intent>, ys: seq<Intent>)
    ensures Matching(f, xs + ys) == Matching(f, xs) + Matching(f, ys)
    decreases |ys|
  {
    if ys == [] {
      assert xs + ys == xs;
    } else {
      assert (xs + ys)[..|xs + ys| - 1] == xs + ys[..|ys| - 1];
      MatchingAppend(f, xs, ys[..|ys| - 1]);
    }
  }

  lemma MatchingGrows(f: Filter, xs: seq<Intent>, ys: seq<Intent>)
    requires xs <= ys
    ensures Matching(f, xs) <= Matching(f, ys)
  {
    assert ys == xs + ys[|xs|..];
    MatchingAppend(f, xs, ys[|xs|..]);
  }

  lemma MatchingNext(f: Filter, xs: seq<Intent>, i: nat)
    requires i < |xs|
    ensures Matching(f, xs[..i + 1]) == if Matches(f, xs[i]) then Matching(f, xs[..i]) + [xs[i]]
      else Matching(f, xs[..i])
  {
    assert xs[..i + 1][..i] == xs[..i];
  }

  /** The filter keeps exactly the matching intents, each as often as it occurs. */
  lemma {:induction false} MatchingIsExact(f: Filter, xs: seq<Intent>)
    ensures forall x ::
      multiset(Matching(f, xs))[x] ==
        if (f.status == UNSPECIFIED || x.status == f.status) && (f.submitter == "" || x.submitter == f.submitter)
        then multiset(xs)[x] else 0
  {
    if xs != [] {
      MatchingIsExact(f, xs[..|xs| - 1]);
      assert xs == xs[..|xs| - 1] + [xs[|xs| - 1]];
    }
  }

  // ---------- walking from page to page ----------

  datatype Page = Page(results: seq<Intent>, next: string)

  /**
   The pages come from consecutive visits: each is an answer to the token that the one
   before it gave out, and only the last may have no next token.
   */
  ghost predicate Walk<V>(answers: (V, string, Page) -> bool, visits: seq<V>, token: string, pages: seq<Page>)
    decreases |pages|
  {
    pages == [] || (
      && visits != [] && answers(visits[0], token, pages[0])
      && (|pages| > 1 ==> pages[0].next != "")
      && Walk(answers, visits[1..], pages[0].next, pages[1..]))
  }

  ghost function Collected(pages: seq<Page>): seq<Intent> {
    if pages == [] then [] else pages[0].results + Collected(pages[1..])
  }

  ghost predicate Ended(pages: seq<Page>) {
    pages != [] && pages[|pages| - 1].next == ""
  }

  lemma {:induction false} WalkFits<V>(answers: (V, string, Page) -> bool, visits: seq<V>, token: string,
        pages: seq<Page>)
    requires Walk(answers, visits, token, pages)
    ensures |pages| <= |visits|
    decreases |pages|
  {
    if pages != [] {
      WalkFits(answers, visits[1..], pages[0].next, pages[1..]);
    }
  }

  function PageSize(asked: int): (size: nat)
    ensures size > 0
  {
    if asked <= 0 then 20 else asked
  }
}
