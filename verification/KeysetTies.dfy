/**
 Listing rows of which several may have the same creation time: exactly when a walk over
 the database store's pages still lists every matching row as often as it is there.
 */
module KeysetTies {
  import opened Prelude
  import opened Intents
  import IntentPaging
  import opened KeysetPaging

  // ---------- counting through places ----------

  function At(xs: seq<Intent>, x: Intent): set<nat> {
    set i: nat | i < |xs| && xs[i] == x
  }

  lemma {:induction false} AtCounts(xs: seq<Intent>, x: Intent)
    ensures |At(xs, x)| == multiset(xs)[x]
  {
    if xs != [] {
      var n := |xs| - 1;
      var front := xs[..n];
      AtCounts(front, x);
      assert xs == front + [xs[n]];
      assert At(xs, x) == At(front, x) + if xs[n] == x then {n} else {};
    }
  }

  function Image(at: seq<nat>, a: set<nat>): set<nat>
    requires forall i :: i in a ==> i < |at|
  {
    set i | i in a :: at[i]
  }

  lemma {:induction false} ImageSize(at: seq<nat>, a: set<nat>)
    requires (forall i :: i in a ==> i < |at|) && forall i, j :: 0 <= i < j < |at| ==> at[i] != at[j]
    ensures |Image(at, a)| == |a|
  {
    if a != {} {
      var i :| i in a;
      ImageSize(at, a - {i});
      assert Image(at, a) == Image(at, a - {i}) + {at[i]};
    }
  }

  /** A page lists a row at most as often as it is there, and when less often then some place of it is not chosen. */
  lemma PageCounts(rows: seq<Intent>, f: Filter, cursor: Option<int>, limit: nat, at: seq<nat>, answer: seq<Intent>,
        x: Intent)
    requires Chosen(rows, f, cursor, limit, at, answer)
    ensures multiset(answer)[x] <= multiset(rows)[x]
    ensures multiset(answer)[x] < multiset(rows)[x] ==> exists r :: 0 <= r < |rows| && rows[r] == x && r !in at
  {
    var a, b := At(answer, x), At(rows, x);
    AtCounts(answer, x);
    AtCounts(rows, x);
    ImageSize(at, a);
    assert Image(at, a) <= b;
    SubsetSize(Image(at, a), b);
    if |a| < |b| {
      var r :| r in b && r !in Image(at, a);
      NotChosen(answer, at, rows, x, r);
    }
  }

  lemma NotChosen(answer: seq<Intent>, at: seq<nat>, rows: seq<Intent>, x: Intent, r: nat)
    requires |at| == |answer| && forall i :: 0 <= i < |at| ==> at[i] < |rows| && answer[i] == rows[at[i]]
    requires r < |rows| && rows[r] == x && r !in Image(at, At(answer, x))
    ensures r !in at
  {
    forall i | 0 <= i < |at| ensures at[i] != r {
      if answer[i] == x {
        assert at[i] in Image(at, At(answer, x));
      }
    }
  }

  // ---------- one page ----------

  /** How often a row is still to be listed. */
  function Wanted(m: seq<Intent>, cursor: Option<int>, x: Intent): nat {
    if Older(cursor, x) then multiset(m)[x] else 0
  }

  /** The time of the last row of a page. */
  function LastTime(page: Page): int {
    if page.results == [] then 0 else page.results[|page.results| - 1].createdAt
  }

  /** The rows that the next page will ask for. */
  predicate Later(page: Page, x: Intent) {
    page.next != "" && x.createdAt < LastTime(page)
  }

  /**
   A full page leaves out a matching row that no later page will ask for: one with the
   time of its last row or, when that is the zero time and there is no next token, an
   older one.
   */
  predicate Loses(m: seq<Intent>, asked: int, page: Page) {
    |page.results| == PageSize(asked) &&
    exists x :: x in m && multiset(page.results)[x] < multiset(m)[x] &&
      (x.createdAt == LastTime(page) || (page.next == "" && x.createdAt < LastTime(page)))
  }

  /** What the query guarantees of a page, in numbers. */
  ghost predicate Counted(m: seq<Intent>, cursor: Option<int>, limit: nat, answer: seq<Intent>) {
    && (forall x :: multiset(answer)[x] <= Wanted(m, cursor, x))
    && (forall i, j :: 0 <= i < j < |answer| ==> answer[i].createdAt >= answer[j].createdAt)
    && forall x :: multiset(answer)[x] < Wanted(m, cursor, x) ==>
         |answer| == limit && forall i :: 0 <= i < |answer| ==> answer[i].createdAt >= x.createdAt
  }

  lemma ListedIsOlder(rows: seq<Intent>, f: Filter, cursor: Option<int>, limit: nat, at: seq<nat>, answer: seq<Intent>,
        x: Intent)
    requires Chosen(rows, f, cursor, limit, at, answer) && x in answer
    ensures Older(cursor, x) && Matches(f, x)
  {
  }

  lemma UnchosenIsOlder(rows: seq<Intent>, f: Filter, cursor: Option<int>, limit: nat, at: seq<nat>,
        answer: seq<Intent>, r: nat)
    requires Chosen(rows, f, cursor, limit, at, answer) && r < |rows| && r !in at && Matches(f, rows[r]) &&
      Older(cursor, rows[r])
    ensures |answer| == limit && forall i :: 0 <= i < |answer| ==> answer[i].createdAt >= rows[r].createdAt
  {
  }

  ghost predicate RowCounted(m: seq<Intent>, cursor: Option<int>, limit: nat, answer: seq<Intent>, x: Intent) {
    && multiset(answer)[x] <= Wanted(m, cursor, x)
    && (multiset(answer)[x] < Wanted(m, cursor, x) ==>
          |answer| == limit && forall i :: 0 <= i < |answer| ==> answer[i].createdAt >= x.createdAt)
  }

  lemma RowCounts(rows: seq<Intent>, f: Filter, cursor: Option<int>, limit: nat, at: seq<nat>, answer: seq<Intent>,
        x: Intent)
    requires Chosen(rows, f, cursor, limit, at, answer)
    ensures RowCounted(Matching(f, rows), cursor, limit, answer, x)
  {
    MatchingIsExact(f, rows);
    PageCounts(rows, f, cursor, limit, at, answer, x);
    hide Chosen, Matching, Matches, Older;
    if x in answer {
      ListedIsOlder(rows, f, cursor, limit, at, answer, x);
    }
    if multiset(answer)[x] < Wanted(Matching(f, rows), cursor, x) {
      var r :| 0 <= r < |rows| && rows[r] == x && r !in at;
      UnchosenIsOlder(rows, f, cursor, limit, at, answer, r);
    }
  }

  lemma NewestFirst(rows: seq<Intent>, f: Filter, cursor: Option<int>, limit: nat, at: seq<nat>, answer: seq<Intent>)
    requires Chosen(rows, f, cursor, limit, at, answer)
    ensures forall i, j :: 0 <= i < j < |answer| ==> answer[i].createdAt >= answer[j].createdAt
  {
  }

  lemma CountedRows(m: seq<Intent>, cursor: Option<int>, limit: nat, answer: seq<Intent>)
    requires forall i, j :: 0 <= i < j < |answer| ==> answer[i].createdAt >= answer[j].createdAt
    requires forall x :: RowCounted(m, cursor, limit, answer, x)
    ensures Counted(m, cursor, limit, answer)
  {
    hide Wanted;
    forall x
      ensures multiset(answer)[x] <= Wanted(m, cursor, x)
      ensures multiset(answer)[x] < Wanted(m, cursor, x) ==>
        |answer| == limit && forall i :: 0 <= i < |answer| ==> answer[i].createdAt >= x.createdAt
    {
      assert RowCounted(m, cursor, limit, answer, x);
    }
  }

  lemma AnswerIsCounted(rows: seq<Intent>, f: Filter, cursor: Option<int>, limit: nat, answer: seq<Intent>)
    requires IsAnswer(rows, f, cursor, limit, answer)
    ensures Counted(Matching(f, rows), cursor, limit, answer)
  {
    hide Chosen, Counted, Matching, RowCounted;
    var at: seq<nat> :| Chosen(rows, f, cursor, limit, at, answer);
    NewestFirst(rows, f, cursor, limit, at, answer);
    forall x ensures RowCounted(Matching(f, rows), cursor, limit, answer, x) {
      RowCounts(rows, f, cursor, limit, at, answer, x);
    }
    CountedRows(Matching(f, rows), cursor, limit, answer);
  }

  /**
   A page that loses nothing lists all that is wanted, what later pages will ask for apart;
   and only such a page does.
   */
  ghost predicate Keeps(m: seq<Intent>, cursor: Option<int>, page: Page) {
    forall x :: !Later(page, x) ==> multiset(page.results)[x] == Wanted(m, cursor, x)
  }

  lemma LastIsOldest(m: seq<Intent>, cursor: Option<int>, limit: nat, page: Page)
    requires Counted(m, cursor, limit, page.results)
    ensures forall x :: x in page.results ==> x.createdAt >= LastTime(page)
    ensures page.results != [] ==> cursor.None? || LastTime(page) < cursor.value
  {
    var xs := page.results;
    forall x | x in xs ensures x.createdAt >= LastTime(page) {
      var i :| 0 <= i < |xs| && xs[i] == x;
    }
    if xs != [] {
      var last := xs[|xs| - 1];
      assert multiset(xs)[last] > 0;
      assert Wanted(m, cursor, last) > 0;
    }
  }

  lemma KeepsExactlyWhen(m: seq<Intent>, cursor: Option<int>, asked: int, page: Page)
    requires Counted(m, cursor, PageSize(asked), page.results) &&
      (page.next != "" ==> |page.results| == PageSize(asked))
    ensures Keeps(m, cursor, page) <==> !Loses(m, asked, page)
    ensures forall x :: Later(page, x) ==> multiset(page.results)[x] == 0
  {
    LastIsOldest(m, cursor, PageSize(asked), page);
    forall x | Later(page, x) ensures multiset(page.results)[x] == 0 {
      assert x !in page.results;
    }
    if Loses(m, asked, page) {
      var x :| x in m && multiset(page.results)[x] < multiset(m)[x] &&
        (x.createdAt == LastTime(page) || (page.next == "" && x.createdAt < LastTime(page)));
      assert !Later(page, x) && Older(cursor, x);
    } else {
      forall x | !Later(page, x) ensures multiset(page.results)[x] == Wanted(m, cursor, x) {
        if multiset(page.results)[x] < Wanted(m, cursor, x) {
          LeftOut(m, cursor, asked, page, x);
        }
      }
    }
  }

  /** A row that is left out and not asked for later is lost. */
  lemma LeftOut(m: seq<Intent>, cursor: Option<int>, asked: int, page: Page, x: Intent)
    requires Counted(m, cursor, PageSize(asked), page.results) && !Later(page, x)
    requires multiset(page.results)[x] < Wanted(m, cursor, x)
    ensures Loses(m, asked, page)
  {
    assert x in m;
    assert page.results[|page.results| - 1].createdAt >= x.createdAt;
  }

  // ---------- walks ----------

  /** Every wanted row is listed as often as it is there. */
  ghost predicate Exact(m: seq<Intent>, cursor: Option<int>, xs: seq<Intent>) {
    forall x :: multiset(xs)[x] == Wanted(m, cursor, x)
  }

  ghost predicate AtMost(m: seq<Intent>, cursor: Option<int>, xs: seq<Intent>) {
    forall x :: multiset(xs)[x] <= Wanted(m, cursor, x)
  }

  /** What a page of the walk gives: its numbers, and the cursor of its next token. */
  lemma PageOfWalk(c: Clock, f: Filter, rows: seq<Intent>, asked: int, token: string, page: Page)
    requires ClockLaws(c, f, rows) && IsPage(c, rows, f, asked, token, page)
    ensures Counted(Matching(f, rows), Cursor(c, token), PageSize(asked), page.results)
    ensures page.next != "" ==> |page.results| == PageSize(asked) && Cursor(c, page.next) == Some(LastTime(page))
  {
    AnswerIsCounted(rows, f, Cursor(c, token), PageSize(asked), page.results);
    if page.results != [] {
      var last := page.results[|page.results| - 1];
      var at: seq<nat> :| Chosen(rows, f, Cursor(c, token), PageSize(asked), at, page.results);
      ListedIsOlder(rows, f, Cursor(c, token), PageSize(asked), at, page.results, last);
      ChosenIsOlder(rows, f, Cursor(c, token), PageSize(asked), at, page.results);
    }
    hide Matching, Counted, Chosen;
  }

  /** What is still wanted behind a page with a next token. */
  lemma WantedLater(m: seq<Intent>, cursor: Option<int>, limit: nat, page: Page, x: Intent)
    requires Counted(m, cursor, limit, page.results) && page.next != "" && page.results != []
    ensures Wanted(m, Some(LastTime(page)), x) == if Later(page, x) then Wanted(m, cursor, x) else 0
  {
    LastIsOldest(m, cursor, limit, page);
  }

  /** A first page and the rest are exact together exactly when each is for its own cursor. */
  lemma ExactJoin(m: seq<Intent>, cursor: Option<int>, asked: int, page: Page, rest: seq<Intent>)
    requires Counted(m, cursor, PageSize(asked), page.results) && page.next != "" && |page.results| == PageSize(asked)
    requires AtMost(m, Some(LastTime(page)), rest)
    ensures AtMost(m, cursor, page.results + rest)
    ensures Exact(m, cursor, page.results + rest) <==> !Loses(m, asked, page) && Exact(m, Some(LastTime(page)), rest)
  {
    KeepsExactlyWhen(m, cursor, asked, page);
    hide Loses, Later, LastTime, Wanted;
    forall x ensures multiset(page.results + rest)[x] == multiset(page.results)[x] + multiset(rest)[x] {
    }
    forall x ensures Wanted(m, Some(LastTime(page)), x) == if Later(page, x) then Wanted(m, cursor, x) else 0 {
      WantedLater(m, cursor, PageSize(asked), page, x);
    }
  }

  /** A last page is exact exactly when it loses nothing. */
  lemma ExactLast(m: seq<Intent>, cursor: Option<int>, asked: int, page: Page)
    requires Counted(m, cursor, PageSize(asked), page.results) && page.next == ""
    ensures AtMost(m, cursor, page.results)
    ensures Exact(m, cursor, page.results) <==> !Loses(m, asked, page)
  {
    KeepsExactlyWhen(m, cursor, asked, page);
    assert forall x :: !Later(page, x);
    hide Loses, Later, Wanted;
  }

  ghost predicate NoneLoses(m: seq<Intent>, visits: seq<IntentPaging.Visit>, pages: seq<Page>)
    requires |pages| <= |visits|
  {
    forall i :: 0 <= i < |pages| ==> !Loses(m, visits[i].asked, pages[i])
  }

  lemma NoneLosesStep(m: seq<Intent>, visits: seq<IntentPaging.Visit>, pages: seq<Page>)
    requires 0 < |pages| <= |visits|
    ensures NoneLoses(m, visits, pages) <==>
      !Loses(m, visits[0].asked, pages[0]) && NoneLoses(m, visits[1..], pages[1..])
  {
    hide Loses;
    if NoneLoses(m, visits[1..], pages[1..]) && !Loses(m, visits[0].asked, pages[0]) {
      forall i | 0 <= i < |pages| ensures !Loses(m, visits[i].asked, pages[i]) {
        if i > 0 {
          assert !Loses(m, visits[1..][i - 1].asked, pages[1..][i - 1]);
        }
      }
    }
    if NoneLoses(m, visits, pages) {
      forall i | 0 <= i < |pages[1..]| ensures !Loses(m, visits[1..][i].asked, pages[1..][i]) {
        assert !Loses(m, visits[i + 1].asked, pages[i + 1]);
      }
    }
  }

  lemma {:induction false} WalkIsExactWhen(c: Clock, f: Filter, rows: seq<Intent>, visits: seq<IntentPaging.Visit>,
        token: string, pages: seq<Page>)
    requires Walk(Answers(c, f), visits, token, pages) && Ended(pages) && |pages| <= |visits| && ClockLaws(c, f, rows)
    requires forall i :: 0 <= i < |visits| ==> visits[i].all == rows
    ensures AtMost(Matching(f, rows), Cursor(c, token), Collected(pages))
    ensures Exact(Matching(f, rows), Cursor(c, token), Collected(pages)) <==>
      NoneLoses(Matching(f, rows), visits, pages)
    decreases |pages|
  {
    hide ClockLaws, IsPage, Matching, Counted, Loses, Exact, AtMost, Cursor, LastTime, NoneLoses, PageSize;
    var m, cursor, first, rest := Matching(f, rows), Cursor(c, token), pages[0], pages[1..];
    PageOfWalk(c, f, rows, visits[0].asked, token, first);
    NoneLosesStep(m, visits, pages);
    if rest == [] {
      assert Collected(pages) == first.results;
      ExactLast(m, cursor, visits[0].asked, first);
      NothingLoses(m, visits[1..]);
    } else {
      assert rest[|rest| - 1] == pages[|pages| - 1];
      WalkIsExactWhen(c, f, rows, visits[1..], first.next, rest);
      ExactJoin(m, cursor, visits[0].asked, first, Collected(rest));
    }
  }

  lemma NothingLoses(m: seq<Intent>, visits: seq<IntentPaging.Visit>)
    ensures NoneLoses(m, visits, [])
  {
  }

  /**
   Over an unchanged table, whatever its creation times, a walk that has ended has listed
   every matching row as often as it is there exactly when no page lost a row: none left
   out a row with the time of its last one.
   */
  lemma KeysetIsExactWhen(c: Clock, f: Filter, rows: seq<Intent>, visits: seq<IntentPaging.Visit>, pages: seq<Page>)
    requires Walk(Answers(c, f), visits, "", pages) && Ended(pages) && |pages| <= |visits| && ClockLaws(c, f, rows)
    requires forall i :: 0 <= i < |visits| ==> visits[i].all == rows
    ensures multiset(Collected(pages)) == multiset(Matching(f, rows)) <==> NoneLoses(Matching(f, rows), visits, pages)
  {
    WalkIsExactWhen(c, f, rows, visits, "", pages);
    hide NoneLoses, Matching, Collected, Walk;
    assert forall x :: Wanted(Matching(f, rows), None, x) == multiset(Matching(f, rows))[x];
  }
}
