/**
 The database store's listing: newest first, with the creation time of the last row of
 a page as the token for the next.  Times are printed and read back by functions given
 from outside.
 */
module KeysetPaging {
  import opened Prelude
  import opened Intents
  import IntentPaging

  /** How the clock library writes a time and reads it back. */
  datatype Clock = Clock(format: int -> string, parse: string -> Option<int>)

  const ZERO_TIME: int := 0

  /** What is used of the clock library for the times of the matching rows. */
  ghost predicate ClockLaws(c: Clock, f: Filter, rows: seq<Intent>) {
    forall i :: 0 <= i < |rows| && Matches(f, rows[i]) ==>
      c.parse(c.format(rows[i].createdAt)) == Some(rows[i].createdAt) && c.format(rows[i].createdAt) != ""
  }

  /** Creation times of matching rows strictly increase in insertion order. */
  ghost predicate InOrder(f: Filter, rows: seq<Intent>) {
    forall i, j :: 0 <= i < j < |rows| && Matches(f, rows[i]) && Matches(f, rows[j]) ==>
      rows[i].createdAt < rows[j].createdAt
  }

  /** And none of them is the zero time. */
  ghost predicate Increasing(f: Filter, rows: seq<Intent>) {
    InOrder(f, rows) && forall i :: 0 <= i < |rows| && Matches(f, rows[i]) ==> rows[i].createdAt != ZERO_TIME
  }

  // ---------- the query ----------

  /** The time before which rows are wanted; a token that is not a time asks for all. */
  function Cursor(c: Clock, token: string): Option<int> {
    if token == "" then None else c.parse(token)
  }

  predicate Older(cursor: Option<int>, x: Intent) {
    cursor.None? || x.createdAt < cursor.value
  }

  /** The rows at these places are the answer, in order, and all are wanted. */
  ghost predicate Gives(rows: seq<Intent>, f: Filter, cursor: Option<int>, at: seq<nat>, answer: seq<Intent>) {
    |at| == |answer| && forall i :: 0 <= i < |at| ==>
      at[i] < |rows| && answer[i] == rows[at[i]] && Matches(f, answer[i]) && Older(cursor, answer[i])
  }

  /** No row twice, newest first. */
  ghost predicate Ordered(at: seq<nat>, answer: seq<Intent>)
    requires |at| == |answer|
  {
    forall i, j :: 0 <= i < j < |at| ==> at[i] != at[j] && answer[i].createdAt >= answer[j].createdAt
  }

  /** A wanted row is left out only when the page is full of rows that are not older. */
  ghost predicate Complete(rows: seq<Intent>, f: Filter, cursor: Option<int>, limit: nat, at: seq<nat>,
        answer: seq<Intent>)
    requires |at| == |answer|
  {
    forall k :: 0 <= k < |rows| && Matches(f, rows[k]) && Older(cursor, rows[k]) && k !in at ==>
      |at| == limit && forall i :: 0 <= i < |at| ==> answer[i].createdAt >= rows[k].createdAt
  }

  ghost predicate Chosen(rows: seq<Intent>, f: Filter, cursor: Option<int>, limit: nat, at: seq<nat>,
        answer: seq<Intent>) {
    Gives(rows, f, cursor, at, answer) && |at| <= limit && Ordered(at, answer) &&
      Complete(rows, f, cursor, limit, at, answer)
  }

  /**
   An answer to the page query: matching rows older than the cursor, newest first, at
   most `limit` of them and none left out that is newer than one given.  Rows with equal
   times may come in any order.
   */
  ghost predicate IsAnswer(rows: seq<Intent>, f: Filter, cursor: Option<int>, limit: nat, answer: seq<Intent>) {
    exists at: seq<nat> :: Chosen(rows, f, cursor, limit, at, answer)
  }

  ghost predicate IsPage(c: Clock, rows: seq<Intent>, f: Filter, asked: int, token: string, page: Page) {
    && IsAnswer(rows, f, Cursor(c, token), PageSize(asked), page.results)
    && page.next ==
       if |page.results| == PageSize(asked) && page.results[|page.results| - 1].createdAt != ZERO_TIME
       then c.format(page.results[|page.results| - 1].createdAt) else ""
  }

  // ---------- the store's answer ----------

  /**
   One listing.  `rows` is the table, `answer` what the database returned for the page
   query.
   */
  method List(c: Clock, rows: seq<Intent>, f: Filter, asked: int, token: string, answer: seq<Intent>)
    returns (results: seq<Intent>, next: string, totalCount: nat)
    requires IsAnswer(rows, f, Cursor(c, token), PageSize(asked), answer)
    ensures IsPage(c, rows, f, asked, token, Page(results, next)) && totalCount == |Matching(f, rows)|
  {
    hide Matching, IsAnswer, Cursor;
    var pageSize := if asked <= 0 then 20 else asked;
    totalCount := |Matching(f, rows)|;
    results := [];
    var lastCreatedAt := ZERO_TIME;
    for i := 0 to |answer|
      invariant results == answer[..i] && lastCreatedAt == if i == 0 then ZERO_TIME else answer[i - 1].createdAt
    {
      lastCreatedAt := answer[i].createdAt;
      results := results + [answer[i]];
    }
    assert answer[..|answer|] == answer;
    next := "";
    if |results| == pageSize && lastCreatedAt != ZERO_TIME {
      next := c.format(lastCreatedAt);
    }
  }

  /** A token that is no time gets the first page, like no token at all. */
  lemma UnreadableToken(c: Clock, rows: seq<Intent>, f: Filter, asked: int, token: string, page: Page)
    requires c.parse(token).None?
    ensures IsPage(c, rows, f, asked, token, page) <==> IsPage(c, rows, f, asked, "", page)
  {
  }

  // ---------- what a page holds ----------

  function Reverse(xs: seq<Intent>): (ys: seq<Intent>)
    ensures |ys| == |xs|
  {
    if xs == [] then [] else [xs[|xs| - 1]] + Reverse(xs[..|xs| - 1])
  }

  lemma {:induction false} ReverseAt(xs: seq<Intent>, k: nat)
    requires k < |xs|
    ensures Reverse(xs)[k] == xs[|xs| - 1 - k]
  {
    if k > 0 {
      ReverseAt(xs[..|xs| - 1], k - 1);
    }
  }

  /** The last `limit` elements, newest first. */
  function Newest(xs: seq<Intent>, limit: nat): (ys: seq<Intent>)
    ensures |ys| == if limit < |xs| then limit else |xs|
    ensures ys != [] ==> ys[|ys| - 1] == xs[|xs| - |ys|]
  {
    if xs == [] || limit == 0 then [] else [xs[|xs| - 1]] + Newest(xs[..|xs| - 1], limit - 1)
  }

  lemma {:induction false} NewestThenRest(xs: seq<Intent>, limit: nat)
    ensures Reverse(xs) == Newest(xs, limit) + Reverse(xs[..|xs| - |Newest(xs, limit)|])
  {
    var front := Newest(xs, limit);
    if front != [] {
      NewestThenRest(xs[..|xs| - 1], limit - 1);
      assert xs[..|xs| - 1][..|xs| - |front|] == xs[..|xs| - |front|];
    } else {
      assert xs[..|xs|] == xs;
    }
  }

  ghost predicate Sorted(xs: seq<Intent>) {
    forall i, j :: 0 <= i < j < |xs| ==> xs[i].createdAt < xs[j].createdAt
  }

  /** What the conditions of the query say about the candidates themselves. */
  ghost predicate Best(xs: seq<Intent>, limit: nat, answer: seq<Intent>) {
    && |answer| <= limit
    && (forall i :: 0 <= i < |answer| ==> answer[i] in xs)
    && (forall i, j :: 0 <= i < j < |answer| ==> answer[i].createdAt > answer[j].createdAt)
    && forall k :: 0 <= k < |xs| && xs[k] !in answer ==>
         |answer| == limit && forall i :: 0 <= i < |answer| ==> answer[i].createdAt > xs[k].createdAt
  }

  lemma NoneNewer(xs: seq<Intent>, x: Intent)
    requires Sorted(xs) && x in xs
    ensures x.createdAt <= xs[|xs| - 1].createdAt
  {
  }

  lemma BestStartsLast(xs: seq<Intent>, limit: nat, answer: seq<Intent>)
    requires Sorted(xs) && Best(xs, limit, answer) && xs != [] && limit > 0
    ensures answer != [] && answer[0] == xs[|xs| - 1]
  {
    var last := xs[|xs| - 1];
    if answer != [] {
      NoneNewer(xs, answer[0]);
    }
    if last !in answer {
      assert false;
    }
    var j :| 0 <= j < |answer| && answer[j] == last;
    assert answer[0].createdAt <= last.createdAt;
  }

  lemma BestIsIn(xs: seq<Intent>, limit: nat, answer: seq<Intent>, i: nat)
    requires Best(xs, limit, answer) && i < |answer|
    ensures answer[i] in xs
  {
  }

  lemma BestOfNothing(xs: seq<Intent>, limit: nat, answer: seq<Intent>)
    requires Best(xs, limit, answer) && (xs == [] || limit == 0)
    ensures answer == []
  {
    if xs == [] && answer != [] {
      BestIsIn(xs, limit, answer, 0);
    }
  }

  lemma BestRest(xs: seq<Intent>, limit: nat, answer: seq<Intent>)
    requires Sorted(xs) && Best(xs, limit, answer) && xs != [] && limit > 0 && answer != [] && answer[0] == xs[|xs| - 1]
    ensures Best(xs[..|xs| - 1], limit - 1, answer[1..]) && Sorted(xs[..|xs| - 1])
  {
    var front, rest := xs[..|xs| - 1], answer[1..];
    forall i | 0 <= i < |rest| ensures rest[i] in front {
      assert answer[i + 1] in xs && answer[0].createdAt > answer[i + 1].createdAt;
    }
    forall k | 0 <= k < |front| && front[k] !in rest
      ensures |rest| == limit - 1 && forall i :: 0 <= i < |rest| ==> rest[i].createdAt > front[k].createdAt
    {
      assert front[k] == xs[k] && answer == [answer[0]] + rest && xs[k] != answer[0];
      assert xs[k] !in answer;
    }
  }

  lemma {:induction false} BestIsNewest(xs: seq<Intent>, limit: nat, answer: seq<Intent>)
    requires Sorted(xs) && Best(xs, limit, answer)
    ensures answer == Newest(xs, limit)
    decreases |xs|
  {
    hide Sorted, Best;
    if xs != [] && limit > 0 {
      BestStartsLast(xs, limit, answer);
      BestRest(xs, limit, answer);
      BestIsNewest(xs[..|xs| - 1], limit - 1, answer[1..]);
    } else {
      BestOfNothing(xs, limit, answer);
    }
  }

  /** Matching keeps the order, and takes exactly the matching rows. */
  lemma {:induction false} MatchingSorted(f: Filter, rows: seq<Intent>)
    requires InOrder(f, rows)
    ensures Sorted(Matching(f, rows)) && forall x :: x in Matching(f, rows) <==> x in rows && Matches(f, x)
  {
    if rows != [] {
      var front := rows[..|rows| - 1];
      MatchingSorted(f, front);
      var last := rows[|rows| - 1];
      forall i | 0 <= i < |Matching(f, front)| &&
        Matches(f, last) ensures Matching(f, front)[i].createdAt < last.createdAt {
        assert Matching(f, front)[i] in front;
      }
      assert forall x :: x in rows <==> x in front || x == rows[|rows| - 1];
    }
  }

  /** The cursor for place `n` of the matching rows, or for all of them. */
  ghost predicate CursorAt(cursor: Option<int>, m: seq<Intent>, n: nat) {
    n <= |m| && if cursor.None? then n == |m| else n < |m| && cursor == Some(m[n].createdAt)
  }

  lemma OlderIsPrefix(cursor: Option<int>, m: seq<Intent>, n: nat)
    requires Sorted(m) && CursorAt(cursor, m, n)
    ensures forall x :: x in m[..n] <==> x in m && Older(cursor, x)
    ensures Sorted(m[..n])
  {
    forall x | x in m && Older(cursor, x) ensures x in m[..n] {
      var k :| 0 <= k < |m| && m[k] == x;
      assert k < n;
      assert m[..n][k] == x;
    }
  }

  lemma ChosenIsGiven(rows: seq<Intent>, f: Filter, cursor: Option<int>, limit: nat, at: seq<nat>, answer: seq<Intent>,
        r: nat)
    requires Chosen(rows, f, cursor, limit, at, answer) && r in at && r < |rows|
    ensures rows[r] in answer
  {
    var i :| 0 <= i < |at| && at[i] == r;
    assert answer[i] == rows[r];
  }

  lemma ChosenIsBest(rows: seq<Intent>, f: Filter, cursor: Option<int>, limit: nat, at: seq<nat>, answer: seq<Intent>,
        xs: seq<Intent>)
    requires InOrder(f, rows) && Chosen(rows, f, cursor, limit, at, answer)
    requires forall x :: x in xs <==> x in rows && Matches(f, x) && Older(cursor, x)
    ensures Best(xs, limit, answer)
  {
    forall k | 0 <= k < |xs| && xs[k] !in answer
      ensures |answer| == limit && forall i :: 0 <= i < |answer| ==> answer[i].createdAt > xs[k].createdAt
    {
      assert xs[k] in xs;
      var r :| 0 <= r < |rows| && rows[r] == xs[k];
      if r in at {
        ChosenIsGiven(rows, f, cursor, limit, at, answer, r);
      }
      forall i | 0 <= i < |answer| ensures answer[i].createdAt > xs[k].createdAt {
        assert answer[i] == rows[at[i]] && at[i] != r;
      }
    }
  }

  /** Over increasing times the query has one answer: the last rows before the cursor, newest first. */
  lemma AnswerIsNewest(rows: seq<Intent>, f: Filter, cursor: Option<int>, limit: nat, n: nat, answer: seq<Intent>)
    requires InOrder(f, rows) && CursorAt(cursor, Matching(f, rows), n) && IsAnswer(rows, f, cursor, limit, answer)
    ensures answer == Newest(Matching(f, rows)[..n], limit)
  {
    var m := Matching(f, rows);
    var at: seq<nat> :| Chosen(rows, f, cursor, limit, at, answer);
    MatchingSorted(f, rows);
    OlderIsPrefix(cursor, m, n);
    hide Best, Chosen, Matching, CursorAt, Newest, Sorted, Matches, Older;
    ChosenIsBest(rows, f, cursor, limit, at, answer, m[..n]);
    BestIsNewest(m[..n], limit, answer);
  }

  // ---------- walks ----------

  /** Between visits rows are only added. */
  ghost predicate Growing(visits: seq<IntentPaging.Visit>) {
    forall i, j :: 0 <= i <= j < |visits| ==> visits[i].all <= visits[j].all
  }

  ghost function Answers(c: Clock, f: Filter): (IntentPaging.Visit, string, Page) -> bool {
    (v: IntentPaging.Visit, token: string, page: Page) => IsPage(c, v.all, f, v.asked, token, page)
  }

  ghost predicate TokenFor(c: Clock, token: string, m: seq<Intent>, n: nat) {
    n <= |m| && if token == "" then n == |m| else n < |m| && token == c.format(m[n].createdAt)
  }

  lemma TokenGivesCursor(c: Clock, rows: seq<Intent>, f: Filter, token: string, n: nat)
    requires ClockLaws(c, f, rows) && InOrder(f, rows) && TokenFor(c, token, Matching(f, rows), n)
    ensures CursorAt(Cursor(c, token), Matching(f, rows), n)
  {
    MatchingSorted(f, rows);
    if token != "" {
      assert Matching(f, rows)[n] in rows;
    }
  }

  lemma OnePage(c: Clock, v: IntentPaging.Visit, f: Filter, token: string, n: nat, page: Page)
    requires ClockLaws(c, f, v.all) && Increasing(f, v.all) && TokenFor(c, token, Matching(f, v.all), n)
    requires IsPage(c, v.all, f, v.asked, token, page)
    ensures page.results == Newest(Matching(f, v.all)[..n], PageSize(v.asked))
    ensures page.next != "" <==> |page.results| == PageSize(v.asked)
    ensures page.next != "" ==> |page.results| <= n && TokenFor(c, page.next, Matching(f, v.all), n - |page.results|)
  {
    var m := Matching(f, v.all);
    assert InOrder(f, v.all);
    TokenGivesCursor(c, v.all, f, token, n);
    AnswerIsNewest(v.all, f, Cursor(c, token), PageSize(v.asked), n, page.results);
    MatchingSorted(f, v.all);
    hide Matching, Sorted, CursorAt, Cursor, IsAnswer, PageSize;
    if page.results != [] {
      var k := n - |page.results|;
      assert page.results[|page.results| - 1] == m[k] && m[k] in m;
      assert m[k] in v.all;
    }
  }

  lemma TokenFits(c: Clock, token: string, m: seq<Intent>, n: nat)
    requires TokenFor(c, token, m, n)
    ensures n <= |m|
  {
  }

  /** A token still names the same place after rows were added. */
  lemma TokenStays(c: Clock, token: string, m: seq<Intent>, m': seq<Intent>, n: nat)
    requires TokenFor(c, token, m, n) && token != "" && m <= m'
    ensures TokenFor(c, token, m', n)
  {
  }

  /** A page that is not full holds everything there was. */
  lemma ShortPage(xs: seq<Intent>, limit: nat)
    requires |Newest(xs, limit)| != limit
    ensures Newest(xs, limit) == Reverse(xs)
  {
    NewestThenRest(xs, limit);
    assert xs[..|xs| - |Newest(xs, limit)|] == [];
  }

  /** A walk from place `n` collects what stands before it, newest first, in at most `n` + 1 pages. */
  lemma {:induction false} WalkFrom(c: Clock, f: Filter, visits: seq<IntentPaging.Visit>, token: string, n: nat,
        pages: seq<Page>)
    requires Walk(Answers(c, f), visits, token, pages) && 0 < |pages| <= |visits| && Growing(visits)
    requires forall i :: 0 <= i < |visits| ==> ClockLaws(c, f, visits[i].all) && Increasing(f, visits[i].all)
    requires TokenFor(c, token, Matching(f, visits[0].all), n)
    ensures |pages| <= n + 1
    ensures Ended(pages) ==> Collected(pages) == Reverse(Matching(f, visits[0].all)[..n])
    decreases |pages|
  {
    hide Matching, IsPage, TokenFor, PageSize, Reverse, Newest, ClockLaws, Increasing;
    var m, first, rest := Matching(f, visits[0].all), pages[0].results, pages[1..];
    assert n <= |m| by {
      TokenFits(c, token, m, n);
    }
    OnePage(c, visits[0], f, token, n, pages[0]);
    NewestThenRest(m[..n], PageSize(visits[0].asked));
    if rest == [] {
      assert Collected(pages) == first;
      if Ended(pages) {
        ShortPage(m[..n], PageSize(visits[0].asked));
      }
    } else {
      var k := n - |first|;
      assert rest[|rest| - 1] == pages[|pages| - 1];
      MatchingGrows(f, visits[0].all, visits[1].all);
      TokenStays(c, pages[0].next, m, Matching(f, visits[1].all), k);
      assert m[..n][..k] == m[..k] == Matching(f, visits[1].all)[..k] && k < n;
      assert forall i :: 0 <= i < |visits[1..]| ==> visits[1..][i] == visits[i + 1];
      WalkFrom(c, f, visits[1..], pages[0].next, k, rest);
    }
  }

  ghost predicate Lawful(c: Clock, f: Filter, visits: seq<IntentPaging.Visit>) {
    forall i :: 0 <= i < |visits| ==> ClockLaws(c, f, visits[i].all) && Increasing(f, visits[i].all)
  }

  /**
   With increasing creation times a walk ends, at the latest with the page after the last
   matching intent, and then it has listed the matching intents of its first visit,
   newest first, each once, whatever was added meanwhile.
   */
  lemma KeysetWalkIsReverse(c: Clock, f: Filter, visits: seq<IntentPaging.Visit>, pages: seq<Page>)
    requires Walk(Answers(c, f), visits, "", pages) && 0 < |pages| <= |visits| && Growing(visits) &&
      Lawful(c, f, visits)
    ensures |pages| <= |Matching(f, visits[0].all)| + 1
    ensures Ended(pages) ==> Collected(pages) == Reverse(Matching(f, visits[0].all))
  {
    var m := Matching(f, visits[0].all);
    assert m[..|m|] == m;
    hide Matching, Walk, Reverse, Collected;
    WalkFrom(c, f, visits, "", |m|, pages);
  }

  /** The two stores list the same intents, in opposite orders. */
  lemma {:induction false} KeysetRefinesOffset(
      c: Clock, f: Filter, visits: seq<IntentPaging.Visit>, pages: seq<Page>,
      visits': seq<IntentPaging.Visit>, pages': seq<Page>)
    requires Walk(Answers(c, f), visits, "", pages) && |pages| <= |visits| && Growing(visits) && Lawful(c, f, visits) &&
      Ended(pages)
    requires Walk(IntentPaging.Answers(f), visits', "", pages') && |pages'| <= |visits'| &&
      IntentPaging.Growing(visits') && Ended(pages')
    requires visits[0].all == visits'[|pages'| - 1].all
    ensures Collected(pages) == Reverse(Collected(pages'))
  {
    hide Matching, Walk, Reverse, Collected;
    KeysetWalkIsReverse(c, f, visits, pages);
    IntentPaging.OffsetPagingIsExact(f, visits', pages');
  }

  // ---------- every query has an answer ----------

  lemma {:induction false} NewestAt(xs: seq<Intent>, limit: nat, i: nat)
    requires i < |Newest(xs, limit)|
    ensures Newest(xs, limit)[i] == xs[|xs| - 1 - i]
  {
    NewestStep(xs, limit);
    hide Newest;
    if i > 0 {
      NewestAt(xs[..|xs| - 1], limit - 1, i - 1);
    }
  }

  lemma NewestStep(xs: seq<Intent>, limit: nat)
    requires Newest(xs, limit) != []
    ensures xs != [] && limit > 0 && Newest(xs, limit) == [xs[|xs| - 1]] + Newest(xs[..|xs| - 1], limit - 1)
  {
  }

  /** The places of the matching rows, and of the answer among them. */
  ghost predicate Placed(rows: seq<Intent>, m: seq<Intent>, places: seq<nat>) {
    && |places| == |m|
    && (forall i :: 0 <= i < |places| ==> places[i] < |rows| && rows[places[i]] == m[i])
    && forall i, j :: 0 <= i < j < |places| ==> places[i] < places[j]
  }

  lemma PlacedAt(rows: seq<Intent>, m: seq<Intent>, places: seq<nat>, i: nat)
    requires Placed(rows, m, places) && i < |m|
    ensures |places| == |m| && places[i] < |rows| && rows[places[i]] == m[i]
  {
  }

  lemma BeforeCursor(rows: seq<Intent>, f: Filter, cursor: Option<int>, n: nat, j: nat)
    requires InOrder(f, rows) && CursorAt(cursor, Matching(f, rows), n) && j < n
    ensures n <= |Matching(f, rows)| && Matches(f, Matching(f, rows)[j]) && Older(cursor, Matching(f, rows)[j])
  {
    var m := Matching(f, rows);
    MatchingSorted(f, rows);
    assert m[j] in m;
    hide Matching;
  }

  /** The last `k` places before `n`, from the back. */
  function Backwards(places: seq<nat>, n: nat, k: nat): (at: seq<nat>)
    requires k <= n <= |places|
    ensures |at| == k && forall i :: 0 <= i < k ==> at[i] == places[n - 1 - i]
  {
    if k == 0 then [] else Backwards(places, n, k - 1) + [places[n - k]]
  }

  lemma Given(rows: seq<Intent>, f: Filter, cursor: Option<int>, n: nat, places: seq<nat>, i: nat, x: Intent)
    requires InOrder(f, rows) && CursorAt(cursor, Matching(f, rows), n) && Placed(rows, Matching(f, rows), places)
    requires i < n <= |Matching(f, rows)| && x == Matching(f, rows)[n - 1 - i]
    ensures |places| == |Matching(f, rows)| && places[n - 1 - i] < |rows| && x == rows[places[n - 1 - i]] &&
      Matches(f, x) && Older(cursor, x)
  {
    hide *;
    PlacedAt(rows, Matching(f, rows), places, n - 1 - i);
    BeforeCursor(rows, f, cursor, n, n - 1 - i);
  }

  lemma IsIn(at: seq<nat>, i: nat)
    requires i < |at|
    ensures at[i] in at
  {
  }

  lemma Descending(rows: seq<Intent>, m: seq<Intent>, places: seq<nat>, n: nat, k: nat)
    requires Sorted(m) && Placed(rows, m, places) && k <= n <= |m|
    ensures var at := Backwards(places, n, k);
      forall i, j :: 0 <= i < j < k ==>
        at[i] != at[j] && at[i] < |rows| && at[j] < |rows| && rows[at[i]].createdAt >= rows[at[j]].createdAt
  {
  }

  lemma MatchingHas(rows: seq<Intent>, f: Filter, r: nat) returns (j: nat)
    requires InOrder(f, rows) && r < |rows| && Matches(f, rows[r])
    ensures j < |Matching(f, rows)| && Matching(f, rows)[j] == rows[r]
  {
    MatchingSorted(f, rows);
    assert rows[r] in Matching(f, rows);
    j :| 0 <= j < |Matching(f, rows)| && Matching(f, rows)[j] == rows[r];
  }

  lemma IsBefore(rows: seq<Intent>, f: Filter, cursor: Option<int>, n: nat, places: seq<nat>, j: nat, r: nat)
    requires InOrder(f, rows) && CursorAt(cursor, Matching(f, rows), n) && Placed(rows, Matching(f, rows), places)
    requires r < |rows| && j < |Matching(f, rows)| == |places| && Matching(f, rows)[j] == rows[r] &&
      Older(cursor, rows[r])
    ensures places[j] == r && j < n
  {
    MatchingSorted(f, rows);
    hide Matching, Matches;
  }

  lemma BackwardsHas(places: seq<nat>, n: nat, k: nat, i: nat)
    requires i < k <= n <= |places|
    ensures places[n - 1 - i] in Backwards(places, n, k)
  {
    hide Backwards;
    IsIn(Backwards(places, n, k), i);
  }

  lemma PlaceOf(rows: seq<Intent>, f: Filter, cursor: Option<int>, n: nat, places: seq<nat>, k: nat, r: nat)
      returns (j: nat)
    requires InOrder(f, rows) && CursorAt(cursor, Matching(f, rows), n) && Placed(rows, Matching(f, rows), places)
    requires k <= n <= |Matching(f, rows)| == |places|
    requires r < |rows| && Matches(f, rows[r]) && Older(cursor, rows[r]) && r !in Backwards(places, n, k)
    ensures j < n - k && places[j] == r
  {
    hide *;
    var at := Backwards(places, n, k);
    j := MatchingHas(rows, f, r);
    IsBefore(rows, f, cursor, n, places, j, r);
    if j >= n - k {
      BackwardsHas(places, n, k, n - 1 - j);
    }
  }

  lemma PlacesBehind(rows: seq<Intent>, m: seq<Intent>, places: seq<nat>, n: nat, k: nat, j: nat)
    requires Sorted(m) && Placed(rows, m, places) && k <= n <= |m| && j < n - k
    ensures forall q :: n - k <= q < n ==> places[q] < |rows| && rows[places[q]].createdAt > rows[places[j]].createdAt
  {
  }

  lemma NotGiven(rows: seq<Intent>, f: Filter, cursor: Option<int>, limit: nat, n: nat, places: seq<nat>, k: nat,
        r: nat)
    requires InOrder(f, rows) && CursorAt(cursor, Matching(f, rows), n) && Placed(rows, Matching(f, rows), places)
    requires n <= |Matching(f, rows)| == |places| && k == if limit < n then limit else n
    requires r < |rows| && Matches(f, rows[r]) && Older(cursor, rows[r]) && r !in Backwards(places, n, k)
    ensures k == limit
    ensures forall i :: 0 <= i < k ==>
      var p := Backwards(places, n, k)[i]; p < |rows| && rows[p].createdAt >= rows[r].createdAt
  {
    MatchingSorted(f, rows);
    hide Matching, Sorted, Placed, CursorAt, Matches, Older, Backwards;
    var j := PlaceOf(rows, f, cursor, n, places, k, r);
    PlacesBehind(rows, Matching(f, rows), places, n, k, j);
  }

  lemma NewestGiven(rows: seq<Intent>, f: Filter, cursor: Option<int>, limit: nat, n: nat, places: seq<nat>)
    requires InOrder(f, rows) && CursorAt(cursor, Matching(f, rows), n) && Placed(rows, Matching(f, rows), places)
    requires n <= |Matching(f, rows)| == |places|
    ensures var answer := Newest(Matching(f, rows)[..n], limit); Gives(rows, f, cursor, Backwards(places, n, |answer|),
      answer)
  {
    hide Matching, Sorted, Placed, CursorAt, Matches, Older, Backwards, Newest;
    var answer := Newest(Matching(f, rows)[..n], limit);
    forall i | 0 <= i < |answer|
      ensures var at := Backwards(places, n, |answer|);
        at[i] < |rows| && answer[i] == rows[at[i]] && Matches(f, answer[i]) && Older(cursor, answer[i])
    {
      NewestAt(Matching(f, rows)[..n], limit, i);
      Given(rows, f, cursor, n, places, i, answer[i]);
    }
  }

  lemma NewestOrdered(rows: seq<Intent>, f: Filter, cursor: Option<int>, at: seq<nat>, answer: seq<Intent>)
    requires Gives(rows, f, cursor, at, answer)
    requires forall i, j :: 0 <= i < j < |at| ==> at[i] != at[j] && rows[at[i]].createdAt >= rows[at[j]].createdAt
    ensures Ordered(at, answer)
  {
  }

  lemma NewestComplete(rows: seq<Intent>, f: Filter, cursor: Option<int>, limit: nat, n: nat, places: seq<nat>,
        answer: seq<Intent>)
    requires InOrder(f, rows) && CursorAt(cursor, Matching(f, rows), n) && Placed(rows, Matching(f, rows), places)
    requires n <= |Matching(f, rows)| == |places| && |answer| == if limit < n then limit else n
    requires Gives(rows, f, cursor, Backwards(places, n, |answer|), answer)
    ensures Complete(rows, f, cursor, limit, Backwards(places, n, |answer|), answer)
  {
    var at := Backwards(places, n, |answer|);
    hide Matching, Matches, Older, CursorAt, Sorted, Placed, Backwards;
    forall r | 0 <= r < |rows| && Matches(f, rows[r]) && Older(cursor, rows[r]) && r !in at
      ensures |at| == limit && forall i :: 0 <= i < |at| ==> answer[i].createdAt >= rows[r].createdAt
    {
      NotGiven(rows, f, cursor, limit, n, places, |answer|, r);
    }
  }

  /** The query is never stuck: the last rows before the cursor are an answer. */
  lemma NewestIsAnswer(rows: seq<Intent>, f: Filter, cursor: Option<int>, limit: nat, n: nat)
    requires InOrder(f, rows) && CursorAt(cursor, Matching(f, rows), n)
    ensures n <= |Matching(f, rows)| && IsAnswer(rows, f, cursor, limit, Newest(Matching(f, rows)[..n], limit))
  {
    var places := IntentPaging.Places(f, rows);
    assert n <= |Matching(f, rows)| && Placed(rows, Matching(f, rows), places);
    var answer := Newest(Matching(f, rows)[..n], limit);
    hide Matching, Newest, CursorAt, Sorted, Placed, Backwards, Complete, Ordered, Matches, Older;
    var at := Backwards(places, n, |answer|);
    NewestGiven(rows, f, cursor, limit, n, places);
    assert Ordered(at, answer) by {
      Descending(rows, Matching(f, rows), places, n, |answer|);
      NewestOrdered(rows, f, cursor, at, answer);
    }
    NewestComplete(rows, f, cursor, limit, n, places, answer);
    assert Chosen(rows, f, cursor, limit, at, answer);
  }

  // ---------- equal times ----------

  const NO_FILTER := Filter(UNSPECIFIED, "")

  lemma FirstOfTie(c: Clock, x: Intent, y: Intent, page: Page)
    requires x.createdAt == y.createdAt != ZERO_TIME && IsPage(c, [x, y], NO_FILTER, 1, "", page)
    ensures |page.results| == 1 && page.next == c.format(x.createdAt)
  {
    var at: seq<nat> :| Chosen([x, y], NO_FILTER, None, 1, at, page.results);
    assert [x, y][0] == x && Matches(NO_FILTER, x) && Older(None, x);
  }

  lemma ChosenIsOlder(rows: seq<Intent>, f: Filter, cursor: Option<int>, limit: nat, at: seq<nat>, answer: seq<Intent>)
    requires Chosen(rows, f, cursor, limit, at, answer)
    ensures forall i :: 0 <= i < |answer| ==> answer[i] in rows && Older(cursor, answer[i])
  {
  }

  lemma NothingElseOfTie(c: Clock, x: Intent, y: Intent, token: string, page: Page)
    requires x.createdAt == y.createdAt && c.parse(token) == Some(x.createdAt) && token != ""
    requires IsPage(c, [x, y], NO_FILTER, 1, token, page)
    ensures page == Page([], "")
  {
    var cursor := Some(x.createdAt);
    var at: seq<nat> :| Chosen([x, y], NO_FILTER, cursor, 1, at, page.results);
    assert !Older(cursor, x) && !Older(cursor, y);
    ChosenIsOlder([x, y], NO_FILTER, cursor, 1, at, page.results);
  }

  /** Without distinct times rows get lost: of two rows of one instant, a walk with pages of one lists only one. */
  lemma {:induction false} TieIsSkipped(c: Clock, x: Intent, y: Intent, first: Page, second: Page)
    requires x.createdAt == y.createdAt != ZERO_TIME && ClockLaws(c, NO_FILTER, [x, y])
    requires var v := IntentPaging.Visit([x, y], 1); Walk(Answers(c, NO_FILTER), [v, v], "", [first, second])
    ensures Ended([first, second]) && |Collected([first, second])| == 1 && |Matching(NO_FILTER, [x, y])| == 2
  {
    FirstOfTie(c, x, y, first);
    assert Walk(Answers(c, NO_FILTER), [IntentPaging.Visit([x, y], 1)], first.next, [second]);
    assert c.parse(c.format([x, y][0].createdAt)) == Some(x.createdAt);
    NothingElseOfTie(c, x, y, first.next, second);
    hide IsPage;
    assert [first, second][1..] == [second] && [second][1..] == [];
    assert Collected([second]) == [];
    assert [x, y][..1] == [x];
  }
}
