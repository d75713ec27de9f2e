/** The in-memory intent store and its offset tokens. */
module IntentPaging {
  import opened Prelude
  import opened Decimals
  import opened Intents

  // ---------- tokens ----------

  const MAX_INT: int := 0x7fff_ffff_ffff_ffff

  function PrintInt(i: int): string {
    if i < 0 then "-" + Decimal(-i) else Decimal(i)
  }

  /** The number at the beginning of a text, if there is one and it fits 64 bits. */
  function ScanInt(s: string): Option<int> {
    var signed := s != "" && (s[0] == '-' || s[0] == '+');
    var t := if signed then s[1..] else s;
    var n := DigitsIn(t);
    if n == 0 then None
    else
      var v: int := Value(t[..n]);
      var i := if signed && s[0] == '-' then -v else v;
      if -MAX_INT - 1 <= i <= MAX_INT then Some(i) else None
  }

  /** A token that holds no number means the beginning. */
  function Offset(token: string): int {
    if ScanInt(token).Some? then ScanInt(token).value else 0
  }

  lemma OffsetOfPrinted(i: int)
    requires -MAX_INT <= i <= MAX_INT
    ensures Offset(PrintInt(i)) == i && PrintInt(i) != ""
  {
    var d := Decimal(if i < 0 then -i else i);
    ValueOfDecimal(if i < 0 then -i else i);
    DigitsInIs(d, "");
    assert d + "" == d && d[..|d|] == d;
    assert IsDigit(d[0]);
    if i < 0 {
      assert PrintInt(i)[1..] == d;
    }
  }

  /** The digits of a numeral are found, and have its value. */
  lemma NumeralIsRead(n: nat, rest: string)
    requires rest == "" || !('0' <= rest[0] <= '9')
    ensures var t := Decimal(n) + rest;
      t != "" && IsDigit(t[0]) && DigitsIn(t) > 0 && Value(t[..DigitsIn(t)]) == n
  {
    var d := Decimal(n);
    ValueOfDecimal(n);
    DigitsInIs(d, rest);
    assert (d + rest)[..|d|] == d;
    hide Decimal, Value, DigitsIn;
  }

  lemma SignIsRead(sign: string, t: string)
    requires sign == "" || sign == "+" || sign == "-"
    requires t != "" && IsDigit(t[0]) && DigitsIn(t) > 0
    ensures ScanInt(sign + t) ==
      var i: int := if sign == "-" then 0 - Value(t[..DigitsIn(t)]) else Value(t[..DigitsIn(t)]);
      if -9_223_372_036_854_775_808 <= i <= 9_223_372_036_854_775_807 then Some(i) else None
  {
    hide Value, DigitsIn;
    if sign == "" {
      assert sign + t == t;
    } else {
      assert (sign + t)[0] == sign[0] && (sign + t)[1..] == t;
    }
  }

  /** A number at the beginning of a token that fits 64 bits counts, whatever follows it. */
  lemma TokenIsRead(sign: string, n: nat, rest: string)
    requires sign == "" || sign == "+" || sign == "-"
    requires rest == "" || !('0' <= rest[0] <= '9')
    ensures Offset(sign + (Decimal(n) + rest)) ==
      if sign == "-" then (if n <= 9_223_372_036_854_775_808 then 0 - n else 0)
      else if n <= 9_223_372_036_854_775_807 then n else 0
  {
    hide Decimal, Value, DigitsIn, ScanInt;
    NumeralIsRead(n, rest);
    SignIsRead(sign, Decimal(n) + rest);
  }

  /** A token that begins with neither a digit nor a sign means the beginning. */
  lemma NoNumberIsRead(token: string)
    requires token == "" || !('0' <= token[0] <= '9' || token[0] == '-' || token[0] == '+')
    ensures Offset(token) == 0
  {
  }

  // ---------- one page ----------

  datatype Listing = Listing(page: Page, total: nat)

  function Slice(xs: seq<Intent>, start: int, size: nat): seq<Intent> {
    var from := if start < 0 then 0 else if start > |xs| then |xs| else start;
    if from + size < |xs| then xs[from..from + size] else xs[from..]
  }

  /** The answer of the store with these intents. */
  function Answer(all: seq<Intent>, f: Filter, asked: int, token: string): Listing {
    var matching, start := Matching(f, all), Offset(token);
    var results := Slice(matching, start, PageSize(asked));
    Listing(Page(results, if start + |results| < |matching| then PrintInt(start + |results|) else ""), |matching|)
  }

  // ---------- the store ----------

  class MemoryStore {
    var intents: map<string, Intent>
    var ordered: seq<string>

    ghost predicate Valid()
      reads this
    {
      && (forall i :: 0 <= i < |ordered| ==> ordered[i] in intents && intents[ordered[i]].id == ordered[i])
      && (forall i, j :: 0 <= i < j < |ordered| ==> ordered[i] != ordered[j])
      && (forall id :: id in intents ==> id in ordered)
    }

    /** The stored intents in insertion order. */
    ghost function All(): (xs: seq<Intent>)
      reads this
      requires Valid()
      ensures |xs| == |ordered|
    {
      seq(|ordered|, i requires 0 <= i < |ordered| reads this requires ordered[i] in intents => intents[ordered[i]])
    }

    constructor ()
      ensures Valid() && All() == []
    {
      intents, ordered := map[], [];
    }

    /** `id` is the fresh identifier and `now` the clock. */
    method Create(id: string, submitter: string, now: int) returns (intent: Intent)
      requires Valid() && id !in intents
      modifies this
      ensures Valid() && intent == Intent(id, PENDING, submitter, now) && All() == old(All()) + [intent]
    {
      intent := Intent(id, PENDING, submitter, now);
      intents := intents[id := intent];
      ordered := ordered + [id];
    }

    method Get(id: string) returns (found: Option<Intent>)
      requires Valid()
      ensures found.Some? ==> found.value in All() && found.value.id == id
      ensures found.None? ==> forall x :: x in All() ==> x.id != id
    {
      if id in intents {
        found := Some(intents[id]);
        ghost var i :| 0 <= i < |ordered| && ordered[i] == id;
        assert All()[i] == intents[id];
      } else {
        found := None;
      }
    }

    method List(f: Filter, asked: int, token: string) returns (results: seq<Intent>, next: string, totalMatching: nat)
      requires Valid()
      ensures Listing(Page(results, next), totalMatching) == Answer(All(), f, asked, token)
    {
      var pageSize := if asked <= 0 then 20 else asked;
      var startIdx := if token != "" then Offset(token) else 0;
      results, totalMatching := [], 0;
      ghost var all := All();
      assert forall i :: 0 <= i < |ordered| ==> ordered[i] in intents && intents[ordered[i]] == all[i];
      PageStart(f, all, startIdx, pageSize);
      hide Matching, Slice, Offset, PrintInt, Answer, Scanned, All, Valid;
      for i := 0 to |ordered|
        invariant Scanned(f, all, i, startIdx, pageSize, totalMatching, results)
      {
        var intent := intents[ordered[i]];
        PageNext(f, all, i, startIdx, pageSize, totalMatching, results);
        if f.status != UNSPECIFIED && intent.status != f.status {
          continue;
        }
        if f.submitter != "" && intent.submitter != f.submitter {
          continue;
        }
        totalMatching := totalMatching + 1;
        if totalMatching <= startIdx {
          continue;
        }
        if |results| < pageSize {
          results := results + [intent];
        }
      }
      next := "";
      if startIdx + |results| < totalMatching {
        next := PrintInt(startIdx + |results|);
      }
      AnswerIs(all, f, asked, token, startIdx, totalMatching, results);
    }
  }

  /** The count and the page after the first `i` intents. */
  ghost predicate Scanned(f: Filter, all: seq<Intent>, i: nat, start: int, size: nat, total: nat, page: seq<Intent>) {
    i <= |all| && total == |Matching(f, all[..i])| && page == Slice(Matching(f, all[..i]), start, size)
  }

  /** The whole list scanned is the answer. */
  lemma AnswerIs(all: seq<Intent>, f: Filter, asked: int, token: string, start: int, total: nat, results: seq<Intent>)
    requires Scanned(f, all, |all|, start, PageSize(asked), total, results) && start == Offset(token)
    ensures var next := start + |results|;
      Answer(all, f, asked, token) == Listing(Page(results, if next < total then PrintInt(next) else ""), total)
  {
    hide Slice, Matching, Offset, PrintInt;
    assert all[..|all|] == all;
  }

  lemma PageStart(f: Filter, all: seq<Intent>, start: int, size: nat)
    ensures Scanned(f, all, 0, start, size, 0, []) && Offset("") == 0
  {
  }

  /** What one more intent does to the count and to the page. */
  lemma PageNext(f: Filter, all: seq<Intent>, i: nat, start: int, size: nat, total: nat, page: seq<Intent>)
    requires i < |all| && Scanned(f, all, i, start, size, total, page)
    ensures
      if !Matches(f, all[i]) then Scanned(f, all, i + 1, start, size, total, page)
      else if total + 1 > start && |page| < size then Scanned(f, all, i + 1, start, size, total + 1, page + [all[i]])
      else Scanned(f, all, i + 1, start, size, total + 1, page)
  {
    hide Slice, Matching;
    MatchingNext(f, all, i);
    SliceNext(Matching(f, all[..i]), all[i], start, size);
  }

  lemma SliceNext(xs: seq<Intent>, x: Intent, start: int, size: nat)
    ensures var page := Slice(xs, start, size);
      Slice(xs + [x], start, size) == if |xs| + 1 > start && |page| < size then page + [x] else page
  {
    var ys, from := xs + [x], if start < 0 then 0 else start;
    if from > |xs| {
      assert Slice(xs, start, size) == [] && Slice(ys, start, size) == [];
    } else if from + size <= |xs| {
      assert ys[from..from + size] == xs[from..from + size];
      assert from + size == |xs| ==> xs[from..] == xs[from..from + size];
    } else {
      assert ys[from..] == xs[from..] + [x];
      assert from + size == |ys| ==> ys[from..] == ys[from..from + size];
    }
  }

  // ---------- walks ----------

  /** The intents of the store at one visit, and the page size asked for. */
  datatype Visit = Visit(all: seq<Intent>, asked: int)

  ghost function Answers(f: Filter): (Visit, string, Page) -> bool {
    (v: Visit, token: string, page: Page) => page == Answer(v.all, f, v.asked, token).page
  }

  /** Between visits the store only grows, and it never holds more than a slice can. */
  ghost predicate Growing(visits: seq<Visit>) {
    && (forall i, j :: 0 <= i <= j < |visits| ==> visits[i].all <= visits[j].all)
    && forall i :: 0 <= i < |visits| ==> |visits[i].all| <= MAX_INT
  }

  ghost predicate TokenFor(token: string, n: nat) {
    if n == 0 then token == "" else token == PrintInt(n)
  }

  ghost predicate Full(visits: seq<Visit>, pages: seq<Page>) {
    |pages| <= |visits| && forall i :: 0 <= i < |pages| && pages[i].next != "" ==>
      |pages[i].results| == if visits[i].asked <= 0 then 20 else visits[i].asked
  }

  /** From offset `n` the matching intents were collected; all of them when the walk has ended, and only then. */
  ghost predicate Reached(m: seq<Intent>, n: nat, xs: seq<Intent>, ended: bool) {
    n + |xs| <= |m| && xs == m[n..n + |xs|] && (ended <==> n + |xs| == |m|)
  }

  lemma SliceIs(xs: seq<Intent>, n: nat, size: nat)
    requires n <= |xs|
    ensures var s := Slice(xs, n, size); Reached(xs, n, s, n + |s| == |xs|) && (n + |s| < |xs| ==> |s| == size)
  {
  }

  lemma OnePage(f: Filter, v: Visit, token: string, n: nat)
    requires TokenFor(token, n) && n <= |Matching(f, v.all)| && |v.all| <= MAX_INT
    ensures var page := Answer(v.all, f, v.asked, token).page;
      && Reached(Matching(f, v.all), n, page.results, page.next == "")
      && (page.next != "" ==> TokenFor(page.next, n + |page.results|) && |page.results| == PageSize(v.asked))
  {
    hide PrintInt, Matching, Slice, Reached, PageSize;
    OffsetOfPrinted(n);
    assert Offset("") == 0;
    hide Offset;
    var s := Slice(Matching(f, v.all), n, PageSize(v.asked));
    SliceIs(Matching(f, v.all), n, PageSize(v.asked));
    assert n + |s| <= |Matching(f, v.all)| by {
      ReachedFits(Matching(f, v.all), n, s, n + |s| == |Matching(f, v.all)|);
    }
    OffsetOfPrinted(n + |s|);
  }

  lemma ReachedFits(m: seq<Intent>, n: nat, xs: seq<Intent>, ended: bool)
    requires Reached(m, n, xs, ended)
    ensures n + |xs| <= |m| && (ended <==> n + |xs| == |m|)
  {
  }

  lemma ReachedJoin(m: seq<Intent>, m': seq<Intent>, n: nat, xs: seq<Intent>, ys: seq<Intent>, e: bool, ended: bool)
    requires Reached(m, n, xs, e) && m <= m' && Reached(m', n + |xs|, ys, ended)
    ensures Reached(m', n, xs + ys, ended)
  {
  }

  lemma FullLast(visits: seq<Visit>, pages: seq<Page>)
    requires |pages| == 1 <= |visits|
    requires pages[0].next != "" ==> |pages[0].results| == PageSize(visits[0].asked)
    ensures Full(visits, pages)
  {
  }

  lemma FullStep(visits: seq<Visit>, pages: seq<Page>)
    requires pages != [] && visits != [] && Full(visits[1..], pages[1..])
    requires pages[0].next != "" ==> |pages[0].results| == PageSize(visits[0].asked)
    ensures Full(visits, pages)
  {
    assert forall i :: 1 <= i < |pages| ==> pages[i] == pages[1..][i - 1] && visits[i] == visits[1..][i - 1];
  }

  lemma GrowingTail(visits: seq<Visit>)
    requires Growing(visits) && visits != []
    ensures Growing(visits[1..])
  {
  }

  /** A walk from offset `n` collects the matching intents from there on. */
  lemma {:induction false} WalkFrom(f: Filter, visits: seq<Visit>, token: string, n: nat, pages: seq<Page>)
    requires Walk(Answers(f), visits, token, pages) && 0 < |pages| <= |visits| && Growing(visits)
    requires TokenFor(token, n) && n <= |Matching(f, visits[0].all)|
    ensures Full(visits, pages)
    ensures Reached(Matching(f, visits[|pages| - 1].all), n, Collected(pages), Ended(pages))
    decreases |pages|
  {
    hide Matching, TokenFor, Full, Reached, PageSize, Answer;
    OnePage(f, visits[0], token, n);
    var first, rest := pages[0].results, pages[1..];
    if rest == [] {
      assert Collected(pages) == first;
      FullLast(visits, pages);
    } else {
      var last := visits[|pages| - 1].all;
      assert visits[1..][|rest| - 1] == visits[|pages| - 1] && rest[|rest| - 1] == pages[|pages| - 1];
      WalkFits(Answers(f), visits[1..], pages[0].next, rest);
      ReachedFits(Matching(f, visits[0].all), n, first, pages[0].next == "");
      MatchingGrows(f, visits[0].all, visits[1].all);
      MatchingGrows(f, visits[0].all, last);
      GrowingTail(visits);
      WalkFrom(f, visits[1..], pages[0].next, n + |first|, rest);
      ReachedJoin(Matching(f, visits[0].all), Matching(f, last), n, first, Collected(rest), false, Ended(pages));
      FullStep(visits, pages);
    }
  }

  /**
   Offset paging is exact under growth: from the empty token, with any page sizes and
   any additions between pages, the pages joined are the matching intents in insertion
   order; all of them as of the last page when the walk has ended, and exactly then.
   Every page with a next token is full.
   */
  lemma {:induction false} OffsetPagingIsExact(f: Filter, visits: seq<Visit>, pages: seq<Page>)
    requires Walk(Answers(f), visits, "", pages) && 0 < |pages| <= |visits| && Growing(visits)
    ensures Full(visits, pages)
    ensures Collected(pages) <= Matching(f, visits[|pages| - 1].all)
    ensures Ended(pages) <==> Collected(pages) == Matching(f, visits[|pages| - 1].all)
  {
    hide Matching, Collected, Full, Answers;
    WalkFrom(f, visits, "", 0, pages);
  }

  /** Over a store with distinct identifiers no intent is listed twice. */
  lemma NoIntentTwice(f: Filter, visits: seq<Visit>, pages: seq<Page>)
    requires Walk(Answers(f), visits, "", pages) && 0 < |pages| <= |visits| && Growing(visits)
    requires var all := visits[|pages| - 1].all; forall i, j :: 0 <= i < j < |all| ==> all[i].id != all[j].id
    ensures forall i, j :: 0 <= i < j < |Collected(pages)| ==> Collected(pages)[i].id != Collected(pages)[j].id
  {
    var all := visits[|pages| - 1].all;
    OffsetPagingIsExact(f, visits, pages);
    var at := Places(f, all);
  }

  /** Where in the list each matching intent stands. */
  lemma {:induction false} Places(f: Filter, xs: seq<Intent>) returns (at: seq<nat>)
    ensures |at| == |Matching(f, xs)| && forall i :: 0 <= i < |at| ==>
      at[i] < |xs| && xs[at[i]] == Matching(f, xs)[i] && Matches(f, xs[at[i]])
    ensures forall i, j :: 0 <= i < j < |at| ==> at[i] < at[j]
  {
    at := [];
    if xs != [] {
      at := Places(f, xs[..|xs| - 1]);
      if Matches(f, xs[|xs| - 1]) {
        at := at + [|xs| - 1];
      }
    }
  }
}
