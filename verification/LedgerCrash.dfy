/**
 Appends that break off.  An append behind an unterminated record glues two records on
 one line, and the file is lost for good; this says exactly which sequences of complete
 and broken appends leave a file that is accepted.
 */
module LedgerCrash {
  import opened LedgerFormat
  import opened LedgerChain
  import opened LedgerFile
  import opened LedgerEngine

  // ---------- glued records ----------

  /** A beginning of one record, possibly all of it. */
  ghost predicate Piece(s: string) {
    exists b: Block, n: nat :: WellFormed(b) && 0 < n <= |Marshal(b)| && s == Marshal(b)[..n]
  }

  ghost predicate Pieces(ps: seq<string>) {
    forall i :: 0 <= i < |ps| ==> Piece(ps[i])
  }

  function Glue(ps: seq<string>): string {
    if ps == [] then "" else Glue(ps[..|ps| - 1]) + ps[|ps| - 1]
  }

  /** The reader refuses a line on which a second record begins. */
  ghost predicate GlueLaw(parse: Reader) {
    forall ps :: Pieces(ps) && |ps| >= 2 ==> parse(Glue(ps)).None?
  }

  ghost predicate OneLine(s: string) {
    forall i :: 0 <= i < |s| ==> s[i] != '\n' && s[i] != '\r'
  }

  lemma MarshalIsOneLine(b: Block)
    requires WellFormed(b)
    ensures OneLine(Marshal(b)) && Marshal(b) != ""
  {
    WellFormedIsPlain(b);
    hide WellFormed, Plain, Marshal;
    var front := MarshalIsInline(b);
  }

  lemma PieceIsOneLine(s: string)
    requires Piece(s)
    ensures OneLine(s) && s != ""
  {
    var b: Block, n: nat :| WellFormed(b) && 0 < n <= |Marshal(b)| && s == Marshal(b)[..n];
    MarshalIsOneLine(b);
    hide WellFormed, Marshal;
  }

  lemma {:induction false} GlueIsOneLine(ps: seq<string>)
    requires Pieces(ps)
    ensures OneLine(Glue(ps)) && (ps != [] ==> Glue(ps) != "")
  {
    hide Piece;
    if ps != [] {
      var n := |ps| - 1;
      assert Piece(ps[n]);
      GlueIsOneLine(ps[..n]);
      PieceIsOneLine(ps[n]);
    }
  }

  lemma PiecesJoin(ps: seq<string>, p: string)
    requires Pieces(ps) && Piece(p)
    ensures Pieces(ps + [p]) && Glue(ps + [p]) == Glue(ps) + p
  {
    hide Piece;
    assert (ps + [p])[..|ps|] == ps;
  }

  // ---------- a file with an open line ----------

  /** The last record that parses links well. */
  ghost predicate Rooted(parse: Reader, rs: seq<string>) {
    LastParsed(parse, rs).Some? ==> IsHash(LastParsed(parse, rs).value.hash)
  }

  /** Closed lines, and behind them an open one made of these pieces. */
  ghost predicate Log(parse: Reader, c: string, d: string, ps: seq<string>) {
    Terminated(d) && Pieces(ps) && c == d + Glue(ps) && Rooted(parse, Records(d))
  }

  lemma OpenRecords(d: string, line: string)
    requires Terminated(d) && OneLine(line) && line != ""
    ensures Records(d + line) == Records(d) + [line] && Records((d + line) + "\n") == Records(d) + [line]
  {
    hide Records, Terminated;
    OneRecord(line);
    RecordsAppend(d, line);
    RecordsAppend(d, line + "\n");
    assert (d + line) + "\n" == d + (line + "\n");
  }

  lemma LogRecords(parse: Reader, c: string, d: string, ps: seq<string>)
    requires Log(parse, c, d, ps)
    ensures Records(c) == Records(d) + if ps == [] then [] else [Glue(ps)]
    ensures ps != [] ==> Records(c + "\n") == Records(d) + [Glue(ps)]
  {
    GlueIsOneLine(ps);
    EmptyGlue();
    hide Rooted, Pieces, Glue, Records, Terminated, OneLine;
    if ps == [] {
      assert c == d && Records(d) + [] == Records(d);
    } else {
      OpenRecords(d, Glue(ps));
    }
  }

  lemma EmptyGlue()
    ensures Glue([]) == "" && Records("") == []
  {
  }

  lemma GlueOfOne(p: string)
    ensures Glue([p]) == p
  {
    assert [p][..0] == [] && Glue([]) == "";
  }

  lemma PieceParses(parse: Reader, p: string)
    requires JsonLaws(parse) && Piece(p) && parse(p).Some?
    ensures WellFormed(parse(p).value)
  {
    var b: Block, n: nat :| WellFormed(b) && 0 < n <= |Marshal(b)| && p == Marshal(b)[..n];
    WellFormedIsPlain(b);
    hide WellFormed, Plain, Marshal;
    assert n == |Marshal(b)| ==> p == Marshal(b);
  }

  /** Only a whole single record parses. */
  lemma OpenLineParses(parse: Reader, ps: seq<string>)
    requires JsonLaws(parse) && GlueLaw(parse) && Pieces(ps) && ps != [] && parse(Glue(ps)).Some?
    ensures |ps| == 1 && WellFormed(parse(Glue(ps)).value)
  {
    hide Piece, WellFormed, JsonLaws, Glue;
    assert Piece(ps[0]);
    if |ps| == 1 {
      GlueOfOne(ps[0]);
      assert ps == [ps[0]];
      PieceParses(parse, ps[0]);
    }
  }

  lemma WellFormedHash(b: Block)
    requires WellFormed(b)
    ensures IsHash(b.hash)
  {
  }

  lemma RootedStep(parse: Reader, rs: seq<string>, r: string)
    requires Rooted(parse, rs) && (parse(r).Some? ==> IsHash(parse(r).value.hash))
    ensures Rooted(parse, rs + [r])
  {
    LastParsedStep(parse, rs, r);
  }

  lemma LogRooted(parse: Reader, c: string, d: string, ps: seq<string>)
    requires JsonLaws(parse) && GlueLaw(parse) && Log(parse, c, d, ps)
    ensures Rooted(parse, Records(c)) && (ps != [] ==> Rooted(parse, Records(c + "\n")))
  {
    LogRecords(parse, c, d, ps);
    hide JsonLaws, GlueLaw, Pieces, Glue, Rooted, Records;
    if ps != [] {
      if parse(Glue(ps)).Some? {
        OpenLineParses(parse, ps);
        WellFormedHash(parse(Glue(ps)).value);
      }
      hide IsHash;
      RootedStep(parse, Records(d), Glue(ps));
    } else {
      assert Records(d) + [] == Records(d);
    }
  }

  /** The next block is well-formed, whatever state the file is in. */
  lemma NextIsPiece(h: string -> string, parse: Reader, c: string, e: Event)
    requires HexHash(h) && EventOk(e) && Rooted(parse, Records(c))
    ensures WellFormed(BlockFor(h, parse, c, e))
  {
    GenesisIsHash();
    hide Records, LastParsed, IsHash, EventOk, HexHash, Preimage, Says, WellFormed, NextBlock;
    var last, b := LastParsed(parse, Records(c)), BlockFor(h, parse, c, e);
    NextBlockIs(h, last, e);
    IsGenesis(b.prevHash);
    NextIsWellFormed(h, b, e);
  }

  // ---------- sequences of appends ----------

  /** One append and how many of its characters reach the file. */
  datatype Attempt = Attempt(event: Event, written: nat)

  function Text(h: string -> string, parse: Reader, c: string, e: Event): (line: string)
    ensures line != ""
  {
    Line(BlockFor(h, parse, c, e))
  }

  function Written(h: string -> string, parse: Reader, c: string, a: Attempt): string {
    var line := Text(h, parse, c, a.event);
    c + line[..if a.written < |line| then a.written else |line|]
  }

  function After(h: string -> string, parse: Reader, c: string, tries: seq<Attempt>): string
    decreases |tries|
  {
    if tries == [] then c else After(h, parse, Written(h, parse, c, tries[0]), tries[1..])
  }

  ghost predicate EventsOk(tries: seq<Attempt>) {
    forall i :: 0 <= i < |tries| ==> EventOk(tries[i].event)
  }

  predicate Idle(tries: seq<Attempt>) {
    forall i :: 0 <= i < |tries| ==> tries[i].written == 0
  }

  /**
   Every append writes its whole record with its newline, or nothing; only the last that
   writes anything may lack the newline.
   */
  predicate Clean(h: string -> string, parse: Reader, c: string, tries: seq<Attempt>)
    decreases |tries|
  {
    tries == [] ||
    (var line, w := Text(h, parse, c, tries[0].event), tries[0].written;
     if w == 0 || w >= |line| then Clean(h, parse, Written(h, parse, c, tries[0]), tries[1..])
     else w + 1 == |line| && Idle(tries[1..]))
  }

  // ---------- a glued line is never accepted again ----------

  ghost predicate Bad(parse: Reader, rs: seq<string>) {
    exists i :: 0 <= i < |rs| && parse(rs[i]).None?
  }

  /** Two records are on one line, which is closed or still open. */
  ghost predicate Spoiled(parse: Reader, c: string) {
    || (exists x, y :: c == x + y && Terminated(x) && Bad(parse, Records(x)))
    || (exists d, ps :: Log(parse, c, d, ps) && |ps| >= 2)
  }

  lemma BadIsRefused(h: string -> string, parse: Reader, rs: seq<string>)
    requires Bad(parse, rs)
    ensures !Accepted(h, parse, rs)
  {
  }

  lemma SpoiledIsRefused(h: string -> string, parse: Reader, c: string)
    requires GlueLaw(parse) && Spoiled(parse, c)
    ensures !Accepted(h, parse, Records(c))
  {
    if x, y :| c == x + y && Terminated(x) && Bad(parse, Records(x)) {
      hide Records, Accepted;
      RecordsAppend(x, y);
      var i :| 0 <= i < |Records(x)| && parse(Records(x)[i]).None?;
      assert Records(c)[i] == Records(x)[i];
    } else {
      var d, ps :| Log(parse, c, d, ps) && |ps| >= 2;
      LogRecords(parse, c, d, ps);
      hide Records, Accepted;
      assert Records(c)[|Records(d)|] == Glue(ps);
    }
    BadIsRefused(h, parse, Records(c));
  }

  lemma WrittenNothing(h: string -> string, parse: Reader, c: string, a: Attempt)
    requires a.written == 0
    ensures Written(h, parse, c, a) == c
  {
  }

  lemma TextIs(h: string -> string, parse: Reader, c: string, e: Event)
    ensures Text(h, parse, c, e) == Marshal(BlockFor(h, parse, c, e)) + "\n"
  {
    hide Marshal, BlockFor;
  }

  /** A beginning of a line. */
  lemma Cut(whole: string, n: nat)
    requires 0 < n && whole != ""
    ensures var line, k := whole + "\n", if n < |whole| then n else |whole|;
      && 0 < k <= |whole|
      && line[..if n < |line| then n else |line|] == if n <= |whole| then whole[..k] else whole[..k] + "\n"
  {
  }

  lemma CutIsPiece(b: Block, k: nat)
    requires WellFormed(b) && 0 < k <= |Marshal(b)|
    ensures Piece(Marshal(b)[..k])
  {
    hide WellFormed, Marshal;
  }

  /** What is written is a piece, with a newline behind it if all is written. */
  lemma WrittenPiece(h: string -> string, parse: Reader, c: string, a: Attempt) returns (p: string)
    requires WellFormed(BlockFor(h, parse, c, a.event)) && a.written > 0
    ensures Piece(p) && (Written(h, parse, c, a) == c + p || Written(h, parse, c, a) == (c + p) + "\n")
  {
    var b := BlockFor(h, parse, c, a.event);
    MarshalIsOneLine(b);
    TextIs(h, parse, c, a.event);
    WrittenIs(h, parse, c, a);
    hide *;
    var whole := Marshal(b);
    var k := if a.written < |whole| then a.written else |whole|;
    Cut(whole, a.written);
    CutIsPiece(b, k);
    p := whole[..k];
    if a.written > |whole| {
      assert c + (p + "\n") == (c + p) + "\n";
    }
  }

  lemma WrittenIs(h: string -> string, parse: Reader, c: string, a: Attempt)
    ensures var line := Text(h, parse, c, a.event);
      Written(h, parse, c, a) == c + line[..if a.written < |line| then a.written else |line|]
  {
  }

  lemma LogMore(parse: Reader, c: string, d: string, ps: seq<string>, p: string)
    requires Log(parse, c, d, ps) && Piece(p)
    ensures Log(parse, c + p, d, ps + [p])
  {
    hide Terminated, Rooted, Pieces, Glue, Piece;
    PiecesJoin(ps, p);
    assert (d + Glue(ps)) + p == d + (Glue(ps) + p);
  }

  /** Writing behind an open line that already has a piece. */
  lemma GluesOn(h: string -> string, parse: Reader, c: string, d: string, ps: seq<string>, a: Attempt)
    requires HexHash(h) && JsonLaws(parse) && GlueLaw(parse) && EventOk(a.event)
    requires Log(parse, c, d, ps) && ps != [] && a.written > 0
    ensures Spoiled(parse, Written(h, parse, c, a))
  {
    hide *;
    LogRooted(parse, c, d, ps);
    NextIsPiece(h, parse, c, a.event);
    var p := WrittenPiece(h, parse, c, a);
    LogMore(parse, c, d, ps, p);
    GluedIsSpoiled(parse, c + p, d, ps + [p]);
  }

  lemma BadLast(parse: Reader, rs: seq<string>, r: string)
    requires parse(r).None?
    ensures Bad(parse, rs + [r])
  {
    assert (rs + [r])[|rs|] == r;
  }

  lemma ClosedIsSpoiled(parse: Reader, x: string)
    requires Terminated(x) && Bad(parse, Records(x))
    ensures Spoiled(parse, x)
  {
    hide Records, Bad, Terminated, Log;
    assert x == x + "";
  }

  lemma GluedIsSpoiled(parse: Reader, c: string, d: string, ps: seq<string>)
    requires GlueLaw(parse) && Log(parse, c, d, ps) && |ps| >= 2
    ensures Spoiled(parse, c) && Spoiled(parse, c + "\n")
  {
    LogRecords(parse, c, d, ps);
    assert parse(Glue(ps)).None? && Terminated(c + "\n");
    hide Records, GlueLaw, Terminated, Glue, Pieces, Rooted, Bad, Log;
    BadLast(parse, Records(d), Glue(ps));
    ClosedIsSpoiled(parse, c + "\n");
  }

  lemma SpoiledStep(h: string -> string, parse: Reader, c: string, a: Attempt)
    requires HexHash(h) && JsonLaws(parse) && GlueLaw(parse) && EventOk(a.event) && Spoiled(parse, c)
    ensures Spoiled(parse, Written(h, parse, c, a))
  {
    hide HexHash, JsonLaws, GlueLaw, EventOk, Records, Log, Terminated, Bad, Text;
    if x, y :| c == x + y && Terminated(x) && Bad(parse, Records(x)) {
      var t := Written(h, parse, c, a)[|c|..];
      assert Written(h, parse, c, a) == c + t == x + (y + t);
    } else {
      var d, ps :| Log(parse, c, d, ps) && |ps| >= 2;
      hide Spoiled;
      if a.written == 0 {
        WrittenNothing(h, parse, c, a);
      } else {
        GluesOn(h, parse, c, d, ps, a);
      }
    }
  }

  lemma {:induction false} SpoiledForGood(h: string -> string, parse: Reader, c: string, tries: seq<Attempt>)
    requires HexHash(h) && JsonLaws(parse) && GlueLaw(parse) && EventsOk(tries) && Spoiled(parse, c)
    ensures !Accepted(h, parse, Records(After(h, parse, c, tries)))
    decreases |tries|
  {
    hide HexHash, JsonLaws, GlueLaw, EventOk, Spoiled, Accepted, Records, Written;
    if tries == [] {
      SpoiledIsRefused(h, parse, c);
    } else {
      assert EventOk(tries[0].event);
      SpoiledStep(h, parse, c, tries[0]);
      SpoiledForGood(h, parse, Written(h, parse, c, tries[0]), tries[1..]);
    }
  }

  lemma {:induction false} IdleLeaves(h: string -> string, parse: Reader, c: string, tries: seq<Attempt>)
    requires Idle(tries)
    ensures After(h, parse, c, tries) == c
    decreases |tries|
  {
    if tries != [] {
      assert Written(h, parse, c, tries[0]) == c;
      IdleLeaves(h, parse, c, tries[1..]);
    }
  }

  /** Whatever is written behind an unterminated record spoils the file. */
  lemma {:induction false} OpenThenWritten(h: string -> string, parse: Reader, c: string, d: string, ps: seq<string>,
        tries: seq<Attempt>)
    requires HexHash(h) && JsonLaws(parse) && GlueLaw(parse) && EventsOk(tries)
    requires Log(parse, c, d, ps) && ps != [] && !Idle(tries)
    ensures !Accepted(h, parse, Records(After(h, parse, c, tries)))
    decreases |tries|
  {
    hide HexHash, JsonLaws, GlueLaw, EventOk, Accepted, Records, Log, Spoiled;
    assert EventOk(tries[0].event);
    if tries[0].written == 0 {
      assert Written(h, parse, c, tries[0]) == c;
      OpenThenWritten(h, parse, c, d, ps, tries[1..]);
    } else {
      hide Written;
      GluesOn(h, parse, c, d, ps, tries[0]);
      SpoiledForGood(h, parse, Written(h, parse, c, tries[0]), tries[1..]);
    }
  }

  /** Less than a whole line is a beginning of the record. */
  lemma BrokenText(h: string -> string, parse: Reader, c: string, a: Attempt)
    requires 0 < a.written < |Text(h, parse, c, a.event)|
    ensures var whole := Marshal(BlockFor(h, parse, c, a.event));
      && a.written <= |whole| && |Text(h, parse, c, a.event)| == |whole| + 1
      && Written(h, parse, c, a) == c + whole[..a.written]
      && whole[..a.written] <= Line(BlockFor(h, parse, c, a.event)) &&
           (whole[..a.written] == whole <==> a.written == |whole|)
      && whole[..a.written] != Line(BlockFor(h, parse, c, a.event)) && whole[..a.written] != ""
  {
    hide Marshal, BlockFor;
  }

  /** An append that breaks off behind a good file leaves one open piece. */
  lemma BreaksOff(h: string -> string, parse: Reader, c: string, a: Attempt)
    requires HexHash(h) && JsonLaws(parse) && Ready(h, parse, c) && EventOk(a.event)
    requires 0 < a.written < |Text(h, parse, c, a.event)|
    ensures a.written <= |Marshal(BlockFor(h, parse, c, a.event))|
    ensures Log(parse, Written(h, parse, c, a), c, [Marshal(BlockFor(h, parse, c, a.event))[..a.written]])
    ensures Accepted(h, parse, Records(Written(h, parse, c, a))) <==> a.written + 1 == |Text(h, parse, c, a.event)|
  {
    ReadyIsRooted(h, parse, c);
    BrokenText(h, parse, c, a);
    hide HexHash, JsonLaws, EventOk, Records, Accepted, Marshal, BlockFor, WellFormed, Continues, Says, Text, Written,
      Rooted, Line, Log;
    BlockContinues(h, parse, c, a.event);
    var b := BlockFor(h, parse, c, a.event);
    CutIsPiece(b, a.written);
    OpensWith(h, parse, c, Marshal(b)[..a.written]);
    TornWrite(h, parse, c, a.event, Marshal(b)[..a.written]);
  }

  lemma OpensWith(h: string -> string, parse: Reader, c: string, p: string)
    requires Ready(h, parse, c) && Rooted(parse, Records(c)) && Piece(p)
    ensures Log(parse, c + p, c, [p])
  {
    hide Records, Accepted, Rooted, Piece;
    GlueOfOne(p);
  }

  lemma ReadyIsRooted(h: string -> string, parse: Reader, c: string)
    requires HexHash(h) && Ready(h, parse, c)
    ensures Rooted(parse, Records(c))
  {
    var rs := Records(c);
    LastIsEnd(h, parse, rs);
    LinkIsHash(h, Blocks(parse, rs));
    hide Records, Chained, IsHash;
  }

  lemma AppendsAll(h: string -> string, parse: Reader, c: string, a: Attempt)
    requires HexHash(h) && JsonLaws(parse) && Ready(h, parse, c) && EventOk(a.event)
    requires a.written >= |Text(h, parse, c, a.event)|
    ensures Ready(h, parse, Written(h, parse, c, a))
  {
    hide HexHash, JsonLaws, Ready, EventOk, BlockFor, Line, Records;
    AppendOne(h, parse, c, a.event);
    var line := Line(BlockFor(h, parse, c, a.event));
    assert line[..|line|] == line;
  }

  /** What follows an append that broke off. */
  lemma AfterBreak(h: string -> string, parse: Reader, c: string, a: Attempt, rest: seq<Attempt>)
    requires HexHash(h) && JsonLaws(parse) && GlueLaw(parse) && EventsOk(rest) && EventOk(a.event) && Ready(h, parse, c)
    requires 0 < a.written < |Text(h, parse, c, a.event)|
    ensures Accepted(h, parse, Records(After(h, parse, Written(h, parse, c, a), rest))) <==>
      a.written + 1 == |Text(h, parse, c, a.event)| && Idle(rest)
  {
    hide *;
    BreaksOff(h, parse, c, a);
    if Idle(rest) {
      IdleLeaves(h, parse, Written(h, parse, c, a), rest);
    } else {
      OpenThenWritten(h, parse, Written(h, parse, c, a), c, [Marshal(BlockFor(h, parse, c, a.event))[..a.written]],
        rest);
    }
  }

  /**
   A file in order is accepted after any sequence of complete and broken appends exactly
   when the sequence is clean: nothing is written behind a record that lacks its newline.
   */
  lemma {:induction false} AcceptedAgainExactlyWhen(h: string -> string, parse: Reader, c: string, tries: seq<Attempt>)
    requires HexHash(h) && JsonLaws(parse) && GlueLaw(parse) && EventsOk(tries) && Ready(h, parse, c)
    ensures Accepted(h, parse, Records(After(h, parse, c, tries))) <==> Clean(h, parse, c, tries)
    decreases |tries|
  {
    hide HexHash, JsonLaws, GlueLaw, EventOk, Accepted, Records, Text, Written, Idle, Terminated;
    if tries != [] {
      var a, rest := tries[0], tries[1..];
      assert EventOk(a.event);
      if a.written == 0 {
        WrittenNothing(h, parse, c, a);
        AcceptedAgainExactlyWhen(h, parse, c, rest);
      } else if a.written >= |Text(h, parse, c, a.event)| {
        AppendsAll(h, parse, c, a);
        AcceptedAgainExactlyWhen(h, parse, Written(h, parse, c, a), rest);
      } else {
        AfterBreak(h, parse, c, a, rest);
      }
    }
  }
}
