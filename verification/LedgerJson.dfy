/**
 A reader for the fixed shape of a ledger line: one JSON object with the seven
 members of a block in declaration order.  It has both laws the ledger asks for.
 */
module LedgerJson {
  import opened Prelude
  import opened Decimals
  import opened LedgerFormat
  import opened LedgerFile
  import C = LedgerCrash

  /** The longest beginning made of characters that need no escape. */
  function PlainIn(s: string): (n: nat)
    ensures n <= |s| && PlainText(s[..n]) && (n < |s| ==> !PlainChar(s[n]))
  {
    if s == "" || !PlainChar(s[0]) then 0
    else
      var n := PlainIn(s[1..]);
      assert s[..n + 1] == [s[0]] + s[1..][..n];
      n + 1
  }

  /** What remains behind a fixed text. */
  function Expect(s: string, text: string): Option<string> {
    if text <= s then Some(s[|text|..]) else None
  }

  /** The value of a named string member, and what remains behind it. */
  function ReadMember(s: string, name: string): Option<(string, string)> {
    var open := Expect(s, "\"" + name + "\":\"");
    if open.None? then None
    else
      var n := PlainIn(open.value);
      var close := Expect(open.value[n..], "\"");
      if close.None? then None else Some((open.value[..n], close.value))
  }

  /** A numeral without a leading zero that fits 64 bits. */
  function ReadIndex(s: string): Option<(nat, string)> {
    var n := DigitsIn(s);
    if n == 0 || (n > 1 && s[0] == '0') || Value(s[..n]) >= WIDTH then None else Some((Value(s[..n]), s[n..]))
  }

  /** A comma, a member, and the rest of the fields read the same way. */
  function ReadMembers(s: string, names: seq<string>): Option<(seq<string>, string)>
    decreases |names|
  {
    if names == [] then Some(([], s))
    else
      var comma := Expect(s, ",");
      if comma.None? then None
      else
        var first := ReadMember(comma.value, names[0]);
        if first.None? then None
        else
          var others := ReadMembers(first.value.1, names[1..]);
          if others.None? then None else Some(([first.value.0] + others.value.0, others.value.1))
  }

  const HEAD := "{\"index\":"
  const NAMES := ["timestamp", "intent_id", "type", "status", "prev_hash", "hash"]

  function ParseBlock(s: string): Option<Block> {
    var open := Expect(s, HEAD);
    if open.None? then None
    else
      var index := ReadIndex(open.value);
      if index.None? then None
      else
        var fields := ReadMembers(index.value.1, NAMES);
        if fields.None? || fields.value.1 != "}" || |fields.value.0| != 6 then None
        else
          var f := fields.value.0;
          Some(Block(index.value.0, f[0], f[1], f[2], f[3], f[4], f[5]))
  }

  // ---------- the reader gives back what was written ----------

  /** The members of an object, each behind a comma. */
  function Members(names: seq<string>, values: seq<string>): string
    requires |names| == |values|
  {
    if names == [] then "" else "," + Member(names[0], values[0]) + Members(names[1..], values[1..])
  }

  function Fields(b: Block): (f: seq<string>)
    ensures |f| == 6
  {
    [b.timestamp, b.intentId, b.kind, b.status, b.prevHash, b.hash]
  }

  lemma MembersAt(names: seq<string>, values: seq<string>, k: nat)
    requires k < |names| == |values|
    ensures Members(names[k..], values[k..]) ==
      "," + Member(names[k], values[k]) + Members(names[k + 1..], values[k + 1..])
  {
    hide Member;
    assert names[k..][1..] == names[k + 1..] && values[k..][1..] == values[k + 1..];
  }

  lemma NoMembers(names: seq<string>, values: seq<string>)
    requires |names| == |values|
    ensures Members(names[|names|..], values[|values|..]) == ""
  {
  }

  lemma MembersOfFields(b: Block)
    ensures Members(NAMES, Fields(b)) ==
      "," + Member("timestamp", b.timestamp) + ("," + Member("intent_id", b.intentId) + ("," + Member("type", b.kind)
      + ("," + Member("status", b.status)
      + ("," + Member("prev_hash", b.prevHash) + ("," + Member("hash", b.hash) + "")))))
  {
    var n, f := NAMES, Fields(b);
    hide Member, Members;
    assert n[0..] == n && f[0..] == f;
    MembersAt(n, f, 0);
    MembersAt(n, f, 1);
    MembersAt(n, f, 2);
    MembersAt(n, f, 3);
    MembersAt(n, f, 4);
    MembersAt(n, f, 5);
    NoMembers(n, f);
  }

  lemma MarshalByMembers(b: Block)
    ensures Marshal(b) == "{\"index\":" + (Decimal(b.index) + (Members(NAMES, Fields(b)) + "}"))
  {
    MembersOfFields(b);
    hide Member, Members, Decimal;
  }

  lemma {:induction false} PlainInIs(s: string, rest: string)
    requires PlainText(s) && (rest == "" || !PlainChar(rest[0]))
    ensures PlainIn(s + rest) == |s|
  {
    if s == "" {
      assert s + rest == rest;
    } else {
      assert (s + rest)[1..] == s[1..] + rest;
      PlainInIs(s[1..], rest);
    }
  }

  lemma ExpectIs(text: string, rest: string)
    ensures Expect(text + rest, text) == Some(rest)
  {
  }

  lemma ReadsMember(name: string, value: string, rest: string)
    requires PlainText(value)
    ensures ReadMember(Member(name, value) + rest, name) == Some((value, rest))
  {
    var open := "\"" + name + "\":\"";
    assert Member(name, value) + rest == open + (value + ("\"" + rest));
    ExpectIs(open, value + ("\"" + rest));
    PlainInIs(value, "\"" + rest);
    assert (value + ("\"" + rest))[|value|..] == "\"" + rest && (value + ("\"" + rest))[..|value|] == value;
    ExpectIs("\"", rest);
  }

  lemma ReadsIndex(n: nat, rest: string)
    requires n < WIDTH && rest != "" && !IsDigit(rest[0])
    ensures ReadIndex(Decimal(n) + rest) == Some((n, rest))
  {
    var s := Decimal(n);
    DigitsInIs(s, rest);
    ValueOfDecimal(n);
    assert (s + rest)[..|s|] == s && (s + rest)[|s|..] == rest;
  }

  lemma MembersThen(names: seq<string>, values: seq<string>, rest: string)
    requires |names| == |values| > 0
    ensures Members(names, values) + rest ==
      "," + (Member(names[0], values[0]) + (Members(names[1..], values[1..]) + rest))
  {
    assert Members(names, values) == "," + Member(names[0], values[0]) + Members(names[1..], values[1..]);
    hide *;
    Regroup(",", Member(names[0], values[0]), Members(names[1..], values[1..]), rest);
  }

  lemma Regroup(a: string, b: string, c: string, d: string)
    ensures ((a + b) + c) + d == a + (b + (c + d))
  {
  }

  lemma ReadMembersStep(text: string, names: seq<string>, value: string, later: string)
    requires names != [] && ReadMember(text, names[0]) == Some((value, later)) && ReadMembers(later, names[1..]).Some?
    ensures var others := ReadMembers(later, names[1..]).value;
      ReadMembers("," + text, names) == Some(([value] + others.0, others.1))
  {
    hide ReadMember;
    ExpectIs(",", text);
    hide Expect;
  }

  lemma {:induction false} ReadsMembers(names: seq<string>, values: seq<string>, rest: string)
    requires |names| == |values| && forall i :: 0 <= i < |values| ==> PlainText(values[i])
    ensures ReadMembers(Members(names, values) + rest, names) == Some((values, rest))
    decreases |names|
  {
    if names == [] {
      assert Members(names, values) + rest == rest;
    } else {
      hide *;
      var later := Members(names[1..], values[1..]) + rest;
      MembersThen(names, values, rest);
      ReadsMember(names[0], values[0], later);
      ReadsMembers(names[1..], values[1..], rest);
      ReadMembersStep(Member(names[0], values[0]) + later, names, values[0], later);
      assert [values[0]] + values[1..] == values;
    }
  }

  lemma {:induction false} RoundTrip(b: Block)
    requires Plain(b)
    ensures ParseBlock(Marshal(b)) == Some(b)
  {
    MarshalByMembers(b);
    var rest := Members(NAMES, Fields(b)) + "}";
    ExpectIs("{\"index\":", Decimal(b.index) + rest);
    assert rest[0] == ',';
    ReadsIndex(b.index, rest);
    ReadsMembers(NAMES, Fields(b), "}");
  }

  // ---------- only a whole object is read ----------

  /** The stages of the reader: what is left behind the head, behind the index, and behind the members. */
  lemma Stages(s: string) returns (t: string, u: string)
    requires ParseBlock(s).Some?
    ensures s == HEAD + t && ReadIndex(t).Some? && ReadIndex(t).value.1 == u
    ensures ReadMembers(u, NAMES).Some? && ReadMembers(u, NAMES).value.1 == "}"
  {
    hide ReadIndex, ReadMembers;
    t := Expect(s, HEAD).value;
    u := ReadIndex(t).value.1;
  }

  predicate EndOf(t: string, s: string) {
    |t| <= |s| && t == s[|s| - |t|..]
  }

  lemma EndOfEnd(u: string, t: string, s: string)
    requires EndOf(u, t) && EndOf(t, s)
    ensures EndOf(u, s)
  {
  }

  lemma ExpectEnds(s: string, text: string)
    requires Expect(s, text).Some?
    ensures EndOf(Expect(s, text).value, s)
  {
  }

  lemma SliceEnds(s: string, n: nat)
    requires n <= |s|
    ensures EndOf(s[n..], s)
  {
  }

  lemma MemberEnds(s: string, name: string)
    requires ReadMember(s, name).Some?
    ensures EndOf(ReadMember(s, name).value.1, s)
  {
    var open := Expect(s, "\"" + name + "\":\"").value;
    var rest := open[PlainIn(open)..];
    assert ReadMember(s, name).value.1 == Expect(rest, "\"").value;
    ExpectEnds(s, "\"" + name + "\":\"");
    SliceEnds(open, PlainIn(open));
    ExpectEnds(rest, "\"");
    hide *;
    EndOfEnd(rest, open, s);
    EndOfEnd(Expect(rest, "\"").value, rest, s);
  }

  /** What remains after reading members ends where the text ended. */
  lemma {:induction false} MembersEnd(s: string, names: seq<string>)
    requires ReadMembers(s, names).Some?
    ensures EndOf(ReadMembers(s, names).value.1, s)
    decreases |names|
  {
    if names != [] {
      hide Expect, ReadMember, EndOf;
      var comma := Expect(s, ",").value;
      var later := ReadMember(comma, names[0]).value.1;
      ExpectEnds(s, ",");
      MemberEnds(comma, names[0]);
      MembersEnd(later, names[1..]);
      EndOfEnd(later, comma, s);
      EndOfEnd(ReadMembers(later, names[1..]).value.1, later, s);
    }
  }

  lemma EndsWithBrace(s: string)
    requires ParseBlock(s).Some?
    ensures s != "" && s[|s| - 1] == '}'
  {
    hide *;
    var t, u := Stages(s);
    MembersEnd(u, NAMES);
    IndexEnds(t);
    EndOfEnd("}", u, t);
    BraceLast(t);
  }

  lemma IndexEnds(s: string)
    requires ReadIndex(s).Some?
    ensures EndOf(ReadIndex(s).value.1, s)
  {
    hide Value;
  }

  lemma BraceLast(s: string)
    requires EndOf("}", s)
    ensures s != "" && s[|s| - 1] == '}'
  {
    assert s[|s| - 1..] == "}";
  }

  lemma {:induction false} ReaderHasLaws()
    ensures JsonLaws(ParseBlock)
  {
    forall b: Block | Plain(b)
      ensures ParseBlock(Marshal(b)) == Some(b)
      ensures forall n :: 0 < n < |Marshal(b)| ==> ParseBlock(Marshal(b)[..n]).None?
    {
      RoundTrip(b);
      BreaksOff(b);
    }
  }

  lemma BreaksOff(b: Block)
    requires Plain(b)
    ensures forall n :: 0 < n < |Marshal(b)| ==> ParseBlock(Marshal(b)[..n]).None?
  {
    hide Marshal, Plain, ParseBlock;
    var front := MarshalIsInline(b);
    forall n | 0 < n < |Marshal(b)| ensures ParseBlock(Marshal(b)[..n]).None? {
      var torn := Marshal(b)[..n];
      assert torn == front[..n] && torn[|torn| - 1] == front[n - 1] != '}';
      if ParseBlock(torn).Some? {
        EndsWithBrace(torn);
      }
    }
  }

  // ---------- a second record on the line ----------

  /** No brace opens in the first `n` characters. */
  predicate Unopened(s: string, n: nat) {
    n <= |s| && forall i :: 0 <= i < n ==> s[i] != '{'
  }

  lemma UnopenedJoin(s: string, n: nat, t: string, m: nat)
    requires Unopened(s, n) && t == s[n..] && Unopened(t, m)
    ensures Unopened(s, n + m)
  {
    forall i | 0 <= i < n + m ensures s[i] != '{' {
      if i >= n {
        assert s[i] == t[i - n];
      }
    }
  }

  lemma ExpectOpensNothing(s: string, text: string)
    requires Expect(s, text).Some? && Unopened(text, |text|)
    ensures Unopened(s, |text|) && Expect(s, text).value == s[|text|..]
  {
    assert forall i :: 0 <= i < |text| ==> s[i] == text[i];
  }

  lemma PlainOpensNothing(s: string, n: nat)
    requires n <= |s| && PlainText(s[..n])
    ensures Unopened(s, n)
  {
    forall i | 0 <= i < n ensures s[i] != '{' {
      assert s[..n][i] == s[i] && PlainChar(s[..n][i]);
    }
  }

  lemma MemberOpensNothing(s: string, name: string) returns (n: nat)
    requires ReadMember(s, name).Some? && Unopened(name, |name|)
    ensures Unopened(s, n) && ReadMember(s, name).value.1 == s[n..]
  {
    var open := "\"" + name + "\":\"";
    ExpectOpensNothing(s, open);
    var v := s[|open|..];
    var k := PlainIn(v);
    PlainOpensNothing(v, k);
    ExpectOpensNothing(v[k..], "\"");
    hide Expect, ReadMember, PlainIn, Unopened, PlainText;
    UnopenedJoin(v, k, v[k..], 1);
    UnopenedJoin(s, |open|, v, k + 1);
    n := |open| + (k + 1);
    assert v[k..][1..] == s[n..];
  }

  lemma {:induction false} MembersOpenNothing(s: string, names: seq<string>) returns (n: nat)
    requires ReadMembers(s, names).Some? && forall i :: 0 <= i < |names| ==> Unopened(names[i], |names[i]|)
    ensures Unopened(s, n) && ReadMembers(s, names).value.1 == s[n..]
    decreases |names|
  {
    n := 0;
    if names != [] {
      ExpectOpensNothing(s, ",");
      var t := Expect(s, ",").value;
      var later := ReadMember(t, names[0]).value.1;
      hide Expect, ReadMember, Unopened;
      var m := MemberOpensNothing(t, names[0]);
      var k := MembersOpenNothing(later, names[1..]);
      UnopenedJoin(t, m, later, k);
      UnopenedJoin(s, 1, t, m + k);
      n := 1 + (m + k);
      assert later[k..] == s[n..];
    }
  }

  lemma IndexOpensNothing(s: string)
    requires ReadIndex(s).Some?
    ensures Unopened(s, DigitsIn(s)) && ReadIndex(s).value.1 == s[DigitsIn(s)..]
  {
    var n := DigitsIn(s);
    forall i | 0 <= i < n ensures s[i] != '{' {
      assert s[..n][i] == s[i];
    }
  }

  lemma NamesOpenNothing()
    ensures forall i :: 0 <= i < |NAMES| ==> Unopened(NAMES[i], |NAMES[i]|)
  {
  }

  lemma TailOfTail(t: string, k: nat, m: nat)
    requires k + m <= |t|
    ensures t[k..][m..] == t[k + m..]
  {
  }

  /** Behind the head of what is read as a block no brace opens. */
  lemma BodyOpensNothing(s: string) returns (t: string)
    requires ParseBlock(s).Some?
    ensures s == HEAD + t && Unopened(t, |t|)
  {
    hide *;
    var u;
    t, u := Stages(s);
    var k := DigitsIn(t);
    IndexOpensNothing(t);
    NamesOpenNothing();
    var m := MembersOpenNothing(u, NAMES);
    UnopenedJoin(t, k, u, m);
    UnopenedFits(t, k + m);
    TailOfTail(t, k, m);
    BraceOpensNothing();
    UnopenedJoin(t, k + m, "}", 1);
    assert |t| == k + m + 1;
  }

  lemma UnopenedFits(s: string, n: nat)
    requires Unopened(s, n)
    ensures n <= |s|
  {
  }

  lemma BraceOpensNothing()
    ensures Unopened("}", 1)
  {
  }

  /** What is read as a block has no other brace that opens than its first character. */
  lemma OneBrace(s: string)
    requires ParseBlock(s).Some?
    ensures forall i :: 0 < i < |s| ==> s[i] != '{'
  {
    hide ParseBlock;
    var t := BodyOpensNothing(s);
    assert forall i :: 0 < i < |HEAD| ==> HEAD[i] != '{';
    assert forall i :: |HEAD| <= i < |s| ==> s[i] == t[i - |HEAD|];
  }

  lemma PieceOpens(p: string)
    requires C.Piece(p)
    ensures p != "" && p[0] == '{'
  {
    var b: Block, n: nat :| WellFormed(b) && 0 < n <= |Marshal(b)| && p == Marshal(b)[..n];
    MarshalByMembers(b);
    hide WellFormed, Marshal, Members, Decimal;
  }

  lemma GlueOpens(ps: seq<string>) returns (at: nat)
    requires C.Pieces(ps) && |ps| >= 2
    ensures 0 < at < |C.Glue(ps)| && C.Glue(ps)[at] == '{'
  {
    var n := |ps| - 1;
    assert C.Piece(ps[n]) && C.Pieces(ps[..n]);
    assert C.Glue(ps) == C.Glue(ps[..n]) + ps[n];
    hide C.Piece, C.Pieces, C.Glue;
    PieceOpens(ps[n]);
    C.GlueIsOneLine(ps[..n]);
    at := |C.Glue(ps[..n])|;
  }

  /** A line on which a second record begins is refused. */
  lemma ReaderRefusesGlue()
    ensures C.GlueLaw(ParseBlock)
  {
    hide C.Pieces, C.Glue, ParseBlock;
    forall ps | C.Pieces(ps) && |ps| >= 2 ensures ParseBlock(C.Glue(ps)).None? {
      var at := GlueOpens(ps);
      if ParseBlock(C.Glue(ps)).Some? {
        OneBrace(C.Glue(ps));
      }
    }
  }
}
