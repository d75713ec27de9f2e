/**
 The ledger file: one JSON object a line, appended and never rewritten.  The hash
 and the JSON reader come from outside; JsonLaws says what is used of the reader,
 and LedgerJson shows a reader that has it.
 */
module LedgerFile {
  import opened Prelude
  import opened Decimals
  import opened LedgerFormat
  import opened LedgerChain

  // ---------- lines, as the scanner splits them ----------

  function LineEnd(s: string): (n: nat)
    ensures n <= |s| && (n < |s| ==> s[n] == '\n') && forall i :: 0 <= i < n ==> s[i] != '\n'
  {
    if s == "" || s[0] == '\n' then 0 else 1 + LineEnd(s[1..])
  }

  function DropCR(line: string): string {
    if line != "" && line[|line| - 1] == '\r' then line[..|line| - 1] else line
  }

  function AfterLine(s: string): (rest: string)
    ensures s != "" ==> |rest| < |s|
  {
    if LineEnd(s) < |s| then s[LineEnd(s) + 1..] else ""
  }

  /** The first line, unless it is empty. */
  function FirstRecord(s: string): seq<string> {
    var line := DropCR(s[..LineEnd(s)]);
    if line == "" then [] else [line]
  }

  /** The non-empty lines of a file. */
  function Records(s: string): seq<string>
    decreases |s|
  {
    if s == "" then [] else FirstRecord(s) + Records(AfterLine(s))
  }

  predicate Terminated(s: string) {
    s == "" || s[|s| - 1] == '\n'
  }

  lemma {:induction false} LineEndIs(s: string, n: nat)
    requires n <= |s| && (n < |s| ==> s[n] == '\n') && forall i :: 0 <= i < n ==> s[i] != '\n'
    ensures LineEnd(s) == n
  {
  }

  lemma FirstLine(s: string, t: string)
    requires s != "" && Terminated(s)
    ensures LineEnd(s) < |s| && LineEnd(s + t) == LineEnd(s) && Terminated(AfterLine(s)) &&
      AfterLine(s + t) == AfterLine(s) + t
  {
    var n := LineEnd(s);
    assert s[|s| - 1] == '\n';
    LineEndIs(s + t, n);
    assert (s + t)[n + 1..] == s[n + 1..] + t;
  }

  lemma FirstRecordStays(s: string, t: string)
    requires s != "" && Terminated(s)
    ensures FirstRecord(s + t) == FirstRecord(s)
  {
    FirstLine(s, t);
    assert (s + t)[..LineEnd(s + t)] == s[..LineEnd(s)];
  }

  lemma Unfolded(s: string)
    requires s != ""
    ensures Records(s) == FirstRecord(s) + Records(AfterLine(s))
  {
    hide AfterLine, FirstRecord;
  }

  lemma Reassociate(p: seq<string>, q: seq<string>, r: seq<string>)
    ensures (p + q) + r == p + (q + r)
  {
  }

  /** What follows a terminated text is scanned on its own. */
  lemma {:induction false} RecordsAppend(s: string, t: string)
    requires Terminated(s)
    ensures Records(s + t) == Records(s) + Records(t)
    decreases |s|
  {
    if s == "" {
      assert s + t == t;
      assert Records(s) == [];
    } else {
      hide LineEnd, DropCR, AfterLine, Terminated, FirstRecord, Records;
      Unfolded(s);
      Unfolded(s + t);
      FirstLine(s, t);
      FirstRecordStays(s, t);
      RecordsAppend(AfterLine(s), t);
      Reassociate(FirstRecord(s), Records(AfterLine(s)), Records(t));
    }
  }

  lemma LineThenEnd(line: string)
    requires '\n' !in line
    ensures FirstRecord(line) == FirstRecord(line + "\n") && AfterLine(line) == AfterLine(line + "\n") == ""
    ensures FirstRecord(line) == if DropCR(line) == "" then [] else [DropCR(line)]
  {
    hide DropCR;
    LineEndIs(line, |line|);
    LineEndIs(line + "\n", |line|);
    assert line[..|line|] == line && (line + "\n")[..|line|] == line;
  }

  lemma LastLine(s: string)
    requires AfterLine(s) == ""
    ensures Records("") == [] && Records(s) == if s == "" then [] else FirstRecord(s)
  {
    hide AfterLine, FirstRecord;
    assert Records("") == [];
  }

  /**
   One line: without its line end, and without one carriage return before it; an empty
   one is no record.
   */
  lemma OneLine(line: string)
    requires '\n' !in line
    ensures Records("") == [] && Records(line) == Records(line + "\n")
    ensures Records(line + "\n") ==
      if line == "" || line == "\r" then []
      else if line[|line| - 1] == '\r' then [line[..|line| - 1]] else [line]
  {
    hide FirstRecord, AfterLine, Records;
    LineThenEnd(line);
    LastLine(line);
    LastLine(line + "\n");
    if line == "\r" {
      assert DropCR(line) == "";
    } else if line != "" && line[|line| - 1] == '\r' {
      assert |DropCR(line)| > 0;
    }
  }

  lemma OneRecord(line: string)
    requires line != "" && '\n' !in line && '\r' !in line
    ensures Records(line) == [line] && Records(line + "\n") == [line]
  {
    OneLine(line);
    hide Records;
  }

  // ---------- one record ----------

  predicate PlainChar(c: char) {
    IsDigit(c) || 'a' <= c <= 'z' || 'A' <= c <= 'Z' || c == '_' || c == '-' || c == ':' || c == '+'
  }

  predicate PlainText(s: string) {
    forall i :: 0 <= i < |s| ==> PlainChar(s[i])
  }

  /** A block whose fields need no escaping in JSON. */
  predicate Plain(b: Block) {
    && b.index < WIDTH && PlainText(b.timestamp) && PlainText(b.intentId) && PlainText(b.kind)
    && PlainText(b.status) && PlainText(b.prevHash) && PlainText(b.hash)
  }

  lemma WellFormedIsPlain(b: Block)
    requires WellFormed(b)
    ensures Plain(b)
  {
    TimestampIsPlain(b.timestamp);
    hide IsTimestamp;
    assert PlainText(b.intentId) && PlainText(b.kind) && PlainText(b.status);
  }

  lemma TimestampIsPlain(t: string)
    requires IsTimestamp(t)
    ensures PlainText(t)
  {
    var at := [0, 1, 2, 3, 5, 6, 8, 9, 11, 12, 14, 15, 17, 18];
    assert forall k :: 0 <= k < 14 ==> IsDigit(t[at[k]]);
    assert IsDigit(t[at[0]]) && IsDigit(t[at[1]]) && IsDigit(t[at[2]]) && IsDigit(t[at[3]]) && IsDigit(t[at[4]]);
    assert IsDigit(t[at[5]]) && IsDigit(t[at[6]]) && IsDigit(t[at[7]]) && IsDigit(t[at[8]]) && IsDigit(t[at[9]]);
    assert IsDigit(t[at[10]]) && IsDigit(t[at[11]]) && IsDigit(t[at[12]]) && IsDigit(t[at[13]]);
    if |t| == 25 {
      var off := [20, 21, 23, 24];
      assert IsDigit(t[off[0]]) && IsDigit(t[off[1]]) && IsDigit(t[off[2]]) && IsDigit(t[off[3]]);
    }
  }

  function Member(name: string, value: string): string {
    "\"" + name + "\":\"" + value + "\""
  }

  /** The JSON object of a plain block, section 4 of RFC 8259, members in declaration order. */
  function Marshal(b: Block): string {
    "{\"index\":" + Decimal(b.index) + "," + Member("timestamp", b.timestamp) + "," + Member("intent_id", b.intentId)
    + "," + Member("type", b.kind) + "," + Member("status", b.status) + "," + Member("prev_hash", b.prevHash)
    + "," + Member("hash", b.hash) + "}"
  }

  /** A member behind a text: a comma, the quoted name, a colon and the quoted value. */
  lemma MemberText(before: string, name: string, value: string, open: string)
    requires open == ",\"" + name + "\":\""
    ensures before + "," + Member(name, value) == before + open + value + "\""
  {
    var quoted := "\"" + name + "\":\"";
    assert open == "," + quoted;
    assert Member(name, value) == quoted + value + "\"";
  }

  /** The line, with every key in its place. */
  lemma LineText(b: Block)
    ensures Marshal(b) ==
      "{\"index\":" + Decimal(b.index)
      + ",\"timestamp\":\"" + b.timestamp + "\"" + ",\"intent_id\":\"" + b.intentId + "\""
      + ",\"type\":\"" + b.kind + "\"" + ",\"status\":\"" + b.status + "\""
      + ",\"prev_hash\":\"" + b.prevHash + "\"" + ",\"hash\":\"" + b.hash + "\"" + "}"
  {
    var index := "{\"index\":" + Decimal(b.index);
    var time := index + "," + Member("timestamp", b.timestamp);
    var id := time + "," + Member("intent_id", b.intentId);
    var kind := id + "," + Member("type", b.kind);
    var status := kind + "," + Member("status", b.status);
    var prev := status + "," + Member("prev_hash", b.prevHash);
    hide Member, Decimal;
    MemberText(index, "timestamp", b.timestamp, ",\"timestamp\":\"");
    MemberText(time, "intent_id", b.intentId, ",\"intent_id\":\"");
    MemberText(id, "type", b.kind, ",\"type\":\"");
    MemberText(kind, "status", b.status, ",\"status\":\"");
    MemberText(status, "prev_hash", b.prevHash, ",\"prev_hash\":\"");
    MemberText(prev, "hash", b.hash, ",\"hash\":\"");
  }

  /** The reader gives back what was written and refuses a line that breaks off. */
  ghost predicate JsonLaws(parse: string -> Option<Block>) {
    forall b :: Plain(b) ==>
      && parse(Marshal(b)) == Some(b)
      && forall n :: 0 < n < |Marshal(b)| ==> parse(Marshal(b)[..n]).None?
  }

  /** No line break and no closing brace. */
  ghost predicate Inline(s: string) {
    forall i :: 0 <= i < |s| ==> s[i] != '\n' && s[i] != '\r' && s[i] != '}'
  }

  lemma MemberIsInline(name: string, value: string)
    requires Inline(name) && PlainText(value)
    ensures Inline(Member(name, value))
  {
    assert Inline(value);
  }

  /** The object is one line, and its only closing brace is its last character. */
  lemma MarshalIsInline(b: Block) returns (front: string)
    requires Plain(b)
    ensures Marshal(b) == front + "}" && Inline(front) && front != ""
  {
    var d := "{\"index\":" + Decimal(b.index);
    assert Inline(d);
    MemberIsInline("timestamp", b.timestamp);
    MemberIsInline("intent_id", b.intentId);
    MemberIsInline("type", b.kind);
    MemberIsInline("status", b.status);
    MemberIsInline("prev_hash", b.prevHash);
    MemberIsInline("hash", b.hash);
    front := d + "," + Member("timestamp", b.timestamp) + "," + Member("intent_id", b.intentId)
      + "," + Member("type", b.kind) + "," + Member("status", b.status) + "," + Member("prev_hash", b.prevHash)
      + "," + Member("hash", b.hash);
    hide Member, Plain, PlainText;
  }

  // ---------- what a file says ----------

  ghost predicate AllParse(parse: string -> Option<Block>, rs: seq<string>) {
    forall i :: 0 <= i < |rs| ==> parse(rs[i]).Some?
  }

  ghost function Blocks(parse: string -> Option<Block>, rs: seq<string>): seq<Block>
    requires AllParse(parse, rs)
  {
    seq(|rs|, i requires 0 <= i < |rs| => parse(rs[i]).value)
  }

  /** Every record parses, and the blocks are indexed, linked and hashed correctly. */
  ghost predicate Accepted(h: string -> string, parse: string -> Option<Block>, rs: seq<string>) {
    AllParse(parse, rs) && Chained(h, Blocks(parse, rs))
  }

  /**
   A record in its place: a block numbered from 0 and wrapping around at 64 bits, the first
   linked to 64 zeros and every other to the hash before it, with the hash of its own text.
   */
  ghost predicate InPlace(h: string -> string, parse: string -> Option<Block>, rs: seq<string>, i: nat)
    requires i < |rs|
  {
    match parse(rs[i])
    case None => false
    case Some(b) =>
      && b.index == i % 18_446_744_073_709_551_616
      && b.hash == h(Preimage(b))
      && (i == 0 ==> |b.prevHash| == 64 && forall k :: 0 <= k < 64 ==> b.prevHash[k] == '0')
      && (i > 0 ==> parse(rs[i - 1]).Some? && b.prevHash == parse(rs[i - 1]).value.hash)
  }

  lemma InPlaceIs(h: string -> string, parse: string -> Option<Block>, rs: seq<string>, i: nat)
    requires i < |rs| && AllParse(parse, rs)
    ensures InPlace(h, parse, rs, i) <==> BlockOk(h, Blocks(parse, rs), i)
  {
    var bs := Blocks(parse, rs);
    IsGenesis(bs[i].prevHash);
    hide Preimage;
  }

  /** Acceptance is that every record is in its place. */
  lemma AcceptedIs(h: string -> string, parse: string -> Option<Block>, rs: seq<string>)
    ensures Accepted(h, parse, rs) <==> forall i :: 0 <= i < |rs| ==> InPlace(h, parse, rs, i)
  {
    if AllParse(parse, rs) {
      forall i | 0 <= i < |rs| ensures InPlace(h, parse, rs, i) <==> BlockOk(h, Blocks(parse, rs), i) {
        InPlaceIs(h, parse, rs, i);
      }
      hide BlockOk, InPlace;
    } else {
      hide Preimage;
      var i :| 0 <= i < |rs| && parse(rs[i]).None?;
      assert !InPlace(h, parse, rs, i);
    }
  }

  /** The last record that parses, and nothing behind it does. */
  lemma {:induction false} LastParsedIs(parse: string -> Option<Block>, rs: seq<string>)
    ensures var last := LastParsed(parse, rs);
      && (last.None? <==> forall i :: 0 <= i < |rs| ==> parse(rs[i]).None?)
      && (last.Some? ==>
           exists i :: 0 <= i < |rs| && parse(rs[i]) == last && (forall j :: i < j < |rs| ==> parse(rs[j]).None?))
  {
    if rs != [] {
      var k := |rs| - 1;
      if parse(rs[k]).Some? {
        assert parse(rs[k]) == LastParsed(parse, rs);
      } else {
        var front := rs[..k];
        LastParsedIs(parse, front);
        assert forall i :: 0 <= i < k ==> front[i] == rs[i];
        assert LastParsed(parse, rs) == LastParsed(parse, front);
        hide LastParsed;
        if LastParsed(parse, front).Some? {
          var i :| 0 <= i < k && parse(front[i]) == LastParsed(parse, front) &&
            forall j :: i < j < k ==> parse(front[j]).None?;
          assert parse(rs[i]) == LastParsed(parse, rs);
        }
      }
    }
  }

  datatype Reason = Unparsable | SequenceBreak | BrokenLink | Tampered

  /** What is wrong with a line that follows an accepted beginning. */
  ghost predicate Wrong(h: string -> string, parse: string -> Option<Block>, done: seq<string>, line: string,
        reason: Reason)
    requires Accepted(h, parse, done)
  {
    var link := LinkAt(Blocks(parse, done), |done|);
    match reason
    case Unparsable => parse(line).None?
    case SequenceBreak => parse(line).Some? && parse(line).value.index != |done| % WIDTH
    case BrokenLink => parse(line).Some? && parse(line).value.index == |done| % WIDTH &&
      parse(line).value.prevHash != link
    case Tampered =>
      && parse(line).Some? && parse(line).value.index == |done| % WIDTH && parse(line).value.prevHash == link
      && parse(line).value.hash != h(Preimage(parse(line).value))
  }

  /** Record `k` is wrong and everything before it is in order. */
  ghost predicate FaultAt(h: string -> string, parse: string -> Option<Block>, rs: seq<string>, k: nat,
        reason: Reason) {
    k < |rs| && Accepted(h, parse, rs[..k]) && Wrong(h, parse, rs[..k], rs[k], reason)
  }

  datatype Verdict = Valid | Fault(at: nat, reason: Reason)

  lemma AcceptedPrefix(h: string -> string, parse: string -> Option<Block>, rs: seq<string>, n: nat)
    requires Accepted(h, parse, rs) && n <= |rs|
    ensures Accepted(h, parse, rs[..n])
  {
    ChainedPrefix(h, Blocks(parse, rs), n);
    assert Blocks(parse, rs[..n]) == Blocks(parse, rs)[..n];
  }

  lemma AcceptedExtends(h: string -> string, parse: string -> Option<Block>, rs: seq<string>, r: string)
    requires Accepted(h, parse, rs) && parse(r).Some?
    requires var b := parse(r).value;
      b.index == |rs| % WIDTH && b.prevHash == LinkAt(Blocks(parse, rs), |rs|) && b.hash == h(Preimage(b))
    ensures Accepted(h, parse, rs + [r]) && Blocks(parse, rs + [r]) == Blocks(parse, rs) + [parse(r).value]
  {
    assert Blocks(parse, rs + [r]) == Blocks(parse, rs) + [parse(r).value];
    ChainExtends(h, Blocks(parse, rs), parse(r).value);
  }

  lemma AcceptedRecord(h: string -> string, parse: string -> Option<Block>, rs: seq<string>, k: nat)
    requires Accepted(h, parse, rs) && k < |rs|
    ensures Accepted(h, parse, rs[..k])
    ensures var b := parse(rs[k]).value;
      b.index == k % WIDTH && b.prevHash == LinkAt(Blocks(parse, rs[..k]), k) && b.hash == h(Preimage(b))
  {
    AcceptedPrefix(h, parse, rs, k);
    assert BlockOk(h, Blocks(parse, rs), k);
    assert Blocks(parse, rs[..k]) == Blocks(parse, rs)[..k];
  }

  /** A file with a fault is not accepted. */
  lemma FaultRefuses(h: string -> string, parse: string -> Option<Block>, rs: seq<string>, k: nat, reason: Reason)
    requires FaultAt(h, parse, rs, k, reason)
    ensures !Accepted(h, parse, rs)
  {
    if Accepted(h, parse, rs) {
      AcceptedRecord(h, parse, rs, k);
    }
  }

  lemma LinkIs(h: string -> string, parse: string -> Option<Block>, rs: seq<string>, k: nat, link: string)
    requires k <= |rs| && AllParse(parse, rs[..k])
    ensures link == LinkAt(Blocks(parse, rs[..k]), k) <==>
      if k == 0 then |link| == 64 && forall j :: 0 <= j < 64 ==> link[j] == '0'
      else link == parse(rs[..k][k - 1]).value.hash
  {
    IsGenesis(link);
  }

  /**
   What a fault means: every record before it is in its place, and it does not parse; or has
   another number; or the right number but another link than the hash before it, or than 64
   zeros in the first record; or both right but not the hash of its own text.
   */
  lemma FaultIs(h: string -> string, parse: string -> Option<Block>, rs: seq<string>, k: nat, reason: Reason)
    requires FaultAt(h, parse, rs, k, reason)
    ensures k < |rs| && forall i :: 0 <= i < k ==> InPlace(h, parse, rs, i)
    ensures
      match parse(rs[k])
      case None => reason == Unparsable
      case Some(b) =>
        var linked := if k == 0 then |b.prevHash| == 64 && forall j :: 0 <= j < 64 ==> b.prevHash[j] == '0'
          else parse(rs[k - 1]).Some? && b.prevHash == parse(rs[k - 1]).value.hash;
        if b.index != k % 18_446_744_073_709_551_616 then reason == SequenceBreak
        else if !linked then reason == BrokenLink
        else reason == Tampered && b.hash != h(Preimage(b))
  {
    AcceptedIs(h, parse, rs[..k]);
    forall i | 0 <= i < k ensures InPlace(h, parse, rs, i) {
      assert InPlace(h, parse, rs[..k], i);
      PlaceStays(h, parse, rs, k, i);
    }
    hide InPlace, Preimage, Chained, BlockOk;
    if parse(rs[k]).Some? {
      LinkIs(h, parse, rs, k, parse(rs[k]).value.prevHash);
    }
  }

  lemma PlaceStays(h: string -> string, parse: string -> Option<Block>, rs: seq<string>, k: nat, i: nat)
    requires i < k <= |rs| && InPlace(h, parse, rs[..k], i)
    ensures InPlace(h, parse, rs, i)
  {
    hide Preimage;
    assert rs[..k][i] == rs[i] && (i > 0 ==> rs[..k][i - 1] == rs[i - 1]);
  }

  lemma FaultHere(h: string -> string, parse: string -> Option<Block>, rs: seq<string>, done: seq<string>,
        line: string, rest: seq<string>, reason: Reason)
    requires rs == done + ([line] + rest) && Accepted(h, parse, done) && Wrong(h, parse, done, line, reason)
    ensures FaultAt(h, parse, rs, |done|, reason) && !Accepted(h, parse, rs)
  {
    assert rs[..|done|] == done && rs[|done|] == line;
    hide Wrong, Accepted;
    FaultRefuses(h, parse, rs, |done|, reason);
  }

  /** The last record that parses, wherever it is. */
  function LastParsed(parse: string -> Option<Block>, rs: seq<string>): Option<Block> {
    if rs == [] then None
    else if parse(rs[|rs| - 1]).Some? then parse(rs[|rs| - 1])
    else LastParsed(parse, rs[..|rs| - 1])
  }

  function NextBlock(h: string -> string, last: Option<Block>, intentId: string, kind: string, status: string,
        timestamp: string): Block {
    var index := if last.Some? then (last.value.index + 1) % WIDTH else 0;
    var prevHash := if last.Some? then last.value.hash else GENESIS;
    var b := Block(index, timestamp, intentId, kind, status, prevHash, "");
    b.(hash := h(Preimage(b)))
  }
}
