/**
 A ledger block and the text its hash is computed over: six fields glued together
 without separators.  For the fields the services actually write, the text still
 determines every field.
 */
module LedgerFormat {
  import opened Decimals

  datatype Block = Block(
    index: nat,
    timestamp: string,
    intentId: string,
    kind: string,
    status: string,
    prevHash: string,
    hash: string)

  /** The counter is an unsigned 64-bit integer and wraps around. */
  const WIDTH: nat := 0x1_0000_0000_0000_0000

  function Preimage(b: Block): string {
    Decimal(b.index) + b.timestamp + b.intentId + b.kind + b.status + b.prevHash
  }

  // ---------- the shape of the fields ----------

  predicate IsHex(c: char) { IsDigit(c) || 'a' <= c <= 'f' }

  predicate DigitsAt(s: string, at: seq<nat>) {
    forall i :: 0 <= i < |at| ==> at[i] < |s| && IsDigit(s[at[i]])
  }

  /** Section 5.6 of RFC 3339, without fractional seconds: `Z` or a numeric offset. */
  predicate IsTimestamp(s: string) {
    && (|s| == 20 || |s| == 25)
    && DigitsAt(s, [0, 1, 2, 3, 5, 6, 8, 9, 11, 12, 14, 15, 17, 18])
    && s[4] == '-' && s[7] == '-' && s[10] == 'T' && s[13] == ':' && s[16] == ':'
    && (if |s| == 20 then s[19] == 'Z'
        else (s[19] == '+' || s[19] == '-') && s[22] == ':' && DigitsAt(s, [20, 21, 23, 24]))
  }

  /** Section 4 of RFC 9562: 36 characters, hyphens at four fixed places. */
  predicate IsUuid(s: string) {
    |s| == 36 && forall i :: 0 <= i < 36 ==>
      if i == 8 || i == 13 || i == 18 || i == 23 then s[i] == '-' else IsHex(s[i])
  }

  predicate IsKind(s: string) {
    || s == "INTENT_TYPE_UNSPECIFIED" || s == "INTENT_TYPE_TRANSFER" || s == "INTENT_TYPE_COMPUTE"
    || s == "INTENT_TYPE_QUERY" || s == "INTENT_TYPE_SCHEDULED"
  }

  predicate IsFinalStatus(s: string) {
    s == "INTENT_STATUS_COMPLETED" || s == "INTENT_STATUS_FAILED"
  }

  predicate IsHash(s: string) {
    |s| == 64 && forall i :: 0 <= i < 64 ==> IsHex(s[i])
  }

  predicate WellFormed(b: Block) {
    && b.index < WIDTH && IsTimestamp(b.timestamp) && IsUuid(b.intentId)
    && IsKind(b.kind) && IsFinalStatus(b.status) && IsHash(b.prevHash) && IsHash(b.hash)
  }

  // ---------- where each field stands ----------

  /** Six texts glued together: where each begins and ends. */
  lemma SixParts(a: string, b: string, c: string, d: string, e: string, f: string)
    ensures var p, i := a + b + c + d + e + f, |a|;
      var j := i + |b|; var k := j + |c|; var l := k + |d|; var m := l + |e|;
      && |p| == m + |f| && p[..i] == a && p[i..j] == b && p[j..k] == c && p[k..l] == d && p[l..m] == e && p[m..] == f
  {
  }

  /**
   Read from the right, the text is the previous hash, the status, the type name, the id
   and the time; what is left is the index in decimal.
   */
  lemma FieldsInPlace(b: Block)
    requires WellFormed(b)
    ensures var p := Preimage(b);
      var hash := |p| - 64; var status := hash - |b.status|; var kind := status - |b.kind|; var id := kind - 36;
      var time := id - |b.timestamp|;
      && 0 < time && p[hash..] == b.prevHash && p[status..hash] == b.status && p[kind..status] == b.kind
      && p[id..kind] == b.intentId && p[time..id] == b.timestamp
      && AllDigits(p[..time]) && Value(p[..time]) == b.index && (p[0] == '0' ==> time == 1)
  {
    SixParts(Decimal(b.index), b.timestamp, b.intentId, b.kind, b.status, b.prevHash);
    ValueOfDecimal(b.index);
    hide IsTimestamp, IsKind, IsFinalStatus, Decimal, Value;
  }

  // ---------- unique decoding, field by field from the right ----------

  /** Two equal texts agree at every distance from the end. */
  lemma SameFromTheEnd(x: string, y: string, x': string, y': string, k: nat)
    requires x + y == x' + y' && 0 < k <= |y| && k <= |y'|
    ensures y[|y| - k] == y'[|y'| - k]
  {
    assert (x + y)[|x + y| - k] == y[|y| - k];
    assert (x' + y')[|x' + y'| - k] == y'[|y'| - k];
  }

  lemma SplitTail(x: string, y: string, x': string, y': string)
    requires x + y == x' + y' && |y| == |y'|
    ensures x == x' && y == y'
  {
    assert |x| == |x'|;
    assert x == (x + y)[..|x|] && x' == (x' + y')[..|x'|];
    assert y == (x + y)[|x|..] && y' == (x' + y')[|x'|..];
  }

  lemma SplitStatus(x: string, s: string, x': string, s': string)
    requires x + s == x' + s' && IsFinalStatus(s) && IsFinalStatus(s')
    ensures x == x' && s == s'
  {
    SameFromTheEnd(x, s, x', s', 3);
    SplitTail(x, s, x', s');
  }

  lemma SplitKind(x: string, t: string, x': string, t': string)
    requires x + t == x' + t' && IsKind(t) && IsKind(t')
    ensures x == x' && t == t'
  {
    SameFromTheEnd(x, t, x', t', 1);
    SameFromTheEnd(x, t, x', t', 3);
    SplitTail(x, t, x', t');
  }

  lemma SplitTimestamp(x: string, t: string, x': string, t': string)
    requires x + t == x' + t' && IsTimestamp(t) && IsTimestamp(t')
    ensures x == x' && t == t'
  {
    SameFromTheEnd(x, t, x', t', 1);
    assert |t| == 25 ==> IsDigit(t[[20, 21, 23, 24][3]]);
    assert |t'| == 25 ==> IsDigit(t'[[20, 21, 23, 24][3]]);
    SplitTail(x, t, x', t');
  }

  /** The separator-free text determines all six fields. */
  lemma UniqueDecoding(a: Block, b: Block)
    requires WellFormed(a) && WellFormed(b) && Preimage(a) == Preimage(b)
    ensures a.index == b.index && a.timestamp == b.timestamp && a.intentId == b.intentId
    ensures a.kind == b.kind && a.status == b.status && a.prevHash == b.prevHash
  {
    var a1, b1 := Decimal(a.index), Decimal(b.index);
    var a2, b2 := a1 + a.timestamp, b1 + b.timestamp;
    var a3, b3 := a2 + a.intentId, b2 + b.intentId;
    var a4, b4 := a3 + a.kind, b3 + b.kind;
    var a5, b5 := a4 + a.status, b4 + b.status;
    SplitTail(a5, a.prevHash, b5, b.prevHash);
    SplitStatus(a4, a.status, b4, b.status);
    SplitKind(a3, a.kind, b3, b.kind);
    SplitTail(a2, a.intentId, b2, b.intentId);
    SplitTimestamp(a1, a.timestamp, b1, b.timestamp);
    DecimalInjective(a.index, b.index);
  }

  /**
   The shapes are needed: with an identifier or a type name of another shape, which
   appending does not check, two different blocks of one index and time have the same text.
   */
  lemma AmbiguousWithoutShapes()
    ensures exists a: Block, b: Block ::
      && a.index == b.index && a.timestamp == b.timestamp && IsTimestamp(a.timestamp) && a.status == b.status
      && IsFinalStatus(a.status) && a.prevHash == b.prevHash && IsHash(a.prevHash)
      && a.intentId != b.intentId && a.kind != b.kind && Preimage(a) == Preimage(b)
  {
    var time := SomeTime();
    var hash := SomeHash();
    hide IsTimestamp, IsHash, Decimal;
    var a := Block(0, time, "ab", "c", "INTENT_STATUS_FAILED", hash, "");
    var b := Block(0, time, "a", "bc", "INTENT_STATUS_FAILED", hash, "");
    Regroup(Decimal(0) + time, "ab", "c", "a", "bc");
    assert Preimage(a) == Preimage(b);
  }

  lemma SomeTime() returns (time: string)
    ensures IsTimestamp(time)
  {
    time := "2024-01-31T23:59:59Z";
  }

  lemma SomeHash() returns (hash: string)
    ensures IsHash(hash)
  {
    hash := seq(64, _ => '0');
  }

  lemma Regroup(front: string, x: string, y: string, x': string, y': string)
    requires x + y == x' + y'
    ensures front + x + y == front + x' + y'
  {
    assert front + x + y == front + (x + y) && front + x' + y' == front + (x' + y');
  }
}
