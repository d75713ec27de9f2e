/** The ledger engine: append, verify and last-record recovery over one file. */
module LedgerEngine {
  import opened Prelude
  import opened LedgerFormat
  import opened LedgerChain
  import opened LedgerFile

  // ---------- what appending does to a file ----------

  type Reader = string -> Option<Block>

  ghost predicate HexHash(h: string -> string) {
    forall x :: IsHash(h(x))
  }

  datatype Event = Event(intentId: string, kind: string, status: string, timestamp: string)

  ghost predicate EventOk(e: Event) {
    IsUuid(e.intentId) && IsKind(e.kind) && IsFinalStatus(e.status) && IsTimestamp(e.timestamp)
  }

  /** The block that the engine builds on the last record of a file. */
  function BlockFor(h: string -> string, parse: Reader, content: string, e: Event): Block {
    NextBlock(h, LastParsed(parse, Records(content)), e.intentId, e.kind, e.status, e.timestamp)
  }

  function Line(b: Block): string {
    Marshal(b) + "\n"
  }

  /** The file is accepted and ready for the next record. */
  ghost predicate Ready(h: string -> string, parse: Reader, content: string) {
    Terminated(content) && Accepted(h, parse, Records(content))
  }

  lemma ReadyParses(h: string -> string, parse: Reader, content: string)
    requires Ready(h, parse, content)
    ensures AllParse(parse, Records(content))
  {
  }

  lemma GenesisIsHash()
    ensures IsHash(GENESIS)
  {
  }

  lemma LinkIsHash(h: string -> string, bs: seq<Block>)
    requires HexHash(h) && Chained(h, bs)
    ensures IsHash(LinkAt(bs, |bs|))
  {
    if |bs| == 0 {
      GenesisIsHash();
    } else {
      assert BlockOk(h, bs, |bs| - 1);
    }
  }

  /** The last record of an accepted file is the last block of its chain. */
  lemma LastIsEnd(h: string -> string, parse: Reader, rs: seq<string>)
    requires Accepted(h, parse, rs)
    ensures var bs, last := Blocks(parse, rs), LastParsed(parse, rs);
      && (last.Some? <==> bs != [])
      && (last.Some? ==> last.value == bs[|bs| - 1] && last.value.index == (|bs| - 1) % WIDTH)
  {
    if rs != [] {
      var bs := Blocks(parse, rs);
      assert BlockOk(h, bs, |bs| - 1);
    }
  }

  lemma NextIndex(n: nat)
    requires n > 0
    ensures ((n - 1) % WIDTH + 1) % WIDTH == n % WIDTH
  {
  }

  ghost predicate Says(b: Block, e: Event) {
    b.intentId == e.intentId && b.kind == e.kind && b.status == e.status && b.timestamp == e.timestamp
  }

  /** The block behind another, or the first one, which links to 64 zeros. */
  lemma NextBlockIs(h: string -> string, last: Option<Block>, e: Event)
    ensures var b := NextBlock(h, last, e.intentId, e.kind, e.status, e.timestamp);
      && b.index == (if last.Some? then (last.value.index + 1) % 18_446_744_073_709_551_616 else 0)
      && (last.Some? ==> b.prevHash == last.value.hash)
      && (last.None? ==> |b.prevHash| == 64 && forall k :: 0 <= k < 64 ==> b.prevHash[k] == '0')
      && b.hash == h(Preimage(b)) && Says(b, e)
  {
    HashIgnoresHash(h, NextBlock(h, last, e.intentId, e.kind, e.status, e.timestamp));
  }

  lemma NextIsWellFormed(h: string -> string, b: Block, e: Event)
    requires HexHash(h) && EventOk(e) && Says(b, e) && b.index < WIDTH && IsHash(b.prevHash) && b.hash == h(Preimage(b))
    ensures WellFormed(b)
  {
    hide IsHash, IsUuid, IsTimestamp, IsKind, IsFinalStatus, Preimage;
  }

  /** The new block continues a chain. */
  ghost predicate Continues(h: string -> string, bs: seq<Block>, b: Block) {
    b.index == |bs| % WIDTH && b.prevHash == LinkAt(bs, |bs|) && b.hash == h(Preimage(b))
  }

  /** On an accepted file the new block is the right continuation of the chain. */
  lemma BlockContinues(h: string -> string, parse: Reader, content: string, e: Event)
    requires HexHash(h) && Ready(h, parse, content) && EventOk(e)
    ensures var b := BlockFor(h, parse, content, e);
      Continues(h, Blocks(parse, Records(content)), b) && WellFormed(b) && Says(b, e)
  {
    var rs := Records(content);
    hide HexHash, Preimage, BlockOk, Chained, IsHash, EventOk, WellFormed, LastParsed, Records, Says, NextBlock;
    var bs := Blocks(parse, rs);
    LinkIsHash(h, bs);
    LastIsEnd(h, parse, rs);
    if bs != [] {
      NextIndex(|bs|);
    }
    NextBlockIs(h, LastParsed(parse, rs), e);
    IsGenesis(BlockFor(h, parse, content, e).prevHash);
    NextIsWellFormed(h, BlockFor(h, parse, content, e), e);
  }

  /** The text that is hashed does not contain the hash. */
  lemma HashIgnoresHash(h: string -> string, b: Block)
    ensures Preimage(b) == Preimage(b.(hash := ""))
  {
  }

  lemma LineIsOneRecord(parse: Reader, b: Block)
    requires JsonLaws(parse) && WellFormed(b)
    ensures Records(Line(b)) == Records(Marshal(b)) == [Marshal(b)] && parse(Marshal(b)) == Some(b)
  {
    WellFormedIsPlain(b);
    hide WellFormed, Plain, Marshal;
    var front := MarshalIsInline(b);
    OneRecord(Marshal(b));
  }

  /** What a complete record does, with or without its line break. */
  lemma RecordExtends(h: string -> string, parse: Reader, content: string, e: Event, text: string)
    requires HexHash(h) && JsonLaws(parse) && Ready(h, parse, content) && EventOk(e)
    requires var b := BlockFor(h, parse, content, e); text == Marshal(b) || text == Line(b)
    ensures Accepted(h, parse, Records(content + text))
    ensures Blocks(parse, Records(content + text)) == Blocks(parse, Records(content)) + [BlockFor(h, parse, content, e)]
  {
    var b := BlockFor(h, parse, content, e);
    BlockContinues(h, parse, content, e);
    LineIsOneRecord(parse, b);
    RecordsAppend(content, text);
    hide BlockFor, WellFormed, Marshal, Preimage, Chained, EventOk;
    AcceptedExtends(h, parse, Records(content), Marshal(b));
  }

  // ---------- many appends ----------

  ghost function Appended(h: string -> string, parse: Reader, content: string, es: seq<Event>): string {
    if es == [] then content
    else
      var before := Appended(h, parse, content, es[..|es| - 1]);
      before + Line(BlockFor(h, parse, before, es[|es| - 1]))
  }

  /** One chain is another with one block for each event behind it, saying what the event says. */
  ghost predicate Adds(old_: seq<Block>, new_: seq<Block>, es: seq<Event>) {
    && |new_| == |old_| + |es| && old_ <= new_
    && forall i :: 0 <= i < |es| ==> Says(new_[|old_| + i], es[i])
  }

  lemma AddsOne(old_: seq<Block>, mid: seq<Block>, es: seq<Event>, b: Block, e: Event)
    requires Adds(old_, mid, es) && Says(b, e)
    ensures Adds(old_, mid + [b], es + [e])
  {
    hide Says;
  }

  lemma AppendOne(h: string -> string, parse: Reader, content: string, e: Event)
    requires HexHash(h) && JsonLaws(parse) && Ready(h, parse, content) && EventOk(e)
    ensures var b := BlockFor(h, parse, content, e);
      && Ready(h, parse, content + Line(b)) && Says(b, e)
      && Blocks(parse, Records(content + Line(b))) == Blocks(parse, Records(content)) + [b]
  {
    var b := BlockFor(h, parse, content, e);
    assert Terminated(content + Line(b));
    hide HexHash, JsonLaws, EventOk, Accepted, BlockFor, Line, Terminated, Says, Continues, WellFormed, Records;
    RecordExtends(h, parse, content, e, Line(b));
    BlockContinues(h, parse, content, e);
  }

  /** The content is the beginning of another; both are ready, and the other has one block an event more. */
  ghost predicate Grown(h: string -> string, parse: Reader, content: string, after: string, es: seq<Event>) {
    && content <= after && Ready(h, parse, content) && Ready(h, parse, after)
    && Adds(Blocks(parse, Records(content)), Blocks(parse, Records(after)), es)
  }

  lemma GrownNot(h: string -> string, parse: Reader, content: string)
    requires Ready(h, parse, content)
    ensures Grown(h, parse, content, content, [])
  {
    hide Chained, Records, Says;
  }

  lemma GrownOnce(h: string -> string, parse: Reader, content: string, before: string, es: seq<Event>, e: Event)
    requires HexHash(h) && JsonLaws(parse) && Grown(h, parse, content, before, es) && EventOk(e)
    ensures Grown(h, parse, content, before + Line(BlockFor(h, parse, before, e)), es + [e])
  {
    hide HexHash, JsonLaws, EventOk, Chained, BlockFor, Line, Terminated, Says, Records, Adds;
    AppendOne(h, parse, before, e);
    var b := BlockFor(h, parse, before, e);
    AddsOne(Blocks(parse, Records(content)), Blocks(parse, Records(before)), es, b, e);
  }

  /**
   Any number of appends on an accepted file keep its bytes as a prefix, are accepted
   again, and add one block an event, in order, saying what the event says.
   */
  lemma {:induction false} AppendsKeep(h: string -> string, parse: Reader, content: string, es: seq<Event>)
    requires HexHash(h) && JsonLaws(parse) && Ready(h, parse, content)
    requires forall i :: 0 <= i < |es| ==> EventOk(es[i])
    ensures Grown(h, parse, content, Appended(h, parse, content, es), es)
  {
    hide HexHash, JsonLaws, EventOk, Ready, BlockFor, Line, Grown;
    if es == [] {
      GrownNot(h, parse, content);
    } else {
      var n := |es| - 1;
      AppendsKeep(h, parse, content, es[..n]);
      GrownOnce(h, parse, content, Appended(h, parse, content, es[..n]), es[..n], es[n]);
      assert es[..n] + [es[n]] == es;
    }
  }

  /**
   Two accepted files whose last blocks have the same hash tell the same history, if no two
   of their texts collide.
   */
  lemma {:induction false} EqualEndsEqualHistory(h: string -> string, parse: Reader, x: string, y: string)
    requires Accepted(h, parse, Records(x)) && Accepted(h, parse, Records(y))
    requires var a, b := Blocks(parse, Records(x)), Blocks(parse, Records(y));
      && AllWellFormed(a) && AllWellFormed(b) && NoCollision(h, a, b)
      && 0 < |a| <= WIDTH && 0 < |b| <= WIDTH && a[|a| - 1].hash == b[|b| - 1].hash
    ensures Blocks(parse, Records(x)) == Blocks(parse, Records(y))
  {
    hide AllWellFormed, NoCollision, Chained, Records;
    ChainCommits(h, Blocks(parse, Records(x)), Blocks(parse, Records(y)));
  }

  // ---------- torn writes ----------

  /**
   A crash leaves a prefix of one record at the end of an accepted file.  The file is
   accepted again exactly when the prefix is empty or the whole record, with or
   without its line break.
   */
  lemma {:induction false} TornWrite(h: string -> string, parse: Reader, content: string, e: Event, torn: string)
    requires HexHash(h) && JsonLaws(parse) && Ready(h, parse, content) && EventOk(e)
    requires torn <= Line(BlockFor(h, parse, content, e))
    ensures var b := BlockFor(h, parse, content, e);
      Accepted(h, parse, Records(content + torn)) <==> torn == "" || torn == Marshal(b) || torn == Line(b)
  {
    var b := BlockFor(h, parse, content, e);
    if torn == "" {
      assert content + torn == content;
    } else if |torn| >= |Marshal(b)| {
      assert torn == Marshal(b) || torn == Line(b);
      RecordExtends(h, parse, content, e, torn);
    } else {
      BlockContinues(h, parse, content, e);
      TornRefused(h, parse, content, b, |torn|);
      assert torn == Marshal(b)[..|torn|];
    }
  }

  /** A record that breaks off does not parse, so nothing after it is accepted. */
  lemma TornRefused(h: string -> string, parse: Reader, content: string, b: Block, n: nat)
    requires JsonLaws(parse) && WellFormed(b) && Terminated(content) && 0 < n < |Marshal(b)|
    ensures !Accepted(h, parse, Records(content + Marshal(b)[..n]))
  {
    WellFormedIsPlain(b);
    hide WellFormed, Plain, Marshal, Accepted;
    var front := MarshalIsInline(b);
    var torn := Marshal(b)[..n];
    assert torn == front[..n];
    OneRecord(torn);
    RecordsAppend(content, torn);
    var rs := Records(content + torn);
    assert rs[|rs| - 1] == torn && parse(torn).None?;
    NotAccepted(h, parse, rs);
  }

  lemma NotAccepted(h: string -> string, parse: Reader, rs: seq<string>)
    requires rs != [] && parse(rs[|rs| - 1]).None?
    ensures !Accepted(h, parse, rs)
  {
    assert !AllParse(parse, rs);
  }

  // ---------- the engine ----------

  lemma ScanOne(rest: string)
    requires rest != ""
    ensures Records(rest) == FirstRecord(rest) + Records(AfterLine(rest)) && |AfterLine(rest)| < |rest|
    ensures FirstRecord(rest) == if DropCR(rest[..LineEnd(rest)]) == "" then [] else [DropCR(rest[..LineEnd(rest)])]
  {
    hide LineEnd, DropCR, AfterLine;
  }

  lemma SkipEmpty(done: seq<string>, all: seq<string>, after: seq<string>)
    requires all == [] + after
    ensures done + all == done + after
  {
  }

  /** One line of a scan: an empty one is skipped, any other joins what was read. */
  lemma FirstStep(done: seq<string>, rest: string)
    requires rest != ""
    ensures var line, after := DropCR(rest[..LineEnd(rest)]), Records(AfterLine(rest));
      && (line == "" ==> done + Records(rest) == done + after)
      && (line != "" ==> done + Records(rest) == done + ([line] + after) == done + [line] + after)
    ensures |AfterLine(rest)| < |rest|
  {
    hide LineEnd, DropCR, AfterLine, FirstRecord, Records;
    ScanOne(rest);
    var line, after := DropCR(rest[..LineEnd(rest)]), Records(AfterLine(rest));
    if line == "" {
      SkipEmpty(done, Records(rest), after);
    } else {
      Reassociate(done, [line], after);
    }
  }

  lemma LastParsedStep(parse: Reader, done: seq<string>, line: string)
    ensures LastParsed(parse, done + [line]) == if parse(line).Some? then parse(line) else LastParsed(parse, done)
  {
    assert (done + [line])[..|done|] == done;
  }

  /** The scan has read the lines of `done` and expects this index and link next. */
  ghost predicate Scanned(h: string -> string, parse: Reader, done: seq<string>, index: nat, link: string) {
    Accepted(h, parse, done) && index == |done| % WIDTH && link == LinkAt(Blocks(parse, done), |done|)
  }

  lemma ScanEnds(h: string -> string, parse: Reader)
    ensures Records("") == [] && Accepted(h, parse, []) && Scanned(h, parse, [], 0, GENESIS)
  {
  }

  lemma ScanIsAccepted(h: string -> string, parse: Reader, done: seq<string>, index: nat, link: string)
    requires Scanned(h, parse, done, index, link)
    ensures Accepted(h, parse, done)
  {
  }

  lemma ScanStep(h: string -> string, parse: Reader, done: seq<string>, index: nat, link: string, line: string)
    requires Scanned(h, parse, done, index, link) && parse(line).Some?
    requires var b := parse(line).value; b.index == index && b.prevHash == link && b.hash == h(Preimage(b))
    ensures Scanned(h, parse, done + [line], (index + 1) % WIDTH, parse(line).value.hash)
  {
    hide Chained, Preimage;
    AcceptedExtends(h, parse, done, line);
    NextIndex(|done| + 1);
  }

  /** What the scan finds wrong with a line, in the order of its checks. */
  function Check(h: string -> string, parsed: Option<Block>, index: nat, link: string): Option<Reason> {
    if parsed.None? then Some(Unparsable)
    else if parsed.value.index != index then Some(SequenceBreak)
    else if parsed.value.prevHash != link then Some(BrokenLink)
    else if parsed.value.hash != h(Preimage(parsed.value)) then Some(Tampered)
    else None
  }

  lemma ScanFault(h: string -> string, parse: Reader, done: seq<string>, index: nat, link: string, line: string,
        after: seq<string>)
    requires Scanned(h, parse, done, index, link) && Check(h, parse(line), index, link).Some?
    ensures FaultAt(h, parse, done + ([line] + after), |done|, Check(h, parse(line), index, link).value)
    ensures !Accepted(h, parse, done + ([line] + after))
  {
    hide Accepted, Preimage;
    FaultHere(h, parse, done + ([line] + after), done, line, after, Check(h, parse(line), index, link).value);
  }

  class Engine {
    const hash: string -> string
    const parse: Reader
    var file: Option<string>  // None: the file does not exist

    constructor (hash: string -> string, parse: Reader)
      ensures this.hash == hash && this.parse == parse && file == None
    {
      this.hash, this.parse, file := hash, parse, None;
    }

    function Content(): string
      reads this
    {
      if file.Some? then file.value else ""
    }

    /** The file is accepted exactly when its records form a correct chain; otherwise the first bad record is named. */
    method Verify() returns (v: Verdict)
      ensures v.Valid? <==> Accepted(hash, parse, Records(Content()))
      ensures v.Fault? ==> FaultAt(hash, parse, Records(Content()), v.at, v.reason)
    {
      hide Records, FirstRecord, LineEnd, DropCR, AfterLine, Preimage, Accepted, Scanned, FaultAt;
      ScanEnds(hash, parse);
      if file.None? {
        return Valid;
      }
      ghost var records := Records(Content());
      var rest, expectedPrevHash, expectedIndex: nat, read: nat := file.value, GENESIS, 0, 0;
      ghost var done: seq<string> := [];
      while rest != ""
        invariant records == done + Records(rest) && read == |done|
        invariant Scanned(hash, parse, done, expectedIndex, expectedPrevHash)
        decreases |rest|
      {
        FirstStep(done, rest);
        var line := DropCR(rest[..LineEnd(rest)]);
        if line != "" {
          var parsed := parse(line);
          if Check(hash, parsed, expectedIndex, expectedPrevHash).Some? {
            ScanFault(hash, parse, done, expectedIndex, expectedPrevHash, line, Records(AfterLine(rest)));
          }
          if parsed.None? {
            return Fault(read, Unparsable);
          }
          var block := parsed.value;
          if block.index != expectedIndex {
            return Fault(read, SequenceBreak);
          }
          if block.prevHash != expectedPrevHash {
            return Fault(read, BrokenLink);
          }
          if block.hash != hash(Preimage(block)) {
            return Fault(read, Tampered);
          }
          ScanStep(hash, parse, done, expectedIndex, expectedPrevHash, line);
          expectedPrevHash, expectedIndex, read := block.hash, (expectedIndex + 1) % WIDTH, read + 1;
          done := done + [line];
        }
        rest := AfterLine(rest);
      }
      assert records == done;
      ScanIsAccepted(hash, parse, done, expectedIndex, expectedPrevHash);
      return Valid;
    }

    method ReadLastBlock() returns (last: Option<Block>)
      ensures last == LastParsed(parse, Records(Content()))
    {
      last := None;
      if file.Some? {
        ghost var records := Records(Content());
        var rest := file.value;
        ghost var done: seq<string> := [];
        while rest != ""
          invariant records == done + Records(rest)
          invariant last == LastParsed(parse, done)
          decreases |rest|
        {
          hide Records, FirstRecord, LineEnd, DropCR, AfterLine, LastParsed;
          FirstStep(done, rest);
          var line := DropCR(rest[..LineEnd(rest)]);
          if line != "" {
            LastParsedStep(parse, done, line);
            var parsed := parse(line);
            if parsed.Some? {
              last := parsed;
            }
            done := done + [line];
          }
          rest := AfterLine(rest);
        }
        assert records == done;
      }
    }

    /**
     Append one record; only the first `written` characters of it reach the file, all
     of them unless the write fails or the machine stops.  `synced` says whether the
     final flush succeeds; when it does not the record may be there all the same.
     */
    method Append(intentId: string, kind: string, status: string, now: string, written: nat, synced: bool)
        returns (r: Option<Block>)
      modifies this
      ensures var b := BlockFor(hash, parse, old(Content()), Event(intentId, kind, status, now));
        && Content() == old(Content()) + Line(b)[..if written < |Line(b)| then written else |Line(b)|]
        && (r == if written >= |Line(b)| && synced then Some(b) else None)
    {
      var last := ReadLastBlock();
      var block := NextBlock(hash, last, intentId, kind, status, now);
      var data := Marshal(block) + "\n";
      var count := if written < |data| then written else |data|;
      file := Some(Content() + data[..count]);
      if count < |data| {
        return None;
      }
      if !synced {
        return None;
      }
      return Some(block);
    }
  }
}
