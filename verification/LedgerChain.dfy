/**
 The hash chain, for any hash function given from outside: what a correct chain is,
 and that its last hash commits to all of it.
 */
module LedgerChain {
  import opened LedgerFormat

  function Zeros(n: nat): (s: string)
    ensures |s| == n && forall i :: 0 <= i < n ==> s[i] == '0'
  {
    if n == 0 then "" else Zeros(n - 1) + "0"
  }

  /** The hash that the first block links to: 64 zeros. */
  const GENESIS: string := Zeros(64)

  lemma IsGenesis(s: string)
    ensures s == GENESIS <==> |s| == 64 && forall k :: 0 <= k < 64 ==> s[k] == '0'
  {
  }

  /** The hash that the block at position `i` must link to. */
  function LinkAt(bs: seq<Block>, i: nat): string
    requires i <= |bs|
  {
    if i == 0 then GENESIS else bs[i - 1].hash
  }

  ghost predicate BlockOk(h: string -> string, bs: seq<Block>, i: nat)
    requires i < |bs|
  {
    bs[i].index == i % WIDTH && bs[i].prevHash == LinkAt(bs, i) && bs[i].hash == h(Preimage(bs[i]))
  }

  ghost predicate Chained(h: string -> string, bs: seq<Block>) {
    forall i :: 0 <= i < |bs| ==> BlockOk(h, bs, i)
  }

  ghost predicate AllWellFormed(bs: seq<Block>) {
    forall i :: 0 <= i < |bs| ==> WellFormed(bs[i])
  }

  /** No two different texts hashed in the two ledgers have the same hash. */
  ghost predicate NoCollision(h: string -> string, a: seq<Block>, b: seq<Block>) {
    forall i, j :: 0 <= i < |a| && 0 <= j < |b| && h(Preimage(a[i])) == h(Preimage(b[j])) ==>
      Preimage(a[i]) == Preimage(b[j])
  }

  lemma ChainedPrefix(h: string -> string, bs: seq<Block>, n: nat)
    requires Chained(h, bs) && n <= |bs|
    ensures Chained(h, bs[..n])
  {
    forall i | 0 <= i < n ensures BlockOk(h, bs[..n], i) {
      assert BlockOk(h, bs, i);
    }
  }

  lemma LinkedIndex(h: string -> string, bs: seq<Block>, i: nat)
    requires i < |bs| && i < WIDTH && BlockOk(h, bs, i)
    ensures bs[i].index == i && bs[i].hash == h(Preimage(bs[i])) && bs[i].prevHash == LinkAt(bs, i)
  {
  }

  /** Equal hashes at the end make the last blocks equal, and with them the lengths. */
  lemma LastBlocksAgree(h: string -> string, a: seq<Block>, b: seq<Block>)
    requires Chained(h, a) && Chained(h, b) && AllWellFormed(a) && AllWellFormed(b) && NoCollision(h, a, b)
    requires 0 < |a| <= WIDTH && 0 < |b| <= WIDTH && a[|a| - 1].hash == b[|b| - 1].hash
    ensures |a| == |b| && a[|a| - 1] == b[|b| - 1]
  {
    var i, j := |a| - 1, |b| - 1;
    assert BlockOk(h, a, i) && BlockOk(h, b, j);
    hide WellFormed, Preimage, BlockOk;
    assert a[i].index == i && b[j].index == j && a[i].hash == h(Preimage(a[i])) && b[j].hash == h(Preimage(b[j])) by {
      LinkedIndex(h, a, i);
      LinkedIndex(h, b, j);
    }
    UniqueDecoding(a[i], b[j]);
  }

  /** Equal last blocks link to equal hashes. */
  lemma FrontsEndAlike(h: string -> string, a: seq<Block>, b: seq<Block>)
    requires Chained(h, a) && Chained(h, b) && 1 < |a| == |b| && a[|a| - 1] == b[|b| - 1]
    ensures a[|a| - 2].hash == b[|b| - 2].hash
  {
    assert BlockOk(h, a, |a| - 1) && BlockOk(h, b, |b| - 1);
  }

  lemma FrontFits(h: string -> string, a: seq<Block>, b: seq<Block>, n: nat)
    requires Chained(h, a) && Chained(h, b) && AllWellFormed(a) && AllWellFormed(b) && NoCollision(h, a, b)
    requires n <= |a| && n <= |b|
    ensures Chained(h, a[..n]) && Chained(h, b[..n]) && AllWellFormed(a[..n]) && AllWellFormed(b[..n]) &&
      NoCollision(h, a[..n], b[..n])
  {
    hide WellFormed, Preimage, BlockOk;
    ChainedPrefix(h, a, n);
    ChainedPrefix(h, b, n);
  }

  /**
   The hash chain commits to history: two verified ledgers of well-formed blocks that
   end in the same hash are equal block for block, unless two of their texts collide.
   */
  lemma {:induction false} ChainCommits(h: string -> string, a: seq<Block>, b: seq<Block>)
    requires Chained(h, a) && Chained(h, b) && AllWellFormed(a) && AllWellFormed(b) && NoCollision(h, a, b)
    requires 0 < |a| <= WIDTH && 0 < |b| <= WIDTH && a[|a| - 1].hash == b[|b| - 1].hash
    ensures a == b
    decreases |a|
  {
    hide *;
    LastBlocksAgree(h, a, b);
    var n := |a| - 1;
    if n > 0 {
      FrontsEndAlike(h, a, b);
      FrontFits(h, a, b, n);
      ChainCommits(h, a[..n], b[..n]);
    }
    assert a == a[..n] + [a[n]] && b == b[..n] + [b[n]];
  }

  /** A block made from the end of a chain extends it. */
  lemma ChainExtends(h: string -> string, bs: seq<Block>, b: Block)
    requires Chained(h, bs) && b.index == |bs| % WIDTH && b.prevHash == LinkAt(bs, |bs|) && b.hash == h(Preimage(b))
    ensures Chained(h, bs + [b])
  {
    forall i | 0 <= i < |bs + [b]| ensures BlockOk(h, bs + [b], i) {
      if i < |bs| {
        assert BlockOk(h, bs, i);
      }
    }
  }
}
