/** Reading an overridden procfs file: one slice of its content per call. */
module Procfs {
  import opened Wire

  /** The end of a read is computed without overflow. */
  predicate Fits(off: nat, n: nat) { off + n < 0x8000_0000_0000_0000 }

  function Min(a: nat, b: nat): nat { if a <= b then a else b }

  /** staticFileHandle.Read with a destination buffer of n bytes. */
  function Read(content: seq<Byte>, n: nat, off: nat): seq<Byte>
    requires Fits(off, n)
  {
    if off >= |content| then [] else content[off..Min(off + n, |content|)]
  }

  function Sum(sizes: seq<nat>): nat {
    if sizes == [] then 0 else sizes[0] + Sum(sizes[1..])
  }

  /** A reader's successive reads: each starts where the previous one ended. */
  function ReadMany(content: seq<Byte>, sizes: seq<nat>, off: nat): seq<Byte>
    requires Fits(off, Sum(sizes))
    decreases sizes
  {
    if sizes == [] then [] else
      var got := Read(content, sizes[0], off);
      got + ReadMany(content, sizes[1..], off + |got|)
  }

  lemma ReadIs(content: seq<Byte>, n: nat, off: nat)
    requires off <= |content| && Fits(off, n)
    ensures Read(content, n, off) == content[off..Min(off + n, |content|)]
    ensures n > 0 ==> (Read(content, n, off) == [] <==> off == |content|)
  {}

  lemma Split<T>(s: seq<T>, a: nat, b: nat, c: nat)
    requires a <= b <= c <= |s|
    ensures s[a..b] + s[b..c] == s[a..c]
  {}

  lemma ReadManyCons(content: seq<Byte>, sizes: seq<nat>, off: nat)
    requires off <= |content| && Fits(off, Sum(sizes)) && sizes != []
    ensures var end := Min(off + sizes[0], |content|);
            && Fits(end, Sum(sizes[1..])) && Sum(sizes) == sizes[0] + Sum(sizes[1..])
            && ReadMany(content, sizes, off) == content[off..end] + ReadMany(content, sizes[1..], end)
  {
    ReadIs(content, sizes[0], off);
  }

  /** Whatever the buffer sizes, the reads rebuild the content up to their total. */
  lemma {:induction false} ReadsRebuild(content: seq<Byte>, sizes: seq<nat>, off: nat)
    requires off <= |content| && Fits(off, Sum(sizes))
    ensures ReadMany(content, sizes, off) == content[off..Min(off + Sum(sizes), |content|)]
    decreases sizes
  {
    if sizes != [] {
      ReadManyCons(content, sizes, off);
      hide ReadMany, Fits, Sum;
      var end, last := Min(off + sizes[0], |content|), Min(off + Sum(sizes), |content|);
      ReadsRebuild(content, sizes[1..], end);
      Split(content, off, end, last);
    }
  }

  /** The content has been read in full exactly when the next read, with a buffer that is not empty,
      returns nothing. */
  lemma EndOfFile(content: seq<Byte>, sizes: seq<nat>, n: nat)
    requires n > 0 && Fits(0, Sum(sizes)) && Fits(Min(Sum(sizes), |content|), n)
    ensures |ReadMany(content, sizes, 0)| == Min(Sum(sizes), |content|)
    ensures ReadMany(content, sizes, 0) == content <==> Read(content, n, Min(Sum(sizes), |content|)) == []
  {
    ReadsRebuild(content, sizes, 0);
    ReadIs(content, n, Min(Sum(sizes), |content|));
  }
}
