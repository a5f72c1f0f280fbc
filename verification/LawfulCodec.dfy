/** The laws assumed of the codec are consistent: an encoding in bytes 1 and 2 that obeys them. */
module LawfulCodec {
  import opened Base
  import opened Wire

  function Num(n: nat): (b: seq<Byte>)
    ensures b != [] && 0 !in b
  {
    if n == 0 then [2] else [1] + Num(n - 1)
  }

  function Nums(s: seq<nat>): (b: seq<Byte>)
    ensures 0 !in b
  {
    if s == [] then [] else Num(s[0]) + Nums(s[1..])
  }

  function List(s: seq<nat>): (b: seq<Byte>)
    ensures 0 !in b
  {
    Num(|s|) + Nums(s)
  }

  function Text(s: string): seq<nat> {
    seq(|s|, i requires 0 <= i < |s| => s[i] as int)
  }

  function Ints(s: seq<Byte>): seq<nat> {
    seq(|s|, i requires 0 <= i < |s| => s[i])
  }

  function Notes(a: seq<Annotation>): (b: seq<Byte>)
    ensures 0 !in b
  {
    if a == [] then [] else List(Text(a[0].id)) + List(Text(a[0].purpose)) + Notes(a[1..])
  }

  function Marshal(p: Payload): (b: seq<Byte>)
    ensures b != [] && 0 !in b
  {
    Num(p.seqNo) + Num(if p.isResponse then 1 else 0) + List(Ints(p.data)) + Num(|p.annotations|) + Notes(p.annotations)
  }

  // ---------- Each encoding can be read off the front of a byte sequence ----------

  lemma {:induction false} NumFront(m: nat, n: nat, x: seq<Byte>, y: seq<Byte>)
    requires Num(m) + x == Num(n) + y
    ensures m == n && x == y
  {
    var s, t := Num(m) + x, Num(n) + y;
    assert s[0] == (if m == 0 then 2 else 1) && t[0] == (if n == 0 then 2 else 1);
    if m == 0 {
      assert s[1..] == x && t[1..] == y;
    } else {
      assert s[1..] == Num(m - 1) + x && t[1..] == Num(n - 1) + y;
      NumFront(m - 1, n - 1, x, y);
    }
  }

  lemma {:induction false} NumsFront(s: seq<nat>, t: seq<nat>, x: seq<Byte>, y: seq<Byte>)
    requires |s| == |t| && Nums(s) + x == Nums(t) + y
    ensures s == t && x == y
  {
    if s == [] {
      assert Nums(s) + x == x && Nums(t) + y == y;
    } else {
      assert Nums(s) + x == Num(s[0]) + (Nums(s[1..]) + x);
      assert Nums(t) + y == Num(t[0]) + (Nums(t[1..]) + y);
      NumFront(s[0], t[0], Nums(s[1..]) + x, Nums(t[1..]) + y);
      NumsFront(s[1..], t[1..], x, y);
      assert s == [s[0]] + s[1..] && t == [t[0]] + t[1..];
    }
  }

  lemma ListFront(s: seq<nat>, t: seq<nat>, x: seq<Byte>, y: seq<Byte>)
    requires List(s) + x == List(t) + y
    ensures s == t && x == y
  {
    assert List(s) + x == Num(|s|) + (Nums(s) + x);
    assert List(t) + y == Num(|t|) + (Nums(t) + y);
    NumFront(|s|, |t|, Nums(s) + x, Nums(t) + y);
    NumsFront(s, t, x, y);
  }

  lemma TextInjective(s: string, t: string)
    requires Text(s) == Text(t)
    ensures s == t
  {
    forall i | 0 <= i < |s| ensures |s| == |t| && s[i] == t[i] {
      assert Text(s)[i] == Text(t)[i];
    }
    assert |Text(s)| == |s| && |Text(t)| == |t|;
  }

  lemma {:induction false} NotesFront(a: seq<Annotation>, b: seq<Annotation>)
    requires |a| == |b| && Notes(a) == Notes(b)
    ensures a == b
  {
    hide List, Nums, Num;
    if a != [] {
      Regroup(List(Text(a[0].id)), List(Text(a[0].purpose)), Notes(a[1..]));
      Regroup(List(Text(b[0].id)), List(Text(b[0].purpose)), Notes(b[1..]));
      var x, y := List(Text(a[0].purpose)) + Notes(a[1..]), List(Text(b[0].purpose)) + Notes(b[1..]);
      ListFront(Text(a[0].id), Text(b[0].id), x, y);
      ListFront(Text(a[0].purpose), Text(b[0].purpose), Notes(a[1..]), Notes(b[1..]));
      TextInjective(a[0].id, b[0].id);
      TextInjective(a[0].purpose, b[0].purpose);
      NotesFront(a[1..], b[1..]);
      assert a == [a[0]] + a[1..] && b == [b[0]] + b[1..];
    }
  }

  lemma IntsInjective(s: seq<Byte>, t: seq<Byte>)
    requires Ints(s) == Ints(t)
    ensures s == t
  {
    assert |Ints(s)| == |s| && |Ints(t)| == |t|;
    assert forall i :: 0 <= i < |s| ==> Ints(s)[i] == s[i];
    assert forall i :: 0 <= i < |t| ==> Ints(t)[i] == t[i];
  }

  function Head(p: Payload): seq<Byte> { Num(if p.isResponse then 1 else 0) }

  function Tail(p: Payload): seq<Byte> { Num(|p.annotations|) + Notes(p.annotations) }

  lemma MarshalParts(p: Payload)
    ensures Marshal(p) == Num(p.seqNo) + (Head(p) + (List(Ints(p.data)) + Tail(p)))
  {
    hide Num, List, Notes;
    var a, b, c, d, e := Num(p.seqNo), Head(p), List(Ints(p.data)), Num(|p.annotations|), Notes(p.annotations);
    calc {
      a + b + c + d + e;
      { Regroup(a + b + c, d, e); }
      a + b + c + (d + e);
      { Regroup(a + b, c, d + e); }
      a + b + (c + (d + e));
      { Regroup(a, b, c + (d + e)); }
      a + (b + (c + (d + e)));
    }
  }

  lemma MarshalInjective(p: Payload, q: Payload)
    requires Marshal(p) == Marshal(q)
    ensures p == q
  {
    hide Num, Nums, List, Notes, Marshal;
    MarshalParts(p);
    MarshalParts(q);
    var p3, q3 := List(Ints(p.data)) + Tail(p), List(Ints(q.data)) + Tail(q);
    NumFront(p.seqNo, q.seqNo, Head(p) + p3, Head(q) + q3);
    NumFront(if p.isResponse then 1 else 0, if q.isResponse then 1 else 0, p3, q3);
    ListFront(Ints(p.data), Ints(q.data), Tail(p), Tail(q));
    NumFront(|p.annotations|, |q.annotations|, Notes(p.annotations), Notes(q.annotations));
    NotesFront(p.annotations, q.annotations);
    IntsInjective(p.data, q.data);
  }

  ghost function Unmarshal(b: seq<Byte>): Option<Payload> {
    if exists p :: Marshal(p) == b then (var p :| Marshal(p) == b; Some(p)) else None
  }

  lemma UnmarshalIs(c: Codec, p: Payload)
    requires forall s :: c.utf8(s) == s
    ensures Unmarshal(Marshal(p)) == Some(Clean(c, p))
  {
    var q := Unmarshal(Marshal(p)).value;
    MarshalInjective(p, q);
    var a := p.annotations;
    assert |CleanAll(c, a)| == |a|;
    assert forall i :: 0 <= i < |a| ==> CleanAll(c, a)[i] == a[i];
    assert CleanAll(c, a) == a;
  }

  /** Some codec obeys the laws. */
  lemma LawsAreConsistent() returns (c: Codec)
    ensures Lawful(c)
  {
    c := Codec(p => Marshal(p), b => Unmarshal(b), s => s);
    forall p: Payload ensures c.unmarshal(c.marshal(p)) == Some(Clean(c, p)) {
      UnmarshalIs(c, p);
    }
  }
}
