/** The frame format of fdchan: a four-byte big-endian length, a JSON body, and the
    descriptors the kernel attaches to the frame's first byte.  json.Marshal and
    json.Unmarshal are parameters that obey `Lawful`. */
module Wire {
  import opened Base

  type Byte = b: int | 0 <= b < 256

  /** Identity of an open file; a descriptor received over the socket names the same one. */
  type Fd = nat

  /** The control buffer of readWire has room for this many descriptors. */
  const MAX_FDS: nat := 10

  datatype Annotation = Annotation(id: string, purpose: string)

  datatype Payload = Payload(seqNo: nat, isResponse: bool, annotations: seq<Annotation>, data: seq<Byte>)

  /** Who wrote a frame: the Request call with that sequence number, or the responder of the
      h-th request this side's HandleRequest returned.  History only: never transmitted. */
  datatype Origin = FromCall(q: nat) | FromResponder(h: nat)

  datatype Frame = Frame(payload: Payload, fds: seq<Fd>, origin: Origin)

  // ---------- The codec ----------

  datatype Codec = Codec(
    marshal: Payload -> seq<Byte>,
    unmarshal: seq<Byte> -> Option<Payload>,
    utf8: string -> string)

  /** What is assumed of encoding/json: decoding undoes encoding, except that strings come
      back as valid UTF-8; a raw NUL byte or an empty input is not a JSON text. */
  ghost predicate Lawful(c: Codec) {
    && (forall p: Payload :: p.seqNo < U64 ==> c.unmarshal(c.marshal(p)) == Some(Clean(c, p)))
    && (forall b: seq<Byte> :: 0 in b ==> c.unmarshal(b) == None)
    && c.unmarshal([]) == None
  }

  function CleanAll(c: Codec, a: seq<Annotation>): seq<Annotation> {
    seq(|a|, i requires 0 <= i < |a| => Annotation(c.utf8(a[i].id), c.utf8(a[i].purpose)))
  }

  function Clean(c: Codec, p: Payload): Payload {
    p.(annotations := CleanAll(c, p.annotations))
  }

  // ---------- The header ----------

  function PutU32(n: nat): (b: seq<Byte>)
    ensures |b| == 4
  {
    [n / 0x100_0000 % 0x100, n / 0x1_0000 % 0x100, n / 0x100 % 0x100, n % 0x100]
  }

  function GetU32(b: seq<Byte>): nat
    requires |b| == 4
  {
    var b0: int, b1: int, b2: int, b3: int := b[0], b[1], b[2], b[3];
    b0 * 0x100_0000 + b1 * 0x1_0000 + b2 * 0x100 + b3
  }

  /** The header carries the length modulo 2^32. */
  lemma HeaderRoundTrip(n: nat)
    ensures GetU32(PutU32(n)) == n % U32
  {
    var a, b, c := n / 0x100, n / 0x1_0000, n / 0x100_0000;
    assert n == 0x100 * a + n % 0x100;
    assert a == 0x100 * b + a % 0x100 by { assert a / 0x100 == b; }
    assert b == 0x100 * c + b % 0x100 by { assert b / 0x100 == c; }
    assert c == 0x100 * (c / 0x100) + c % 0x100;
    var g := GetU32(PutU32(n));
    assert n == U32 * (c / 0x100) + g;
    assert 0 <= g < U32;
    ModUnique(n, c / 0x100, g);
  }

  lemma ModUnique(n: nat, k: nat, g: nat)
    requires n == U32 * k + g && g < U32
    ensures n % U32 == g
  {}

  /** Exactly the bodies shorter than 2^32 bytes announce their own length, most significant byte
      first. */
  lemma HeaderExact(n: nat)
    ensures var b := PutU32(n);
            b[0] as int * 0x100_0000 + b[1] as int * 0x1_0000 + b[2] as int * 0x100 + b[3] as int == n <==> n < 0x1_0000_0000
    ensures GetU32(PutU32(n)) == n <==> n < 0x1_0000_0000
  {
    HeaderRoundTrip(n);
  }

  // ---------- The byte stream ----------

  function Encode(c: Codec, p: Payload): (b: seq<Byte>)
    ensures |b| == 4 + |c.marshal(p)|
  {
    PutU32(|c.marshal(p)|) + c.marshal(p)
  }

  /** Everything written so far, as the reader's side sees it. */
  function Flat(c: Codec, fs: seq<Frame>): seq<Byte> {
    if fs == [] then [] else Flat(c, fs[..|fs| - 1]) + Encode(c, fs[|fs| - 1].payload)
  }

  /** The descriptors attached to a byte in [lo, hi): those of frames starting there. */
  function FdsIn(c: Codec, fs: seq<Frame>, lo: nat, hi: nat): seq<Fd> {
    if fs == [] then [] else
      var n := |fs| - 1;
      FdsIn(c, fs[..n], lo, hi) +
      if lo <= |Flat(c, fs[..n])| < hi then fs[n].fds else []
  }

  /** The kernel keeps the prefix that fits the control buffer. */
  function Cap(fds: seq<Fd>): seq<Fd> {
    if |fds| <= MAX_FDS then fds else fds[..MAX_FDS]
  }

  function Zeros(n: nat): (z: seq<Byte>)
    ensures |z| == n && forall i :: 0 <= i < n ==> z[i] == 0
  {
    seq(n, i => 0)
  }

  lemma FlatAppend(c: Codec, fs: seq<Frame>, f: Frame)
    ensures Flat(c, fs + [f]) == Flat(c, fs) + Encode(c, f.payload)
  {
    assert (fs + [f])[..|fs|] == fs;
  }

  /** A prefix of the frames is a prefix of the bytes. */
  lemma {:induction false} FlatPrefix(c: Codec, fs: seq<Frame>, k: nat)
    requires k <= |fs|
    ensures |Flat(c, fs[..k])| <= |Flat(c, fs)|
    ensures Flat(c, fs)[..|Flat(c, fs[..k])|] == Flat(c, fs[..k])
    decreases |fs| - k
  {
    if k == |fs| {
      assert fs[..k] == fs;
    } else {
      FlatPrefix(c, fs, k + 1);
      FlatAppend(c, fs[..k], fs[k]);
      assert fs[..k + 1] == fs[..k] + [fs[k]];
      var m := |Flat(c, fs[..k])|;
      assert Flat(c, fs)[..m] == Flat(c, fs)[..|Flat(c, fs[..k + 1])|][..m];
    }
  }

  /** The bytes after the first k frames start with the encoding of frame k. */
  lemma FlatAt(c: Codec, fs: seq<Frame>, k: nat)
    requires k < |fs|
    ensures |Flat(c, fs[..k])| + |Encode(c, fs[k].payload)| == |Flat(c, fs[..k + 1])| <= |Flat(c, fs)|
    ensures Flat(c, fs)[|Flat(c, fs[..k])|..|Flat(c, fs[..k + 1])|] == Encode(c, fs[k].payload)
  {
    FlatPrefix(c, fs, k + 1);
    FlatAppend(c, fs[..k], fs[k]);
    assert fs[..k + 1] == fs[..k] + [fs[k]];
    var lo, hi := |Flat(c, fs[..k])|, |Flat(c, fs[..k + 1])|;
    assert Flat(c, fs)[lo..hi] == Flat(c, fs)[..hi][lo..];
  }

  /** No frame starts in the window, so no descriptor arrives. */
  lemma {:induction false} FdsNone(c: Codec, fs: seq<Frame>, lo: nat, hi: nat)
    requires forall k :: 0 <= k < |fs| ==> !(lo <= |Flat(c, fs[..k])| < hi)
    ensures FdsIn(c, fs, lo, hi) == []
  {
    if fs != [] {
      var n := |fs| - 1;
      assert forall k :: 0 <= k < n ==> fs[..n][..k] == fs[..k];
      FdsNone(c, fs[..n], lo, hi);
    }
  }

  lemma {:induction false} FdsExtend(c: Codec, fs: seq<Frame>, k: nat, lo: nat, hi: nat)
    requires k <= |fs|
    requires k < |fs| ==> hi <= |Flat(c, fs[..k])|
    ensures FdsIn(c, fs, lo, hi) == FdsIn(c, fs[..k], lo, hi)
    decreases |fs|
  {
    if k == |fs| {
      assert fs[..k] == fs;
    } else {
      var n := |fs| - 1;
      assert fs[..n][..k] == fs[..k];
      FlatPrefix(c, fs[..n], k);
      FdsExtend(c, fs[..n], k, lo, hi);
    }
  }

  /** Frames start at increasing positions. */
  lemma FlatGrows(c: Codec, fs: seq<Frame>, j: nat, k: nat)
    requires j < k <= |fs|
    ensures |Flat(c, fs[..j])| < |Flat(c, fs[..k])|
  {
    assert fs[..k][..j] == fs[..j] && fs[..k][..j + 1] == fs[..j + 1];
    FlatAt(c, fs[..k], j);
  }

  /** A header read at a frame boundary receives that frame's descriptors and no others. */
  lemma FdsAt(c: Codec, fs: seq<Frame>, k: nat, n: nat)
    requires k < |fs| && 1 <= n <= 4
    ensures FdsIn(c, fs, |Flat(c, fs[..k])|, |Flat(c, fs[..k])| + n) == fs[k].fds
  {
    var lo := |Flat(c, fs[..k])|;
    assert lo + n <= |Flat(c, fs[..k + 1])| by { FlatAt(c, fs, k); }
    FdsExtend(c, fs, k + 1, lo, lo + n);
    var g := fs[..k + 1];
    assert g[..k] == fs[..k] && g[k] == fs[k];
    forall j | 0 <= j < k ensures !(lo <= |Flat(c, fs[..k][..j])| < lo + n) {
      assert fs[..k][..j] == fs[..j];
      FlatGrows(c, fs, j, k);
    }
    FdsNone(c, fs[..k], lo, lo + n);
  }
}
