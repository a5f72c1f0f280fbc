// Small types shared by every module.
module Base {
  datatype Option<+T> = None | Some(value: T)

  datatype Result<+T, +E> = Ok(value: T) | Err(error: E)

  predicate Distinct<T(==)>(s: seq<T>) {
    forall i, j :: 0 <= i < j < |s| ==> s[i] != s[j]
  }

  lemma Regroup<T>(a: seq<T>, b: seq<T>, c: seq<T>)
    ensures a + b + c == a + (b + c)
  {}

  function Without<K, T>(m: map<K, T>, id: K): (r: map<K, T>)
    ensures r.Keys == m.Keys - {id} && forall k :: k in r ==> r[k] == m[k]
  {
    map k | k in m && k != id :: m[k]
  }

  // Widths of the source's fixed-size unsigned integers.
  const U32: nat := 0x1_0000_0000
  const U64: nat := 0x1_0000_0000_0000_0000

  /** An unsigned 64-bit word, and its wrapping sum. */
  type Word = n: nat | n < U64

  function AddWrap(a: Word, b: Word): Word {
    if a + b < U64 then a + b else a + b - U64
  }
}
