/** Database keys: heights sort numerically, and distinct outpoints have distinct keys. */
module Storage {
  import opened Prelude
  import opened Types
  import opened Codec

  function EncodeHeight(h: nat): Bytes { ToBytes(h, 8) }

  function EncodeOutpoint(op: OutPoint): Bytes { ToBytes(op.txid, 32) + ToBytes(op.index, 4) }

  function DecodeOutpoint(key: Bytes): OutPoint
    requires |key| == 36
  {
    OutPoint(FromBytes(key[..32]), FromBytes(key[32..]))
  }

  /** The database's key order: the first differing byte decides. */
  ghost predicate KeyLess(a: Bytes, b: Bytes)
    requires |a| == |b|
  {
    exists k :: 0 <= k < |a| && a[..k] == b[..k] && a[k] < b[k]
  }

  lemma {:induction false} BytesAscend(m: nat, n: nat, width: nat)
    requires m < n < Pow256(width)
    ensures KeyLess(ToBytes(m, width), ToBytes(n, width))
  {
    var a, b := ToBytes(m, width), ToBytes(n, width);
    var a', b' := ToBytes(m / 256, width - 1), ToBytes(n / 256, width - 1);
    assert a[..width - 1] == a' && b[..width - 1] == b';
    if m / 256 < n / 256 {
      BytesAscend(m / 256, n / 256, width - 1);
      var k :| 0 <= k < width - 1 && a'[..k] == b'[..k] && a'[k] < b'[k];
      assert a[..k] == a'[..k] && b[..k] == b'[..k];
    } else {
      assert a[..width - 1] == b[..width - 1] && a[width - 1] < b[width - 1];
    }
  }

  /** Key order is height order, so iterating the height index in key order visits heights in ascending order. */
  lemma HeightKeysSort(m: u64, n: u64)
    ensures KeyLess(EncodeHeight(m), EncodeHeight(n)) <==> m < n
  {
    SmallPowers();
    hide ToBytes, Pow256;
    if m < n {
      BytesAscend(m, n, 8);
    } else if n < m {
      BytesAscend(n, m, 8);
      KeyOrderIsStrict(EncodeHeight(n), EncodeHeight(m));
    }
  }

  lemma KeyOrderIsStrict(a: Bytes, b: Bytes)
    requires |a| == |b| && KeyLess(a, b)
    ensures !KeyLess(b, a)
  {
    var k :| 0 <= k < |a| && a[..k] == b[..k] && a[k] < b[k];
    forall j | 0 <= j < |a| && b[..j] == a[..j] ensures b[j] >= a[j] {
      if j < k { SharedByte(a, b, k, j); }
      if k < j { SharedByte(a, b, j, k); assert false; }
    }
  }

  lemma SharedByte(a: Bytes, b: Bytes, n: nat, i: nat)
    requires i < n <= |a| && n <= |b| && a[..n] == b[..n]
    ensures a[i] == b[i]
  {
    assert a[..n][i] == b[..n][i];
  }

  /** An outpoint reads back from its key, so different outpoints never share an entry. */
  lemma OutpointRoundTrip(op: OutPoint)
    requires op.txid < Pow256(32) && op.index < Pow256(4)
    ensures |EncodeOutpoint(op)| == 36 && DecodeOutpoint(EncodeOutpoint(op)) == op
  {
    BytesRoundTrip(op.txid, 32);
    BytesRoundTrip(op.index, 4);
    hide ToBytes, FromBytes;
    assert EncodeOutpoint(op)[..32] == ToBytes(op.txid, 32);
    assert EncodeOutpoint(op)[32..] == ToBytes(op.index, 4);
  }
}
