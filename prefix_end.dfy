/**
 * The prefix-end key of a byte string: the upper bound of a range scan over
 * every key that starts with it.
 */
module MetaSrvUtil {
  import opened Ints

  /**
   * The specification, read from the back: an empty key (or one whose last
   * byte below 0xFF has been passed) ends in `[0]`; a last byte below 0xFF
   * is incremented and everything after it dropped; a trailing 0xFF is
   * dropped and the scan continues.
   */
  function PrefixEnd(key: seq<u8>): (r: seq<u8>)
    ensures 1 <= |r| <= if |key| == 0 then 1 else |key|
    decreases |key|
  {
    if |key| == 0 then [0]
    else if key[|key| - 1] < 0xFF then key[..|key| - 1] + [key[|key| - 1] + 1]
    else PrefixEnd(key[..|key| - 1])
  }

  /**
   * `get_prefix_end_key`: walks the key from its last index backwards; at the
   * first byte below 0xFF it copies the key up to and including that index
   * and increments the copied byte in place.
   */
  method GetPrefixEndKey(key: seq<u8>) returns (end: seq<u8>)
    ensures end == PrefixEnd(key)
  {
    var i: int := |key| - 1;
    assert key[..|key|] == key;
    while i >= 0
      invariant -1 <= i < |key|
      invariant PrefixEnd(key[..i + 1]) == PrefixEnd(key)
    {
      var v := key[i];
      if v < 0xFF {
        var buf := new u8[i + 1](j requires 0 <= j < i + 1 => key[j]);
        buf[i] := v + 1;
        assert key[..i + 1][..i] == key[..i];
        assert buf[..] == key[..i] + [v + 1];
        return buf[..];
      }
      assert key[..i + 1][..i] == key[..i];
      i := i - 1;
    }
    return [0];
  }

  /** A key with no byte below 0xFF, the empty key included, ends in exactly `[0]`. */
  lemma {:induction false} PrefixEndOfAllMax(key: seq<u8>)
    requires forall j :: 0 <= j < |key| ==> key[j] == 0xFF
    ensures PrefixEnd(key) == [0]
    decreases |key|
  {
    if |key| > 0 {
      PrefixEndOfAllMax(key[..|key| - 1]);
    }
  }

  /**
   * When `i` is the last index whose byte is below 0xFF, the prefix end keeps
   * the bytes before `i`, increments the byte at `i` and stops there.
   */
  lemma {:induction false} PrefixEndIncrementsLastBelowMax(key: seq<u8>, i: nat)
    requires i < |key| && key[i] < 0xFF
    requires forall j :: i < j < |key| ==> key[j] == 0xFF
    ensures |PrefixEnd(key)| == i + 1
    ensures PrefixEnd(key)[..i] == key[..i]
    ensures PrefixEnd(key)[i] == key[i] + 1
    decreases |key|
  {
    if i < |key| - 1 {
      var shorter := key[..|key| - 1];
      assert shorter[..i] == key[..i];
      PrefixEndIncrementsLastBelowMax(shorter, i);
    }
  }

  /** The last index whose byte is below 0xFF, when there is one. */
  lemma {:induction false} LastBelowMax(key: seq<u8>) returns (i: nat)
    requires exists j :: 0 <= j < |key| && key[j] < 0xFF
    ensures i < |key| && key[i] < 0xFF
    ensures forall j :: i < j < |key| ==> key[j] == 0xFF
    decreases |key|
  {
    if key[|key| - 1] < 0xFF {
      i := |key| - 1;
    } else {
      var shorter := key[..|key| - 1];
      var j :| 0 <= j < |key| && key[j] < 0xFF;
      assert shorter[j] < 0xFF;
      i := LastBelowMax(shorter);
    }
  }

  /** Strict lexicographic order on byte strings: a proper prefix is smaller. */
  predicate LexLess(a: seq<u8>, b: seq<u8>)
    decreases |a|
  {
    |b| > 0 && (|a| == 0 || a[0] < b[0] || (a[0] == b[0] && LexLess(a[1..], b[1..])))
  }

  /** Two strings that agree before index `k` and differ there are ordered by their bytes at `k`. */
  lemma {:induction false} LexLessAtFirstDifference(a: seq<u8>, b: seq<u8>, k: nat)
    requires k < |a| && k < |b|
    requires a[..k] == b[..k] && a[k] < b[k]
    ensures LexLess(a, b)
    decreases k
  {
    if k > 0 {
      assert a[0] == a[..k][0] == b[..k][0] == b[0];
      assert a[1..][..k - 1] == a[..k][1..] == b[..k][1..] == b[1..][..k - 1];
      LexLessAtFirstDifference(a[1..], b[1..], k - 1);
    }
  }

  /**
   * The point of the prefix end: when the key has a byte below 0xFF, every
   * byte string that starts with the key (the key itself included) sorts
   * strictly below it.
   */
  lemma PrefixEndBoundsEveryExtension(key: seq<u8>, suffix: seq<u8>)
    requires exists j :: 0 <= j < |key| && key[j] < 0xFF
    ensures LexLess(key + suffix, PrefixEnd(key))
  {
    var i := LastBelowMax(key);
    PrefixEndIncrementsLastBelowMax(key, i);
    var e := PrefixEnd(key);
    assert (key + suffix)[..i] == key[..i];
    LexLessAtFirstDifference(key + suffix, e, i);
  }

  /** The source's examples, and the all-0xFF case. */
  lemma PrefixEndExamples()
    ensures PrefixEnd([0x74, 0x65, 0x73, 0x74, 0x61]) == [0x74, 0x65, 0x73, 0x74, 0x62]  // "testa" to "testb"
    ensures PrefixEnd([0, 0, 26]) == [0, 0, 27]
    ensures PrefixEnd([0, 0, 255]) == [0, 1]
    ensures PrefixEnd([0, 255, 255]) == [1]
    ensures PrefixEnd([255, 255]) == [0]
    ensures PrefixEnd([]) == [0]
  {
  }
}
