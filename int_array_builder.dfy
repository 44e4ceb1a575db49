/**
 * `IntArrayBuilder`: a growable buffer of Java `int`s. The backing array starts with one slot
 * and is replaced by one of twice the highest power of two not above the requested index when
 * an index does not fit.
 */
module IntArrays {
  /** Java's `int`. */
  newtype int32 = x: int | -0x8000_0000 <= x < 0x8000_0000

  /**
   * Indices and sizes stay below 2^30, where `Integer.highestOneBit(e) << 1` is still a positive
   * `int`.
   */
  const MaxIndex: nat := 0x4000_0000

  predicate IsPowerOfTwo(n: nat)
    decreases n
  {
    n == 1 || (n >= 2 && n % 2 == 0 && IsPowerOfTwo(n / 2))
  }

  /** `Integer.highestOneBit(e)` for `e >= 0`: the largest power of two not above `e`, or 0 for 0. */
  function HighestOneBit(e: nat): (r: nat)
    ensures e == 0 ==> r == 0
    ensures e > 0 ==> IsPowerOfTwo(r) && r <= e < 2 * r
  {
    if e <= 1 then e else 2 * HighestOneBit(e / 2)
  }

  /** `n` zeros: what a freshly allocated Java `int[]` holds. */
  function Zeros(n: nat): (r: seq<int32>)
    ensures |r| == n && forall k :: 0 <= k < n ==> r[k] == 0
  {
    seq(n, _ => 0)
  }

  /**
   * The contents after `set(index, value)`: the slot overwritten, or, past the end, the gap
   * filled with zeros and the value appended.
   */
  function Placed(s: seq<int32>, index: nat, value: int32): (r: seq<int32>)
    ensures |r| == if index < |s| then |s| else index + 1
    ensures r[index] == value
    ensures forall k :: 0 <= k < |s| && k != index ==> r[k] == s[k]
    ensures forall k :: |s| <= k < index ==> r[k] == 0
  {
    if index < |s| then s[index := value] else s + Zeros(index - |s|) + [value]
  }

  /** `add(v)` is `set(size, v)`: placing at the end appends. */
  lemma PlacedAtEnd(s: seq<int32>, value: int32)
    ensures Placed(s, |s|, value) == s + [value]
  {
    assert Zeros(0) == [];
  }

  /** Setting the same slot twice keeps only the second value. */
  lemma PlacedTwice(s: seq<int32>, index: nat, v: int32, w: int32)
    ensures Placed(Placed(s, index, v), index, w) == Placed(s, index, w)
  {
    var r1 := Placed(Placed(s, index, v), index, w);
    var r2 := Placed(s, index, w);
    assert |r1| == |r2|;
    forall k | 0 <= k < |r1|
      ensures r1[k] == r2[k]
    {
    }
  }

  /**
   * `System.arraycopy(src, 0, r, 0, count)` into a new `int[length]`; with `length == count` this
   * is `Arrays.copyOf(src, count)`.
   */
  method CopyPrefix(src: array<int32>, count: nat, length: nat) returns (r: array<int32>)
    requires count <= src.Length && count <= length
    ensures fresh(r) && r.Length == length
    ensures r[..] == src[..count] + Zeros(length - count)
  {
    r := new int32[length](_ => 0);
    for k := 0 to count
      invariant r[..] == src[..k] + Zeros(length - k)
    {
      r[k] := src[k];
      assert src[..k + 1] == src[..k] + [src[k]];
    }
  }

  class IntArrayBuilder {
    var data: array<int32>
    var size: nat

    /**
     * The backing array is never empty and its length is a power of two; it holds the contents
     * first and zeros after them.
     */
    ghost predicate Valid()
      reads this, data
    {
      && IsPowerOfTwo(data.Length)
      && size <= data.Length
      && forall k :: size <= k < data.Length ==> data[k] == 0
    }

    /** The elements built so far. */
    function Contents(): (r: seq<int32>)
      reads this, data
      requires size <= data.Length
      ensures |r| == size
    {
      data[..size]
    }

    constructor()
      ensures Valid() && fresh(data)
      ensures size == 0 && data.Length == 1 && Contents() == []
    {
      data := new int32[1](_ => 0);
      size := 0;
    }

    /**
     * `ensureCapacity`: when `expectedSize` does not index into the array, the array is replaced
     * by one of length `highestOneBit(expectedSize) * 2` holding the same contents.
     */
    method EnsureCapacity(expectedSize: int)
      requires Valid() && expectedSize < MaxIndex
      modifies this
      ensures Valid() && size == old(size) && Contents() == old(Contents())
      ensures expectedSize >= 0 ==> data.Length > expectedSize
      ensures expectedSize < old(data.Length) ==> data == old(data)
      ensures expectedSize >= old(data.Length) ==>
                fresh(data) && data.Length == 2 * HighestOneBit(expectedSize) <= 2 * expectedSize < 2 * MaxIndex
    {
      if expectedSize >= data.Length {
        var nSize := 2 * HighestOneBit(expectedSize);
        assert IsPowerOfTwo(nSize / 2) && nSize % 2 == 0;
        var nData := CopyPrefix(data, size, nSize);
        assert nData[..size] == data[..size];
        data := nData;
      }
    }

    /**
     * `set(index, value)`: stores `value` at `index`, growing the array and the size as needed;
     * slots between the old size and `index` read as zero.
     */
    method Set(index: int, value: int32)
      requires Valid() && 0 <= index < MaxIndex
      modifies this, data
      ensures Valid()
      ensures index < old(data.Length) ==> data == old(data)
      ensures index >= old(data.Length) ==> fresh(data) && data.Length == 2 * HighestOneBit(index)
      ensures index >= old(data.Length) ==> unchanged(old(data))
      ensures size == if old(size) > index + 1 then old(size) else index + 1
      ensures Contents() == Placed(old(Contents()), index, value)
    {
      EnsureCapacity(index);
      ghost var before := Contents();
      data[index] := value;
      size := if size > index + 1 then size else index + 1;
      assert Contents() == Placed(before, index, value) by {
        var r := Placed(before, index, value);
        forall k | 0 <= k < size
          ensures data[k] == r[k]
        {
        }
      }
    }

    /** `add(value)`: appends `value`. */
    method Add(value: int32)
      requires Valid() && size < MaxIndex
      modifies this, data
      ensures Valid()
      ensures old(size) < old(data.Length) ==> data == old(data)
      ensures old(size) >= old(data.Length) ==> fresh(data) && data.Length == 2 * HighestOneBit(old(size))
      ensures old(size) >= old(data.Length) ==> unchanged(old(data))
      ensures size == old(size) + 1
      ensures Contents() == old(Contents()) + [value]
    {
      EnsureCapacity(size);
      ghost var before := Contents();
      data[size] := value;
      size := size + 1;
      assert Contents() == before + [value] by {
        assert data[..size] == data[..size - 1] + [data[size - 1]];
      }
    }

    /**
     * `toArray`: an array holding exactly the contents. That is the backing array itself when it
     * is full, and otherwise a new array.
     */
    method ToArray() returns (r: array<int32>)
      requires Valid()
      ensures r[..] == Contents()
      ensures r == data <==> size == data.Length
      ensures r != data ==> fresh(r)
    {
      if size == 0 {
        r := new int32[0];
      } else if size == data.Length {
        r := data;
      } else {
        r := CopyPrefix(data, size, size);
      }
    }
  }
}
