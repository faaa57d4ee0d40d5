// android.os.Parcel, reduced to the Java ints BulletSpanCompat writes and reads.

module Parcels {
  import opened Jvm

  /**
   * `writeInt` at data position `pos`: overwrites the int there, or appends at the end, and the
   * position moves past it.
   */
  function WriteAt(data: seq<Int32>, pos: nat, v: Int32): (r: seq<Int32>)
    requires pos <= |data|
    ensures |r| == if pos < |data| then |data| else |data| + 1
    ensures r[pos] == v && r[..pos] == data[..pos]
    ensures pos < |data| ==> r[pos + 1..] == data[pos + 1..]
  {
    if pos < |data| then data[pos := v] else data + [v]
  }

  /** Writing several ints one after another from `pos`. */
  function WriteAllAt(data: seq<Int32>, pos: nat, vs: seq<Int32>): seq<Int32>
    requires pos <= |data|
    decreases |vs|
  {
    if vs == [] then data else WriteAllAt(WriteAt(data, pos, vs[0]), pos + 1, vs[1..])
  }

  /** Writing a non-empty run is writing its first int, then the rest from the next position. */
  lemma WriteAllAtStep(data: seq<Int32>, pos: nat, vs: seq<Int32>)
    requires pos <= |data| && vs != []
    ensures WriteAllAt(data, pos, vs) == WriteAllAt(WriteAt(data, pos, vs[0]), pos + 1, vs[1..])
  {
  }

  /** The written ints sit at `pos` onward; what lies before them, and after them, is untouched. */
  lemma {:induction false} WriteAllAtContents(data: seq<Int32>, pos: nat, vs: seq<Int32>)
    requires pos <= |data|
    ensures var r := WriteAllAt(data, pos, vs);
            && |r| >= pos + |vs| && r[pos..pos + |vs|] == vs
            && r[..pos] == data[..pos] && r[pos + |vs|..] == if pos + |vs| <= |data| then data[pos + |vs|..] else []
    decreases |vs|
  {
    if vs != [] {
      var d1 := WriteAt(data, pos, vs[0]);
      WriteAllAtContents(d1, pos + 1, vs[1..]);
      var r := WriteAllAt(data, pos, vs);
      assert r[pos] == d1[pos] by {
        assert r[..pos + 1] == d1[..pos + 1];
      }
      assert r[pos..pos + |vs|] == [r[pos]] + r[pos + 1..pos + |vs|];
    }
  }

  /**
   * `readInt` at data position `pos`: the int there and the position after it, or, past the end of
   * the data, 0 and the position unchanged.
   */
  function ReadAt(data: seq<Int32>, pos: nat): (r: (Int32, nat))
    ensures pos < |data| ==> r == (data[pos], pos + 1)
    ensures pos >= |data| ==> r == (0, pos)
  {
    if pos < |data| then (data[pos], pos + 1) else (0, pos)
  }

  class Parcel {
    /** The ints written so far, and the shared read/write data position. */
    var data: seq<Int32>
    var position: nat

    predicate Valid()
      reads this
    {
      position <= |data|
    }

    /** `Parcel.obtain()`: empty, at position 0. */
    constructor ()
      ensures Valid() && data == [] && position == 0
    {
      data, position := [], 0;
    }

    method WriteInt(v: Int32)
      requires Valid()
      modifies this
      ensures Valid() && data == WriteAt(old(data), old(position), v) && position == old(position) + 1
    {
      data := WriteAt(data, position, v);
      position := position + 1;
    }

    method ReadInt() returns (v: Int32)
      requires Valid()
      modifies this
      ensures Valid() && data == old(data) && (v, position) == ReadAt(old(data), old(position))
    {
      if position < |data| {
        v := data[position];
        position := position + 1;
      } else {
        v := 0;
      }
    }

    method SetDataPosition(pos: nat)
      requires pos <= |data|
      modifies this
      ensures Valid() && data == old(data) && position == pos
    {
      position := pos;
    }
  }
}
