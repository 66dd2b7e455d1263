/** The growable buffer of core_std/src/vec.rs. Storage is an array whose capacity is exactly
    what the source's allocator calls ask for: one slot from `new`, then `len + 1` slots on
    every later `push` (a reallocation that keeps the old entries). `len` counts the slots
    in use. */
module CoreVec {
  import opened Wrappers

  class Vec<T(0)> {
    var data: array<T>
    var len: nat

    /** Slots `[0, len)` are in use; the capacity is one slot for an empty vector and
        exactly `len` afterwards. */
    ghost predicate Valid()
      reads this
    {
      data.Length == if len == 0 then 1 else len
    }

    /** The entries in order. */
    ghost function Contents(): seq<T>
      reads this, data
      requires Valid()
    {
      data[..len]
    }

    constructor ()
      ensures Valid() && len == 0 && Contents() == [] && fresh(data)
    {
      data := new T[1];
      len := 0;
    }

    /** Writes `value` at index `len` (first into the slot `new` allocated, later into a
        reallocated buffer one slot larger) and counts it. */
    method Push(value: T)
      requires Valid()
      modifies this, data
      ensures Valid()
      ensures len == old(len) + 1
      ensures Contents() == old(Contents()) + [value]
      ensures if old(len) == 0 then data == old(data) else fresh(data)
    {
      if len == 0 {
        data[0] := value;
        len := len + 1;
      } else {
        var grown := new T[len + 1];
        forall i | 0 <= i < len {
          grown[i] := data[i];
        }
        data := grown;
        data[len] := value;
        len := len + 1;
      }
    }

    /** `Some` of the entry at `idx` exactly when `idx < len`. */
    function Get(idx: nat): (r: Option<T>)
      reads this, data
      requires Valid()
      ensures r.Some? <==> idx < len
      ensures r.Some? ==> r.value == Contents()[idx]
    {
      if idx < len then Some(data[idx]) else None
    }

    /** The mutable reference is modelled as the slot it designates: present exactly when
        `idx < len`, and the slot holds what `get` returns. */
    function GetMut(idx: nat): (r: Option<nat>)
      reads this, data
      requires Valid()
      ensures r.Some? <==> Get(idx).Some?
      ensures r.Some? ==> r.value < data.Length && data[r.value] == Get(idx).value
    {
      if idx < len then Some(idx) else None
    }

    /** `v[idx]` is `get(idx).unwrap()`: a panic exactly when `idx >= len`. */
    function Index(idx: nat): (r: Result<T>)
      reads this, data
      requires Valid()
      ensures r.Failed? <==> idx >= len
      ensures r.Ok? ==> Get(idx) == Some(r.value)
    {
      match Get(idx)
      case Some(v) => Ok(v)
      case None => Failed(UNWRAP_NONE)
    }
  }

  /** Pushing never disturbs earlier entries: after two pushes both values are where they
      were written, and reading one past the end panics. */
  method PushKeepsEarlierEntries()
  {
    var v := new Vec<int>();
    v.Push(7);
    v.Push(9);
    assert v.Contents() == [7, 9];
    assert v.Get(0) == Some(7) && v.Get(1) == Some(9) && v.Get(2) == None;
    assert v.Index(2).Failed?;
  }
}
