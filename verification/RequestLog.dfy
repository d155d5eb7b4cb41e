/** The bounded request log: a window sliding over arrays, against an unbounded log of everything added. */
module RequestLogs {
  import opened Text

  datatype Entry = Entry(id: nat, at: int, body: string)

  const DEFAULT_CAPACITY := 200

  /** The last `n` elements, or all of them when there are fewer. */
  function Last<T>(s: seq<T>, n: nat): seq<T> {
    if |s| <= n then s else s[|s| - n..]
  }

  /** A window of at most `n` after one more element: a full one drops its oldest. */
  function Slid<T>(window: seq<T>, x: T, n: nat): seq<T>
    requires n > 0
  {
    (if |window| >= n then window[1..] else window) + [x]
  }

  lemma LastAppend<T>(s: seq<T>, x: T, n: nat)
    requires n > 0
    ensures Last(s + [x], n) == Slid(Last(s, n), x, n)
  {
  }

  /** Ids run without a gap up to `next`. */
  ghost predicate Consecutive(entries: seq<Entry>, next: nat) {
    forall k :: 0 <= k < |entries| ==> entries[k].id == next - |entries| + 1 + k
  }

  lemma ConsecutiveAppend(entries: seq<Entry>, e: Entry)
    ensures e.id > 0 && Consecutive(entries, e.id - 1) ==> Consecutive(entries + [e], e.id)
  {
  }

  class RequestLog {
    var buffer: array<Entry>
    var start: nat
    var len: nat
    const capacity: nat
    var nextID: nat

    /** Everything added since the last reset. */
    ghost var added: seq<Entry>

    ghost predicate Valid()
      reads this, buffer
    {
      && capacity > 0 && start + len <= buffer.Length
      && Window() == Last(added, capacity)
      && |added| <= nextID && Consecutive(added, nextID)
    }

    /** The slice `entries`. */
    ghost function Window(): seq<Entry>
      requires start + len <= buffer.Length
      reads this, buffer
    {
      buffer[start..start + len]
    }

    constructor (capacity: int)
      ensures Valid() && fresh(buffer) && added == [] && nextID == 0
      ensures this.capacity == if capacity <= 0 then 200 else capacity
    {
      this.capacity := if capacity <= 0 then DEFAULT_CAPACITY else capacity;
      buffer := new Entry[if capacity <= 0 then DEFAULT_CAPACITY else capacity];
      start, len, nextID, added := 0, 0, 0, [];
    }

    /** Go's `append`: in place while the backing array has room behind the slice, else into a bigger copy. */
    method Append(e: Entry)
      requires start + len <= buffer.Length
      modifies this`buffer, this`start, this`len, buffer
      ensures start + len <= buffer.Length && (buffer == old(buffer) || fresh(buffer))
      ensures Window() == old(Window()) + [e]
    {
      if start + len < buffer.Length {
        buffer[start + len] := e;
        len := len + 1;
        assert buffer[start..start + len] == buffer[start..start + len - 1] + [e];
      } else {
        var bigger := new Entry[2 * len + 1];
        forall i | 0 <= i < len { bigger[i] := buffer[start + i]; }
        bigger[len] := e;
        ghost var window := Window();
        buffer, start, len := bigger, 0, len + 1;
        assert forall i :: 0 <= i < len ==> buffer[i] == (window + [e])[i];
      }
    }

    /** `entries[1:]`. */
    method DropOldest()
      requires start + len <= buffer.Length && len > 0
      modifies this`start, this`len
      ensures start + len <= buffer.Length && Window() == old(Window())[1..]
    {
      start, len := start + 1, len - 1;
    }

    /** What `Add` does to the slice. */
    method Push(e: Entry)
      requires start + len <= buffer.Length && capacity > 0
      modifies this`buffer, this`start, this`len, buffer
      ensures start + len <= buffer.Length && (buffer == old(buffer) || fresh(buffer))
      ensures Window() == Slid(old(Window()), e, capacity)
    {
      if len >= capacity { DropOldest(); }
      Append(e);
    }

    method Add(at: int, body: string)
      requires Valid()
      modifies this, buffer
      ensures Valid() && (buffer == old(buffer) || fresh(buffer))
      ensures nextID == old(nextID) + 1
      ensures added == old(added) + [Entry(nextID, at, body)]
    {
      hide Last;
      hide Slid;
      hide Consecutive;
      var e := Entry(nextID + 1, at, body);
      LastAppend(added, e, capacity);
      ConsecutiveAppend(added, e);
      Push(e);
      nextID, added := nextID + 1, added + [e];
    }

    /** The window, newest first. */
    method List() returns (out: seq<Entry>)
      requires Valid()
      ensures |out| == |Last(added, capacity)|
      ensures forall k :: 0 <= k < |out| ==> out[k] == added[|added| - 1 - k]
    {
      out := [];
      for i := len downto 0
        invariant |out| == len - i
        invariant forall k :: 0 <= k < |out| ==> out[k] == Window()[len - 1 - k]
      {
        out := out + [buffer[start + i]];
      }
    }

    method Get(id: nat) returns (found: Option<Entry>)
      requires Valid()
      ensures found.Some? ==> found.value.id == id && found.value in added
      ensures found.Some? <==> nextID - |Last(added, capacity)| < id <= nextID
    {
      ghost var window := Window();
      for i := 0 to len
        invariant forall k :: 0 <= k < i ==> window[k].id != id
      {
        if buffer[start + i].id == id {
          assert window[i] in added;
          WindowIDs(i);
          return Some(buffer[start + i]);
        }
      }
      if nextID - len < id <= nextID {
        WindowIDs(id - 1 - (nextID - len));
      }
      found := None;
    }

    lemma WindowIDs(k: nat)
      requires Valid() && k < len
      ensures Window()[k].id == nextID - len + 1 + k
    {
      assert Window()[k] == added[|added| - len + k];
    }

    method Reset()
      requires Valid()
      modifies this`len, this`added
      ensures Valid() && added == [] && nextID == old(nextID)
    {
      len, added := 0, [];
    }
  }
}
