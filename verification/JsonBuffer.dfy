/** SB, the growing string buffer of ccan_json.c: `start` is an array with one byte more than
    the capacity, for the terminator; `cur` is the fill. */
module JsonBuffer {
  import opened Bytes

  class Buffer {
    var start: array<byte>
    var cur: nat
    var end: nat

    ghost predicate Valid()
      reads this
    {
      cur <= end && start.Length == end + 1 && end >= 16
    }

    ghost function Contents(): bytes
      reads this, start
      requires Valid()
    {
      start[..cur]
    }

    /** sb_init. */
    constructor ()
      ensures Valid() && Contents() == [] && fresh(start) && end == 16
    {
      start := new byte[17](_ => 0);
      cur := 0;
      end := 16;
    }

    /** sb_grow: doubles until `need` more bytes fit. */
    method Grow(need: nat)
      requires Valid()
      modifies this
      ensures Valid() && fresh(start)
      ensures Contents() == old(Contents()) && cur == old(cur)
      ensures end - cur >= need
      ensures end == 2 * old(end) || end < 2 * (cur + need)
    {
      var length := cur;
      var alloc := end * 2;
      while alloc < length + need
        invariant alloc >= 2 * end
        invariant alloc == 2 * end || alloc < 2 * (length + need)
        decreases length + need - alloc
      {
        alloc := alloc * 2;
      }
      var bigger := new byte[alloc + 1](_ => 0);
      for i := 0 to length
        modifies bigger
        invariant bigger[..i] == start[..i]
      {
        bigger[i] := start[i];
      }
      start := bigger;
      end := alloc;
    }

    /** sb_need. */
    method Need(need: nat)
      requires Valid()
      modifies this
      ensures Valid() && (start == old(start) || fresh(start))
      ensures Contents() == old(Contents()) && cur == old(cur)
      ensures end - cur >= need
    {
      if end - cur < need {
        Grow(need);
      }
    }

    /** sb_put and sb_puts. */
    method Put(text: bytes)
      requires Valid()
      modifies this, start
      ensures Valid() && (start == old(start) || fresh(start))
      ensures Contents() == old(Contents()) + text
    {
      Need(|text|);
      for i := 0 to |text|
        invariant Valid() && cur == old(cur) && end - cur >= |text|
        invariant start == old(start) || fresh(start)
        invariant start[..cur] == old(Contents())
        invariant start[cur..cur + i] == text[..i]
      {
        start[cur + i] := text[i];
      }
      cur := cur + |text|;
    }

    /** sb_putc. */
    method PutByte(c: byte)
      requires Valid()
      modifies this, start
      ensures Valid() && (start == old(start) || fresh(start))
      ensures Contents() == old(Contents()) + [c]
    {
      if cur >= end {
        Grow(1);
      }
      start[cur] := c;
      cur := cur + 1;
    }

    /** sb_finish: the terminator always has a place. */
    method Finish()
      requires Valid()
      modifies start
      ensures Valid() && Contents() == old(Contents())
      ensures start[..cur + 1] == old(Contents()) + [0]
    {
      start[cur] := 0;
    }
  }
}
