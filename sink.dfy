/** The seekable byte sink the image is written to (`W: Write + Seek`),
    modelled as an in-memory `Cursor<Vec<u8>>`: a byte buffer and a cursor.
    Writing at a cursor past the end first fills the gap with zero bytes;
    seeking never changes the bytes. */
module Sink {
  import opened Bytes

  datatype SinkState = SinkState(data: seq<byte>, pos: nat)

  function Max(a: nat, b: nat): nat
  {
    if a < b then b else a
  }

  /** `write_all(b)` at the cursor: `b` replaces the bytes at
      `[pos, pos + |b|)`, a gap between the end and the cursor reads as
      zeros, and the cursor moves past `b`. An empty write does nothing. */
  function Put(s: SinkState, b: seq<byte>): (r: SinkState)
    ensures r.pos == s.pos + |b|
    ensures b == [] ==> r.data == s.data
    ensures b != [] ==> |r.data| == Max(|s.data|, s.pos + |b|)
    ensures b != [] ==> r.data[s.pos..s.pos + |b|] == b
  {
    if b == [] then s
    else
      var padded := if s.pos <= |s.data| then s.data else s.data + Zeros(s.pos - |s.data|);
      var tail := if s.pos + |b| < |padded| then padded[s.pos + |b|..] else [];
      SinkState(padded[..s.pos] + b + tail, s.pos + |b|)
  }

  /** The rest of what a write does: a gap between the end and the cursor
      reads as zeros, and every byte outside `[pos, pos + |b|)` is kept. */
  lemma {:induction false} PutFrame(s: SinkState, b: seq<byte>)
    ensures b != [] ==> forall q :: |s.data| <= q < s.pos ==> Put(s, b).data[q] == 0
    ensures forall q :: 0 <= q < |s.data| && !(s.pos <= q < s.pos + |b|) ==> Put(s, b).data[q] == s.data[q]
  {
  }

  /** `seek(SeekFrom::Start(p))`. */
  function SeekTo(s: SinkState, p: nat): (r: SinkState)
    ensures r.data == s.data && r.pos == p
  {
    s.(pos := p)
  }

  /** Nothing that was written below the cursor of `s` is lost in `d`. */
  ghost predicate Keeps(s: SinkState, d: seq<byte>)
  {
    |s.data| <= |d| &&
    forall q :: 0 <= q < |s.data| && q < s.pos ==> d[q] == s.data[q]
  }

  /** Two writes in a row are one write of both: this is what makes the
      byte-at-a-time zero padding loops equal to one write of zeros. */
  lemma {:induction false} PutPut(s: SinkState, a: seq<byte>, b: seq<byte>)
    ensures Put(Put(s, a), b) == Put(s, a + b)
  {
    if a != [] && b != [] {
      var l, r := Put(Put(s, a), b), Put(s, a + b);
      assert |l.data| == |r.data|;
      forall q | 0 <= q < |l.data|
        ensures l.data[q] == r.data[q]
      {
        if q < s.pos {
        } else if q < s.pos + |a| {
          assert l.data[q] == Put(s, a).data[s.pos..s.pos + |a|][q - s.pos];
          assert r.data[q] == r.data[s.pos..s.pos + |a + b|][q - s.pos];
        } else if q < s.pos + |a| + |b| {
          assert l.data[q] == l.data[s.pos + |a|..s.pos + |a| + |b|][q - s.pos - |a|];
          assert r.data[q] == r.data[s.pos..s.pos + |a + b|][q - s.pos];
        }
      }
    } else if a == [] {
      assert a + b == b;
    } else {
      assert a + b == a;
    }
  }

  /** Writing at the end of the buffer appends. */
  lemma {:induction false} PutAtEnd(s: SinkState, b: seq<byte>)
    requires s.pos == |s.data|
    ensures Put(s, b) == SinkState(s.data + b, s.pos + |b|)
  {
    var r := Put(s, b);
    if b != [] {
      assert |r.data| == |s.data + b|;
      forall q | 0 <= q < |r.data|
        ensures r.data[q] == (s.data + b)[q]
      {
        if q >= s.pos {
          assert r.data[q] == r.data[s.pos..s.pos + |b|][q - s.pos];
        }
      }
    }
  }

  /** What a write leaves in place: bytes elsewhere keep holding. */
  lemma {:induction false} PutKeepsHolds(s: SinkState, b: seq<byte>, at: nat, x: seq<byte>)
    requires Holds(s.data, at, x)
    requires at + |x| <= s.pos || s.pos + |b| <= at
    ensures Holds(Put(s, b).data, at, x)
  {
    var d := Put(s, b).data;
    forall q | at <= q < at + |x|
      ensures d[q] == s.data[q]
    {
    }
    assert d[at..at + |x|] == s.data[at..at + |x|];
  }

  /** A write holds its own bytes. */
  lemma {:induction false} PutHolds(s: SinkState, b: seq<byte>)
    requires b != []
    ensures Holds(Put(s, b).data, s.pos, b)
  {
  }

  /** A write at or after the cursor of `s` keeps what `s` had. */
  lemma {:induction false} PutKeeps(s: SinkState, t: SinkState, b: seq<byte>)
    requires Keeps(s, t.data) && s.pos <= t.pos
    ensures Keeps(s, Put(t, b).data)
  {
  }

  lemma {:induction false} KeepsTrans(s: SinkState, t: SinkState, d: seq<byte>)
    requires Keeps(s, t.data) && Keeps(t, d) && s.pos <= t.pos
    ensures Keeps(s, d)
  {
  }

  /** Bytes kept hold where they held. */
  lemma {:induction false} KeepsHolds(s: SinkState, d: seq<byte>, at: nat, x: seq<byte>)
    requires Keeps(s, d) && Holds(s.data, at, x) && at + |x| <= s.pos
    ensures Holds(d, at, x)
  {
    forall q | at <= q < at + |x|
      ensures d[q] == s.data[q]
    {
    }
    assert d[at..at + |x|] == s.data[at..at + |x|];
  }

  /** The writer of the image: a growable buffer with a cursor. */
  class Cursor {
    var data: seq<byte>
    var pos: nat

    function State(): SinkState
      reads this
    {
      SinkState(data, pos)
    }

    /** An empty buffer with the cursor at 0. */
    constructor ()
      ensures State() == SinkState([], 0)
    {
      data, pos := [], 0;
    }

    /** `write_all`. */
    method WriteAll(b: seq<byte>)
      modifies this
      ensures State() == Put(old(State()), b)
    {
      var r := Put(State(), b);
      data, pos := r.data, r.pos;
    }

    /** `seek(SeekFrom::Start(p))`. */
    method SeekStart(p: nat)
      modifies this
      ensures State() == SeekTo(old(State()), p)
    {
      pos := p;
    }

    /** `seek(SeekFrom::Current(0))`: reports the cursor, moves nothing. */
    method StreamPosition() returns (p: nat)
      ensures p == pos
    {
      p := pos;
    }

    /** `write_u8`. */
    method WriteU8(v: byte)
      modifies this
      ensures State() == Put(old(State()), BeU8(v))
    {
      WriteAll(BeU8(v));
    }

    /** `write_u16::<BE>`. */
    method WriteU16Be(v: nat)
      requires v < U16_LIMIT
      modifies this
      ensures State() == Put(old(State()), BeU16(v))
    {
      WriteAll(BeU16(v));
    }

    /** `write_i32::<BE>`. */
    method WriteI32Be(v: int)
      requires I32_MIN <= v <= I32_MAX
      modifies this
      ensures State() == Put(old(State()), BeI32(v))
    {
      WriteAll(BeI32(v));
    }

    /** `write_u32::<BE>`. */
    method WriteU32Be(v: nat)
      requires v < U32_LIMIT
      modifies this
      ensures State() == Put(old(State()), BeU32(v))
    {
      WriteAll(BeU32(v));
    }
  }
}
