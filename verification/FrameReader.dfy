/**
 The bounded line reader of the permission socket.  The blocking and the asynchronous reader have
 the same body, so one method stands for both.
 */
module FrameReader {
  import opened Bytes
  import opened Options

  const NEWLINE: Byte := 10
  const CHUNK := 8192
  const USIZE_MAX := WORD - 1

  datatype Outcome = Line(bytes: seq<Byte>) | TooLarge | NotUtf8 | Failed

  /** The place of the first newline, or the length. */
  function Newline(data: seq<Byte>): (n: nat)
    ensures n <= |data|
  {
    if data == [] || data[0] == NEWLINE then 0 else 1 + Newline(data[1..])
  }

  function Decoded(bytes: seq<Byte>, isUtf8: seq<Byte> -> bool): Outcome {
    if isUtf8(bytes) then Line(bytes) else NotUtf8
  }

  /** The first line of a stream, or all of it when no newline ends it, unless it is over the limit. */
  function FirstLine(data: seq<Byte>, limit: nat, isUtf8: seq<Byte> -> bool): Outcome {
    var n := Newline(data);
    if n <= limit then Decoded(data[..n], isUtf8) else TooLarge
  }

  /** One byte more than the limit, as far as a word goes. */
  function Capacity(limit: nat): nat {
    if limit < USIZE_MAX then limit + 1 else USIZE_MAX
  }

  lemma {:induction false} NewlineFound(data: seq<Byte>, n: nat)
    requires n <= |data| && (forall i | 0 <= i < n :: data[i] != NEWLINE) && (n < |data| ==> data[n] == NEWLINE)
    ensures Newline(data) == n
  {
    if n > 0 {
      NewlineFound(data[1..], n - 1);
    }
  }

  lemma {:induction false} NewlineIsFirst(data: seq<Byte>)
    ensures forall i | 0 <= i < Newline(data) :: data[i] != NEWLINE
    ensures Newline(data) < |data| ==> data[Newline(data)] == NEWLINE
  {
    if data != [] && data[0] != NEWLINE {
      NewlineIsFirst(data[1..]);
    }
  }

  lemma NewlineNotYet(data: seq<Byte>, n: nat)
    requires n <= |data| && forall i | 0 <= i < n :: data[i] != NEWLINE
    ensures n <= Newline(data)
  {
    NewlineIsFirst(data);
  }

  ghost predicate Clean(data: seq<Byte>) {
    forall i | 0 <= i < |data| :: data[i] != NEWLINE
  }

  lemma FoundBehind(ahead: seq<Byte>, buf: seq<Byte>, portion: seq<Byte>, n: nat)
    requires Clean(buf) && buf + portion <= ahead && n < |portion| && portion[n] == NEWLINE
    requires forall i | 0 <= i < n :: portion[i] != NEWLINE
    ensures Newline(ahead) == |buf| + n
  {
    var all := buf + portion;
    assert forall i | 0 <= i < |buf| + n :: ahead[i] == all[i];
    assert ahead[|buf| + n] == all[|buf| + n] == portion[n];
    NewlineFound(ahead, |buf| + n);
  }

  /** A line that is still open, and one more portion of the stream. */
  lemma OnePortion(ahead: seq<Byte>, buf: seq<Byte>, portion: seq<Byte>)
    requires Clean(buf) && buf + portion <= ahead
    ensures var n := Newline(portion);
            if n < |portion| then Newline(ahead) == |buf| + n && (buf + portion)[..|buf| + n] == ahead[..|buf| + n]
            else Clean(buf + portion)
  {
    var n := Newline(portion);
    NewlineIsFirst(portion);
    if n < |portion| {
      FoundBehind(ahead, buf, portion, n);
    }
  }

  lemma TooLong(ahead: seq<Byte>, buf: seq<Byte>)
    requires Clean(buf) && buf <= ahead
    ensures Newline(ahead) >= |buf|
  {
    NewlineNotYet(ahead, |buf|);
  }

  lemma WholeStream(ahead: seq<Byte>)
    requires Clean(ahead)
    ensures Newline(ahead) == |ahead| && ahead[..|ahead|] == ahead
  {
    NewlineFound(ahead, |ahead|);
  }

  /** The other end of a socket: what it will send, in which portions, and which reads fail. */
  class Stream {
    const data: seq<Byte>
    const portions: nat -> nat
    const failing: nat -> bool
    var pos: nat
    var calls: nat

    constructor (data: seq<Byte>, portions: nat -> nat, failing: nat -> bool)
      ensures Valid() && Ahead() == data && calls == 0
    {
      this.data, this.portions, this.failing, pos, calls := data, portions, failing, 0, 0;
    }

    ghost predicate Valid()
      reads this
    {
      pos <= |data|
    }

    ghost function Ahead(): seq<Byte>
      requires Valid()
      reads this
    {
      data[pos..]
    }

    /** At most `room` bytes: at least one, unless none are left. */
    method Read(room: nat) returns (r: Option<seq<Byte>>)
      requires Valid() && room > 0
      modifies this
      ensures Valid() && calls == old(calls) + 1
      ensures r.None? <==> failing(old(calls))
      ensures r.None? ==> pos == old(pos)
      ensures r.Some? ==> pos == old(pos) + |r.value| && r.value == data[old(pos)..pos] && |r.value| <= room
      ensures r == Some([]) ==> old(pos) == |data|
    {
      calls := calls + 1;
      if failing(calls - 1) {
        return None;
      }
      var most := if room < |data| - pos then room else |data| - pos;
      var size := if portions(pos) == 0 then 1 else portions(pos);
      size := if size < most then size else most;
      r := Some(data[pos..pos + size]);
      pos := pos + size;
    }
  }

  /**
   However the stream is cut into portions, the outcome is that of its first line; only a failing
   read can change it.  No more is ever taken in than the capacity.
   */
  method ReadBoundedLine(stream: Stream, limit: nat, isUtf8: seq<Byte> -> bool) returns (r: Outcome)
    requires stream.Valid() && limit <= USIZE_MAX
    modifies stream
    ensures stream.Valid() && old(stream.pos) <= stream.pos <= old(stream.pos) + Capacity(limit)
    ensures r != Failed ==>
              r == FirstLine(old(stream.Ahead()), if limit < USIZE_MAX then limit else USIZE_MAX - 1, isUtf8)
    ensures r == Failed ==> exists call | old(stream.calls) <= call < stream.calls :: stream.failing(call)
  {
    var buf: seq<Byte> := [];
    ghost var ahead, from := stream.Ahead(), stream.pos;
    while true
      invariant stream.Valid() && stream.pos == from + |buf| && |buf| <= limit && buf <= ahead && Clean(buf)
      invariant old(stream.calls) <= stream.calls
      decreases |ahead| - |buf|
    {
      var capacity := if limit + 1 <= USIZE_MAX then limit + 1 else USIZE_MAX;
      var remaining := if |buf| <= capacity then capacity - |buf| else 0;
      if remaining == 0 {
        TooLong(ahead, buf);
        return TooLarge;
      }
      var portion := stream.Read(if remaining < CHUNK then remaining else CHUNK);
      if portion.None? {
        return Failed;
      }
      if portion.value == [] {
        break;
      }
      var start := |buf|;
      Continues(stream.data, from, stream.pos, buf, portion.value);
      OnePortion(ahead, buf, portion.value);
      buf := buf + portion.value;
      assert buf[start..] == portion.value;
      var newline := Newline(buf[start..]);
      if newline < |buf[start..]| {
        var end := start + newline;
        if end > limit {
          return TooLarge;
        }
        return Decoded(buf[..end], isUtf8);
      }
      if |buf| > limit {
        TooLong(ahead, buf);
        return TooLarge;
      }
    }
    assert buf == ahead;
    WholeStream(buf);
    return Decoded(buf, isUtf8);
  }

  lemma Continues(data: seq<Byte>, from: nat, pos: nat, buf: seq<Byte>, portion: seq<Byte>)
    requires from + |buf| <= pos <= |data| && buf <= data[from..] && portion == data[from + |buf|..pos]
    ensures buf + portion <= data[from..]
  {
  }
}
