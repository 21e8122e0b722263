/**
 The length-prefixed frames of the runtime supervisor: a big-endian 32-bit length, then that
 many bytes, then the end of the stream.
 */
module RequestFrames {
  import opened Options

  const MAX_FRAME_BYTES: nat := 65536

  type Byte = b: nat | b < 256

  function BigEndian(n: nat): (bytes: seq<Byte>)
    requires n < 0x1_0000_0000
    ensures |bytes| == 4
  {
    var q1 := n / 256;
    var q2 := q1 / 256;
    [q2 / 256, q2 % 256, q1 % 256, n % 256]
  }

  function FromBigEndian(prefix: seq<Byte>): (n: nat)
    requires |prefix| == 4
    ensures n < 0x1_0000_0000
  {
    var b0: nat, b1: nat, b2: nat, b3: nat := prefix[0], prefix[1], prefix[2], prefix[3];
    ((b0 * 256 + b1) * 256 + b2) * 256 + b3
  }

  /** What the four digits to base 256 put together are taken apart to. */
  lemma OneByte(high: nat, low: Byte)
    ensures (high * 256 + low) / 256 == high && (high * 256 + low) % 256 == low
  {
  }

  lemma LengthRoundTrip(n: nat)
    requires n < 0x1_0000_0000
    ensures FromBigEndian(BigEndian(n)) == n
  {
    var q1 := n / 256;
    var q2 := q1 / 256;
    assert n == q1 * 256 + n % 256;
    assert q1 == q2 * 256 + q1 % 256;
    assert q2 == q2 / 256 * 256 + q2 % 256;
  }

  lemma PrefixRoundTrip(prefix: seq<Byte>)
    requires |prefix| == 4
    ensures BigEndian(FromBigEndian(prefix)) == prefix
  {
    var b0: nat, b1: Byte, b2: Byte, b3: Byte := prefix[0], prefix[1], prefix[2], prefix[3];
    var h1 := b0 * 256 + b1;
    var h2 := h1 * 256 + b2;
    OneByte(b0, b1);
    OneByte(h1, b2);
    OneByte(h2, b3);
    assert FromBigEndian(prefix) == h2 * 256 + b3;
    assert BigEndian(h2 * 256 + b3) == [b0, b1, b2, b3];
  }

  function Encode(payload: seq<Byte>): seq<Byte>
    requires |payload| <= MAX_FRAME_BYTES
  {
    BigEndian(|payload|) + payload
  }

  /** What ends a read before the frame does. */
  datatype Fault = Signalled | ParentLost | LivenessBroken | TimedOut | PollFailed

  datatype Parsed = Payload(bytes: seq<Byte>) | Malformed | Stopped(fault: Fault)

  /** What a whole stream means, read to its end. */
  function Decode(stream: seq<Byte>): Parsed {
    if |stream| < 4 then Malformed
    else
      var length := FromBigEndian(stream[..4]);
      if length == 0 || length > MAX_FRAME_BYTES || |stream| != 4 + length then Malformed
      else Payload(stream[4..])
  }

  /** Reading inverts writing: a stream yields a payload exactly when it is that payload's frame. */
  lemma DecodeInvertsEncode(stream: seq<Byte>, payload: seq<Byte>)
    ensures Decode(stream) == Payload(payload) <==>
            1 <= |payload| <= MAX_FRAME_BYTES && stream == Encode(payload)
  {
    if 1 <= |payload| <= MAX_FRAME_BYTES && stream == Encode(payload) {
      LengthRoundTrip(|payload|);
      assert stream[..4] == BigEndian(|payload|) && stream[4..] == payload;
    }
    if Decode(stream) == Payload(payload) {
      PrefixRoundTrip(stream[..4]);
      assert stream == stream[..4] + stream[4..];
    }
  }

  /** A frame that was cut short is refused. */
  lemma TornFrameIsRefused(torn: seq<Byte>, payload: seq<Byte>)
    requires 1 <= |payload| <= MAX_FRAME_BYTES && torn < Encode(payload)
    ensures Decode(torn) == Malformed
  {
    if |torn| >= 4 {
      assert torn[..4] == Encode(payload)[..4] == BigEndian(|payload|);
      LengthRoundTrip(|payload|);
    }
  }

  // ----- Reading

  /** What a read of the nonblocking descriptor does: it returns up to `more` bytes after the first,
      it would block, or it fails. */
  datatype Reading = Returns(more: nat) | WouldBlock | Fails

  /** One turn of a read loop: what the boundary check finds, what the read does, and whether the
      poll after a read that would block works. */
  datatype Turn = Turn(boundary: Option<Fault>, reading: Reading, polls: bool)

  /** The result that a turn forces, if it forces one. A failing read is reported like a bad frame. */
  function Trouble(t: Turn): Option<Parsed> {
    if t.boundary.Some? then Some(Stopped(t.boundary.value))
    else if t.reading.Fails? then Some(Malformed)
    else if t.reading.WouldBlock? && !t.polls then Some(Stopped(PollFailed))
    else None
  }

  /** The turns between two points of a schedule. */
  ghost predicate Used(before: seq<Turn>, used: seq<Turn>, after: seq<Turn>) {
    before == used + after
  }

  ghost predicate Smooth(used: seq<Turn>) {
    forall t <- used :: Trouble(t) == None
  }

  /** Trouble in the last turn decides the result, and there was none before it. */
  ghost predicate Troubled(used: seq<Turn>, result: Parsed) {
    && used != [] && Smooth(used[..|used| - 1])
    && Trouble(used[|used| - 1]) == Some(result)
  }

  lemma SmoothThen(a: seq<Turn>, b: seq<Turn>, result: Parsed)
    requires Smooth(a)
    ensures Smooth(b) ==> Smooth(a + b)
    ensures Troubled(b, result) ==> Troubled(a + b, result)
  {
    if b != [] {
      assert (a + b)[..|a + b| - 1] == a + b[..|b| - 1];
    }
  }

  /** The request descriptor; after the end of its schedule every turn returns all it can. */
  class Descriptor {
    var remaining: seq<Byte>
    var turns: seq<Turn>

    constructor (stream: seq<Byte>, turns: seq<Turn>)
      ensures remaining == stream && this.turns == turns
    {
      remaining, this.turns := stream, turns;
    }

    /** `check_request_boundary`, `read_nonblocking` and, where it would block, `poll_request_boundary`.
        An empty chunk is the end of the stream; no chunk and no result is a read that would block. */
    method Take(limit: nat) returns (chunk: Option<seq<Byte>>, trouble: Option<Parsed>, ghost used: seq<Turn>)
      requires limit > 0
      modifies this
      ensures Used(old(turns), used, turns) && |used| <= 1
      ensures trouble.Some? ==> Troubled(used, trouble.value) && chunk.None?
      ensures trouble.None? ==> Smooth(used)
      ensures chunk.None? ==> remaining == old(remaining) && |used| == 1
      ensures chunk.Some? ==>
                && |chunk.value| <= limit && chunk.value + remaining == old(remaining)
                && (chunk.value == [] <==> old(remaining) == [])
    {
      used, chunk, trouble := [], None, None;
      var most := limit;
      if turns != [] {
        var turn := turns[0];
        used, turns := [turn], turns[1..];
        trouble := Trouble(turn);
        if trouble.Some? || turn.reading.WouldBlock? {
          return;
        }
        most := if turn.reading.more + 1 < limit then turn.reading.more + 1 else limit;
      }
      var count := if most < |remaining| then most else |remaining|;
      chunk := Some(remaining[..count]);
      remaining := remaining[count..];
    }
  }

  /** What a part of `size` bytes is, read from `stream`. */
  function PartOf(stream: seq<Byte>, size: nat): Parsed {
    if |stream| >= size then Payload(stream[..size]) else Malformed
  }

  /** `read_frame_part`: fill a buffer of `size` bytes. */
  method ReadPart(d: Descriptor, size: nat) returns (part: Parsed, ghost used: seq<Turn>)
    modifies d
    ensures Used(old(d.turns), used, d.turns)
    ensures (Smooth(used) && part == PartOf(old(d.remaining), size)) || Troubled(used, part)
    ensures Smooth(used) && part.Payload? ==> d.remaining == old(d.remaining)[size..]
  {
    var output: seq<Byte> := [];
    used := [];
    while |output| < size
      invariant |output| <= size
      invariant output + d.remaining == old(d.remaining)
      invariant Used(old(d.turns), used, d.turns) && Smooth(used)
      decreases |d.turns|, size - |output|
    {
      var chunk, trouble, turn := d.Take(size - |output|);
      SmoothThen(used, turn, if trouble.Some? then trouble.value else Malformed);
      used := used + turn;
      if trouble.Some? {
        return trouble.value, used;
      }
      if chunk.None? {
        continue;
      }
      if chunk.value == [] {
        return Malformed, used;
      }
      output := output + chunk.value;
    }
    assert output == old(d.remaining)[..size] && d.remaining == old(d.remaining)[size..];
    return Payload(output), used;
  }

  /** The loop that looks for the end of the stream after the payload. */
  method ReadEnd(d: Descriptor, payload: seq<Byte>) returns (frame: Parsed, ghost used: seq<Turn>)
    modifies d
    ensures Used(old(d.turns), used, d.turns)
    ensures (Smooth(used) && frame == if old(d.remaining) == [] then Payload(payload) else Malformed) || Troubled(used, frame)
  {
    used := [];
    while true
      invariant d.remaining == old(d.remaining)
      invariant Used(old(d.turns), used, d.turns) && Smooth(used)
      decreases |d.turns|
    {
      var chunk, trouble, turn := d.Take(1);
      SmoothThen(used, turn, if trouble.Some? then trouble.value else Malformed);
      used := used + turn;
      if trouble.Some? {
        return trouble.value, used;
      }
      if chunk.Some? {
        return if chunk.value == [] then Payload(payload) else Malformed, used;
      }
    }
  }

  /** `read_frame`: the prefix, the payload, and nothing after it. However much the reads return and
      however often they block, the result is what the whole stream means, unless a turn was in
      trouble: then the first trouble is the result. */
  method ReadFrame(d: Descriptor) returns (frame: Parsed, ghost used: seq<Turn>)
    modifies d
    ensures Used(old(d.turns), used, d.turns)
    ensures (Smooth(used) && frame == Decode(old(d.remaining))) || Troubled(used, frame)
  {
    var prefix, first := ReadPart(d, 4);
    used := first;
    if !prefix.Payload? {
      return prefix, used;
    }
    var length := FromBigEndian(prefix.bytes);
    if length == 0 || length > MAX_FRAME_BYTES {
      return Malformed, used;
    }
    ghost var rest := d.remaining;
    var payload, second := ReadPart(d, length);
    SmoothThen(first, second, payload);
    used := first + second;
    if !payload.Payload? {
      return payload, used;
    }
    var end, third := ReadEnd(d, payload.bytes);
    SmoothThen(first + second, third, end);
    used := first + second + third;
    frame := end;
  }

  // ----- Writing

  /** What a write does: it takes up to `more` bytes after the first, is interrupted by a signal, or fails. */
  datatype Writing = Takes(more: nat) | Interrupted | Refuses

  /** The response descriptor; after the end of its schedule every write takes all it is given. */
  class Sink {
    var received: seq<Byte>
    var writes: seq<Writing>
    const duplicates: bool   // duplicating the descriptor works

    constructor (received: seq<Byte>, writes: seq<Writing>, duplicates: bool)
      ensures this.received == received && this.writes == writes && this.duplicates == duplicates
    {
      this.received, this.writes, this.duplicates := received, writes, duplicates;
    }

    /** `write_all`: writes again after a part or a signal, and gives up at the first failure. */
    method WriteAll(bytes: seq<Byte>) returns (ok: bool, ghost done: nat)
      modifies this`received, this`writes
      ensures done <= |bytes| && received == old(received) + bytes[..done]
      ensures ok <==> done == |bytes|
      ensures Refuses !in old(writes) ==> ok && Refuses !in writes
    {
      done := 0;
      var rest := bytes;
      while rest != []
        invariant done <= |bytes| && rest == bytes[done..] && received == old(received) + bytes[..done]
        invariant Refuses !in old(writes) ==> Refuses !in writes
        decreases |writes|, |rest|
      {
        var count := |rest|;
        if writes != [] {
          var next := writes[0];
          writes := writes[1..];
          if next == Refuses {
            return false, done;
          }
          count := if next == Interrupted then 0 else if next.more + 1 < count then next.more + 1 else count;
        }
        received := received + rest[..count];
        assert bytes[..done + count] == bytes[..done] + rest[..count];
        done, rest := done + count, rest[count..];
      }
      return true, done;
    }
  }

  lemma FrontOf(a: seq<Byte>, b: seq<Byte>, n: nat)
    requires n <= |b|
    ensures a + b[..n] == (a + b)[..|a| + n]
  {
  }

  datatype Written = Complete | TooLong | NotDuplicated | WriteFailed

  /** `write_frame`: what arrives is the frame, or a part of it that no reader accepts. */
  method WriteFrame(sink: Sink, payload: seq<Byte>) returns (written: Written, ghost sent: seq<Byte>)
    modifies sink`received, sink`writes
    ensures sink.received == old(sink.received) + sent
    ensures written == TooLong <==> !(1 <= |payload| <= MAX_FRAME_BYTES)
    ensures written == NotDuplicated <==> 1 <= |payload| <= MAX_FRAME_BYTES && !sink.duplicates
    ensures written == Complete <==> Decode(sent) == Payload(payload)
    ensures written == Complete ==> sent == Encode(payload)
    ensures written == WriteFailed ==> sent < Encode(payload) && Decode(sent) == Malformed && Refuses in old(sink.writes)
    ensures written == TooLong || written == NotDuplicated ==> sent == []
  {
    sent := [];
    assert sink.received + [] == sink.received;
    if payload == [] || |payload| > MAX_FRAME_BYTES {
      return TooLong, sent;
    }
    if !sink.duplicates {
      return NotDuplicated, sent;
    }
    ghost var before, frame := sink.received, Encode(payload);
    DecodeInvertsEncode(frame, payload);
    var prefixed, head := sink.WriteAll(BigEndian(|payload|));
    if !prefixed {
      sent := BigEndian(|payload|)[..head];
      assert sent == frame[..head];
      TornFrameIsRefused(sent, payload);
      return WriteFailed, sent;
    }
    assert sink.received == before + BigEndian(|payload|);
    var all, tail := sink.WriteAll(payload);
    sent := BigEndian(|payload|) + payload[..tail];
    assert sink.received == before + sent by {
      assert before + BigEndian(|payload|) + payload[..tail] == before + sent;
    }
    if !all {
      FrontOf(BigEndian(|payload|), payload, tail);
      TornFrameIsRefused(sent, payload);
      return WriteFailed, sent;
    }
    assert sent == frame by {
      assert payload[..tail] == payload;
    }
    return Complete, sent;
  }
}
