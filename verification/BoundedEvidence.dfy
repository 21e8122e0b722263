/**
 The bounded evidence stream: a pipe copied into a file up to an authorized size, in checks
 that each drain what the pipe has at that moment.
 */
module BoundedEvidence {

  /** What one nonblocking read returns: up to a buffer of bytes, end of stream, nothing yet, or
      an error. A write to the file may fail as well and then leaves a part of the bytes. */
  datatype Read = Data(bytes: seq<bv8>) | EndOfStream | WouldBlock | ReadError | DataThenWriteError(bytes: seq<bv8>, kept: nat)

  datatype Outcome = Fine | LimitExceeded | ReadFailed | WriteFailed | StillOpen

  /** Copied so far. `received` is every byte read from the pipe. */
  datatype Copy = Copy(received: seq<bv8>, destination: seq<bv8>, closed: bool)

  function Min(a: nat, b: nat): nat {
    if a < b then a else b
  }

  /** The first `maximum` bytes. */
  function Bounded(bytes: seq<bv8>, maximum: nat): seq<bv8> {
    bytes[..Min(|bytes|, maximum)]
  }

  ghost predicate Faithful(c: Copy, maximum: nat) {
    c.destination == Bounded(c.received, maximum)
  }

  lemma BoundedGrows(received: seq<bv8>, more: seq<bv8>, maximum: nat)
    ensures Bounded(received + more, maximum) ==
            Bounded(received, maximum) + Bounded(more, maximum - |Bounded(received, maximum)|)
  {
  }

  /** What one check does to the copy: reads until the pipe has nothing more. */
  function Drained(maximum: nat, c: Copy, pending: seq<Read>): (r: (Copy, Outcome, seq<Read>))
    requires |c.destination| <= maximum
    ensures |r.0.destination| <= maximum
    decreases |pending|
  {
    if pending == [] then (c, Fine, [])
    else
      var room := maximum - |c.destination|;
      match pending[0]
      case EndOfStream => (c.(closed := true), Fine, pending[1..])
      case WouldBlock => (c, Fine, pending[1..])
      case ReadError => (c, ReadFailed, pending[1..])
      case Data(bytes) =>
        var d := Copy(c.received + bytes, c.destination + Bounded(bytes, room), c.closed);
        if |bytes| > room then (d, LimitExceeded, pending[1..]) else Drained(maximum, d, pending[1..])
      case DataThenWriteError(bytes, kept) =>
        var d := Copy(c.received + bytes, c.destination + Bounded(Bounded(bytes, room), kept), c.closed);
        if Min(|bytes|, room) != 0 then (d, WriteFailed, pending[1..])
        else if |bytes| > room then (d, LimitExceeded, pending[1..])
        else Drained(maximum, d, pending[1..])
  }

  /** Until a write fails the file holds the first `maximum` bytes received, and the bound error is
      raised exactly when more than that came. */
  lemma {:induction false} DrainedIsFaithful(maximum: nat, c: Copy, pending: seq<Read>)
    requires Faithful(c, maximum) && |c.received| <= maximum
    ensures var (d, outcome, rest) := Drained(maximum, c, pending);
            outcome != WriteFailed ==>
              && Faithful(d, maximum) && c.received <= d.received
              && (outcome == LimitExceeded <==> |d.received| > maximum)
    decreases |pending|
  {
    if pending != [] {
      var room := maximum - |c.destination|;
      match pending[0]
      case Data(bytes) =>
        BoundedGrows(c.received, bytes, maximum);
        if |bytes| <= room {
          DrainedIsFaithful(maximum, Copy(c.received + bytes, c.destination + Bounded(bytes, room), c.closed), pending[1..]);
        }
      case DataThenWriteError(bytes, kept) =>
        BoundedGrows(c.received, bytes, maximum);
        if bytes == [] {
          DrainedIsFaithful(maximum, Copy(c.received + bytes, c.destination + Bounded(Bounded(bytes, room), kept), c.closed),
                            pending[1..]);
        }
      case _ =>
    }
  }

  /** The wait loops: a check in every turn, until one does not come back fine. */
  function Checked(maximum: nat, c: Copy, pending: seq<Read>, turns: nat): (Copy, Outcome, seq<Read>)
    requires |c.destination| <= maximum
    decreases turns
  {
    if turns == 0 then (c, Fine, pending)
    else
      var r := Drained(maximum, c, pending);
      if r.1 != Fine then r else Checked(maximum, r.0, r.2, turns - 1)
  }

  lemma {:induction false} ChecksAreFaithful(maximum: nat, c: Copy, pending: seq<Read>, turns: nat)
    requires Faithful(c, maximum) && |c.received| <= maximum
    ensures var (d, outcome, rest) := Checked(maximum, c, pending, turns);
            outcome != WriteFailed ==>
              && Faithful(d, maximum) && c.received <= d.received
              && (outcome == LimitExceeded <==> |d.received| > maximum)
    decreases turns
  {
    if turns != 0 {
      DrainedIsFaithful(maximum, c, pending);
      var r := Drained(maximum, c, pending);
      if r.1 == Fine {
        ChecksAreFaithful(maximum, r.0, r.2, turns - 1);
      }
    }
  }

  function Flatten(chunks: seq<seq<bv8>>): seq<bv8> {
    if chunks == [] then [] else chunks[0] + Flatten(chunks[1..])
  }

  function Reads(chunks: seq<seq<bv8>>): seq<Read> {
    seq(|chunks|, i requires 0 <= i < |chunks| => Data(chunks[i]))
  }

  /** The cut of the stream into reads does not matter: the file and the verdict depend on the
      bytes alone. */
  lemma {:induction false} ChunkingDoesNotMatter(maximum: nat, c: Copy, chunks: seq<seq<bv8>>)
    requires Faithful(c, maximum) && |c.received| <= maximum
    ensures var (d, outcome, rest) := Drained(maximum, c, Reads(chunks));
            var all := c.received + Flatten(chunks);
            && d.destination == Bounded(all, maximum)
            && outcome == if |all| > maximum then LimitExceeded else Fine
    decreases |chunks|
  {
    if chunks == [] {
      assert c.received + Flatten(chunks) == c.received;
    } else {
      var room := maximum - |c.destination|;
      var d := Copy(c.received + chunks[0], c.destination + Bounded(chunks[0], room), c.closed);
      BoundedGrows(c.received, chunks[0], maximum);
      assert Reads(chunks)[1..] == Reads(chunks[1..]);
      assert c.received + Flatten(chunks) == d.received + Flatten(chunks[1..]);
      if |chunks[0]| <= room {
        ChunkingDoesNotMatter(maximum, d, chunks[1..]);
      } else {
        BoundedGrows(d.received, Flatten(chunks[1..]), maximum);
      }
    }
  }

  class BoundedStream {
    const maximum: nat
    var pending: seq<Read>      // the results of the reads to come
    var destination: seq<bv8>
    var written: nat
    var closed: bool
    ghost var received: seq<bv8>

    ghost predicate Valid()
      reads this
    {
      written == |destination| && written <= maximum
    }

    ghost function View(): Copy
      reads this
    {
      Copy(received, destination, closed)
    }

    constructor (maximum: nat, pending: seq<Read>)
      ensures Valid() && View() == Copy([], [], false)
      ensures this.maximum == maximum && this.pending == pending
    {
      this.maximum := maximum;
      this.pending := pending;
      destination, written, closed, received := [], 0, false, [];
    }

    /** `write_all` on the accepted bytes; a failure keeps `kept` of them and leaves the count. */
    method Store(bytes: seq<bv8>, fails: bool, kept: nat) returns (outcome: Outcome)
      requires Valid()
      modifies this`destination, this`written, this`received
      ensures received == old(received) + bytes
      ensures var room := maximum - |old(destination)|;
              if fails && Min(|bytes|, room) != 0
              then outcome == WriteFailed
                   && destination == old(destination) + Bounded(Bounded(bytes, room), kept)
              else Valid() && destination == old(destination) + Bounded(bytes, room)
                   && outcome == if |bytes| > room then LimitExceeded else Fine
    {
      var accepted := Min(|bytes|, maximum - written);
      received := received + bytes;
      if accepted != 0 {
        if fails {
          assert bytes[..accepted][..Min(accepted, kept)] == Bounded(Bounded(bytes, maximum - |destination|), kept);
          destination := destination + bytes[..accepted][..Min(accepted, kept)];
          return WriteFailed;
        }
        destination := destination + bytes[..accepted];
        written := written + accepted;
      }
      return if accepted != |bytes| then LimitExceeded else Fine;
    }

    /** `check`: drain the pipe. */
    method Check() returns (outcome: Outcome)
      requires Valid()
      modifies this
      ensures outcome != WriteFailed ==> Valid()
      ensures Drained(maximum, old(View()), old(pending)) == (View(), outcome, pending)
    {
      while true
        invariant Valid()
        invariant Drained(maximum, old(View()), old(pending)) == Drained(maximum, View(), pending)
        decreases |pending|
      {
        if pending == [] {
          return Fine;
        }
        var r := pending[0];
        pending := pending[1..];
        match r {
          case EndOfStream =>
            closed := true;
            return Fine;
          case WouldBlock =>
            return Fine;
          case ReadError =>
            return ReadFailed;
          case Data(bytes) =>
            outcome := Store(bytes, false, 0);
            if outcome != Fine {
              return;
            }
          case DataThenWriteError(bytes, kept) =>
            outcome := Store(bytes, true, kept);
            if outcome != Fine {
              return;
            }
        }
      }
    }

    /** `finish`: one more check, and the writer must have closed the pipe. On success the file is
        the whole stream. */
    method Finish() returns (outcome: Outcome)
      requires Valid() && Faithful(View(), maximum) && |received| <= maximum
      modifies this
      ensures outcome == Fine ==> closed && destination == received
      ensures outcome == LimitExceeded <==> Drained(maximum, old(View()), old(pending)).1 == LimitExceeded
      ensures outcome == LimitExceeded ==> |received| > maximum && destination == received[..maximum]
    {
      DrainedIsFaithful(maximum, View(), pending);
      outcome := Check();
      if outcome == Fine && !closed {
        outcome := StillOpen;
      }
    }
  }
}
