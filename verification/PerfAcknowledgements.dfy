/**
 The acknowledgement reader of perf's control channel: a buffered byte stream that arrives in
 arbitrary chunks, read one line at a time while the child and a deadline are watched.
 */
module PerfAcknowledgements {
  import opened Options

  type Byte = char

  const NEWLINE: Byte := '\n'
  const ACK: seq<Byte> := "ack\n"
  const FRAME: seq<Byte> := "ack\n\0"    // what perf writes
  const MAX_BYTES: nat := 16

  datatype Failure = Channel | Timeout | Closed | InvalidAcknowledgement | ChildExited
  datatype Answer = Accepted | Failed(failure: Failure)

  /** One read of the socket: bytes, nothing within the poll interval, or an error. */
  datatype Arrival = Data(bytes: seq<Byte>) | Quiet | Broken

  function Bytes(arrivals: seq<Arrival>): seq<Byte> {
    if arrivals == [] then []
    else (if arrivals[0].Data? then arrivals[0].bytes else []) + Bytes(arrivals[1..])
  }

  /** The number of bytes through the first newline, or of all bytes when there is none. */
  function LineLength(s: seq<Byte>): (n: nat)
    ensures n <= |s| && (s != [] ==> 0 < n)
    ensures forall i | 0 <= i < n - 1 :: s[i] != NEWLINE
    ensures n < |s| ==> 0 < n && s[n - 1] == NEWLINE
  {
    if s == [] then 0 else if s[0] == NEWLINE then 1 else 1 + LineLength(s[1..])
  }

  predicate Terminated(s: seq<Byte>) {
    s != [] && s[LineLength(s) - 1] == NEWLINE
  }

  lemma {:induction false} LineContinues(head: seq<Byte>, tail: seq<Byte>)
    ensures LineLength(head + tail) == if Terminated(head) then LineLength(head) else |head| + LineLength(tail)
    ensures Terminated(head + tail) <==> Terminated(head) || Terminated(tail)
  {
    if head == [] {
      assert head + tail == tail;
    } else {
      assert (head + tail)[1..] == head[1..] + tail;
      LineContinues(head[1..], tail);
    }
  }

  lemma {:induction false} FirstLine(s: seq<Byte>)
    ensures LineLength(s[..LineLength(s)]) == LineLength(s)
  {
    if s != [] && s[0] != NEWLINE {
      assert s[..LineLength(s)][1..] == s[1..][..LineLength(s[1..])];
      FirstLine(s[1..]);
    }
  }

  /** One buffer more of a line that has not ended yet. */
  lemma LineAdvances(line: seq<Byte>, buffer: seq<Byte>, rest: seq<Byte>)
    requires !Terminated(line) && buffer != []
    ensures var n := LineLength(buffer);
            && LineLength(line + (buffer + rest)) >= |line| + n
            && (buffer[n - 1] == NEWLINE <==> Terminated(line + buffer[..n]))
            && (buffer[n - 1] == NEWLINE ==> LineLength(line + (buffer + rest)) == |line| + n)
  {
    FirstLine(buffer);
    LineContinues(line, buffer + rest);
    LineContinues(buffer, rest);
    LineContinues(line, buffer[..LineLength(buffer)]);
  }

  ghost predicate IsAcknowledgement(line: seq<Byte>) {
    exists k: nat :: line == Zeros(k) + ACK
  }

  function Zeros(k: nat): (zeros: seq<Byte>)
    ensures |zeros| == k && forall i | 0 <= i < k :: zeros[i] == '\0'
  {
    seq(k, _ => '\0')
  }

  /** What one read must answer to a stream, however it is cut into chunks. */
  ghost function Verdict(stream: seq<Byte>): Answer {
    var n := LineLength(stream);
    if n > MAX_BYTES then Failed(InvalidAcknowledgement)
    else if !Terminated(stream) then Failed(Closed)
    else if IsAcknowledgement(stream[..n]) then Accepted
    else Failed(InvalidAcknowledgement)
  }

  class Reader {
    const watch: seq<Option<Failure>>   // what the checks of the child and of the deadline find
    const arrivals: seq<Arrival>        // what the reads of the socket return
    var buffer: seq<Byte>
    var checked: nat
    var received: nat

    ghost function Stream(): seq<Byte>
      reads this`buffer, this`received
      requires received <= |arrivals|
    {
      buffer + Bytes(arrivals[received..])
    }

    ghost predicate Valid()
      reads this`checked, this`received
    {
      checked <= |watch| && received <= |arrivals| && forall a <- arrivals :: a.Data? ==> a.bytes != []
    }

    /** Nothing goes wrong outside the stream. */
    ghost predicate Calm() {
      (forall w <- watch :: w.None?) && forall a <- arrivals :: !a.Broken?
    }

    /** No check from the `c`-th to before the `d`-th found anything, and no such read failed. */
    ghost predicate Smooth(c: nat, d: nat, r: nat, s: nat)
      requires d <= |watch| && s <= |arrivals|
    {
      (forall k | c <= k < d :: watch[k].None?) && (forall k | r <= k < s :: !arrivals[k].Broken?)
    }

    /** The last check found `failure`, or the last read failed, and nothing was wrong before. */
    ghost predicate Troubled(c: nat, d: nat, r: nat, s: nat, failure: Failure)
      requires d <= |watch| && s <= |arrivals|
    {
      || (c < d && watch[d - 1] == Some(failure) && Smooth(c, d - 1, r, s))
      || (r < s && arrivals[s - 1].Broken? && failure == Channel && Smooth(c, d, r, s - 1))
    }

    constructor (arrivals: seq<Arrival>, watch: seq<Option<Failure>>)
      requires forall a <- arrivals :: a.Data? ==> a.bytes != []
      ensures Valid() && Stream() == Bytes(arrivals) && this.arrivals == arrivals && this.watch == watch
    {
      this.buffer, this.checked, this.received, this.arrivals, this.watch := [], 0, 0, arrivals, watch;
    }

    method Check() returns (found: Option<Failure>)
      requires Valid()
      modifies this`checked
      ensures Valid() && old(checked) <= checked
      ensures if found.Some? then Troubled(old(checked), checked, received, received, found.value)
              else Smooth(old(checked), checked, received, received)
    {
      if checked == |watch| {
        return None;
      }
      found := watch[checked];
      checked := checked + 1;
    }

    /** `fill_buf`: bytes already buffered, or one read of the socket. */
    method Fill() returns (filled: Filled)
      requires Valid()
      modifies this`buffer, this`received
      ensures Valid() && old(received) <= received && Stream() == old(Stream())
      ensures if filled == Error then Troubled(checked, checked, old(received), received, Channel)
              else Smooth(checked, checked, old(received), received)
      ensures filled == Available <==> buffer != []
      ensures filled == WouldBlock ==> old(received) < received
      ensures filled == End ==> Stream() == []
    {
      if buffer != [] {
        return Available;
      }
      if received == |arrivals| {
        return End;
      }
      var next := arrivals[received];
      assert arrivals[received..][1..] == arrivals[received + 1..];
      received := received + 1;
      match next {
        case Broken => return Error;
        case Quiet => return WouldBlock;
        case Data(bytes) =>
          buffer := bytes;
          return Available;
      }
    }

    /** Moves the buffered part of the current line over to `line`, if the bound allows it. */
    method Advance(line: seq<Byte>) returns (fits: bool, longer: seq<Byte>, terminated: bool)
      requires Valid() && buffer != [] && !Terminated(line) && |line| <= MAX_BYTES
      modifies this`buffer
      ensures longer + Stream() == line + old(Stream()) && |longer| <= MAX_BYTES
      ensures !fits ==> longer == line && LineLength(line + old(Stream())) > MAX_BYTES
      ensures fits ==> |Stream()| < |old(Stream())| && (terminated <==> Terminated(longer))
      ensures fits && terminated ==> LineLength(line + old(Stream())) == |longer|
    {
      var consumed := LineLength(buffer);
      LineAdvances(line, buffer, Bytes(arrivals[received..]));
      if |line| + consumed > MAX_BYTES {
        return false, line, false;
      }
      terminated := buffer[consumed - 1] == NEWLINE;
      longer := line + buffer[..consumed];
      assert longer + (buffer[consumed..] + Bytes(arrivals[received..])) == line + (buffer + Bytes(arrivals[received..]));
      buffer := buffer[consumed..];
      fits := true;
    }

    /** The answer is what the stream deserves, or the first trouble since the `c`-th check and the
        `r`-th read. */
    ghost predicate Justified(c: nat, r: nat, answer: Answer, stream: seq<Byte>)
      requires Valid()
      reads this`checked, this`received
    {
      || (Smooth(c, checked, r, received) && answer == Verdict(stream))
      || (answer.Failed? && Troubled(c, checked, r, received, answer.failure))
    }

    /** The part of a turn before any bytes are looked at: the checks, the read, and after a read
        without bytes the checks again. */
    method Await() returns (glance: Glance)
      requires Valid()
      modifies this
      ensures Valid() && old(checked) <= checked && old(received) <= received && Stream() == old(Stream())
      ensures glance.Ready? ==> buffer != []
      ensures glance.Again? ==> old(received) < received
      ensures !glance.Halt? ==> Smooth(old(checked), checked, old(received), received)
      ensures glance.Halt? ==>
                || Troubled(old(checked), checked, old(received), received, glance.failure)
                || (Smooth(old(checked), checked, old(received), received) && glance.failure == Closed && Stream() == [])
    {
      var trouble := Check();
      if trouble.Some? {
        return Halt(trouble.value);
      }
      var filled := Fill();
      match filled {
        case Error => return Halt(Channel);
        case Available => return Ready;
        case _ =>
      }
      trouble := Check();
      glance := if trouble.Some? then Halt(trouble.value) else if filled == End then Halt(Closed) else Again;
    }

    /** One turn of the loop of `read_perf_control_ack`, on a stream that was `all` at its start. */
    method Turn(line: seq<Byte>, ghost all: seq<Byte>) returns (progress: Progress, longer: seq<Byte>)
      requires Valid() && line + Stream() == all && !Terminated(line) && |line| <= MAX_BYTES
      modifies this
      ensures Valid() && old(checked) <= checked && old(received) <= received
      ensures longer + Stream() == all && |longer| <= MAX_BYTES && |longer| <= LineLength(all)
      ensures progress.More? ==> !Terminated(longer) && |Stream()| - received < old(|Stream()| - received)
      ensures progress.Done? ==> Terminated(longer) && LineLength(all) == |longer|
      ensures !progress.Stop? ==> Smooth(old(checked), checked, old(received), received)
      ensures progress.Stop? ==> Justified(old(checked), old(received), Failed(progress.failure), all)
    {
      LineContinues(line, Stream());
      longer := line;
      var glance := Await();
      match glance {
        case Again => return More, line;
        case Halt(failure) =>
          assert Stream() == [] ==> line == all;
          return Stop(failure), line;
        case Ready =>
      }
      var fits, terminated;
      fits, longer, terminated := Advance(line);
      if !fits {
        return Stop(InvalidAcknowledgement), longer;
      }
      LineContinues(longer, Stream());
      var trouble := Check();
      progress := if trouble.Some? then Stop(trouble.value) else if terminated then Done else More;
    }

    /** The loop of `read_perf_control_ack`: `line` is what it consumes, and the whole line if
        nothing failed. */
    method ReadLine() returns (failure: Option<Failure>, line: seq<Byte>)
      requires Valid()
      modifies this
      ensures Valid() && old(checked) <= checked && old(received) <= received
      ensures line + Stream() == old(Stream()) && |line| <= MAX_BYTES && |line| <= LineLength(old(Stream()))
      ensures failure.None? ==> Terminated(line) && LineLength(old(Stream())) == |line|
                                && Smooth(old(checked), checked, old(received), received)
      ensures failure.Some? ==> Justified(old(checked), old(received), Failed(failure.value), old(Stream()))
    {
      ghost var all := Stream();
      line := [];
      while true
        invariant Valid() && old(checked) <= checked && old(received) <= received
        invariant Smooth(old(checked), checked, old(received), received)
        invariant line + Stream() == all && !Terminated(line) && |line| <= MAX_BYTES
        decreases |Stream()| + (|arrivals| - received)
      {
        var progress;
        progress, line := Turn(line, all);
        match progress {
          case Stop(why) => return Some(why), line;
          case Done => return None, line;
          case More =>
        }
      }
    }

    /** `read_perf_control_ack`; `taken` is what the call consumes. The answer is what the stream
        deserves, however it is cut, unless a check or a read that the call made went wrong: then it
        is that failure. */
    method ReadAcknowledgement() returns (answer: Answer, ghost taken: nat)
      requires Valid()
      modifies this
      ensures Valid() && old(checked) <= checked && old(received) <= received
      ensures Justified(old(checked), old(received), answer, old(Stream()))
      ensures Calm() ==> answer == Verdict(old(Stream()))
      ensures taken <= MAX_BYTES && taken <= LineLength(old(Stream())) && Stream() == old(Stream())[taken..]
      ensures answer.Accepted? ==> taken == LineLength(old(Stream()))
    {
      ghost var stream := Stream();
      var failure, line := ReadLine();
      taken := |line|;
      assert line == stream[..taken] && Stream() == stream[taken..];
      if failure.Some? {
        return Failed(failure.value), taken;
      }
      WholeLine(line, Stream());
      answer := Judge(line);
    }
  }

  lemma WholeLine(line: seq<Byte>, rest: seq<Byte>)
    requires Terminated(line) && LineLength(line + rest) == |line| <= MAX_BYTES
    ensures Verdict(line + rest) == if IsAcknowledgement(line) then Accepted else Failed(InvalidAcknowledgement)
  {
    LineContinues(line, rest);
    assert (line + rest)[..|line|] == line;
  }

  datatype Glance = Ready | Again | Halt(failure: Failure)
  datatype Progress = More | Done | Stop(failure: Failure)
  datatype Filled = Available | WouldBlock | Error | End

  lemma AcknowledgementAfterZeros(line: seq<Byte>, first: nat)
    requires first <= |line| && (forall i | 0 <= i < first :: line[i] == '\0') && (first < |line| ==> line[first] != '\0')
    ensures IsAcknowledgement(line) <==> line[first..] == ACK
  {
    if line[first..] == ACK {
      assert line == Zeros(first) + ACK;
    }
    if IsAcknowledgement(line) {
      var k: nat :| line == Zeros(k) + ACK;
      assert line[k] == ACK[0];
      assert line[first..] == ACK;
    }
  }

  method Judge(line: seq<Byte>) returns (answer: Answer)
    ensures answer == if IsAcknowledgement(line) then Accepted else Failed(InvalidAcknowledgement)
  {
    var first := 0;
    while first < |line| && line[first] == '\0'
      invariant first <= |line| && forall i | 0 <= i < first :: line[i] == '\0'
    {
      first := first + 1;
    }
    AcknowledgementAfterZeros(line, first);
    answer := if line[first..] == ACK then Accepted else Failed(InvalidAcknowledgement);
  }

  // ----- Consecutive acknowledgements

  function Frames(k: nat): seq<Byte> {
    if k == 0 then [] else FRAME + Frames(k - 1)
  }

  /** The NUL that ends one frame is taken with the next line. */
  lemma FrameVerdict(zeros: nat, rest: seq<Byte>)
    requires zeros <= MAX_BYTES - |ACK|
    ensures Verdict(Zeros(zeros) + FRAME + rest) == Accepted
    ensures LineLength(Zeros(zeros) + FRAME + rest) == zeros + |ACK|
  {
    var line := Zeros(zeros) + ACK;
    var stream := Zeros(zeros) + FRAME + rest;
    assert stream == line + ("\0" + rest);
    LineContinues(Zeros(zeros) + "ack", "\n");
    assert line == (Zeros(zeros) + "ack") + "\n";
    assert LineLength("\n") == 1;
    assert LineLength(Zeros(zeros) + "ack") == zeros + 3;
    LineContinues(line, "\0" + rest);
    assert IsAcknowledgement(line);
    assert stream[..|line|] == line;
  }

  /** Whatever the chunks, `k` consecutive perf frames are accepted by `k` reads. */
  method ReadFrames(reader: Reader, k: nat) returns (answers: seq<Answer>)
    requires reader.Valid() && reader.Calm() && reader.Stream() == Frames(k)
    modifies reader
    ensures |answers| == k && forall a <- answers :: a == Accepted
    ensures reader.Valid() && reader.Stream() == if k == 0 then [] else "\0"
  {
    answers := [];
    assert reader.Stream() == Pending(0, k);
    for n := 0 to k
      invariant reader.Valid() && reader.Calm() && reader.Stream() == Pending(n, k)
      invariant |answers| == n && forall a <- answers :: a == Accepted
    {
      PendingVerdict(n, k);
      var answer, _ := reader.ReadAcknowledgement();
      answers := answers + [answer];
    }
  }

  /** What is left of `k` frames after `n` reads. */
  function Pending(n: nat, k: nat): seq<Byte>
    requires n <= k
  {
    Zeros(if n == 0 then 0 else 1) + Frames(k - n)
  }

  lemma PendingVerdict(n: nat, k: nat)
    requires n < k
    ensures Verdict(Pending(n, k)) == Accepted
    ensures Pending(n, k)[LineLength(Pending(n, k))..] == Pending(n + 1, k)
  {
    var zeros := if n == 0 then 0 else 1;
    var rest := Frames(k - n - 1);
    FrameVerdict(zeros, rest);
    FrameSplits(zeros, rest);
    assert Pending(n, k) == Zeros(zeros) + FRAME + rest by {
      assert Frames(k - n) == FRAME + rest;
      assert Zeros(zeros) + (FRAME + rest) == Zeros(zeros) + FRAME + rest;
    }
  }

  lemma FrameSplits(zeros: nat, rest: seq<Byte>)
    ensures (Zeros(zeros) + FRAME + rest)[zeros + |ACK|..] == Zeros(1) + rest
  {
    assert FRAME == ACK + Zeros(1);
    assert Zeros(zeros) + FRAME + rest == (Zeros(zeros) + ACK) + (Zeros(1) + rest);
  }
}
