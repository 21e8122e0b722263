/**
 The evidence channel of the pthread probe: one output stream, an event budget, a
 sequence counter and the flags that every thread of the process shares.

 The functions on `Channel` say what each critical section does; class `Probe` holds the
 same data in fields that its methods update in place, as `struct probe_state` does.
 */
module ProbeStream {
  import opened Options

  const TWO64: nat := 0x1_0000_0000_0000_0000

  datatype LockKind = Mutex | RecursiveMutex | RwlockRead | RwlockWrite | Condition

  /** A lock token. The keyed hash is taken to be injective, so a token stands for the
      address and the kind it was computed from. */
  datatype Token = Token(address: nat, kind: LockKind)

  datatype EventKind = WaitBegin | WaitEnd | Acquire | Release

  datatype Verdict = Unknown | Acquired | Notified | TimedOut | Failed | Released

  /** What a caller hands to `emit_event`; `related` is 0 where the stream prints null. */
  datatype Draft = Draft(
    kind: EventKind, at: nat, token: Token, related: nat,
    duration: Option<nat>, hold: Option<nat>, verdict: Verdict)

  /** One line of the stream. `Torn` stands for whatever a failed write left behind. */
  datatype Record =
    | Header
    | Event(sequence: nat, tid: nat, draft: Draft)
    | Footer(sequence: nat, declared: nat, lost: nat, truncated: bool)
    | Torn

  datatype Settings = Settings(exact: bool, threshold: nat, maxEvents: nat)

  /** `lost` is the 64-bit counter; `lostInAll` is what it would be without wrap-around
      and is read by no operation. */
  datatype Channel = Channel(
    configured: bool, active: bool, truncated: bool,
    sequence: nat, emitted: nat, lost: nat, lostInAll: nat,
    stream: seq<Record>)

  datatype Emitted = Emitted(channel: Channel, sequence: nat)

  const UNLOADED := Channel(false, false, false, 0, 0, 0, 0, [])

  function Lose(c: Channel, count: nat): Channel {
    c.(lost := (c.lost + count) % TWO64, lostInAll := c.lostInAll + count, truncated := true)
  }

  function MarkLost(c: Channel, count: nat): Channel {
    if c.configured then Lose(c, count) else c
  }

  /** One pass through `emit_event`; `written` is the outcome of the write call. */
  function EmitEvent(max: nat, c: Channel, tid: nat, d: Draft, written: bool): Emitted {
    if !c.active then
      Emitted(c, 0)
    else if c.emitted >= max then
      Emitted(Lose(c, 1), 0)
    else
      var n := c.sequence + 1;
      if written then
        Emitted(c.(sequence := n, emitted := c.emitted + 1, stream := c.stream + [Event(n, tid, d)]), n)
      else
        Emitted(Lose(c, 1).(sequence := n, active := false, stream := c.stream + [Torn]), 0)
  }

  function Publish(c: Channel): Channel {
    c.(configured := true, active := true)
  }

  function EmitHeader(c: Channel, written: bool): Channel {
    if written then c.(stream := c.stream + [Header])
    else c.(active := false, stream := c.stream + [Torn])
  }

  function EmitFooter(c: Channel, written: bool): Channel {
    if !c.active then
      c
    else
      var n := c.sequence + 1;
      c.(active := false, sequence := n,
         stream := c.stream + [if written then Footer(n, c.emitted, c.lost, c.truncated) else Torn])
  }

  /** The probe's process-wide state. Every method below runs under the output lock, so its
      effect is one atomic step of the channel. */
  class Probe {
    const settings: Settings
    var configured: bool
    var active: bool
    var truncated: bool
    var sequence: nat
    var emitted: nat
    var lost: nat
    ghost var lostInAll: nat
    var stream: seq<Record>

    ghost function View(): Channel
      reads this
    {
      Channel(configured, active, truncated, sequence, emitted, lost, lostInAll, stream)
    }

    constructor (settings: Settings)
      ensures this.settings == settings && View() == UNLOADED
    {
      this.settings := settings;
      configured, active, truncated := false, false, false;
      sequence, emitted, lost, lostInAll := 0, 0, 0, 0;
      stream := [];
    }

    method NoteLost(count: nat)
      modifies this
      ensures View() == Lose(old(View()), count)
    {
      lost := (lost + count) % TWO64;
      lostInAll := lostInAll + count;
      truncated := true;
    }

    method Mark(count: nat)
      modifies this
      ensures View() == MarkLost(old(View()), count)
    {
      if configured {
        NoteLost(count);
      }
    }

    method Emit(tid: nat, d: Draft, written: bool) returns (number: nat)
      modifies this
      ensures Emitted(View(), number) == EmitEvent(settings.maxEvents, old(View()), tid, d, written)
    {
      number := 0;
      if !active {
        return;
      }
      if emitted >= settings.maxEvents {
        NoteLost(1);
        return;
      }
      sequence := sequence + 1;
      number := sequence;
      if written {
        stream := stream + [Event(number, tid, d)];
        emitted := emitted + 1;
      } else {
        stream := stream + [Torn];
        NoteLost(1);
        active := false;
        number := 0;
      }
    }

    method Initialize(written: bool)
      modifies this
      ensures View() == EmitHeader(Publish(old(View())), written)
    {
      configured := true;
      active := true;
      if written {
        stream := stream + [Header];
      } else {
        stream := stream + [Torn];
        active := false;
      }
    }

    method Finalize(written: bool)
      modifies this
      ensures View() == if old(configured) then EmitFooter(old(View()), written) else old(View())
    {
      if !configured || !active {
        return;
      }
      active := false;
      sequence := sequence + 1;
      stream := stream + [if written then Footer(sequence, emitted, lost, truncated) else Torn];
    }
  }
}
