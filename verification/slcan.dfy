/** TMCL over CAN through a serial-line (slcan) adapter: how a TMCL datagram
    is mapped onto one standard-ID CAN frame and back.

    The adapter moves the address byte of a datagram out of the payload and
    into the CAN arbitration ID.  Outgoing, the module ID becomes the ID and
    the payload is the datagram without its first byte; incoming, the ID is
    put back in front of the payload.

    Bus I/O is abstract: the outcome of the bus's own send is an input, and so
    is what the bus's receive call sees (a fault, nothing, or one frame after
    some delay).  Opening the bus is not modelled; note that the constructor
    as written reads the undefined names `comPort` and `hostID`, and
    `printInfo` reads an attribute that is never set. */
module SlcanTmcl {
  import opened Results
  import opened BigEndian

  const DefaultDataRate: nat := 1000000
  const DefaultHostId: nat := 2
  const DefaultModuleId: nat := 1

  /** The receive call waits at most three seconds for a frame. */
  const RecvTimeoutMs: nat := 3000

  /** A CAN frame as the bus library represents it. */
  datatype CanFrame = CanFrame(arbitrationId: nat, isExtendedId: bool, data: seq<byte>)

  /** What the bus's send call did with a frame. */
  datatype SendOutcome = Accepted | SendRaised

  /** What the bus's receive call observes while waiting. */
  datatype BusEvent =
    | RecvRaised                          // the bus library raised CanError
    | Silent                              // no frame arrives at all
    | Arrives(afterMs: nat, frame: CanFrame)

  /** The failures of this interface.  The first four are `ConnectionError`s
      with the messages "Failed to send a TMCL message", "Failed to receive a
      TMCL message", "Recv timed out" and "Received wrong ID"; the last is the
      `ValueError` that building a byte from an ID of 256 or more raises. */
  datatype Failure = SendFailed | RecvFailed | RecvTimedOut | WrongId | IdNotAByte

  /** Python's `data[1:]`: everything after the first byte, and nothing when
      there is no first byte. */
  function DropFirst(data: seq<byte>): (r: seq<byte>)
    ensures |data| == 0 ==> r == []
    ensures |data| > 0 ==> data == [data[0]] + r
  {
    if |data| == 0 then [] else data[1..]
  }

  /** The frame `_send` builds for a datagram: the host ID plays no part. */
  function FrameFor(moduleId: nat, data: seq<byte>): (f: CanFrame)
    ensures !f.isExtendedId
    ensures f.arbitrationId == moduleId
    ensures |data| > 0 ==> data == [data[0]] + f.data
    ensures |f.data| == if |data| == 0 then 0 else |data| - 1
  {
    CanFrame(moduleId, false, DropFirst(data))
  }

  /** `_send`: on success, the one frame that went onto the bus; a bus error
      surfaces as `SendFailed` and no frame counts as sent. */
  function Send(hostId: nat, moduleId: nat, data: seq<byte>, bus: SendOutcome): (r: Result<CanFrame, Failure>)
    ensures r.Ok? <==> bus == Accepted
    ensures r.Err? ==> r.error == SendFailed
    ensures r.Ok? ==> !r.value.isExtendedId && r.value.arbitrationId == moduleId
    ensures r.Ok? && |data| > 0 ==> data == [data[0]] + r.value.data
    ensures r.Ok? && |data| == 0 ==> r.value.data == []
  {
    match bus
    case Accepted => Ok(FrameFor(moduleId, data))
    case SendRaised => Err(SendFailed)
  }

  /** What the bus's receive call returns with the three-second timeout:
      the frame if it arrives in time, nothing otherwise. */
  function BusRecv(event: BusEvent): (r: Result<Option<CanFrame>, Failure>)
    ensures r.Err? <==> event.RecvRaised?
    ensures r.Ok? && r.value.Some? <==> event.Arrives? && event.afterMs <= RecvTimeoutMs
    ensures r.Ok? && r.value.Some? ==> r.value.value == event.frame
  {
    match event
    case RecvRaised => Err(RecvFailed)
    case Silent => Ok(None)
    case Arrives(afterMs, frame) => if afterMs <= RecvTimeoutMs then Ok(Some(frame)) else Ok(None)
  }

  /** A frame that the receive call delivers: one that arrives in time. */
  predicate InTime(event: BusEvent)
  {
    event.Arrives? && event.afterMs <= RecvTimeoutMs
  }

  /** `_recv`: reassembles a datagram from the one frame received, or fails
      in the order the source tests: bus error, timeout, foreign ID.  The
      module ID is not consulted.  A successful result is the host ID
      followed by the payload, one byte longer than the payload, so an 8-byte
      payload gives the 9-byte datagram the docstring promises. */
  function Recv(hostId: nat, moduleId: nat, event: BusEvent): (r: Result<seq<byte>, Failure>)
    ensures event.RecvRaised? ==> r == Err(RecvFailed)
    ensures !event.RecvRaised? && !InTime(event) ==> r == Err(RecvTimedOut)
    ensures InTime(event) && event.frame.arbitrationId != hostId ==> r == Err(WrongId)
    ensures InTime(event) && event.frame.arbitrationId == hostId && hostId >= 256 ==> r == Err(IdNotAByte)
    ensures r.Ok? <==> InTime(event) && event.frame.arbitrationId == hostId && hostId < 256
    ensures r.Ok? ==>
      && |r.value| == 1 + |event.frame.data|
      && r.value[0] as nat == hostId
      && r.value[1..] == event.frame.data
      && (|event.frame.data| == 8 ==> |r.value| == 9)
  {
    var msg :- BusRecv(event);
    if msg.None? then Err(RecvTimedOut)
    else if msg.value.arbitrationId != hostId then Err(WrongId)
    else if msg.value.arbitrationId >= 256 then Err(IdNotAByte)
    else Ok([msg.value.arbitrationId as byte] + msg.value.data)
  }

  /** `_send` does not depend on the host ID. */
  lemma SendIgnoresHost(h1: nat, h2: nat, moduleId: nat, data: seq<byte>, bus: SendOutcome)
    ensures Send(h1, moduleId, data, bus) == Send(h2, moduleId, data, bus)
  {
  }

  /** `_recv` does not depend on the module ID, nor on whether the frame
      carried an extended ID. */
  lemma RecvIgnoresModule(hostId: nat, m1: nat, m2: nat, event: BusEvent)
    ensures Recv(hostId, m1, event) == Recv(hostId, m2, event)
    ensures event.Arrives? ==>
      Recv(hostId, m1, event)
      == Recv(hostId, m1, event.(frame := event.frame.(isExtendedId := !event.frame.isExtendedId)))
  {
  }

  /** Round trip: a datagram sent to the module and echoed back in time under
      the host ID comes back as the host ID followed by `data[1:]`; for a
      non-empty datagram only the first byte changes. */
  lemma SendRecvRoundTrip(hostId: nat, moduleId: nat, data: seq<byte>, afterMs: nat)
    requires hostId < 256 && afterMs <= RecvTimeoutMs
    ensures Send(hostId, moduleId, data, Accepted).Ok?
    ensures var sent := Send(hostId, moduleId, data, Accepted).value;
      var back := Recv(hostId, moduleId, Arrives(afterMs, sent.(arbitrationId := hostId)));
      && back == Ok([hostId as byte] + DropFirst(data))
      && (|data| > 0 ==>
          && |back.value| == |data|
          && back.value[0] as nat == hostId
          && back.value[1..] == data[1..])
  {
  }

  /** With the default addressing, only frames carrying ID 2 are delivered;
      any other ID is refused as a wrong ID. */
  lemma DefaultHostFilters(event: BusEvent)
    requires InTime(event)
    ensures Recv(DefaultHostId, DefaultModuleId, event).Ok? <==> event.frame.arbitrationId == 2
    ensures event.frame.arbitrationId != 2 ==> Recv(DefaultHostId, DefaultModuleId, event) == Err(WrongId)
  {
  }

  /** Capability answers of this interface, fixed for every instance. */
  const SupportsTmcl: bool := true
  const SupportsCanOpen: bool := false

  /** The interface speaks TMCL and not CANopen. */
  lemma CapabilityAnswers()
    ensures SupportsTmcl && !SupportsCanOpen
  {
  }
}
