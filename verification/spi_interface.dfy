/** Register access to a chip over a full-duplex SPI link.

    Every transfer clocks a packet out and, at the same time, clocks in what
    the chip prepared during the PREVIOUS transfer.  The chip is modelled as
    a one-slot state machine: `pending` holds the packet it will shift out
    next, and a transfer of `tx` returns `pending` and replaces it with the
    chip's answer to `tx`.  The link also records every packet transmitted,
    so that the number of transfers an operation makes can be stated.

    Every operation returns the link as it is afterwards, also when it
    fails: a failure after a transfer leaves the chip changed, and a failure
    before any transfer leaves it as it was.

    Opening and closing the device file, logging and `__str__` (which reads
    the attributes `bus` and `baudrate` that are never set) are not part of
    this model. */
module SpiIcInterface {
  import opened Results
  import opened BigEndian
  import opened SpiRegister

  const DefaultBus: int := 1
  const DefaultDevice: int := 0
  const DefaultDataRate: int := 524288
  const DefaultSpiMode: int := 1
  const DefaultTimeoutS: real := 5.0

  /** This interface does not speak TMCL. */
  const SupportsTmcl: bool := false

  /** The link and the chip at its far end. */
  datatype Link = Link(pending: Packet, respond: Packet -> Packet, sent: seq<Packet>)

  /** The outcome of an operation and the link after it. */
  datatype Step<+T> = Step(result: Result<T, SpiError>, link: Link)

  /** What a caller hands to the driver's `xfer`: a 5-byte buffer, or a
      request object, which is not a sequence of integers. */
  datatype XferArg = Buffer(bytes: Packet) | RequestObject(req: RegisterRequest)

  /** What the constructor sets up before opening the device. */
  datatype Settings = Settings(bus: int, device: int, maxSpeedHz: int, mode: int, lsbFirst: bool, timeout: Option<real>)

  /** The constructor's settings: a timeout of zero means "no timeout";
      every other value, and every other parameter, is kept as given. */
  function Configure(bus: int, device: int, datarate: int, spiMode: int, timeoutS: real, lsbFirst: bool): (s: Settings)
    ensures s.timeout == None <==> timeoutS == 0.0
    ensures s.timeout.Some? ==> s.timeout.value == timeoutS
    ensures s.bus == bus && s.device == device && s.maxSpeedHz == datarate
    ensures s.mode == spiMode && s.lsbFirst == lsbFirst
  {
    Settings(bus, device, datarate, spiMode, lsbFirst, if timeoutS == 0.0 then None else Some(timeoutS))
  }

  /** The SPI driver's `xfer`.  Given a byte sequence it makes one full-duplex
      transfer and returns, as a list of integers, the packet the chip had
      ready before the transfer began; the chip then holds its answer to the
      packet sent.  Given anything else it raises before clocking a byte. */
  function Xfer(link: Link, arg: XferArg): (r: Step<Packet>)
    ensures arg.RequestObject? ==> r == Step(Err(XferNotBytes), link)
    ensures arg.Buffer? ==>
      && r.result == Ok(link.pending)
      && r.link.pending == link.respond(arg.bytes)
      && r.link.respond == link.respond
      && r.link.sent == link.sent + [arg.bytes]
  {
    match arg
    case RequestObject(_) => Step(Err(XferNotBytes), link)
    case Buffer(tx) => Step(Ok(link.pending), link.(pending := link.respond(tx), sent := link.sent + [tx]))
  }

  /** The body of `send` after the request is built: hand `arg` to the
      driver, then unpack what it returned, converting the returned list to
      bytes first when `asBytes` holds.  `struct.unpack` refuses a list. */
  function Transmit(link: Link, arg: XferArg, asBytes: bool): (r: Step<RegisterReply>)
    ensures arg.RequestObject? ==> r == Step(Err(XferNotBytes), link)
    ensures arg.Buffer? ==> r.link == Xfer(link, arg).link
    ensures arg.Buffer? && !asBytes ==> r.result == Err(UnpackNotBytes)
    ensures r.result.Ok? <==> arg.Buffer? && asBytes
    ensures r.result.Ok? ==> Unpack(link.pending) == Ok(r.result.value)
  {
    var x := Xfer(link, arg);
    match x.result
    case Err(e) => Step(Err(e), x.link)
    case Ok(rx) => Step(if asBytes then Unpack(rx) else Err(UnpackNotBytes), x.link)
  }

  /** `send`, corrected: the request is packed into its 5-byte buffer for the
      driver and the reply list is turned into bytes for unpacking.  Exactly
      one transfer, whose reply decodes the packet the chip had pending, its
      answer to the previous request, not to this one.  A request that does
      not pack fails before anything is transferred. */
  function Send(link: Link, address: int, value: int): (r: Step<RegisterReply>)
    ensures r.result.Ok? <==> Packable(address, value)
    ensures r.result.Err? ==> r.result.error == PackOutOfRange && r.link == link
    ensures r.result.Ok? ==>
      var buf := ToBuffer(RegisterRequest(address, value)).value;
      && r.link.sent == link.sent + [buf]
      && r.link.pending == link.respond(buf)
      && r.link.respond == link.respond
      && Unpack(link.pending) == Ok(r.result.value)
  {
    match ToBuffer(RegisterRequest(address, value))
    case Err(e) => Step(Err(e), link)
    case Ok(buf) => Transmit(link, Buffer(buf), true)
  }

  /** `send` as written: the request object itself goes to the driver, and
      the reply would be unpacked as the list the driver returns. */
  function SendAsWritten(link: Link, address: int, value: int): Step<RegisterReply>
  {
    Transmit(link, RequestObject(RegisterRequest(address, value)), false)
  }

  /** As written, `send` fails for every request without transferring
      anything, while the corrected `send` transfers every in-range one. */
  lemma SendAsWrittenNeverTransfers(link: Link, address: int, value: int)
    ensures SendAsWritten(link, address, value) == Step(Err(XferNotBytes), link)
    ensures SendAsWritten(link, address, value).link.sent == link.sent
    ensures Packable(address, value) ==> Send(link, address, value).result.Ok?
  {
  }

  /** Packing the request alone does not repair `send`: the transfer happens,
      so the chip has moved on, but unpacking the returned list fails. */
  lemma PackedBufferAloneStillFails(link: Link, address: int, value: int)
    requires Packable(address, value)
    ensures var buf := ToBuffer(RegisterRequest(address, value)).value;
      var r := Transmit(link, Buffer(buf), false);
      && r.result == Err(UnpackNotBytes)
      && r.link.sent == link.sent + [buf]
      && r.link.pending == link.respond(buf)
  {
  }

  /** Python's `address & 0b10000000`: bit 7 of the address in two's
      complement, so the result is 0 or 0x80 whatever the address, negative
      ones included. */
  function WriteAddress(address: int): (a: int)
    ensures a == 0 || a == 0x80
    ensures a == ((address % 256) as bv8 & 0x80) as int
    ensures 0 <= address < 256 ==> (a == 0x80 <==> address >= 128)
  {
    if address % 256 >= 128 then 0x80 else 0
  }

  /** `write`: one transfer of the masked address with the value unchanged;
      the address never makes packing fail, only an out-of-range value does. */
  function Write(link: Link, address: int, value: int): (r: Step<RegisterReply>)
    ensures r.result.Ok? <==> 0 <= value < Pow256(4)
    ensures r.result.Err? ==> r.result.error == PackOutOfRange && r.link == link
    ensures r.result.Ok? ==>
      && |r.link.sent| == |link.sent| + 1
      && r.link.sent[..|link.sent|] == link.sent
      && (var wire := r.link.sent[|link.sent|];
          && (wire[0] == 0 || wire[0] == 0x80)
          && wire[0] as int == WriteAddress(address)
          && FromBytes(wire[1..]) == value
          && r.link.pending == link.respond(wire))
      && r.link.respond == link.respond
      && Unpack(link.pending) == Ok(r.result.value)
  {
    Send(link, WriteAddress(address), value)
  }

  /** `read`: two transfers of the same request; the first reply is
      discarded and the second, which the chip prepared in answer to the
      first transfer, is returned. */
  function Read(link: Link, address: int, value: int): (r: Step<RegisterReply>)
    ensures r.result.Ok? <==> Packable(address, value)
    ensures r.result.Err? ==> r.result.error == PackOutOfRange && r.link == link
    ensures r.result.Ok? ==>
      var buf := ToBuffer(RegisterRequest(address, value)).value;
      && r.link.sent == link.sent + [buf, buf]
      && r.link.pending == link.respond(buf)
      && r.link.respond == link.respond
      && Unpack(link.respond(buf)) == Ok(r.result.value)
  {
    var first := Send(link, address, value);
    if first.result.Err? then first else Send(first.link, address, value)
  }

  /** Whatever the chip had pending before, a read returns its answer to the
      request read, so two links that differ only there read alike. */
  lemma ReadIgnoresPending(l1: Link, l2: Link, address: int, value: int)
    requires l1.respond == l2.respond && l1.sent == l2.sent
    ensures Read(l1, address, value).result == Read(l2, address, value).result
    ensures Packable(address, value) ==> Read(l1, address, value) == Read(l2, address, value)
  {
  }

  /** A single `send` does not in general return the answer to its own
      request: with a chip that echoes each packet and has zeros pending,
      sending (1, 5) returns (0, 0), while the answer to (1, 5) is (1, 5),
      which a `read` returns. */
  lemma SendReplyIsStale()
    ensures var echo := Link([0, 0, 0, 0, 0], (p: Packet) => p, []);
      && Send(echo, 1, 5).result == Ok(RegisterReply(0, 0))
      && Unpack(echo.respond([1, 0, 0, 0, 5])) == Ok(RegisterReply(1, 5))
      && Read(echo, 1, 5).result == Ok(RegisterReply(1, 5))
  {
    var echo := Link([0, 0, 0, 0, 0], (p: Packet) => p, []);
    assert Pow256(4) == 0x1_0000_0000;
    assert ToBytes(5, 4) == [0, 0, 0, 5];
    assert ToBytes(0, 4) == [0, 0, 0, 0];
    FromToBytes(5, 4);
    FromToBytes(0, 4);
    var address: int := 1;
    assert [address as byte] + ToBytes(5, 4) == [1, 0, 0, 0, 5];
    assert ToBuffer(RegisterRequest(address, 5)) == Ok([1, 0, 0, 0, 5]);
    assert Unpack(echo.pending) == Ok(RegisterReply(0, 0));
  }

  /** This interface does not speak TMCL. */
  lemma CapabilityAnswers()
    ensures !SupportsTmcl
  {
  }
}
