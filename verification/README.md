# TMCL transports: CAN-over-serial datagram mapping and SPI register access

This project models two transport adapters of a TMCL motor-controller
library and proves properties of the model in Dafny.

- **slcan TMCL interface** (`SlcanTmcl`, `slcan.dfy`). A TMCL datagram is
  carried in one standard-ID CAN frame through a serial-line CAN adapter.
  `_send` puts the module ID in the arbitration ID and sends the datagram
  without its first byte as the payload. `_recv` waits up to three seconds
  for one frame. It refuses a frame whose ID is not the host ID and rebuilds
  the datagram by putting the ID back in front of the payload. The bus is
  abstract. Whether its send call raised is an input, and so is what its
  receive call saw: a fault, nothing, or a frame after some delay. The
  interface's capability answers are constants: TMCL yes, CANopen no.
- **SPI register interface** (`SpiRegister`, `spi_register.dfy`;
  `SpiIcInterface`, `spi_interface.dfy`). A register packet is 5 bytes in
  the `struct` layout `">BI"`: one address byte, then a 32-bit big-endian
  unsigned value (`BigEndian`, `bigendian.dfy`). Packing an out-of-range
  field and unpacking a buffer that is not 5 bytes long are errors. The link
  is full duplex, so each transfer returns what the chip prepared during the
  previous transfer. The chip is a one-slot state machine. `pending` is the
  packet it will shift out next. A transfer of `tx` returns `pending` and
  replaces it with `respond(tx)`. The link also logs every transmitted
  packet, so the number of transfers an operation makes can be stated. On
  this model, `read` returns the chip's answer to the request it reads,
  whatever was pending before. The interface does not speak TMCL
  (`SpiIcInterface.SupportsTmcl`).

Python exceptions become `Results.Result` errors. `SlcanTmcl.Failure` names
the `ConnectionError` messages and the `ValueError` of `bytearray`.
`SpiRegister.SpiError` names the `struct.error`s and the driver's
`TypeError`. Python integers are Dafny `int`s; CAN IDs are `nat`s.

The SPI driver's `xfer` is modelled once (`SpiIcInterface.Xfer`). It
accepts a byte sequence and returns the received bytes as a list of
integers; anything else makes it raise before a byte is clocked. Every SPI
operation returns the link as it is afterwards, also on failure, so a
failure after a transfer still shows the transfer. As written, `send` hands
the request object itself to the driver and so always fails (see Findings).
`SpiIcInterface.Send` models the corrected `send`: it packs the request into
its 5-byte buffer and turns the returned list into bytes before unpacking.
The rest of the model uses the corrected `Send`.

Python's `address & 0b10000000` on an arbitrary integer is bit 7 of its
two's-complement form. `SpiIcInterface.WriteAddress` computes it as
`address % 256 >= 128` with Dafny's Euclidean `%`. Its contract checks this
against the bit-vector `&` of the low byte. The mask is modelled as written,
although `|` (setting the write bit) looks like the intended operator.

For `_recv`, the model assumes the bus library's messages are always truthy,
as python-can's `Message.__bool__` makes them. Under that assumption, only a
missing frame counts as a timeout, even when a frame with an empty payload
arrives.

## Model

| member | source | states |
|---|---|---|
| SlcanTmcl.DropFirst | PyTrinamic/connections/slcan_tmcl_interface.py:73 | `data[1:]` is empty for empty data; otherwise the data is its first byte followed by the result |
| SlcanTmcl.FrameFor | PyTrinamic/connections/slcan_tmcl_interface.py:71-73 | the frame has a standard (non-extended) ID equal to the module ID; its payload is the datagram minus its first byte, one byte shorter |
| SlcanTmcl.Send | PyTrinamic/connections/slcan_tmcl_interface.py:64-78 | exactly one frame is produced when the bus accepts it (standard ID = module ID, payload = `data[1:]`); a bus error gives `SendFailed` and no frame |
| SlcanTmcl.SendIgnoresHost | PyTrinamic/connections/slcan_tmcl_interface.py:71-73 | the outcome of `_send` is the same for every host ID |
| SlcanTmcl.BusRecv | PyTrinamic/connections/slcan_tmcl_interface.py:90-93 | the bus's receive delivers a frame exactly when one arrives within 3000 ms; a bus error gives `RecvFailed` |
| SlcanTmcl.Recv | PyTrinamic/connections/slcan_tmcl_interface.py:81-104 | bus error gives `RecvFailed`; no frame in time gives `RecvTimedOut`; an ID other than the host ID gives `WrongId`; success exactly when a frame with the host ID (below 256) arrives in time, and then the result is the host ID followed by the payload, one byte longer (9 bytes for an 8-byte payload) |
| SlcanTmcl.RecvIgnoresModule | PyTrinamic/connections/slcan_tmcl_interface.py:88-104 | `_recv` gives the same outcome for every module ID and for standard or extended frames |
| SlcanTmcl.SendRecvRoundTrip | PyTrinamic/connections/slcan_tmcl_interface.py:73-104 | any datagram, the empty one included, sent and echoed back in time under the host ID comes back as the host ID followed by `data[1:]`; a non-empty one keeps its length, with byte 0 replaced by the host ID and every later byte unchanged |
| SlcanTmcl.DefaultHostFilters | PyTrinamic/connections/slcan_tmcl_interface.py:22-23 | with the default host ID 2, a frame arriving in time is delivered exactly when its ID is 2, and any other ID is refused with `WrongId` |
| SlcanTmcl.CapabilityAnswers | PyTrinamic/connections/slcan_tmcl_interface.py:112-118 | the interface answers yes to TMCL and no to CANopen |
| BigEndian.ToBytes | pytrinamic/connections/spi_tmc_interface.py:14 | the n-byte big-endian form of a value is exactly n bytes long |
| BigEndian.FromBytes | pytrinamic/connections/spi_tmc_interface.py:14 | n big-endian bytes denote a value below 256^n |
| BigEndian.FromToBytes | pytrinamic/connections/spi_tmc_interface.py:14 | decoding the n-byte encoding of a value below 256^n gives the value back |
| BigEndian.ToFromBytes | pytrinamic/connections/spi_tmc_interface.py:14 | encoding the decoded value of a byte sequence at its length gives the same bytes |
| BigEndian.ToBytesInjective | pytrinamic/connections/spi_tmc_interface.py:14 | two values that fit in n bytes and have the same encoding are equal |
| SpiRegister.ToBuffer | pytrinamic/connections/spi_tmc_interface.py:14-24 | packing succeeds exactly when the address is below 256 and the value below 2^32, and then yields 5 bytes: the address byte, then bytes that decode big-endian to the value; otherwise `PackOutOfRange` |
| SpiRegister.Unpack | pytrinamic/connections/spi_tmc_interface.py:30-33 | unpacking succeeds exactly on 5 bytes, giving an in-range address and value; any other length is `UnpackWrongLength` |
| SpiRegister.UnpackToBuffer | pytrinamic/connections/spi_tmc_interface.py:23-33 | unpacking the packet of an in-range request gives back its address and value |
| SpiRegister.ToBufferUnpack | pytrinamic/connections/spi_tmc_interface.py:23-33 | packing the fields unpacked from any 5-byte buffer gives back that buffer |
| SpiIcInterface.Configure | pytrinamic/connections/spi_tmc_interface.py:43-55 | a timeout of 0 becomes "no timeout" and every other timeout is kept; bus, device, speed, mode and bit order are kept as given |
| SpiIcInterface.Xfer | pytrinamic/connections/spi_tmc_interface.py:83 | a byte buffer makes one transfer: the result is the packet the chip had pending, the chip then holds its answer to the buffer, and the buffer is logged; a request object fails with `XferNotBytes` and leaves the link unchanged |
| SpiIcInterface.Transmit | pytrinamic/connections/spi_tmc_interface.py:83-87 | handing an object to the driver fails before any transfer; handing a buffer transfers it; a reply is decoded only when the buffer was transferred and the returned list converted to bytes, and it is the previously pending packet; unpacking the raw list fails with `UnpackNotBytes` |
| SpiIcInterface.Send | pytrinamic/connections/spi_tmc_interface.py:77-87 | an in-range request makes exactly one transfer of its packet; the reply decodes the packet the chip had pending, its answer to the previous request; the chip then holds its answer to this request; an out-of-range request fails with `PackOutOfRange` and leaves the link unchanged |
| SpiIcInterface.SendAsWrittenNeverTransfers | pytrinamic/connections/spi_tmc_interface.py:79-84 | as written, `send` fails with `XferNotBytes` for every request and leaves the link unchanged, nothing transferred; the corrected `send` succeeds on every in-range request |
| SpiIcInterface.PackedBufferAloneStillFails | pytrinamic/connections/spi_tmc_interface.py:83-84 | handing the packed buffer to the driver but unpacking the returned list fails with `UnpackNotBytes`, after the transfer has happened and changed the chip |
| SpiIcInterface.WriteAddress | pytrinamic/connections/spi_tmc_interface.py:90 | the masked address is 0 or 0x80; it equals the bitwise AND of the address's low byte with 0x80; for an address below 256 it is 0x80 exactly when the address is at least 128 |
| SpiIcInterface.Write | pytrinamic/connections/spi_tmc_interface.py:89-93 | succeeds exactly when the value is below 2^32; makes one transfer whose address byte is 0 or 0x80 (the masked address) and whose value bytes decode to the unchanged value; the chip then holds its answer to that packet and keeps its response function; returns the previously pending reply; otherwise fails with `PackOutOfRange` and leaves the link unchanged |
| SpiIcInterface.Read | pytrinamic/connections/spi_tmc_interface.py:94-97 | an in-range request makes exactly two transfers of the same packet and returns the chip's answer to that packet, discarding the first reply; the chip keeps its response function; an out-of-range one fails with `PackOutOfRange` and leaves the link unchanged |
| SpiIcInterface.ReadIgnoresPending | pytrinamic/connections/spi_tmc_interface.py:94-97 | two links that differ only in the pending packet give the same read result, and for an in-range request end in the same link |
| SpiIcInterface.SendReplyIsStale | pytrinamic/connections/spi_tmc_interface.py:83-97 | with an echoing chip holding zeros, `send(1, 5)` returns (0, 0), not the answer (1, 5) to its own request; `read(1, 5)` returns (1, 5) |
| SpiIcInterface.CapabilityAnswers | pytrinamic/connections/spi_tmc_interface.py:73-75 | the SPI register interface answers no to TMCL |

## Left out

- Opening the CAN bus and the SPI device, `close`, `__enter__`/`__exit__`, debug printing and logging are I/O and resource handling.
- The slcan constructor reads the undefined names `comPort` and `hostID` (slcan_tmcl_interface.py:26,33,39), so it cannot run as written. Its hardware filter `{can_id, can_mask: 0x7F}` is bus configuration. Only the software ID check in `_recv` is modelled.
- `printInfo` reads `self.__channel`, which is never set, and `SpiIcInterface.__str__` reads `self.bus` and `self.baudrate`, which are never set. Both are printing only.
- Port discovery (`available_ports`, `SpiIcInterface.list`) enumerates the operating system's devices. `list` also overwrites its scan with a constant.
- `RegisterReply.value()` is shadowed by the instance attribute `value` and cannot be called. The model keeps the attribute.
- SpiIcInterface.Configure: the constructor computes the timeout and then drops it. The model records the computed value in `Settings.timeout`, but nothing uses it.
- SpiIcInterface.Xfer: only 5-byte transfers are modelled, the only size `send` makes. Because the driver returns as many bytes as were sent, the wrong-length unpacking error cannot arise in the corrected `Send`.
- SlcanTmcl.BusRecv: a frame arriving after the 3-second timeout is dropped. In the bus library it would stay queued for the next receive call; queueing across calls is not modelled.
- SlcanTmcl.Send: neither the source nor the model checks that a standard ID fits in 11 bits or that a payload fits in 8 bytes. What the adapter does with such a frame is not modelled.
- The TMCL 9-byte datagram encoder, its checksum and the reply status are in `tmcl_interface`, which is not part of this model.
- The evaluation-board wrapper `TMC2208_eval.py` only delegates to connection methods that are not part of this model. The example scripts are device demos.
- Non-integer arguments, which make `struct.pack` raise a `struct.error`, are not modelled. Addresses and values are integers.

## Findings

| source | as written | input that shows it | evidently intended | confidence | as-written member | corrected member |
|---|---|---|---|---|---|---|
| pytrinamic/connections/spi_tmc_interface.py:79-84 | `send` passes the `RegisterRequest` object to `spi.xfer`, which accepts only a sequence of integers; it then unpacks the list `xfer` returns, which `struct.unpack` refuses | `send(0, 0)`: the driver raises `TypeError` and nothing is transferred (`SendAsWrittenNeverTransfers`); passing the buffer alone still fails at unpacking (`PackedBufferAloneStillFails`) | pass `data.to_buffer()` and unpack `bytes(previous_data)` | not executed | SpiIcInterface.SendAsWritten | SpiIcInterface.Send |
