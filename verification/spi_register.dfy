/** The SPI register packet: one address byte followed by a 32-bit value,
    big-endian, as Python's `struct` lays out the format ">BI". */
module SpiRegister {
  import opened Results
  import opened BigEndian

  /** Bytes in one register packet: 1 for the address, 4 for the value. */
  const RegisterPackageLength: nat := 5

  type Packet = s: seq<byte> | |s| == RegisterPackageLength witness [0, 0, 0, 0, 0]

  /** A request as the caller builds it: Python integers, not yet range-checked. */
  datatype RegisterRequest = RegisterRequest(address: int, value: int)

  /** A reply as `struct.unpack` hands it over: an unsigned byte and an
      unsigned 32-bit value. */
  datatype RegisterReply = RegisterReply(address: nat, value: nat)

  /** Failures of the register transport.  The first two are the
      `struct.error`s that packing an out-of-range field and unpacking a
      buffer of the wrong length raise; the third is the `TypeError` the SPI
      driver raises when handed something that is not a sequence of
      integers; the last is the `TypeError` unpacking raises when handed a
      list instead of a bytes-like object. */
  datatype SpiError = PackOutOfRange | UnpackWrongLength | XferNotBytes | UnpackNotBytes

  /** The fields `struct.pack(">BI", ...)` accepts. */
  predicate Packable(address: int, value: int)
  {
    0 <= address < 256 && 0 <= value < Pow256(4)
  }

  /** `RegisterRequest.to_buffer`: the 5-byte packet, or the error packing
      raises when a field does not fit. */
  function ToBuffer(req: RegisterRequest): (r: Result<Packet, SpiError>)
    ensures r.Ok? <==> Packable(req.address, req.value)
    ensures r.Err? ==> r.error == PackOutOfRange
    ensures r.Ok? ==> r.value[0] as int == req.address && FromBytes(r.value[1..]) == req.value
  {
    if Packable(req.address, req.value) then
      var buf := [req.address as byte] + ToBytes(req.value, 4);
      FromToBytes(req.value, 4);
      assert buf[1..] == ToBytes(req.value, 4);
      Ok(buf)
    else
      Err(PackOutOfRange)
  }

  /** `RegisterReply(struct.unpack(">BI", buf))`: defined on exactly five
      bytes; any other length is an error, never a partial reply. */
  function Unpack(buf: seq<byte>): (r: Result<RegisterReply, SpiError>)
    ensures r.Ok? <==> |buf| == RegisterPackageLength
    ensures r.Err? ==> r.error == UnpackWrongLength
    ensures r.Ok? ==> Packable(r.value.address, r.value.value)
  {
    if |buf| != RegisterPackageLength then Err(UnpackWrongLength)
    else
      Ok(RegisterReply(buf[0] as nat, FromBytes(buf[1..])))
  }

  /** Unpacking a packed request gives back its address and value. */
  lemma UnpackToBuffer(address: int, value: int)
    requires Packable(address, value)
    ensures ToBuffer(RegisterRequest(address, value)).Ok?
    ensures Unpack(ToBuffer(RegisterRequest(address, value)).value) == Ok(RegisterReply(address, value))
  {
  }

  /** Packing an unpacked buffer gives back the same five bytes, so the codec
      is a bijection between packets and in-range field pairs. */
  lemma ToBufferUnpack(buf: seq<byte>)
    requires |buf| == RegisterPackageLength
    ensures Unpack(buf).Ok?
    ensures var reply := Unpack(buf).value;
      ToBuffer(RegisterRequest(reply.address, reply.value)) == Ok(buf)
  {
    var reply := Unpack(buf).value;
    var out := ToBuffer(RegisterRequest(reply.address, reply.value)).value;
    ToFromBytes(buf[1..]);
    assert out[1..] == buf[1..];
    assert out[0] == buf[0];
    assert out == [out[0]] + out[1..];
    assert buf == [buf[0]] + buf[1..];
  }
}
