/**
  The TM1638's command bytes, as documented in the header comments of
  pkg/tm1638.go and cp_calc/tm1638.py, and the effect of a write transaction
  on the chip's 16-byte display memory.

  Every transaction opens with one command byte whose top two bits name its
  family:
    01_00_I_tMM  data command     (I = fixed address, t = test mode, MM = 00 write display / 10 read keys)
    10_00_D_PPP  display control  (D = display on, PPP = pulse width 0..7)
    11_00_AAAA   address          (AAAA = 0..15)
 */
module TM1638Commands {
  import opened Wrappers

  datatype DataMode = WriteDisplay | ReadKeys

  datatype Command =
    | DataSet(fixedAddress: bool, testMode: bool, mode: DataMode)
    | DisplayControl(on: bool, pulseWidth: nat)
    | AddressSet(address: nat)

  predicate WellFormed(c: Command) {
    match c
    case DataSet(_, _, _) => true
    case DisplayControl(_, pw) => pw < 8
    case AddressSet(a) => a < 16
  }

  function Flag(b: bool, mask: bv8): bv8 {
    if b then mask else 0
  }

  /**
    The byte holding a command's small numeric field (pulse width or
    address), counted up from zero; FieldByteValue equates it with the
    conversion `n as bv8`.
   */
  function FieldByte(n: nat): bv8
    requires n < 16
  {
    if n == 0 then 0 else FieldByte(n - 1) + 1
  }

  lemma {:induction false} FieldByteValue(n: nat)
    requires n < 16
    ensures FieldByte(n) == n as bv8
  {
    if n > 0 {
      FieldByteValue(n - 1);
    }
  }

  function Encode(c: Command): bv8
    requires WellFormed(c)
  {
    match c
    case DataSet(fixed, test, mode) =>
      0x40 | Flag(fixed, 0x08) | Flag(test, 0x04) | Flag(mode == ReadKeys, 0x02)
    case DisplayControl(on, pw) => 0x80 | Flag(on, 0x08) | FieldByte(pw)
    case AddressSet(a) => 0xC0 | FieldByte(a)
  }

  /** The command a byte stands for; None for the combinations the chip does not allow. */
  function Decode(b: bv8): Option<Command> {
    if b & 0x30 != 0 then None
    else if b & 0xC0 == 0x40 then
      if b & 0x01 != 0 then None
      else Some(DataSet(b & 0x08 != 0, b & 0x04 != 0, if b & 0x02 != 0 then ReadKeys else WriteDisplay))
    else if b & 0xC0 == 0x80 then Some(DisplayControl(b & 0x08 != 0, (b & 0x07) as nat))
    else if b & 0xC0 == 0xC0 then Some(AddressSet((b & 0x0F) as nat))
    else None
  }

  /** Every well-formed command is recovered from its byte. */
  lemma DecodeEncode(c: Command)
    requires WellFormed(c)
    ensures Decode(Encode(c)) == Some(c)
  {
    match c
    case DataSet(fixed, test, mode) =>
    case DisplayControl(on, pw) =>
      FieldByteValue(pw);
      var b := Encode(c);
      assert b & 0x07 == pw as bv8;
    case AddressSet(a) =>
      FieldByteValue(a);
      var b := Encode(c);
      assert b & 0x0F == a as bv8;
  }

  /** Every byte that decodes is the encoding of what it decodes to. */
  lemma EncodeDecode(b: bv8)
    requires Decode(b).Some?
    ensures WellFormed(Decode(b).value) && Encode(Decode(b).value) == b
  {
    if b & 0xC0 == 0x80 {
      FieldByteValue((b & 0x07) as nat);
    } else if b & 0xC0 == 0xC0 {
      FieldByteValue((b & 0x0F) as nat);
    }
  }

  /** The data command that prepares a write: 0x40 auto-increment, 0x48 fixed address. */
  function WriteCommand(autoIncrement: bool): Command {
    DataSet(!autoIncrement, false, WriteDisplay)
  }

  /** The data command that starts a key-scan read. */
  const ReadKeysCommand: Command := DataSet(false, false, ReadKeys)

  lemma CommandBytes(autoIncrement: bool, on: bool, pw: nat, a: nat)
    requires pw < 8 && a < 16
    ensures Encode(WriteCommand(autoIncrement)) == if autoIncrement then 0x40 else 0x48
    ensures Encode(ReadKeysCommand) == 0x42
    ensures 0x80 <= Encode(DisplayControl(on, pw)) <= 0x8F
    ensures 0xC0 <= Encode(AddressSet(a)) <= 0xCF
  {
    FieldByteValue(pw);
    FieldByteValue(a);
  }

  /**
    The display memory after a write of `data` from `address` in
    auto-increment mode: byte j lands at `address + j`. Bytes that would
    land beyond address 15 are not described by the source; this model drops them.
   */
  function Store(mem: seq<bv8>, address: nat, data: seq<bv8>): (m: seq<bv8>)
    requires |mem| == 16
    ensures |m| == 16
    ensures forall k :: 0 <= k < 16 && !(address <= k < address + |data|) ==> m[k] == mem[k]
    ensures forall j :: 0 <= j < |data| && address + j < 16 ==> m[address + j] == data[j]
  {
    seq(16, k requires 0 <= k < 16 => if address <= k < address + |data| then data[k - address] else mem[k])
  }

  /**
    What the chip does with the bytes of one transaction once a write data
    command has put it in auto-increment mode: an address command followed
    by the data to store from that address. Any other first byte leaves the
    display memory as it was.
   */
  function WriteFrame(mem: seq<bv8>, frame: seq<bv8>): (m: seq<bv8>)
    requires |mem| == 16
    ensures |m| == 16
  {
    if |frame| > 0 && Decode(frame[0]).Some? && Decode(frame[0]).value.AddressSet?
    then Store(mem, Decode(frame[0]).value.address, frame[1..])
    else mem
  }

  /** An address command followed by data stores the data from that address. */
  lemma WriteFrameStores(mem: seq<bv8>, address: nat, data: seq<bv8>)
    requires |mem| == 16 && address < 16
    ensures WriteFrame(mem, [Encode(AddressSet(address))] + data) == Store(mem, address, data)
  {
    DecodeEncode(AddressSet(address));
    assert ([Encode(AddressSet(address))] + data)[1..] == data;
  }
}
