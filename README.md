# TM1638 driver for the 16-key board, in Dafny

This project models the core of the Led8key repository. That core is a
driver for the TM1638 LED and keypad controller, which is reached over three
GPIO lines: STROBE, CLK and DIO. The repository implements the driver twice,
once in Go (`pkg/`) and once in CircuitPython (`cp_calc/`), and the model
follows each implementation separately, in three layers:

- **the transport and command layer** (`TM1638`). Bytes are sent least
  significant bit first, with one CLK pulse per bit, and are read back by
  shift-left-then-OR. The three command families are encoded here: data
  commands `0x40`/`0x48`/`0x42`, display control
  `0x80 | D << 3 | PPP`, and set address `0xC0 | A`. Each operation is one
  transaction framed by STROBE.
- **the seven-segment font** (`SevenSegFont`). This is an editable table
  from characters to segment bytes, and the digit builder that folds a `.`
  into bit 7 of the digit before it.
- **the 16-key board adapter** (`DISP16KEY` / `Disp16Key`). It transposes
  eight digit patterns into eight segment planes, writes plane `s` alone to
  chip address `2s`, and decodes the four key-scan bytes into sixteen button
  states.

The GPIO lines are an abstract event trace: `Write(pin, level)`,
`SetInput(pin)`, `SetOutput(pin)` and `Read(pin, level)`. Every driver is a
class whose `trace` field its methods extend, so the contracts are
statements about the emitted trace. The levels the chip drives on DIO during
reads are a parameter `dioLevels: nat -> bool`, consumed through a sample
counter `samples`.

To state what the chip receives, `Gpio` adds a model of the chip's side of
the lines (`After`, `Latched`, `Bytes`). While STROBE is low, the chip
latches the level of DIO on every falling CLK edge. From that model the
project proves which bytes each transaction delivers. In Go, DIO is released
for a 1 and driven low for a 0. In Python, DIO is written with the bit's
value.

Modules, one per source file, plus shared pieces:

| module | file | models |
|---|---|---|
| `TM1638Commands` | commands.dfy | command byte format, encoder/decoder, chip memory writes |
| `TM1638Go`, `TM1638Py` | tm1638_go.dfy, tm1638_py.dfy | pkg/tm1638.go, cp_calc/tm1638.py |
| `SevenSegFontGo`, `SevenSegFontPy` | sevensegfont_go.dfy, sevensegfont_py.dfy | pkg/sevensegfont.go, cp_calc/sevensegfont.py |
| `Disp16KeyLayout` | disp16key_layout.dfy | the board layout both adapters share: planes, memory map, key table |
| `Disp16KeyGo`, `Disp16KeyPy` | disp16key_go.dfy, disp16key_py.dfy | pkg/disp16key.go, cp_calc/disp16key.py |
| `Bits`, `Gpio`, `Wrappers` | bits.dfy, gpio.dfy, wrappers.dfy | bit facts on `bv8`, the pin trace and the chip's side of the lines, `Outcome`/`Result` |

### Behaviour the model exposes

These points follow the code as written.

- **Go digit builder, merge target.** Go records `previous = i`, the
  *character* index, and ORs the point into `outDigits[previous]`. After an
  earlier merge, that index is one past the digit the character went to.
  - On `"1.2."`, the second point goes to digit 2, and the blanking loop
    then clears it (`SevenSegFontGo.SecondPointLost`). Python gives
    `[0x86, 0xDB]` (`SevenSegFontPy.PointsDiverge`).
  - On `"1.2.3.4.5."`, the index passes the end of the 8-byte buffer: an
    index panic (`SevenSegFontGo.PointPastEnd`).
  - A '.' with nothing to merge into takes a digit of its own. This covers
    a leading '.', a '.' after a merged point, and a '.' after another '.'
    (`SevenSegFontGo.UnmergedPointStep`). `"1.."` gives
    `[0x86, 0x80, 0, ...]`.
- **Go digit builder, digit limit.** The doc comment calls the parameter
  "the maximum digits to create" (pkg/sevensegfont.go:57). The test
  `i > numDigits` reads the *character* index, and it is off by one
  (`SevenSegFontGo.LimitStep`):
  - a string with no dots can be stored one digit too far. Where the buffer
    has room, the call then fails with TooManyDigits
    (`TooManyDigitsStops`). With a buffer exactly `numDigits` long, the
    call panics instead (`LimitOffByOne`);
  - merged points also count against the limit. `"1.2.3.4.56"` needs only
    six digits, yet with eight digits it fails with TooManyDigits
    (`SevenSegFontGo.ExampleLimitCountsCharacters`).
- **Go `readByte`.** It places the first sampled bit in bit 7
  (`Bits.ShiftInBits`). A byte the chip sends least significant bit first
  therefore comes back bit-reversed (`Bits.ShiftInOfLsbFirst`). The comment
  above `readByte` says "Data is sent low-bit first" (pkg/tm1638.go:130-131).
- **Python driver, no validation.** The Python driver validates nothing. It
  masks the pulse width with `& 7` and the address with `& 0x0F`, and sends
  any number of data bytes. The Go driver rejects an out-of-range pulse
  width, address or data length before it touches STROBE
  (pkg/tm1638.go:166-168, 242-247).

## Model

| member | source | states |
|---|---|---|
| TM1638Commands.DecodeEncode | pkg/tm1638.go:17-57 | every well-formed data, display-control and address command is recovered from its byte |
| TM1638Commands.EncodeDecode | pkg/tm1638.go:17-57 | every byte that decodes (no reserved bits, no "not allowed" mode) is the encoding of the command it decodes to |
| TM1638Commands.CommandBytes | pkg/tm1638.go:17-62 | write command 0x40 (auto-increment) or 0x48 (fixed); read command 0x42; display control in 0x80..0x8F; address command in 0xC0..0xCF |
| TM1638Commands.Store | pkg/tm1638.go:233-235 | data stored from the start address, bytes outside the written range unchanged |
| TM1638Commands.WriteFrameStores | pkg/tm1638.go:233-235 | an address command followed by data stores the data from that address in display memory |
| TM1638Go.TM1638.constructor | pkg/tm1638.go:79-104 | the trace holds the initialisation pin calls, no DIO sample taken |
| TM1638Go.InitIdle | pkg/tm1638.go:79-95 | after initialisation STROBE and CLK are high, DIO released, from any line state |
| TM1638Go.TM1638.SendByte | pkg/tm1638.go:109-128 | the trace grows by the pin calls of the byte's eight bits, LSB first, then DIO released |
| TM1638Go.SendByteShape | pkg/tm1638.go:109-128 | for bit k, DIO is set to input iff bit k is 1 (output otherwise), then CLK low, then high; exactly 8 falling CLK edges; last event releases DIO; STROBE untouched |
| TM1638Go.SendBitsShape | pkg/tm1638.go:114-127 | one CLK fall per bit and the three events of bit k at positions 3k..3k+2 |
| TM1638Go.SendByteDelivers | pkg/tm1638.go:109-128 | inside a transaction the chip latches the byte's bits least significant first; DIO ends released |
| TM1638Go.SendBytesDelivers | pkg/tm1638.go:253-255 | a run of bytes delivers their bits byte after byte |
| TM1638Go.TM1638.ReadByte | pkg/tm1638.go:133-147 | eight samples consumed; the result is the samples shifted in, first sample highest; trace as the read pattern |
| TM1638Go.ReadByteShape | pkg/tm1638.go:133-147 | DIO released first, then exactly 8 falling CLK edges, no STROBE event |
| Bits.ShiftInBits | pkg/tm1638.go:133-147 | the bit sampled on clock k (0-based) lands at bit 7-k |
| Bits.ShiftInOfLsbFirst | pkg/tm1638.go:131-146 | a byte that arrives least significant bit first is read back bit-reversed |
| TM1638Go.TM1638.ConfigureDisplay | pkg/tm1638.go:161-185 | pulse width above 7: InvalidArgument and no pin event; otherwise Pass and one display-control transaction |
| TM1638Go.ConfigureDelivers | pkg/tm1638.go:170-184 | the chip receives the single byte 0x80, OR 0x08 when enabled, OR the pulse width, in one STROBE-framed transaction with 8 CLK falls |
| TM1638Go.TM1638.InitWriteData | pkg/tm1638.go:213-231 | never fails; one transaction with the write data command |
| TM1638Go.InitWriteDelivers | pkg/tm1638.go:218-230 | the chip receives 0x40 for auto-increment, 0x48 otherwise |
| TM1638Go.TM1638.WriteData | pkg/tm1638.go:236-259 | address above 15 or data length outside 1..16: InvalidArgument and no pin event; otherwise Pass and one transaction |
| TM1638Go.WriteDataDelivers | pkg/tm1638.go:248-258 | the chip receives 0xC0 OR address, then every data byte in order, STROBE-framed, 8 CLK falls per byte; the line ends idle |
| TM1638Go.TransactionDelivers | pkg/tm1638.go:248-258 | a STROBE-framed run of bytes delivers exactly those bytes and leaves the line idle |
| TM1638Go.TransactionShape | pkg/tm1638.go:248-258 | a transaction starts with STROBE low, ends with STROBE high, has no other STROBE event, and 8 CLK falls per byte |
| TM1638Go.TM1638.ReadInto | pkg/tm1638.go:201-205 | data[i] is the i-th byte read, for every position in order; samples advance by 8 per byte |
| TM1638Go.TM1638.ReadScanningData | pkg/tm1638.go:189-209 | length outside 1..4: InvalidArgument with nothing changed; otherwise every data[i] read in order in one transaction |
| TM1638Go.ReadScanShape | pkg/tm1638.go:197-208 | STROBE-framed, 8 + 8n CLK falls, the first eight latched bits are the read command 0x42 |
| TM1638Py.TM1638.constructor | cp_calc/tm1638.py:62-74 | the trace holds the initialisation pin calls |
| TM1638Py.InitIdle | cp_calc/tm1638.py:62-74 | after initialisation STROBE and CLK are high and DIO released |
| TM1638Py.TM1638.SendByte | cp_calc/tm1638.py:76-86 | the trace grows by the eight bits' pin calls, LSB first |
| TM1638Py.SendByteShape | cp_calc/tm1638.py:76-86 | for bit k, DIO is written with bit k, then CLK low, then high; exactly 8 falling edges; STROBE untouched |
| TM1638Py.SendBitsShape | cp_calc/tm1638.py:80-86 | one CLK fall per bit and the three events of bit k at positions 3k..3k+2 |
| TM1638Py.SendByteDelivers | cp_calc/tm1638.py:76-86 | inside a transaction the chip latches the byte's bits least significant first |
| TM1638Py.SendBytesDelivers | cp_calc/tm1638.py:175-176 | a run of bytes delivers their bits byte after byte |
| TM1638Py.TM1638.ReadByte | cp_calc/tm1638.py:88-102 | eight samples consumed, shifted in with the first sample highest |
| TM1638Py.ReadByteShape | cp_calc/tm1638.py:88-102 | DIO released first, then exactly 8 falling CLK edges |
| TM1638Py.TM1638.ConfigureDisplay | cp_calc/tm1638.py:104-130 | no validation: one transaction with the display-control byte for pulse_width & 7 |
| TM1638Py.ConfigureDelivers | cp_calc/tm1638.py:119-130 | the chip receives 0x80, OR 0x08 when enabled, OR (pulse_width & 7), for any integer pulse width |
| TM1638Py.TM1638.ReadInto | cp_calc/tm1638.py:142-144 | every position of the buffer overwritten with a read byte, in order |
| TM1638Py.TM1638.ReadScanningData | cp_calc/tm1638.py:132-146 | whatever the length, one transaction: read command, then every buffer position read in order |
| TM1638Py.ReadScanShape | cp_calc/tm1638.py:138-146 | STROBE-framed, 8 + 8n CLK falls, first latched byte 0x42 |
| TM1638Py.TM1638.InitWriteData | cp_calc/tm1638.py:148-162 | one transaction with the write data command, auto-increment by default |
| TM1638Py.InitWriteDelivers | cp_calc/tm1638.py:154-162 | the chip receives 0x40 for auto-increment, 0x48 otherwise |
| TM1638Py.TM1638.WriteData | cp_calc/tm1638.py:164-178 | no validation: one transaction with the address byte and every data byte |
| TM1638Py.WriteDataDelivers | cp_calc/tm1638.py:169-178 | the chip receives 0xC0 OR (address & 0x0F), then every data byte in order, for any address and length |
| TM1638Py.TransactionDelivers | cp_calc/tm1638.py:169-178 | a STROBE-framed run of bytes delivers exactly those bytes and leaves the line idle |
| TM1638Py.TransactionShape | cp_calc/tm1638.py:169-178 | a transaction starts with STROBE low, ends with STROBE high, has no other STROBE event, and 8 CLK falls per byte |
| SevenSegFontGo.DefaultFontKeys | pkg/sevensegfont.go:19-45 | the default table has exactly 23 characters |
| SevenSegFontGo.DefaultFontDecimalPoint | pkg/sevensegfont.go:19-45 | '.' maps to 0x80 and every other entry has bit 7 clear |
| SevenSegFontGo.DefaultDigits | pkg/sevensegfont.go:19-45 | the default patterns of '1' to '6' and '.' (0x06, 0x5B, 0x4F, 0x66, 0x6D, 0x7D, 0x80) |
| SevenSegFontGo.SevenSegFont.constructor | pkg/sevensegfont.go:9-13 | a new font holds the default table |
| SevenSegFontGo.SevenSegFont.ResetFont | pkg/sevensegfont.go:16-46 | a fresh map holding exactly the default table becomes the font |
| SevenSegFontGo.SevenSegFont.GetMutableFont | pkg/sevensegfont.go:49-51 | the font's own map is returned, not a copy |
| SevenSegFontGo.FontMap.Put | pkg/sevensegfont.go:48-51 | an edit through the map sets one entry and nothing else |
| SevenSegFontGo.FontMap.Delete | pkg/sevensegfont.go:48-51 | a delete through the map removes one entry and nothing else |
| SevenSegFontGo.ResetDiscardsEdits | pkg/sevensegfont.go:16-51 | an edit through GetMutableFont shows in the font; after ResetFont neither it nor a later edit through the old map does |
| SevenSegFontGo.SevenSegFont.BuildDigits | pkg/sevensegfont.go:59-98 | outcome and new buffer contents are exactly what the recursive reading GoBuild gives for the old contents |
| SevenSegFontGo.BuildFromLength | pkg/sevensegfont.go:64-95 | the builder never changes the buffer's length |
| SevenSegFontGo.BlankFromEffect | pkg/sevensegfont.go:92-95 | digits from pos below numDigits become 0, the rest unchanged; a buffer shorter than numDigits panics |
| SevenSegFontGo.WriteRun | pkg/sevensegfont.go:64-90 | a run of mapped non-dot characters within the limit is stored one per digit at the position of its character |
| SevenSegFontGo.NoDotsDigits | pkg/sevensegfont.go:64-95 | no '.': outDigits[k] = font[chars[k]] for k < len(chars), 0 up to numDigits, unchanged above; the call passes |
| SevenSegFontGo.UnmappedStops | pkg/sevensegfont.go:74-77 | for a string whose first p characters are mapped and not '.': an unmapped character p fails with NoFontMapping at once, with characters 0..p-1 written at digits 0..p-1 and no blanking |
| SevenSegFontGo.UnmappedStep | pkg/sevensegfont.go:65-77 | at any loop state (any pos, any previous), an unmapped character that is not a '.' being merged fails with NoFontMapping and leaves the digits as they are |
| SevenSegFontGo.ExampleUnmappedAfterPoint | pkg/sevensegfont.go:64-77 | "1.X" fails with NoFontMapping after the merge, with digit 0 already 0x86 |
| SevenSegFontGo.TooManyDigitsStops | pkg/sevensegfont.go:78-80 | for a dot-free mapped string longer than numDigits + 1: the call fails with TooManyDigits only after numDigits + 1 digits were stored, and nothing is blanked |
| SevenSegFontGo.LimitStep | pkg/sevensegfont.go:78-80 | at any loop state, an unmerged mapped character whose character index exceeds numDigits fails with TooManyDigits, however few digits pos says are filled |
| SevenSegFontGo.ExampleLimitCountsCharacters | pkg/sevensegfont.go:64-80 | "1.2.3.4.56", six digits' worth, fails with TooManyDigits for eight digits |
| SevenSegFontGo.LimitCountsCharactersFrom | pkg/sevensegfont.go:64-88 | from each digit-and-point pair of "1.2.3.4.56" at character index i, with digit i/2 next, the build ends in TooManyDigits at the "6" |
| SevenSegFontGo.LimitOffByOne | pkg/sevensegfont.go:78-82 | with the buffer exactly numDigits long, a longer dot-free string panics on the store instead of failing with TooManyDigits |
| SevenSegFontGo.DigitThenPoint | pkg/sevensegfont.go:65-88 | a mapped character followed by '.' is stored at pos and the point is OR-ed into the digit at the character's index, consuming no slot |
| SevenSegFontGo.DotMergesIntoFirst | pkg/sevensegfont.go:65-71 | a '.' at index 1 after a mapped character ORs 0x80 into digit 0 and consumes no slot |
| SevenSegFontGo.LeadingDotsOwnDigits | pkg/sevensegfont.go:65-88 | for a string that starts with "..": both points are looked up and take digits 0 and 1 of their own |
| SevenSegFontGo.UnmergedPointStep | pkg/sevensegfont.go:65-88 | at any loop state with nothing to merge into (start, after a merge, after a '.'), a '.' within the limit takes digit pos of its own and leaves nothing to merge into |
| SevenSegFontGo.StoreStep | pkg/sevensegfont.go:73-88 | at any loop state, a mapped character other than '.' within the limit takes digit pos and marks its character index i as the merge target |
| SevenSegFontGo.ExamplePointAfterMerge | pkg/sevensegfont.go:64-95 | "1.." gives [0x86, 0x80, 0, 0, 0, 0, 0, 0]: the second point takes a digit of its own |
| SevenSegFontGo.ExampleOnePointFive | pkg/sevensegfont.go:59-98 | "1.5" gives [0x86, 0x6D, 0, 0, 0, 0, 0, 0] |
| SevenSegFontGo.SecondPointLost | pkg/sevensegfont.go:68-84 | on "1.2." with any table holding '1' and '2', the second point is lost: [f['1'] OR 0x80, f['2'], 0, ...] |
| SevenSegFontGo.ExampleSecondPointLost | pkg/sevensegfont.go:68-84 | "1.2." with the default table gives [0x86, 0x5B, 0, 0, 0, 0, 0, 0] |
| SevenSegFontGo.PointPastEnd | pkg/sevensegfont.go:68-84 | on "1.2.3.4.5." into 8 digits the merge index passes the end of the buffer: an index panic |
| SevenSegFontGo.PointPastEndFrom | pkg/sevensegfont.go:65-88 | from each digit-and-point pair of "1.2.3.4.5." at character index i, with digit i/2 next, the point lands at index i, and the fifth pair's at index 8, past the end |
| SevenSegFontGo.ExamplePointPastEnd | pkg/sevensegfont.go:68-84 | the same with the default table |
| SevenSegFontPy.DefaultFontsAgree | cp_calc/sevensegfont.py:5-35 | the Python table is the Go table |
| SevenSegFontPy.DefaultDigits | cp_calc/sevensegfont.py:5-35 | the default patterns of '.', '1', '2' and '5' (0x80, 0x06, 0x5B, 0x6D) |
| SevenSegFontPy.SevenSegFont.constructor | cp_calc/sevensegfont.py:4-35 | a new font holds the default table |
| SevenSegFontPy.SevenSegFont.BuildDigits | cp_calc/sevensegfont.py:37-65 | the loop computes PyBuild, and also the independent unit-by-unit reading Pairing |
| SevenSegFontPy.PyBuildIsPairing | cp_calc/sevensegfont.py:46-65 | the loop's result is the concatenation of units: a character, or a character merged with the '.' after it |
| SevenSegFontPy.PyFromPairing | cp_calc/sevensegfont.py:49-63 | from any mid-loop state, the rest of the loop appends the units of the rest of the string |
| SevenSegFontPy.BuildLength | cp_calc/sevensegfont.py:46-65 | the result has one element per character, less one per merged '.' |
| SevenSegFontPy.PairingLength | cp_calc/sevensegfont.py:46-65 | the unit reading has one element per character, less one per merged '.' |
| SevenSegFontPy.NoDotsLookup | cp_calc/sevensegfont.py:49-60 | no '.': the result is the element-wise lookup, no length limit and no padding |
| SevenSegFontPy.BuildFails | cp_calc/sevensegfont.py:58 | KeyError exactly when some character that is not a merged '.' is missing from the table |
| SevenSegFontPy.PairingFails | cp_calc/sevensegfont.py:49-63 | the unit reading fails exactly when some unmerged character is missing from the table |
| SevenSegFontPy.ExampleLeadingPoints | cp_calc/sevensegfont.py:50-63 | ".5" gives [0x80, 0x6D] and ".." gives [0x80, 0x80] |
| SevenSegFontPy.ExampleMergedPoints | cp_calc/sevensegfont.py:50-55 | "1.2." gives [0x86, 0xDB] and "1.." gives [0x86, 0x80]: the point merges into ret[-1] |
| SevenSegFontPy.NoDotsAgree | cp_calc/sevensegfont.py:49-60 | without '.', the Go digits and the Python list agree on the characters |
| SevenSegFontPy.PointsDiverge | cp_calc/sevensegfont.py:50-55 | on "1.2." Python keeps the second point on "2" and Go loses it |
| Disp16KeyLayout.PlanesBits | pkg/disp16key.go:139-158 | bit 7-i of plane s is set iff bit s of digit i is set, for all i, s |
| Disp16KeyLayout.ShownBits | pkg/disp16key.go:23-49 | the board shows segment s of digit i iff bit 7-i of the byte at plane s is set |
| Disp16KeyLayout.ShownPlanes | pkg/disp16key.go:23-49 | the board shows exactly the digits whose planes were computed |
| Disp16KeyLayout.PlanesShown | pkg/disp16key.go:23-49 | every set of planes is the transpose of what it shows |
| Disp16KeyLayout.PlaneUpToBits | pkg/disp16key.go:142-155 | after n digits the loop has set, in plane s, bit 7-i for each digit i < n with segment s |
| Disp16KeyLayout.PlaneUpToAll | pkg/disp16key.go:142-155 | after all eight digits each plane is the transpose |
| Disp16KeyLayout.MaskTest | pkg/disp16key.go:147-149 | `bitMask & digit == bitMask` tests bit k; the byte mask only becomes 0 after eight shifts |
| Disp16KeyLayout.PlanePopcount | pkg/disp16key.go:142-155 | plane s has as many bits set as digits light segment s |
| Disp16KeyLayout.CountSwap | pkg/disp16key.go:142-155 | counting the digit-by-segment matrix by rows or by columns gives the same total |
| Disp16KeyLayout.CountByDigits | pkg/disp16key.go:142-155 | counting by rows gives the set bits of the digits |
| Disp16KeyLayout.CountBySegments | pkg/disp16key.go:142-155 | counting by columns gives the per-segment uses |
| Disp16KeyLayout.PlanesKeepBitCount | pkg/disp16key.go:142-155 | the transpose preserves the total number of set bits |
| Disp16KeyLayout.LeftDigitLit | pkg/disp16key.go:139-158 | [0xFF, 0, ..., 0] converts to eight bytes of 0x80 |
| Disp16KeyLayout.BlankDigits | pkg/disp16key.go:139-158 | all-zero digits convert to all-zero planes |
| Disp16KeyLayout.AfterPlanesBytes | pkg/disp16key.go:87-91 | after the plane writes, address 2s holds plane s, odd addresses keep their bytes |
| Disp16KeyLayout.EvenBytes | pkg/disp16key.go:87-91 | the even addresses hold exactly the eight planes |
| Disp16KeyLayout.PlaneWritesShow | pkg/disp16key.go:81-93 | once the planes of some digits are written, the board shows those digits |
| Disp16KeyLayout.PressTableDecodes | pkg/disp16key.go:54-59 | each documented single-press scan decodes to exactly that one button |
| Disp16KeyLayout.ButtonLayoutAt | pkg/disp16key.go:117-132 | button k reads byte k/2 mod 4, bits 0x20/0x02 for buttons 0-7 and 0x40/0x04 for 8-15 |
| Disp16KeyLayout.ButtonsAt | pkg/disp16key.go:117-132 | the decoded buttons 2i, 2i+1, 2i+8, 2i+9 are the bits 0x20, 0x02, 0x40, 0x04 of scan byte i |
| Disp16KeyLayout.OtherBitsIgnored | pkg/disp16key.go:117-132 | bits outside 0x66 in each scan byte do not change any button |
| Disp16KeyLayout.ButtonsOfScan | pkg/disp16key.go:117-132 | every combination of held buttons is decoded faithfully from the scan that reports it |
| Disp16KeyLayout.ScanOfButtons | pkg/disp16key.go:117-132 | the decoded buttons determine the scan up to the bits outside 0x66 |
| Disp16KeyLayout.ScanByteOfButtons | pkg/disp16key.go:117-132 | re-encoding the decoded buttons gives each scan byte masked with 0x66 |
| Disp16KeyGo.ConvertEightKeyDigits | pkg/disp16key.go:139-158 | the loop returns the segment planes (the transpose) of the eight digits |
| Disp16KeyGo.Disp16Key.constructor | pkg/disp16key.go:72-77 | a fresh driver on initialised lines, the default font, a zeroed digit buffer |
| Disp16KeyGo.Disp16Key.WriteDigits | pkg/disp16key.go:81-93 | returns nil; the trace grows by eight one-byte writes, plane s at address 2s in order; only digitBuffer[0] changes, to the last plane |
| Disp16KeyGo.PlanesTraceDelivers | pkg/disp16key.go:87-91 | the s-th of those writes delivers the address command for 2s followed by plane s |
| Disp16KeyGo.PlaneWriteDelivers | pkg/disp16key.go:88-90 | one plane write from an idle line delivers that frame and leaves the line idle |
| Disp16KeyGo.PlanesTraceIdle | pkg/disp16key.go:87-91 | the plane writes leave an idle line idle |
| Disp16KeyGo.DeliveredIsAfterPlanes | pkg/disp16key.go:87-91 | from idle lines, the frames the chip receives from the plane writes store plane s at address 2s and leave every other address as it was |
| Disp16KeyGo.WriteDigitsShows | pkg/disp16key.go:81-93 | from idle lines, the display memory after the WriteDigits writes shows exactly the given digits, whatever it held before |
| Disp16KeyGo.Disp16Key.WriteString | pkg/disp16key.go:98-105 | a BuildDigits error is returned before any pin event; otherwise the planes of the built digits are written |
| Disp16KeyGo.Disp16Key.ReadButtons | pkg/disp16key.go:109-135 | returns nil after one 4-byte scan; buttons are the table decoding of the scanned bytes |
| Disp16KeyPy.Disp16Key.constructor | cp_calc/disp16key.py:61-65 | initialised lines, the default font, an 8-byte digit buffer and a 4-byte scan buffer, all zero |
| Disp16KeyPy.Disp16Key.ConvertEightKeyDigits | cp_calc/disp16key.py:105-123 | the buffer is zeroed and then holds the planes of the first eight digits, whatever it held before; the returned array is the buffer itself |
| Disp16KeyPy.WideMaskTest | cp_calc/disp16key.py:116-121 | the integer mask stays below 256 for exactly eight steps and `(bit_mask & digit) == bit_mask` tests bit k |
| Disp16KeyPy.Disp16Key.WriteDigits | cp_calc/disp16key.py:74-83 | eight one-byte writes, plane s at address 2s in order; the buffer keeps all eight planes |
| Disp16KeyPy.PlanesTraceDelivers | cp_calc/disp16key.py:82-83 | the s-th write delivers the address command for 2s followed by plane s, the same frames as the Go adapter |
| Disp16KeyPy.PlaneWriteDelivers | cp_calc/disp16key.py:83 | one plane write from an idle line delivers its frame and leaves the line idle |
| Disp16KeyPy.PlanesTraceIdle | cp_calc/disp16key.py:82-83 | the plane writes leave an idle line idle |
| Disp16KeyPy.DeliveredIsAfterPlanes | cp_calc/disp16key.py:82-83 | from idle lines, the frames the chip receives from the plane writes store plane s at address 2s and leave every other address as it was |
| Disp16KeyPy.WriteDigitsShows | cp_calc/disp16key.py:74-83 | from idle lines, the display memory after the write_digits writes shows exactly the given digits, whatever it held before |
| Disp16KeyPy.Disp16Key.WriteString | cp_calc/disp16key.py:67-72 | a KeyError is returned before any pin event; otherwise the padded-and-cut eight digits are written |
| Disp16KeyPy.FitToEightDigits | cp_calc/disp16key.py:68-71 | exactly eight digits: the built ones first, 0 after them, anything past eight dropped |
| Disp16KeyPy.FitToEightKeeps | cp_calc/disp16key.py:68-71 | up to eight built digits are all kept, in order |
| Disp16KeyPy.AdaptersAgree | cp_calc/disp16key.py:67-72 | for a dot-free string of at most eight mapped characters, the Go digit buffer and the Python padded list are the same eight digits |
| Disp16KeyPy.Disp16Key.ReadButtons | cp_calc/disp16key.py:85-103 | one 4-byte scan into the scan buffer; entries 0-15 of the list are its table decoding, the rest unchanged |

## Left out

- Delays (`time.Sleep`, `time.sleep`) are left out: timing is not a functional property.
- The GPIO backends (`rpio`, `digitalio`) become the abstract pin trace. The open-drain setup and its electrical behaviour are left out, as are the pull-up resistor and the drive mode. The chip's side of the lines (`Gpio.Latched`) is an idealised model of the protocol the code assumes, not something the code states.
- The debug `fmt.Println` in the Go `WriteDigits` and the text of every error message are left out; errors are variants of `DriverError`, `BuildError` and `LookupError`.
- The 8-key board adapter (`pkg/led8key.go`, `led8key.go`) and the demo programs under `cmd/` and `cp_calc/calc.py` are not part of this model.
- The chip's display memory beyond the sixteen addresses is not modelled. Neither is the chip's data-command mode: `TM1638Commands.WriteFrame` assumes the auto-increment write mode.
- SevenSegFontGo.SevenSegFont.BuildDigits: Go indexes the string by byte; the model reads it as characters, which agree for ASCII text. The runtime panic of an out-of-range slice index is modelled as the `IndexOutOfRange` outcome rather than a precondition.
- SevenSegFontGo.FontMap: the Go map is keyed by `int`; the model keys it by `char`.
- Disp16KeyGo.Disp16Key.ReadButtons and Disp16KeyPy.Disp16Key.ReadButtons: the sixteen assignments are one parallel assignment. They write distinct entries from bytes nothing else changes, so the order plays no part.
- Disp16KeyPy.Disp16Key.WriteDigits: the digits are a value sequence. A caller passing the adapter's own `_digit_buffer`, which the conversion zeroes before reading, is not modelled. A list shorter than eight, which raises IndexError, is excluded by the precondition.
- Disp16KeyPy.Disp16Key.ReadButtons: a list shorter than sixteen entries, which raises IndexError, is excluded by the precondition.
- Python integers in buffers and digit lists are modelled as `bv8`. This loses nothing the code uses: `send_byte` sends the low eight bits and the conversion tests only masks below 256. Pulse width and address are unbounded integers, masked as the code masks them.
- The Go TM1638 and SevenSegFont are embedded in `DISP16KEY` and the Python `Disp16Key` inherits from `TM1638`; both adapters hold them as fields. Mismatched pin types between the Go files are left out.
