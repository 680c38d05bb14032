/**
 * The command sequencer of epaper1in54.py for the 200 x 200 e-paper panel.
 *
 * What the driver puts on the wires is an append-only trace of events: each
 * byte written over SPI with the level of the data/command line (`Cmd` for
 * dc low, `Dat` for dc high), a `Reset` for the reset pulse, and a
 * `WaitIdle` where `wait_until_idle` returned. The busy pin is an oracle:
 * the sequence of values successive reads see.
 *
 * Each operation has a function giving the events it emits, built the way
 * the driver method is built, and a lemma spelling that out byte by byte;
 * the methods of `EPD` are proved to append exactly those events.
 */
module Epaper {
  import opened Wrappers

  newtype byte = b: int | 0 <= b < 256

  const EPD_WIDTH := 200
  const EPD_HEIGHT := 200

  const DRIVER_OUTPUT_CONTROL: byte := 0x01
  const DEEP_SLEEP_MODE: byte := 0x10
  const DATA_ENTRY_MODE_SETTING: byte := 0x11
  const SW_RESET: byte := 0x12
  const MASTER_ACTIVATION: byte := 0x20
  const DISPLAY_UPDATE_CONTROL_2: byte := 0x22
  const WRITE_RAM: byte := 0x24
  const WRITE_LUT_REGISTER: byte := 0x32
  const BORDER_WAVEFORM_CONTROL: byte := 0x3C
  const SET_RAM_X_ADDRESS_START_END_POSITION: byte := 0x44
  const SET_RAM_Y_ADDRESS_START_END_POSITION: byte := 0x45
  const SET_RAM_X_ADDRESS_COUNTER: byte := 0x4E
  const SET_RAM_Y_ADDRESS_COUNTER: byte := 0x4F

  /** Waveform table for a full refresh. */
  const LUT_FULL_UPDATE: seq<byte> := [
    0x80, 0x48, 0x40, 0x00, 0x00, 0x00, 0x00, 0x00, 0x00, 0x00, 0x00, 0x00,
    0x40, 0x48, 0x80, 0x00, 0x00, 0x00, 0x00, 0x00, 0x00, 0x00, 0x00, 0x00,
    0x80, 0x48, 0x40, 0x00, 0x00, 0x00, 0x00, 0x00, 0x00, 0x00, 0x00, 0x00,
    0x40, 0x48, 0x80, 0x00, 0x00, 0x00, 0x00, 0x00, 0x00, 0x00, 0x00, 0x00,
    0x00, 0x00, 0x00, 0x00, 0x00, 0x00, 0x00, 0x00, 0x00, 0x00, 0x00, 0x00,
    0x0A, 0x00, 0x00, 0x00, 0x00, 0x00, 0x00, 0x08, 0x01, 0x00, 0x08, 0x01,
    0x00, 0x02, 0x0A, 0x00, 0x00, 0x00, 0x00, 0x00, 0x00, 0x00, 0x00, 0x00,
    0x00, 0x00, 0x00, 0x00, 0x00, 0x00, 0x00, 0x00, 0x00, 0x00, 0x00, 0x00,
    0x00, 0x00, 0x00, 0x00, 0x00, 0x00, 0x00, 0x00, 0x00, 0x00, 0x00, 0x00,
    0x00, 0x00, 0x00, 0x00, 0x00, 0x00, 0x00, 0x00, 0x00, 0x00, 0x00, 0x00,
    0x00, 0x00, 0x00, 0x00, 0x00, 0x00, 0x00, 0x00, 0x00, 0x00, 0x00, 0x00,
    0x00, 0x00, 0x00, 0x00, 0x00, 0x00, 0x00, 0x00, 0x00, 0x00, 0x00, 0x00,
    0x22, 0x22, 0x22, 0x22, 0x22, 0x22, 0x00, 0x00, 0x00, 0x22, 0x17, 0x41,
    0x00, 0x32, 0x20]

  /** Waveform table for a partial refresh. */
  const LUT_PARTIAL_UPDATE: seq<byte> := [
    0x00, 0x40, 0x00, 0x00, 0x00, 0x00, 0x00, 0x00, 0x00, 0x00, 0x00, 0x00,
    0x80, 0x80, 0x00, 0x00, 0x00, 0x00, 0x00, 0x00, 0x00, 0x00, 0x00, 0x00,
    0x40, 0x40, 0x00, 0x00, 0x00, 0x00, 0x00, 0x00, 0x00, 0x00, 0x00, 0x00,
    0x00, 0x80, 0x00, 0x00, 0x00, 0x00, 0x00, 0x00, 0x00, 0x00, 0x00, 0x00,
    0x00, 0x00, 0x00, 0x00, 0x00, 0x00, 0x00, 0x00, 0x00, 0x00, 0x00, 0x00,
    0x0F, 0x00, 0x00, 0x00, 0x00, 0x00, 0x00, 0x01, 0x01, 0x00, 0x00, 0x00,
    0x00, 0x00, 0x00, 0x00, 0x00, 0x00, 0x00, 0x00, 0x00, 0x00, 0x00, 0x00,
    0x00, 0x00, 0x00, 0x00, 0x00, 0x00, 0x00, 0x00, 0x00, 0x00, 0x00, 0x00,
    0x00, 0x00, 0x00, 0x00, 0x00, 0x00, 0x00, 0x00, 0x00, 0x00, 0x00, 0x00,
    0x00, 0x00, 0x00, 0x00, 0x00, 0x00, 0x00, 0x00, 0x00, 0x00, 0x00, 0x00,
    0x00, 0x00, 0x00, 0x00, 0x00, 0x00, 0x00, 0x00, 0x00, 0x00, 0x00, 0x00,
    0x00, 0x00, 0x00, 0x00, 0x00, 0x00, 0x00, 0x00, 0x00, 0x00, 0x00, 0x00,
    0x22, 0x22, 0x22, 0x22, 0x22, 0x22, 0x00, 0x00, 0x00, 0x02, 0x17, 0x41,
    0xB0, 0x32, 0x28]

  /** The ten data bytes of register 0x37 in the partial init. */
  const PARTIAL_0X37_DATA: seq<byte> := [0x00, 0x00, 0x00, 0x00, 0x00, 0x40, 0x00, 0x00, 0x00, 0x00]

  /** The data bytes of the full init: 200 gate lines, the data entry mode,
      the border waveform, the internal temperature sensor and the update
      sequence. */
  const GATE_LINES_DATA: seq<byte> := [0xC7, 0x00, 0x01]
  const DATA_ENTRY_DATA: seq<byte> := [0x01]
  const BORDER_FULL_DATA: seq<byte> := [0x01]
  const TEMPERATURE_SENSOR_DATA: seq<byte> := [0x80]
  const UPDATE_FULL_DATA: seq<byte> := [0xB1]

  /** One transfer on the bus: a byte with the data/command line low (`Cmd`)
      or high (`Dat`), the reset pulse, or the return of `wait_until_idle`. */
  datatype Event = Cmd(b: byte) | Dat(b: byte) | Reset | WaitIdle

  /** Python's `v & 0xFF` on an int of any sign. */
  function LowByte(v: int): byte {
    (v % 256) as byte
  }

  /** Python's slice `s[i:j]` for 0 <= i <= j: indices past the end are cut off. */
  function Slice<T>(s: seq<T>, i: nat, j: nat): (r: seq<T>)
    requires i <= j
    ensures |r| == (if j <= |s| then j - i else if i <= |s| then |s| - i else 0)
    ensures forall k :: 0 <= k < |r| ==> r[k] == s[i + k]
  {
    if j <= |s| then s[i..j] else if i <= |s| then s[i..] else []
  }

  function Repeat<T>(e: T, n: nat): (r: seq<T>)
    ensures |r| == n && forall k :: 0 <= k < n ==> r[k] == e
  {
    seq(n, _ => e)
  }

  lemma AppendAssoc<T>(a: seq<T>, b: seq<T>, c: seq<T>)
    ensures (a + b) + c == a + (b + c)
  {
  }

  /** Nine pieces appended one at a time to `o` are `o` followed by their
      concatenation. */
  lemma AppendNine<T>(o: seq<T>, p1: seq<T>, p2: seq<T>, p3: seq<T>, p4: seq<T>, p5: seq<T>,
                      p6: seq<T>, p7: seq<T>, p8: seq<T>, p9: seq<T>)
    ensures o + p1 + p2 + p3 + p4 + p5 + p6 + p7 + p8 + p9
         == o + (p1 + p2 + p3 + p4 + p5 + p6 + p7 + p8 + p9)
  {
    var q := p1;
    AppendAssoc(o, q, p2); q := q + p2;
    AppendAssoc(o, q, p3); q := q + p3;
    AppendAssoc(o, q, p4); q := q + p4;
    AppendAssoc(o, q, p5); q := q + p5;
    AppendAssoc(o, q, p6); q := q + p6;
    AppendAssoc(o, q, p7); q := q + p7;
    AppendAssoc(o, q, p8); q := q + p8;
    AppendAssoc(o, q, p9);
  }

  /** Six pieces appended one at a time to `o` are `o` followed by their
      concatenation. */
  lemma AppendSix<T>(o: seq<T>, p1: seq<T>, p2: seq<T>, p3: seq<T>, p4: seq<T>, p5: seq<T>, p6: seq<T>)
    ensures o + p1 + p2 + p3 + p4 + p5 + p6 == o + (p1 + p2 + p3 + p4 + p5 + p6)
  {
    var q := p1;
    AppendAssoc(o, q, p2); q := q + p2;
    AppendAssoc(o, q, p3); q := q + p3;
    AppendAssoc(o, q, p4); q := q + p4;
    AppendAssoc(o, q, p5); q := q + p5;
    AppendAssoc(o, q, p6);
  }

  lemma RepeatSnoc<T>(e: T, n: nat)
    ensures Repeat(e, n) + [e] == Repeat(e, n + 1)
  {
    assert (Repeat(e, n) + [e])[n] == e;
  }

  // ---------------------------------------------------------------------------
  // The busy line

  /** What the busy pin shows at the k-th read: busy (pin value 1) while the
      oracle says so, idle once it runs out. */
  function BusyReading(line: seq<bool>, k: nat): bool {
    k < |line| && line[k]
  }

  /** The index of the first idle reading at or after read k. */
  function IdleAt(line: seq<bool>, k: nat): (r: nat)
    ensures k <= r && !BusyReading(line, r)
    ensures forall j :: k <= j < r ==> BusyReading(line, j)
    decreases |line| - k
  {
    if !BusyReading(line, k) then k else IdleAt(line, k + 1)
  }

  /** The wait never reads past the end of the oracle plus one. */
  lemma {:induction false} IdleAtBound(line: seq<bool>, k: nat)
    ensures IdleAt(line, k) <= if k <= |line| then |line| else k
    decreases |line| - k
  {
    if BusyReading(line, k) {
      IdleAtBound(line, k + 1);
    }
  }

  // ---------------------------------------------------------------------------
  // The events each driver operation emits

  /** `_data(data)`: every byte of the array with dc high, in order. */
  function Dats(data: seq<byte>): seq<Event> {
    seq(|data|, k requires 0 <= k < |data| => Dat(data[k]))
  }

  /** `_command(cmd, data)`: exactly one byte with dc low, then the data
      bytes, if any, with dc high. */
  function CommandTrace(cmd: byte, data: Option<seq<byte>>): seq<Event> {
    [Cmd(cmd)] + if data.Some? then Dats(data.value) else []
  }

  /** `_command` sends exactly one byte with dc low, the command, followed by
      exactly the data bytes, in order, with dc high. */
  lemma CommandTraceShape(cmd: byte, data: Option<seq<byte>>)
    ensures |CommandTrace(cmd, data)| == 1 + (if data.Some? then |data.value| else 0)
    ensures CommandTrace(cmd, data)[0] == Cmd(cmd)
    ensures forall k :: 1 <= k < |CommandTrace(cmd, data)| ==>
              data.Some? && CommandTrace(cmd, data)[k] == Dat(data.value[k - 1])
  {
  }

  /** `send_data(b)`: one byte with dc high. */
  function SendDataTrace(b: byte): seq<Event> {
    [Dat(b)]
  }

  /** `set_windows(xstart, ystart, xend, yend)`. */
  function SetWindowsTrace(xStart: int, yStart: int, xEnd: int, yEnd: int): seq<Event> {
    CommandTrace(SET_RAM_X_ADDRESS_START_END_POSITION, None)
      + SendDataTrace(LowByte(xStart / 8)) + SendDataTrace(LowByte(xEnd / 8))
      + CommandTrace(SET_RAM_Y_ADDRESS_START_END_POSITION, None)
      + SendDataTrace(LowByte(yStart)) + SendDataTrace(LowByte(yStart / 256))
      + SendDataTrace(LowByte(yEnd)) + SendDataTrace(LowByte(yEnd / 256))
  }

  /** `set_cursor(xstart, ystart)`. */
  function SetCursorTrace(xStart: int, yStart: int): seq<Event> {
    CommandTrace(SET_RAM_X_ADDRESS_COUNTER, None) + SendDataTrace(LowByte(xStart))
      + CommandTrace(SET_RAM_Y_ADDRESS_COUNTER, None)
      + SendDataTrace(LowByte(yStart)) + SendDataTrace(LowByte(yStart / 256))
  }

  /** `lut(lut)`. */
  function LutTrace(lut: seq<byte>): seq<Event> {
    CommandTrace(WRITE_LUT_REGISTER, Some(lut))
  }

  /** `set_lut(lut)`. */
  function SetLutTrace(lut: seq<byte>): seq<Event> {
    LutTrace(Slice(lut, 0, 153))
      + CommandTrace(0x3F, Some(Slice(lut, 153, 154)))
      + CommandTrace(0x03, Some(Slice(lut, 154, 155)))
      + CommandTrace(0x04, Some(Slice(lut, 155, 158)))
      + CommandTrace(0x2C, Some(Slice(lut, 158, 159)))
  }

  /** `turn_on_display`. */
  function TurnOnDisplayTrace(): seq<Event> {
    CommandTrace(DISPLAY_UPDATE_CONTROL_2, None) + SendDataTrace(0xC7)
      + CommandTrace(MASTER_ACTIVATION, None) + [WaitIdle]
  }

  /** `turn_on_display_part`. */
  function TurnOnDisplayPartTrace(): seq<Event> {
    CommandTrace(DISPLAY_UPDATE_CONTROL_2, None) + SendDataTrace(0xFF)
      + CommandTrace(MASTER_ACTIVATION, None)
  }

  /** The byte writes of `clear`'s two loops: `rows` rows of `cols` bytes. */
  function FillTrace(color: byte, rows: nat, cols: nat): seq<Event> {
    Repeat(Dat(color), rows * cols)
  }

  /** `clear(color)`. */
  function ClearTrace(color: byte): seq<Event> {
    CommandTrace(WRITE_RAM, None) + FillTrace(color, EPD_HEIGHT, EPD_WIDTH / 8) + TurnOnDisplayTrace()
  }

  /** `display_part(buf)`. */
  function DisplayPartTrace(buf: seq<byte>): seq<Event> {
    CommandTrace(WRITE_RAM, None) + Dats(buf) + TurnOnDisplayPartTrace()
  }

  /** `sleep`. */
  function SleepTrace(): seq<Event> {
    CommandTrace(DEEP_SLEEP_MODE, Some([0x01])) + [WaitIdle]
  }

  /** The `if partial` branch of `init`. */
  function InitPartialTrace(): seq<Event> {
    [Reset] + [WaitIdle] + SetLutTrace(LUT_PARTIAL_UPDATE)
      + CommandTrace(0x37, Some(PARTIAL_0X37_DATA))
      + CommandTrace(BORDER_WAVEFORM_CONTROL, Some([0x80]))
      + CommandTrace(DISPLAY_UPDATE_CONTROL_2, Some([0xC0]))
      + CommandTrace(MASTER_ACTIVATION, None)
      + [WaitIdle]
  }

  /** The `else` branch of `init`: the panel set-up, then the full-refresh
      table. */
  function InitFullTrace(): seq<Event> {
    InitFullPrefixTrace() + SetLutTrace(LUT_FULL_UPDATE)
  }

  /** The `else` branch of `init` up to `set_lut`. */
  function InitFullPrefixTrace(): seq<Event> {
    InitWakeTrace() + InitPanelTrace()
  }

  /** The hardware start of a full `init`: reset, wait, software reset, wait. */
  function InitWakeTrace(): seq<Event> {
    [Reset] + [WaitIdle] + CommandTrace(SW_RESET, None) + [WaitIdle]
  }

  /** The panel set-up of a full `init`, from the gate lines to the wait
      after the cursor. */
  function InitPanelTrace(): seq<Event> {
    CommandTrace(DRIVER_OUTPUT_CONTROL, Some(GATE_LINES_DATA))
      + CommandTrace(DATA_ENTRY_MODE_SETTING, Some(DATA_ENTRY_DATA))
      + SetWindowsTrace(0, EPD_HEIGHT - 1, EPD_WIDTH - 1, 0)
      + CommandTrace(BORDER_WAVEFORM_CONTROL, Some(BORDER_FULL_DATA))
      + CommandTrace(0x18, Some(TEMPERATURE_SENSOR_DATA))
      + CommandTrace(DISPLAY_UPDATE_CONTROL_2, Some(UPDATE_FULL_DATA))
      + CommandTrace(MASTER_ACTIVATION, None)
      + SetCursorTrace(0, EPD_HEIGHT - 1)
      + [WaitIdle]
  }

  /** `init(partial)`. */
  function InitTrace(partial: bool): seq<Event> {
    if partial then InitPartialTrace() else InitFullTrace()
  }

  // ---------------------------------------------------------------------------
  // What each operation puts on the bus, byte by byte

  /** `set_windows` sends 0x44 with the x range in units of 8 pixels, then
      0x45 with each y coordinate low byte first. */
  lemma SetWindowsSends(xStart: int, yStart: int, xEnd: int, yEnd: int)
    ensures SetWindowsTrace(xStart, yStart, xEnd, yEnd)
         == [Cmd(0x44), Dat(LowByte(xStart / 8)), Dat(LowByte(xEnd / 8)),
             Cmd(0x45), Dat(LowByte(yStart)), Dat(LowByte(yStart / 256)),
             Dat(LowByte(yEnd)), Dat(LowByte(yEnd / 256))]
  {
  }

  /** `set_cursor` sends 0x4E with the low byte of x, then 0x4F with y low
      byte first. */
  lemma SetCursorSends(xStart: int, yStart: int)
    ensures SetCursorTrace(xStart, yStart)
         == [Cmd(0x4E), Dat(LowByte(xStart)), Cmd(0x4F), Dat(LowByte(yStart)), Dat(LowByte(yStart / 256))]
  {
  }

  /** On a table of at least 159 bytes `set_lut` sends bytes [0,153) under
      0x32, byte 153 under 0x3F, 154 under 0x03, [155,158) under 0x04 and
      158 under 0x2C, in that order; a shorter table gets shorter (possibly
      empty) slices, as Python's slicing gives. */
  lemma SetLutSends(lut: seq<byte>)
    requires |lut| >= 159
    ensures SetLutTrace(lut)
         == [Cmd(0x32)] + Dats(lut[..153])
          + [Cmd(0x3F), Dat(lut[153]), Cmd(0x03), Dat(lut[154]),
             Cmd(0x04), Dat(lut[155]), Dat(lut[156]), Dat(lut[157]),
             Cmd(0x2C), Dat(lut[158])]
  {
    assert Slice(lut, 0, 153) == lut[..153];
    assert Dats(Slice(lut, 153, 154)) == [Dat(lut[153])];
    assert Dats(Slice(lut, 154, 155)) == [Dat(lut[154])];
    assert Dats(Slice(lut, 155, 158)) == [Dat(lut[155]), Dat(lut[156]), Dat(lut[157])];
    assert Dats(Slice(lut, 158, 159)) == [Dat(lut[158])];
  }

  /** `turn_on_display` sends 0x22 with 0xC7, then 0x20, then waits. */
  lemma TurnOnDisplaySends()
    ensures TurnOnDisplayTrace() == [Cmd(0x22), Dat(0xC7), Cmd(0x20), WaitIdle]
  {
  }

  /** `turn_on_display_part` sends 0x22 with 0xFF, then 0x20, and does not wait. */
  lemma TurnOnDisplayPartSends()
    ensures TurnOnDisplayPartTrace() == [Cmd(0x22), Dat(0xFF), Cmd(0x20)]
  {
  }

  /** `clear(c)` sends 0x24, then exactly height * width / 8 = 5000 copies
      of c, then 0x22 with 0xC7 and 0x20, and ends waiting for idle. */
  lemma ClearSends(color: byte)
    ensures EPD_HEIGHT * (EPD_WIDTH / 8) == EPD_HEIGHT * EPD_WIDTH / 8 == 5000
    ensures ClearTrace(color)
         == [Cmd(0x24)] + Repeat(Dat(color), 5000) + [Cmd(0x22), Dat(0xC7), Cmd(0x20), WaitIdle]
  {
    TurnOnDisplaySends();
  }

  /** `display_part(buf)` sends 0x24, the buffer, then 0x22 with 0xFF and
      0x20, and never waits for the panel. */
  lemma DisplayPartSends(buf: seq<byte>)
    ensures DisplayPartTrace(buf) == [Cmd(0x24)] + Dats(buf) + [Cmd(0x22), Dat(0xFF), Cmd(0x20)]
    ensures WaitIdle !in DisplayPartTrace(buf)
  {
    TurnOnDisplayPartSends();
    forall e | e in DisplayPartTrace(buf) ensures e.Cmd? || e.Dat? {
    }
  }

  /** `sleep` sends 0x10 with 0x01 and waits. */
  lemma SleepSends()
    ensures SleepTrace() == [Cmd(0x10), Dat(0x01), WaitIdle]
  {
  }

  /** `init(True)`: reset, wait, the partial-refresh table, register 0x37
      with its ten bytes, 0x3C with 0x80, 0x22 with 0xC0, 0x20, then a wait. */
  lemma InitPartialSends()
    ensures InitPartialTrace()
         == [Reset, WaitIdle] + SetLutTrace(LUT_PARTIAL_UPDATE)
          + [Cmd(0x37)] + Dats(PARTIAL_0X37_DATA)
          + [Cmd(0x3C), Dat(0x80), Cmd(0x22), Dat(0xC0), Cmd(0x20), WaitIdle]
  {
  }

  /** Everything `init` sends for a full refresh before the look-up table. */
  lemma InitFullPrefixSends()
    ensures InitFullPrefixTrace()
         == [Reset, WaitIdle, Cmd(0x12), WaitIdle]
          + ([Cmd(0x01), Dat(0xC7), Dat(0x00), Dat(0x01),
              Cmd(0x11), Dat(0x01),
              Cmd(0x44), Dat(0x00), Dat(0x18),
              Cmd(0x45), Dat(0xC7), Dat(0x00), Dat(0x00), Dat(0x00)]
           + [Cmd(0x3C), Dat(0x01), Cmd(0x18), Dat(0x80), Cmd(0x22), Dat(0xB1), Cmd(0x20),
              Cmd(0x4E), Dat(0x00), Cmd(0x4F), Dat(0xC7), Dat(0x00),
              WaitIdle])
  {
    var ram := [Cmd(0x01), Dat(0xC7), Dat(0x00), Dat(0x01), Cmd(0x11), Dat(0x01),
                Cmd(0x44), Dat(0x00), Dat(0x18), Cmd(0x45), Dat(0xC7), Dat(0x00), Dat(0x00), Dat(0x00)];
    var update := [Cmd(0x3C), Dat(0x01), Cmd(0x18), Dat(0x80), Cmd(0x22), Dat(0xB1), Cmd(0x20),
                   Cmd(0x4E), Dat(0x00), Cmd(0x4F), Dat(0xC7), Dat(0x00), WaitIdle];
    assert InitWakeTrace() == [Reset, WaitIdle, Cmd(0x12), WaitIdle];
    assert InitPanelTrace() == ram + update by {
      PanelRamSends();
      PanelUpdateSends();
      AppendSix(CommandTrace(DRIVER_OUTPUT_CONTROL, Some(GATE_LINES_DATA))
                  + CommandTrace(DATA_ENTRY_MODE_SETTING, Some(DATA_ENTRY_DATA))
                  + SetWindowsTrace(0, EPD_HEIGHT - 1, EPD_WIDTH - 1, 0),
                CommandTrace(BORDER_WAVEFORM_CONTROL, Some(BORDER_FULL_DATA)),
                CommandTrace(0x18, Some(TEMPERATURE_SENSOR_DATA)),
                CommandTrace(DISPLAY_UPDATE_CONTROL_2, Some(UPDATE_FULL_DATA)),
                CommandTrace(MASTER_ACTIVATION, None),
                SetCursorTrace(0, EPD_HEIGHT - 1),
                [WaitIdle]);
    }
  }

  /** Gate lines, data entry mode and the RAM window of a full `init`. */
  lemma PanelRamSends()
    ensures CommandTrace(DRIVER_OUTPUT_CONTROL, Some(GATE_LINES_DATA))
          + CommandTrace(DATA_ENTRY_MODE_SETTING, Some(DATA_ENTRY_DATA))
          + SetWindowsTrace(0, EPD_HEIGHT - 1, EPD_WIDTH - 1, 0)
         == [Cmd(0x01), Dat(0xC7), Dat(0x00), Dat(0x01), Cmd(0x11), Dat(0x01),
             Cmd(0x44), Dat(0x00), Dat(0x18), Cmd(0x45), Dat(0xC7), Dat(0x00), Dat(0x00), Dat(0x00)]
  {
    assert CommandTrace(DRIVER_OUTPUT_CONTROL, Some(GATE_LINES_DATA))
         + CommandTrace(DATA_ENTRY_MODE_SETTING, Some(DATA_ENTRY_DATA))
        == [Cmd(0x01), Dat(0xC7), Dat(0x00), Dat(0x01), Cmd(0x11), Dat(0x01)];
    FullWindowSends();
  }

  /** Border, temperature sensor, load and activate, the cursor and a wait,
      in a full `init`. */
  lemma PanelUpdateSends()
    ensures CommandTrace(BORDER_WAVEFORM_CONTROL, Some(BORDER_FULL_DATA))
          + CommandTrace(0x18, Some(TEMPERATURE_SENSOR_DATA))
          + CommandTrace(DISPLAY_UPDATE_CONTROL_2, Some(UPDATE_FULL_DATA))
          + CommandTrace(MASTER_ACTIVATION, None)
          + SetCursorTrace(0, EPD_HEIGHT - 1)
          + [WaitIdle]
         == [Cmd(0x3C), Dat(0x01), Cmd(0x18), Dat(0x80), Cmd(0x22), Dat(0xB1), Cmd(0x20),
             Cmd(0x4E), Dat(0x00), Cmd(0x4F), Dat(0xC7), Dat(0x00), WaitIdle]
  {
    assert CommandTrace(BORDER_WAVEFORM_CONTROL, Some(BORDER_FULL_DATA))
         + CommandTrace(0x18, Some(TEMPERATURE_SENSOR_DATA))
         + CommandTrace(DISPLAY_UPDATE_CONTROL_2, Some(UPDATE_FULL_DATA))
         + CommandTrace(MASTER_ACTIVATION, None)
        == [Cmd(0x3C), Dat(0x01), Cmd(0x18), Dat(0x80), Cmd(0x22), Dat(0xB1), Cmd(0x20)];
    FullCursorSends();
  }

  /** The RAM window of a full refresh: x from byte 0 to byte 24, y from 199 down to 0. */
  lemma FullWindowSends()
    ensures SetWindowsTrace(0, EPD_HEIGHT - 1, EPD_WIDTH - 1, 0)
         == [Cmd(0x44), Dat(0x00), Dat(0x18), Cmd(0x45), Dat(0xC7), Dat(0x00), Dat(0x00), Dat(0x00)]
  {
    SetWindowsSends(0, EPD_HEIGHT - 1, EPD_WIDTH - 1, 0);
    assert LowByte(199 / 8) == 0x18 && LowByte(199) == 0xC7 && LowByte(199 / 256) == 0;
  }

  /** The RAM cursor of a full refresh: x byte 0, y row 199. */
  lemma FullCursorSends()
    ensures SetCursorTrace(0, EPD_HEIGHT - 1) == [Cmd(0x4E), Dat(0x00), Cmd(0x4F), Dat(0xC7), Dat(0x00)]
  {
    SetCursorSends(0, EPD_HEIGHT - 1);
    assert LowByte(199) == 0xC7 && LowByte(199 / 256) == 0;
  }

  /** `init(False)`: reset, wait, software reset 0x12, wait; gate lines,
      data entry mode, the RAM window from (0, 199) to (199, 0), border
      waveform, temperature sensor, load and activate; the cursor at
      (0, 199); a wait; then the full-refresh table. */
  lemma InitFullSends()
    ensures InitFullTrace()
         == ([Reset, WaitIdle, Cmd(0x12), WaitIdle]
          + ([Cmd(0x01), Dat(0xC7), Dat(0x00), Dat(0x01),
              Cmd(0x11), Dat(0x01),
              Cmd(0x44), Dat(0x00), Dat(0x18),
              Cmd(0x45), Dat(0xC7), Dat(0x00), Dat(0x00), Dat(0x00)]
           + [Cmd(0x3C), Dat(0x01), Cmd(0x18), Dat(0x80), Cmd(0x22), Dat(0xB1), Cmd(0x20),
              Cmd(0x4E), Dat(0x00), Cmd(0x4F), Dat(0xC7), Dat(0x00),
              WaitIdle])) + SetLutTrace(LUT_FULL_UPDATE)
  {
    InitFullPrefixSends();
  }

  // ---------------------------------------------------------------------------
  // Properties of the traces

  /** The bytes sent with the data/command line low, in order. */
  function Commands(t: seq<Event>): seq<byte> {
    if |t| == 0 then [] else (if t[0].Cmd? then [t[0].b] else []) + Commands(t[1..])
  }

  /** The bytes sent with the data/command line high, in order. */
  function Payload(t: seq<Event>): seq<byte> {
    if |t| == 0 then [] else (if t[0].Dat? then [t[0].b] else []) + Payload(t[1..])
  }

  lemma ViewsAppend(a: seq<Event>, b: seq<Event>)
    ensures Commands(a + b) == Commands(a) + Commands(b)
    ensures Payload(a + b) == Payload(a) + Payload(b)
  {
    CommandsAppend(a, b);
    PayloadAppend(a, b);
  }

  lemma {:induction false} CommandsAppend(a: seq<Event>, b: seq<Event>)
    ensures Commands(a + b) == Commands(a) + Commands(b)
  {
    if |a| == 0 {
      assert a + b == b;
    } else {
      assert (a + b)[0] == a[0];
      assert (a + b)[1..] == a[1..] + b;
      CommandsAppend(a[1..], b);
    }
  }

  lemma {:induction false} PayloadAppend(a: seq<Event>, b: seq<Event>)
    ensures Payload(a + b) == Payload(a) + Payload(b)
  {
    if |a| == 0 {
      assert a + b == b;
    } else {
      assert (a + b)[0] == a[0];
      assert (a + b)[1..] == a[1..] + b;
      PayloadAppend(a[1..], b);
    }
  }

  lemma {:induction false} ViewsOfDats(data: seq<byte>)
    ensures Commands(Dats(data)) == [] && Payload(Dats(data)) == data
  {
    if |data| != 0 {
      assert Dats(data)[1..] == Dats(data[1..]);
      ViewsOfDats(data[1..]);
    }
  }

  /** The five slices `set_lut` takes of a 159-byte table cover it exactly
      once, without overlap or gap. */
  lemma LutSlicesCoverTable(lut: seq<byte>)
    requires |lut| == 159
    ensures Slice(lut, 0, 153) + Slice(lut, 153, 154) + Slice(lut, 154, 155)
          + Slice(lut, 155, 158) + Slice(lut, 158, 159) == lut
  {
    var s := Slice(lut, 0, 153) + Slice(lut, 153, 154) + Slice(lut, 154, 155)
           + Slice(lut, 155, 158) + Slice(lut, 158, 159);
    assert |s| == |lut|;
    forall k | 0 <= k < |s| ensures s[k] == lut[k] {
    }
  }

  /** Both waveform tables are 159 bytes long. */
  lemma LutTablesLength()
    ensures |LUT_FULL_UPDATE| == 159 && |LUT_PARTIAL_UPDATE| == 159
  {
  }

  /** `set_lut` sends a 159-byte table whole: the payload is the table and
      the commands are the five registers. */
  lemma LutSentWhole(lut: seq<byte>)
    requires |lut| == 159
    ensures Commands(SetLutTrace(lut)) == [0x32, 0x3F, 0x03, 0x04, 0x2C]
    ensures Payload(SetLutTrace(lut)) == lut
  {
    var p0, p1, p2, p3, p4 := Slice(lut, 0, 153), Slice(lut, 153, 154), Slice(lut, 154, 155),
                              Slice(lut, 155, 158), Slice(lut, 158, 159);
    var t := LutTrace(p0);
    ViewsOfCommand(WRITE_LUT_REGISTER, p0);
    var cs: seq<byte> := [0x32];
    var ps := p0;
    CommandStep(t, 0x3F, p1);
    t, cs, ps := t + CommandTrace(0x3F, Some(p1)), cs + [0x3F], ps + p1;
    CommandStep(t, 0x03, p2);
    t, cs, ps := t + CommandTrace(0x03, Some(p2)), cs + [0x03], ps + p2;
    CommandStep(t, 0x04, p3);
    t, cs, ps := t + CommandTrace(0x04, Some(p3)), cs + [0x04], ps + p3;
    CommandStep(t, 0x2C, p4);
    t, cs, ps := t + CommandTrace(0x2C, Some(p4)), cs + [0x2C], ps + p4;
    assert t == SetLutTrace(lut);
    assert Commands(t) == cs && Payload(t) == ps;
    assert cs == [0x32, 0x3F, 0x03, 0x04, 0x2C];
    LutSlicesCoverTable(lut);
  }

  /** Appending one command with its data extends both views by that command
      and that data. */
  lemma CommandStep(t: seq<Event>, cmd: byte, data: seq<byte>)
    ensures Commands(t + CommandTrace(cmd, Some(data))) == Commands(t) + [cmd]
    ensures Payload(t + CommandTrace(cmd, Some(data))) == Payload(t) + data
  {
    ViewsOfCommand(cmd, data);
    ViewsAppend(t, CommandTrace(cmd, Some(data)));
  }

  lemma ViewsOfCommand(cmd: byte, data: seq<byte>)
    ensures Commands(CommandTrace(cmd, Some(data))) == [cmd]
    ensures Payload(CommandTrace(cmd, Some(data))) == data
  {
    ViewsAppend([Cmd(cmd)], Dats(data));
    ViewsOfDats(data);
    assert [Cmd(cmd)][1..] == [];
  }

  /** For coordinates that fit 16 bits the two bytes `set_windows` and
      `set_cursor` send (low byte first) give the coordinate back. */
  lemma CoordinateBytesRoundTrip(v: int)
    requires 0 <= v < 0x10000
    ensures LowByte(v) as int + 256 * LowByte(v / 256) as int == v
  {
  }

  // ---------------------------------------------------------------------------
  // The driver object

  /** The `EPD` object. The SPI bus and the pins are its trace; the busy pin
      is the oracle `busyLine`, of which `polls` readings have been taken. */
  class EPD {
    const width: int := EPD_WIDTH
    const height: int := EPD_HEIGHT
    const busyLine: seq<bool>
    var trace: seq<Event>
    var polls: nat

    /** Setting the pins to their initial levels sends nothing. */
    constructor (busyLine: seq<bool>)
      ensures this.busyLine == busyLine && trace == [] && polls == 0
    {
      this.busyLine := busyLine;
      trace := [];
      polls := 0;
    }

    method Command(cmd: byte, data: Option<seq<byte>>)
      modifies this
      ensures trace == old(trace) + CommandTrace(cmd, data) && polls == old(polls)
    {
      trace := trace + [Cmd(cmd)];
      if data.Some? {
        Data(data.value);
      }
    }

    method Data(data: seq<byte>)
      modifies this
      ensures trace == old(trace) + Dats(data) && polls == old(polls)
    {
      trace := trace + Dats(data);
    }

    method SendData(b: byte)
      modifies this
      ensures trace == old(trace) + SendDataTrace(b) && polls == old(polls)
    {
      trace := trace + [Dat(b)];
    }

    method SetWindows(xStart: int, yStart: int, xEnd: int, yEnd: int)
      modifies this
      ensures trace == old(trace) + SetWindowsTrace(xStart, yStart, xEnd, yEnd)
      ensures polls == old(polls)
    {
      Command(SET_RAM_X_ADDRESS_START_END_POSITION, None);
      SendData(LowByte(xStart / 8));
      SendData(LowByte(xEnd / 8));
      Command(SET_RAM_Y_ADDRESS_START_END_POSITION, None);
      SendData(LowByte(yStart));
      SendData(LowByte(yStart / 256));
      SendData(LowByte(yEnd));
      SendData(LowByte(yEnd / 256));
    }

    method SetCursor(xStart: int, yStart: int)
      modifies this
      ensures trace == old(trace) + SetCursorTrace(xStart, yStart) && polls == old(polls)
    {
      Command(SET_RAM_X_ADDRESS_COUNTER, None);
      SendData(LowByte(xStart));
      Command(SET_RAM_Y_ADDRESS_COUNTER, None);
      SendData(LowByte(yStart));
      SendData(LowByte(yStart / 256));
    }

    /** `busy()`: one reading of the busy pin. */
    method Busy() returns (busy: bool)
      modifies this
      ensures busy == BusyReading(busyLine, old(polls))
      ensures polls == old(polls) + 1 && trace == old(trace)
    {
      busy := BusyReading(busyLine, polls);
      polls := polls + 1;
    }

    /** `wait_until_idle`: reads the busy pin until it shows idle. It stops at
        the first idle reading. */
    method WaitUntilIdle()
      modifies this
      ensures trace == old(trace) + [WaitIdle]
      ensures polls == IdleAt(busyLine, old(polls)) + 1
    {
      var busy := Busy();
      while busy
        invariant old(polls) < polls
        invariant busy == BusyReading(busyLine, polls - 1)
        invariant IdleAt(busyLine, old(polls)) == IdleAt(busyLine, polls - 1)
        invariant trace == old(trace)
        decreases |busyLine| - polls
      {
        busy := Busy();
      }
      trace := trace + [WaitIdle];
    }

    /** `reset`: the pulse on the reset pin; its timing is not modelled. */
    method Reset()
      modifies this
      ensures trace == old(trace) + [Event.Reset] && polls == old(polls)
    {
      trace := trace + [Event.Reset];
    }

    method Lut(lut: seq<byte>)
      modifies this
      ensures trace == old(trace) + LutTrace(lut) && polls == old(polls)
    {
      Command(WRITE_LUT_REGISTER, Some(lut));
    }

    method SetLut(lut: seq<byte>)
      modifies this
      ensures trace == old(trace) + SetLutTrace(lut) && polls == old(polls)
    {
      ghost var sent := LutTrace(Slice(lut, 0, 153));
      Lut(Slice(lut, 0, 153));
      Command(0x3F, Some(Slice(lut, 153, 154)));
      AppendAssoc(old(trace), sent, CommandTrace(0x3F, Some(Slice(lut, 153, 154))));
      sent := sent + CommandTrace(0x3F, Some(Slice(lut, 153, 154)));
      Command(0x03, Some(Slice(lut, 154, 155)));
      AppendAssoc(old(trace), sent, CommandTrace(0x03, Some(Slice(lut, 154, 155))));
      sent := sent + CommandTrace(0x03, Some(Slice(lut, 154, 155)));
      Command(0x04, Some(Slice(lut, 155, 158)));
      AppendAssoc(old(trace), sent, CommandTrace(0x04, Some(Slice(lut, 155, 158))));
      sent := sent + CommandTrace(0x04, Some(Slice(lut, 155, 158)));
      Command(0x2C, Some(Slice(lut, 158, 159)));
      AppendAssoc(old(trace), sent, CommandTrace(0x2C, Some(Slice(lut, 158, 159))));
    }

    method Init(partial: bool)
      modifies this
      ensures trace == old(trace) + InitTrace(partial)
      ensures polls > old(polls)
    {
      if partial {
        InitPartial();
      } else {
        InitFull();
      }
    }

    /** The `if partial` branch of `init`. */
    method InitPartial()
      modifies this
      ensures trace == old(trace) + InitPartialTrace()
      ensures polls > old(polls)
    {
      Reset();
      ghost var sent := [Event.Reset];
      WaitUntilIdle();
      AppendAssoc(old(trace), sent, [WaitIdle]);
      sent := sent + [WaitIdle];
      SetLut(LUT_PARTIAL_UPDATE);
      AppendAssoc(old(trace), sent, SetLutTrace(LUT_PARTIAL_UPDATE));
      sent := sent + SetLutTrace(LUT_PARTIAL_UPDATE);
      Command(0x37, Some(PARTIAL_0X37_DATA));
      AppendAssoc(old(trace), sent, CommandTrace(0x37, Some(PARTIAL_0X37_DATA)));
      sent := sent + CommandTrace(0x37, Some(PARTIAL_0X37_DATA));
      Command(BORDER_WAVEFORM_CONTROL, Some([0x80]));
      AppendAssoc(old(trace), sent, CommandTrace(BORDER_WAVEFORM_CONTROL, Some([0x80])));
      sent := sent + CommandTrace(BORDER_WAVEFORM_CONTROL, Some([0x80]));
      Command(DISPLAY_UPDATE_CONTROL_2, Some([0xC0]));
      AppendAssoc(old(trace), sent, CommandTrace(DISPLAY_UPDATE_CONTROL_2, Some([0xC0])));
      sent := sent + CommandTrace(DISPLAY_UPDATE_CONTROL_2, Some([0xC0]));
      Command(MASTER_ACTIVATION, None);
      AppendAssoc(old(trace), sent, CommandTrace(MASTER_ACTIVATION, None));
      sent := sent + CommandTrace(MASTER_ACTIVATION, None);
      WaitUntilIdle();
      AppendAssoc(old(trace), sent, [WaitIdle]);
    }

    /** The `else` branch of `init`. */
    method InitFull()
      modifies this
      ensures trace == old(trace) + InitFullTrace()
      ensures polls > old(polls)
    {
      InitFullPrefix();
      SetLut(LUT_FULL_UPDATE);
      AppendAssoc(old(trace), InitFullPrefixTrace(), SetLutTrace(LUT_FULL_UPDATE));
    }

    /** The `else` branch of `init` up to `set_lut`. */
    method InitFullPrefix()
      modifies this
      ensures trace == old(trace) + InitFullPrefixTrace()
      ensures polls > old(polls)
    {
      InitWake();
      InitPanel();
      AppendAssoc(old(trace), InitWakeTrace(), InitPanelTrace());
    }

    /** The hardware start of a full `init`: reset and software reset. */
    method InitWake()
      modifies this
      ensures trace == old(trace) + InitWakeTrace()
      ensures polls > old(polls)
    {
      Reset();
      ghost var sent := [Event.Reset];
      WaitUntilIdle();
      AppendAssoc(old(trace), sent, [WaitIdle]);
      sent := sent + [WaitIdle];
      Command(SW_RESET, None);
      AppendAssoc(old(trace), sent, CommandTrace(SW_RESET, None));
      sent := sent + CommandTrace(SW_RESET, None);
      WaitUntilIdle();
      AppendAssoc(old(trace), sent, [WaitIdle]);
    }

    /** The panel set-up of a full `init`. */
    method InitPanel()
      modifies this
      ensures trace == old(trace) + InitPanelTrace()
      ensures polls > old(polls)
    {
      InitRamWindow();
      InitUpdateSetup();
      AppendNine(old(trace), CommandTrace(DRIVER_OUTPUT_CONTROL, Some(GATE_LINES_DATA)),
                 CommandTrace(DATA_ENTRY_MODE_SETTING, Some(DATA_ENTRY_DATA)),
                 SetWindowsTrace(0, EPD_HEIGHT - 1, EPD_WIDTH - 1, 0),
                 CommandTrace(BORDER_WAVEFORM_CONTROL, Some(BORDER_FULL_DATA)),
                 CommandTrace(0x18, Some(TEMPERATURE_SENSOR_DATA)),
                 CommandTrace(DISPLAY_UPDATE_CONTROL_2, Some(UPDATE_FULL_DATA)),
                 CommandTrace(MASTER_ACTIVATION, None),
                 SetCursorTrace(0, EPD_HEIGHT - 1),
                 [WaitIdle]);
    }

    /** Gate lines, data entry mode and the RAM window of a full `init`. */
    method InitRamWindow()
      modifies this
      ensures trace == old(trace) + CommandTrace(DRIVER_OUTPUT_CONTROL, Some(GATE_LINES_DATA))
                        + CommandTrace(DATA_ENTRY_MODE_SETTING, Some(DATA_ENTRY_DATA))
                        + SetWindowsTrace(0, EPD_HEIGHT - 1, EPD_WIDTH - 1, 0)
      ensures polls == old(polls)
    {
      Command(DRIVER_OUTPUT_CONTROL, Some(GATE_LINES_DATA));
      Command(DATA_ENTRY_MODE_SETTING, Some(DATA_ENTRY_DATA));
      SetWindows(0, height - 1, width - 1, 0);
    }

    /** Border, temperature sensor, the load-and-activate sequence, the
        cursor and a wait, in a full `init`. */
    method InitUpdateSetup()
      modifies this
      ensures trace == old(trace) + CommandTrace(BORDER_WAVEFORM_CONTROL, Some(BORDER_FULL_DATA))
                        + CommandTrace(0x18, Some(TEMPERATURE_SENSOR_DATA))
                        + CommandTrace(DISPLAY_UPDATE_CONTROL_2, Some(UPDATE_FULL_DATA))
                        + CommandTrace(MASTER_ACTIVATION, None)
                        + SetCursorTrace(0, EPD_HEIGHT - 1)
                        + [WaitIdle]
      ensures polls > old(polls)
    {
      Command(BORDER_WAVEFORM_CONTROL, Some(BORDER_FULL_DATA));
      Command(0x18, Some(TEMPERATURE_SENSOR_DATA));
      Command(DISPLAY_UPDATE_CONTROL_2, Some(UPDATE_FULL_DATA));
      Command(MASTER_ACTIVATION, None);
      SetCursor(0, height - 1);
      WaitUntilIdle();
    }

    method TurnOnDisplay()
      modifies this
      ensures trace == old(trace) + TurnOnDisplayTrace() && polls > old(polls)
    {
      Command(DISPLAY_UPDATE_CONTROL_2, None);
      SendData(0xC7);
      Command(MASTER_ACTIVATION, None);
      WaitUntilIdle();
    }

    method TurnOnDisplayPart()
      modifies this
      ensures trace == old(trace) + TurnOnDisplayPartTrace() && polls == old(polls)
    {
      Command(DISPLAY_UPDATE_CONTROL_2, None);
      SendData(0xFF);
      Command(MASTER_ACTIVATION, None);
    }

    /** `clear(color)`: the two loops send the colour once per byte of the
        frame, row by row. */
    method Clear(color: byte)
      modifies this
      ensures trace == old(trace) + ClearTrace(color) && polls > old(polls)
    {
      Command(WRITE_RAM, None);
      ghost var start := trace;
      var j := 0;
      while j < height
        invariant 0 <= j <= height
        invariant trace == start + Repeat(Dat(color), j * (width / 8))
        invariant polls == old(polls)
      {
        var i := 0;
        while i < width / 8
          invariant 0 <= i <= width / 8
          invariant trace == start + Repeat(Dat(color), j * (width / 8) + i)
          invariant polls == old(polls)
        {
          SendData(color);
          RepeatSnoc(Dat(color), j * (width / 8) + i);
          i := i + 1;
        }
        j := j + 1;
      }
      TurnOnDisplay();
    }

    method DisplayPart(buf: seq<byte>)
      modifies this
      ensures trace == old(trace) + DisplayPartTrace(buf) && polls == old(polls)
    {
      Command(WRITE_RAM, None);
      Data(buf);
      TurnOnDisplayPart();
    }

    method Sleep()
      modifies this
      ensures trace == old(trace) + SleepTrace() && polls > old(polls)
    {
      Command(DEEP_SLEEP_MODE, Some([0x01]));
      WaitUntilIdle();
    }
  }
}
