# Aircraft trim indicator — a Dafny model

The firmware runs on a Raspberry Pi Pico. It reads the position of an
aircraft's elevator trim and rudder trim from two potentiometers and shows
them on a 200 x 200 pixel e-paper panel. The display is a needle, a sign and
a three-digit percentage. A long press, then a second long press within ten
seconds, enters calibration. Six short presses record the trim endpoints
(full up, neutral, full down), then the rudder endpoints (right, neutral,
left). Each axis is kept and saved only when its neutral lies strictly
between its two extremes.

The model has six modules:

- `Wrappers`: `Option` and `Result`.
- `Settings`: the six calibration endpoints of `trim_settings`. It covers the
  compiled defaults, the sanity checks, and the per-key fallback of `main`
  over the persisted configuration.
- `PositionMapper`: `calc_display_percent` and `calc_rudder_percent`. Both
  are one function `AxisPercent`, with Python's `round` written out exactly:
  nearest integer, ties to even. A zero denominator gives
  `Err(ZeroDivisionError)`.
- `Calibration`: the status machine of `pin_press` and `pin_press_short`,
  the timeout of `user_interface`, and the redraw decision of
  `display_driver`.
  - These are first transition functions over a record of the globals.
  - The class `TrimIndicator` holds those globals as fields. Its methods are
    proved to perform exactly those transitions.
- `Epaper`: the `EPD` driver of the panel.
  - The SPI bus and the reset and data/command pins form an append-only
    trace of events: `Cmd(b)` (dc low), `Dat(b)` (dc high), `Reset`, and
    `WaitIdle` (the return of `wait_until_idle`).
  - The busy pin is an oracle: a finite sequence of readings, idle once it
    runs out.
  - Each driver method is proved to append exactly the events of a trace
    function. Lemmas spell each trace out byte by byte.
- `Renderer`: `display.py`.
  - The frame buffer is a sequence of 40000 pixels. `fill_rect` is `Paint`,
    which clips to the panel.
  - `indicator` is, first, a list of rectangles (`IndicatorPlan`) and the
    picture that list paints (`Render`). Second, it is the imperative method
    `Display.Indicator`, which is proved to leave exactly that picture.
  - `print` packs the pixels eight to a byte, in the MONO_HLSB layout, and
    hands the bytes to the driver.

Time is an integer parameter: the `now` of the callbacks and the ticks at
boot. The sensor values are inputs (`StoreSample`). `config.save` is modelled
as appending the saved settings to a sequence, and `config.load` as a map
given to the constructor.

Where the code does something other than a reader might expect, the model
follows the code:

- The sign branch of both mappings reads the global `trim_value`, not the
  `value` argument.
- The endpoints are not replaced only when a whole calibration completes: the
  code commits the trim axis at status 4 on its own. A rejected trim axis
  does not end the calibration: the rudder steps follow. A successful rudder
  step then commits the rejected trim endpoints too.
- In statuses 0 and 1 the display task redraws only when one of the two
  readings changes or the wakeup counter is positive; a change of status or
  of the supply voltage alone does not redraw. In statuses 2 to 7 it draws
  on every pass (main.py:127-144).
- A short press in status 0 or 1 changes only the wakeup counter: status 1
  is left by the long press or the time-out, not by a short press
  (main.py:165-207). `ShortPress` follows this.
- `indicator` has no text font, no voltage read-out and no tick labels. It draws the frame, the neutral
  mark, the needle, the sign, three seven-segment digits and the setup
  marks. The setup bars exist only for the three trim statuses.

## Model

| member | source | states |
|---|---|---|
| Settings.LoadSettings | main.py:248-257 | each endpoint is the configuration's value when its key is present and the `trim_default` value otherwise |
| Settings.ToConfig | main.py:186-187 | the dictionary handed to `config.save` has exactly the six keys, and each key holds the field of the same name |
| Settings.LoadAfterSave | main.py:186-187 | loading a saved dictionary gives back exactly the saved endpoints |
| Settings.LoadEmpty | main.py:57-58 | an empty configuration yields `trim_default`, and the defaults pass both axis checks |
| PositionMapper.RoundQuotient | main.py:69 | the result is within half a unit of n/d, and an exact tie goes to the even neighbour |
| PositionMapper.RoundQuotientUnique | main.py:69 | only one integer meets that contract, so it is Python's `round` |
| PositionMapper.RoundQuotientMonotone | main.py:69 | rounding the quotient is monotone in the numerator |
| PositionMapper.RoundQuotientAtLeast | main.py:69 | a quotient of at least k rounds to at least k |
| PositionMapper.RoundQuotientNonNegative | main.py:69 | a non-negative quotient rounds to a non-negative integer |
| PositionMapper.AxisPercent | main.py:65-81 | the reading, when there is one, is in [-100, 100]; an axis whose neutral lies strictly between its endpoints never raises |
| PositionMapper.CalcDisplayPercent | main.py:65-81 | the trim reading is in [-100, 100] and exists whenever the trim endpoints are ordered |
| PositionMapper.CalcRudderPercent | main.py:84-100 | the rudder reading is in [-100, 100] and exists whenever the rudder endpoints are ordered |
| PositionMapper.NeutralIsZero | main.py:66-76 | at the neutral endpoint the reading is 0, whichever branch `trim_value` selects |
| PositionMapper.PlusEndReadsHundred | main.py:77-78 | a value at or beyond the +100 % endpoint reads exactly 100 |
| PositionMapper.MinusEndReadsMinusHundred | main.py:79-80 | a value at or beyond the -100 % endpoint reads exactly -100 |
| PositionMapper.Monotone | main.py:65-81 | when the branch follows the value, moving towards the +100 % endpoint never lowers the reading |
| PositionMapper.TrimScenario | main.py:65-81 | with endpoints 1000 / 32000 / 64000 the readings are 0 at 32000, 100 at 1000, -100 at 64000 and 50 at 16500 |
| PositionMapper.RudderBranchFollowsTrimValue | main.py:87-95 | with the rudder value fixed at 50, the rudder reading is 50 or -50 depending only on the sign of `trim_value` |
| PositionMapper.DegenerateTrimRaises | main.py:73-76 | trim endpoints that coincide make the trim mapping raise ZeroDivisionError |
| Calibration.LongPress | main.py:150-162 | keeps the state valid, sets the wakeup counter to 1, and leaves the settings, `new_trim` and the saves alone |
| Calibration.ShortPress | main.py:165-207 | keeps the state valid (`new_trim` exists in every status that reads it), sets the wakeup counter to 1, and never touches `start` |
| Calibration.UserInterfaceTick | main.py:219-224 | changes nothing but the status, and that only from 1 to 0 when more than `SET_TIME_MS` has passed since `start` |
| Calibration.DisplayDriverStep | main.py:112-144 | setup statuses draw their fixed call; in statuses 0 and 1 the call carries the two readings and is made exactly when one of them differs from what was last shown or the wakeup counter is positive, and then it records them and decrements the counter; a failure needs unordered settings |
| Calibration.LongPressTable | main.py:156-162 | status 0 goes to 1 and records `start`, 1 goes to 2, and every other status is unchanged |
| Calibration.ShortPressTable | main.py:174-207 | statuses 0 and 1 change only the wakeup counter; 2/3/4 store `trim_value` into full up / neutral / full down and 5/6/7 store `rudder_value` into right / neutral / left, advancing to 3/4/5/6/7/0 |
| Calibration.CommitOnlyIfOrdered | main.py:181-207 | `trim_settings` changes and is saved only at status 4 or 7, and exactly when that axis is strictly ordered; it then becomes `new_trim` |
| Calibration.CalibrationOutcome | main.py:174-207 | after six short presses from status 2 the status is 0, `new_trim` holds all six samples, and the settings and saves are given by the two axis checks |
| Calibration.FailedCalibrationKeepsSettings | main.py:184-205 | a calibration whose samples are all equal leaves the settings and the saved configuration unchanged |
| Calibration.RejectedTrimCommittedByRudder | main.py:175-205 | trim endpoints rejected at status 4 are committed and saved by a passing rudder step, so the settings fail the trim check |
| Calibration.ConfirmWithinWindow | main.py:156-162 | a second long press within the window enters status 2 |
| Calibration.WindowExpires | main.py:221-224 | without a second long press, the first tick after the window returns to status 0 |
| Calibration.RedrawSuppressed | main.py:117-126 | once the wakeup counter is used up, an iteration with unchanged readings draws nothing and changes nothing |
| Calibration.WakeupForcesRedraw | main.py:117-122 | while the wakeup counter is positive and the settings are ordered, every normal-mode iteration draws and decrements the counter |
| Calibration.TrimIndicator.constructor | main.py:248-257 | status 0, `start` at the boot ticks, the wakeup counter at 50, settings from the configuration merged over the defaults, and no pending calibration |
| Calibration.TrimIndicator.StoreSample | main.py:236-245 | stores the three sensor values and changes nothing else |
| Calibration.TrimIndicator.PinPress | main.py:150-162 | the new state is `LongPress` of the old one |
| Calibration.TrimIndicator.PinPressShort | main.py:165-207 | the new state is `ShortPress` of the old one, with the live trim and rudder values |
| Calibration.TrimIndicator.UserInterfaceTickAt | main.py:219-224 | the new state is `UserInterfaceTick` of the old one |
| Calibration.TrimIndicator.DisplayDriverIteration | main.py:112-144 | returns the indicator call of `DisplayDriverStep`, and updates the shown values and the counter as it says; an exception changes nothing |
| Epaper.Slice | epaper1in54.py:206-211 | Python slicing: the length is cut off at the end of the table, and every element is the table's at the offset |
| Epaper.IdleAt | epaper1in54.py:188-190 | the first idle reading at or after k: every reading before it is busy |
| Epaper.IdleAtBound | epaper1in54.py:188-190 | the wait never reads more than one past the end of the oracle |
| Epaper.CommandTraceShape | epaper1in54.py:122-134 | `_command` emits exactly one byte with dc low, followed by exactly the data bytes, in order, with dc high |
| Epaper.SetWindowsSends | epaper1in54.py:142-151 | 0x44, x start / 8, x end / 8, then 0x45, y start low and high byte, y end low and high byte |
| Epaper.SetCursorSends | epaper1in54.py:153-158 | 0x4E, the low byte of x, then 0x4F, the low and the high byte of y |
| Epaper.SetLutSends | epaper1in54.py:206-211 | bytes [0,153) under 0x32, byte 153 under 0x3F, 154 under 0x03, [155,158) under 0x04 and 158 under 0x2C, in that order |
| Epaper.TurnOnDisplaySends | epaper1in54.py:213-217 | 0x22 with 0xC7, 0x20, then a wait |
| Epaper.TurnOnDisplayPartSends | epaper1in54.py:219-223 | 0x22 with 0xFF, then 0x20, with no wait |
| Epaper.ClearSends | epaper1in54.py:225-230 | 0x24, exactly 5000 copies of the colour, then 0x22 0xC7 0x20 and a wait |
| Epaper.DisplayPartSends | epaper1in54.py:232-235 | 0x24, the buffer, then 0x22 0xFF 0x20, and no wait anywhere |
| Epaper.SleepSends | epaper1in54.py:238-240 | 0x10 with 0x01, then a wait |
| Epaper.InitPartialSends | epaper1in54.py:161-169 | reset, wait, the partial table, 0x37 with its ten bytes, 0x3C 0x80, 0x22 0xC0, 0x20, then a wait |
| Epaper.InitFullPrefixSends | epaper1in54.py:171-185 | the full `init` up to the table, byte by byte |
| Epaper.PanelRamSends | epaper1in54.py:177-179 | gate lines 0x01 C7 00 01, data entry 0x11 01, and the RAM window from (0, 199) to (199, 0) |
| Epaper.PanelUpdateSends | epaper1in54.py:180-185 | 0x3C 01, 0x18 80, 0x22 B1, 0x20, the cursor at (0, 199), then a wait |
| Epaper.FullWindowSends | epaper1in54.py:179 | the window of a full refresh is x bytes 0 to 24 and y rows 199 to 0 |
| Epaper.FullCursorSends | epaper1in54.py:184 | the cursor of a full refresh is x byte 0, y row 199 |
| Epaper.InitFullSends | epaper1in54.py:171-186 | reset, wait, 0x12, wait, the panel set-up byte by byte, then `set_lut` of the full table |
| Epaper.ViewsAppend | epaper1in54.py:122-140 | the command bytes and the data bytes of a concatenation are the concatenations of each |
| Epaper.ViewsOfDats | epaper1in54.py:130-134 | `_data` sends no command byte, and its data bytes are the array |
| Epaper.LutSlicesCoverTable | epaper1in54.py:206-211 | on a 159-byte table the five slices cover it exactly once, with no gap and no overlap |
| Epaper.LutTablesLength | epaper1in54.py:83-120 | both waveform tables are 159 bytes long |
| Epaper.LutSentWhole | epaper1in54.py:206-211 | on a 159-byte table the commands are 0x32 0x3F 0x03 0x04 0x2C and the data bytes are the table itself |
| Epaper.CommandStep | epaper1in54.py:122-128 | one more command with data adds that command to the commands and that data to the data bytes |
| Epaper.ViewsOfCommand | epaper1in54.py:122-128 | a command with data contributes one command byte and exactly that data |
| Epaper.CoordinateBytesRoundTrip | epaper1in54.py:148-151 | for 16-bit coordinates the low byte and the high byte give the coordinate back |
| Epaper.EPD.constructor | epaper1in54.py:70-81 | nothing sent yet, and no reading of the busy line taken |
| Epaper.EPD.Command | epaper1in54.py:122-128 | appends exactly the `_command` events |
| Epaper.EPD.Data | epaper1in54.py:130-134 | appends exactly the array's bytes with dc high |
| Epaper.EPD.SendData | epaper1in54.py:136-140 | appends exactly one byte with dc high |
| Epaper.EPD.SetWindows | epaper1in54.py:142-151 | appends exactly the `set_windows` events and takes no reading |
| Epaper.EPD.SetCursor | epaper1in54.py:153-158 | appends exactly the `set_cursor` events |
| Epaper.EPD.Busy | epaper1in54.py:192-193 | returns the next reading of the busy line, and sends nothing |
| Epaper.EPD.WaitUntilIdle | epaper1in54.py:188-190 | polls until the first idle reading, then records the wait |
| Epaper.EPD.Reset | epaper1in54.py:195-201 | appends the reset pulse |
| Epaper.EPD.Lut | epaper1in54.py:203-204 | appends 0x32 with the table |
| Epaper.EPD.SetLut | epaper1in54.py:206-211 | appends exactly the `set_lut` events |
| Epaper.EPD.Init | epaper1in54.py:160-186 | appends the partial or the full init sequence, and reads the busy line |
| Epaper.EPD.InitPartial | epaper1in54.py:161-169 | appends the partial init sequence |
| Epaper.EPD.InitFull | epaper1in54.py:171-186 | appends the full init sequence |
| Epaper.EPD.InitFullPrefix | epaper1in54.py:171-185 | appends the full init sequence up to the table |
| Epaper.EPD.InitWake | epaper1in54.py:172-175 | appends reset, wait, 0x12, wait |
| Epaper.EPD.InitPanel | epaper1in54.py:177-185 | appends the panel set-up |
| Epaper.EPD.InitRamWindow | epaper1in54.py:177-179 | appends the gate lines, the data entry mode and the RAM window |
| Epaper.EPD.InitUpdateSetup | epaper1in54.py:180-185 | appends border, sensor, update control, activation, cursor and the wait |
| Epaper.EPD.TurnOnDisplay | epaper1in54.py:213-217 | appends the full-refresh trigger and waits |
| Epaper.EPD.TurnOnDisplayPart | epaper1in54.py:219-223 | appends the partial-refresh trigger without waiting |
| Epaper.EPD.Clear | epaper1in54.py:225-230 | its two nested loops append 0x24, 200 x 25 copies of the colour, and the trigger |
| Epaper.EPD.DisplayPart | epaper1in54.py:232-235 | appends 0x24, the buffer and the partial trigger |
| Epaper.EPD.Sleep | epaper1in54.py:238-240 | appends deep sleep 0x10 0x01 and a wait |
| Renderer.PixelIndex | display.py:70-71 | pixel (x, y) of the 200 x 200 frame is index y * 200 + x |
| Renderer.PaintAllAppend | display.py:99-137 | painting two lists of rectangles in turn is painting their concatenation |
| Renderer.PaintAllUncovered | display.py:99-137 | a pixel that no rectangle covers keeps its colour |
| Renderer.BlackStaysBlack | display.py:99-137 | black rectangles never turn a black pixel white |
| Renderer.Glyph | display.py:82 | `nums[number]` exists exactly for indices in [-10, 10), negative ones counted from the end |
| Renderer.NumsTable | display.py:53-54 | ten entries; 1 lights segments 6 and 7, 8 lights all of 1..7, and every entry names a segment 1..7 |
| Renderer.SegmentsInBox | display.py:81-96 | every rectangle `seven_seg` fills is black and lies inside [x, x+size+thick) x [y, y+2 size+thick) |
| Renderer.SegmentCount | display.py:81-96 | one rectangle per entry when every entry names a segment |
| Renderer.DigitShapes | display.py:81-96 | digit 1 is the two right segments, and digit 8 is seven rectangles |
| Renderer.NeedleRow | display.py:112 | for percentages in [-100, 100] the needle row is in [12, 188] |
| Renderer.NeedleRows | display.py:112 | the needle row is 100 at 0, 188 at +100 and 12 at -100 |
| Renderer.NeedleMonotone | display.py:112-113 | the needle row never decreases as the percentage grows |
| Renderer.DigitsSpellValue | display.py:122-128 | for a magnitude below 1000 the digits drawn are each 0..9, spell the magnitude, have no leading zero, and number 3, 2 or 1 |
| Renderer.DigitsRectsOfDrawn | display.py:122-128 | hundreds at x = 20 if nonzero, tens at x = 45 if they or the hundreds are nonzero, ones at x = 70 always |
| Renderer.DigitsRectsInBand | display.py:122-128 | the digits are black and lie in the band x in [20, 90), y in [84, 120) |
| Renderer.Layers | display.py:101-137 | with a needle, the picture is frame and needle, then the sign, then digits and marker |
| Renderer.TailShape | display.py:122-131 | everything after the sign is black, and is a digit in the band or the mode-1 marker |
| Renderer.HeadLeavesLeftHalf | display.py:107-113 | the frame and the needle do not touch the left half |
| Renderer.SignLeaves | display.py:115-119 | the sign touches only its bar and its stem |
| Renderer.TailLeaves | display.py:122-131 | digits and marker leave the columns left of x = 20 alone, except for the marker |
| Renderer.AfterNeedleBlack | display.py:115-131 | the sign, the digits and the marker are all black |
| Renderer.NeedlePainted | display.py:107-113 | after the frame, column 150 of the needle row is black |
| Renderer.RaisesIff | display.py:122-124 | `indicator` raises exactly when it draws digits and the magnitude is 1000 or more |
| Renderer.TeachingIgnoresPercentage | display.py:111 | outside modes 0 and 1 the picture does not depend on the percentage and has no needle |
| Renderer.NeedleVisible | display.py:111-113 | in modes 0 and 1, for percentages in [-100, 100], the centre of the needle is black in the final picture |
| Renderer.NeedlePixelBlack | display.py:111-113 | the pixel at column 150 of the needle row is black in the final picture |
| Renderer.SignShown | display.py:115-120 | the bar pixel is black exactly when the percentage is nonzero, and the stem pixel exactly when it is positive |
| Renderer.SignLayerShows | display.py:115-131 | below the marker and left of the digits, the picture is what the sign made of it |
| Renderer.SignPixels | display.py:115-119 | on a white background, the sign's bar and stem pixels turn black exactly under the sign's conditions |
| Renderer.SetupMarkerShown | display.py:130-131 | unless `indicator` raises, the marker pixel (10, 10) is black exactly when the mode is at least 1 |
| Renderer.MarkerAbsentInNormalMode | display.py:130-131 | in mode 0 the marker pixel stays white |
| Renderer.MarkerInFirstSetupMode | display.py:130-131 | in mode 1 the marker pixel is black |
| Renderer.MarkerInOtherModes | display.py:130-137 | outside modes 0 and 1 the marker pixel is black exactly when the mode is at least 1 |
| Renderer.SetupBarsShown | display.py:132-137 | at column 94 the full-up bar pixel (row 195) is black exactly in mode 2, the neutral bar pixel (row 100) exactly in mode 3, the full-down bar pixel (row 5) exactly in mode 4 |
| Renderer.BarBlack | display.py:132-137 | the bar of teaching mode 2, 3 or 4 is painted last, so every pixel it covers is black |
| Renderer.ColumnLeftWhite | display.py:99-137 | a pixel of column 94 that no setup rectangle covers stays white in every mode |
| Renderer.NeedledColumnWhite | display.py:99-129 | in modes 0 and 1 frame, needle, sign and digits leave column 94 white |
| Renderer.Pack | display.py:70 | the byte buffer of a frame is width x height / 8 = 5000 bytes |
| Renderer.PackRoundTrip | display.py:70-71 | unpacking the bytes gives back every pixel |
| Renderer.PackByteBits | display.py:71 | bit j of a packed byte, most significant first, is pixel j |
| Renderer.WhiteByte | display.py:71 | eight white pixels are the byte 0xFF |
| Renderer.PackBlank | display.py:72 | a white frame is 5000 bytes of 0xFF, the value the panel is cleared with |
| Renderer.PrintSendsFrame | display.py:74-75 | `print` sends 0x24, 0x22 and 0x20 as commands and the packed frame then 0xFF as data; the panel RAM gets exactly the picture |
| Renderer.Display.constructor | display.py:58-72 | full init, clear to 0xFF, partial init, clear to 0xFF, then a white frame |
| Renderer.Display.Fill | display.py:72 | every pixel takes the colour |
| Renderer.Display.FillRect | display.py:84 | the frame becomes `Paint` of the old one |
| Renderer.Display.Print | display.py:74-75 | appends `display_part` of the packed frame and does not wait |
| Renderer.Display.Busy | display.py:78-79 | the next reading of the busy line |
| Renderer.Display.SevenSeg | display.py:81-96 | raises exactly for an index outside `nums`, drawing nothing; otherwise paints the segments of the entry in the table's order |
| Renderer.Display.FillSegment | display.py:83-96 | one entry of the segment list paints its rectangle, and a number outside 1..7 paints nothing |
| Renderer.Display.Indicator | display.py:99-137 | the frame becomes exactly `Render(percentage, setupmode)` whatever it was before, and it raises exactly as `IndicatorPlan` predicts |
| Renderer.Display.DrawFrame | display.py:107-109 | paints the frame, its white inside and the neutral mark |
| Renderer.Display.DrawNeedle | display.py:112-120 | paints the needle and the sign, and returns the magnitude of the percentage |
| Renderer.Display.DrawDigits | display.py:121-128 | raises exactly for a magnitude of 1000 or more, drawing nothing; otherwise paints `DigitsPlan` |
| Renderer.Display.DrawSetup | display.py:130-137 | paints the marker, and the bar of the endpoint being taught |
| Renderer.RenderNeedleModes | display.py:111-131 | below 1000 in magnitude, the picture is frame, needle and sign, digits, then marker |
| Renderer.RenderRaised | display.py:122-124 | at 1000 or more in magnitude `indicator` raises, and the picture is frame, needle and sign |
| Renderer.RenderOtherModes | display.py:130-137 | outside modes 0 and 1 the picture is frame, then the setup marks |
| Renderer.DigitsPainted | display.py:122-128 | the three `seven_seg` calls together paint `DigitsPlan` |
| Renderer.SevenSegStep | display.py:82-96 | one more pass of the `seven_seg` loop paints one more entry's rectangle |

## Left out

- PositionMapper.RoundQuotient: rounds the exact quotient `100 diff / den`. The source rounds the floating-point product `diff / den * 100`. MicroPython on the RP2040 computes in 32-bit floats, so an exact tie can land just below or above half. For diff = 59 and den = 200 the exact value is 29.5, but the 32-bit quotient 0.29499999 times 100 gives 29.499998, which the source rounds to 29. The model rounds the tie to the even neighbour, 30.
- Renderer.NeedleRow: uses the exact `floor(22 p / 25)`. The source computes `floor(0.88 * p)` in floating point. The model does not capture floating-point rounding.
- Calibration.UserInterfaceTick: uses plain subtraction of the tick counts. `time.ticks_diff` wraps around modulo 2^30, and that is not modelled.
- `sensor_reader` is not modelled: ADC reads and the floating-point voltage arithmetic. The sensor values are inputs (`StoreSample`), and `main_power` is a `real` that is only passed on.
- The uasyncio scheduling is not modelled: the tasks, `sleep_ms`, and the `while d.busy()` wait at the end of each `display_driver` pass. The scheduler is a caller of the step methods.
- The onboard LED, the button debounce library and the `print` logging are not modelled. None of them affects the state.
- `config.py` is not part of this model. Its file and JSON I/O are replaced by a map given at start-up and a sequence of saved settings.
- A failed `config.save` is not modelled.
- The SPI configuration, chip-select toggling, pin initialisation and the reset timing (`sleep_ms`) are not modelled. The trace records only the bytes with their data/command level, the reset pulse and the completed waits.
- A busy line that never clears is not modelled. The oracle is a finite sequence of readings, so every wait ends.
- The `framebuf` library is represented by its pixels, and its byte buffer by
  `Pack` of them, in the MONO_HLSB layout. The library's own code is not
  modelled; `Display.Print` sends `Pack(fb)`.
- Renderer.Display.Indicator: the call site in `main.py` passes four arguments and constructs `Display(RUDDER_TRIM)`. Both would raise a TypeError against the signatures of `display.py`. Each file is modelled with its own signature: `IndicatorCall` records the arguments main.py passes, and `Indicator` takes display.py's two parameters.
- Epaper.EPD.Busy: the attribute `busy`, the pin, shadows the method `busy`. So `Display.busy` calls the pin and gets its raw value, not a comparison. Both are modelled as a reading of the busy oracle.
- A percentage of magnitude 1000 or more makes `seven_seg` raise
  IndexError. The model records that as `raised`, together with the pixels
  drawn before it. The readings `main.py` produces stay within [-100, 100],
  so `main.py` never reaches this path.
- Statuses outside 0..7 are not modelled. They cannot arise, and `Valid` excludes them.
