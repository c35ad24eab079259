# Smart Weight Scale: a verified model of the sensing and reporting core

This project models the parts of the Smart Weight Scale that turn load-cell readings into
figures. On the Pico side these are two ADC drivers, the NAU7802 load-cell manager, the BLE
peripheral that batches samples into notifications, and the two ADC performance scripts'
collection, statistics and histogram code. On the host side it is the tracking loop that
smooths readings and runs timed sessions. Each source file is one Dafny module:

| module | file | models |
|---|---|---|
| `Bytes`, `Opt` | bytes.dfy, option.dfy | little-endian `struct` packing of 32-bit words; `Option` |
| `StrengthPeripheral` | strength_peripheral.dfy | `PICO/strength_peripheral.py`: frames, command handling, connection state |
| `Nau7802Driver` | nau7802_driver.dfy | `PICO/nau7802driver.py`: register bit fields, set-up, 24-bit read, calibration |
| `Hx711Driver` | hx711.dfy | `PICO/hx711_pio.py`: gain codes, error counting and reset, averaging, low-pass, tare |
| `WeightSensorNau7802` | weight_sensor.dfy | `PICO/weight_sensor_nau7802.py`: tare, calibration, raw-to-kg conversion, simulation |
| `TrackerApp` | app_tracker.dfy | `app.py`: rolling median, session tracking, emitted response |
| `AdcStatistics` | adc_statistics.dfy | `calculate_statistics` and `display_ascii_histogram` (the same code in both ADC scripts) |
| `SequentialAdcTest` | sequential_adc_test.dfy | `PICO/sequential_adc_test.py`: direct register read, collection loop |
| `UpdatedTestScript` | updated_test_script.dfy | `PICO/updated-test-script.py`: driver-based read, outlier filter, collection loop |

Objects whose methods update their fields are Dafny classes:
- the peripheral;
- the NAU7802 driver, whose state is the chip's register file as a `seq<bv8>`;
- the HX711 driver;
- the weight sensor;
- the tracker, whose state is the module globals of `app.py`.

Loops in the source are `while`/`for` loops in methods, with invariants.

Hardware answers are inputs to the model:
- the HX711's conversions and reset outcomes;
- the NAU7802's `available()`/`read()` answers;
- the CTRL2 values seen while calibration runs.

Each of these is a sequence or a function from an attempt number. The model counts how many
of them each operation uses up.

Clocks are inputs as well:
- MicroPython ticks, which wrap at 2^30;
- `time.time()`, one value per loop iteration.

The ADC scripts' time limit is modelled as the finite sequence of read results obtained
before it expires.

Float32 weights travel through the BLE frames as their IEEE-754 bit pattern (a `uint32`), so
packing is exact. Host-side weights are `real`.

## Model

| member | source | states |
|---|---|---|
| Bytes.U32LE | PICO/strength_peripheral.py:209 | four bytes whose little-endian decoding is the unsigned 32-bit value |
| Bytes.I32RoundTrip | PICO/strength_peripheral.py:187 | decoding the little-endian two's-complement bytes of a signed 32-bit value gives it back |
| Bytes.U32LEOfFromLE | PICO/strength_peripheral.py:142 | any four bytes are the encoding of the word they decode to |
| Bytes.SignedOf32 | PICO/strength_peripheral.py:187 | the signed reading of a word is the value whose two's complement is that word |
| StrengthPeripheral.TicksDiff | PICO/strength_peripheral.py:172 | the tick difference lies in [-2^29, 2^29), and adding it to the start tick modulo 2^30 gives the end tick |
| StrengthPeripheral.TicksDiffElapsed | PICO/strength_peripheral.py:172 | any elapsed time under half a period is recovered exactly from the wrapped tick counter |
| StrengthPeripheral.PayloadAt | PICO/strength_peripheral.py:185-187 | sample i occupies exactly bytes 8i to 8i+8 of the batch payload |
| StrengthPeripheral.WeightFrameLayout | PICO/strength_peripheral.py:183-187 | a weight frame is 2 + 8n bytes: code 0x01, the sample count modulo 256, then per sample the weight bits and the signed time delta, little-endian |
| StrengthPeripheral.SampleRoundTrip | PICO/strength_peripheral.py:187 | unpacking the 8 bytes of one sample gives the sample back |
| StrengthPeripheral.PayloadRoundTrip | PICO/strength_peripheral.py:185-187 | parsing a payload of n samples gives back those n samples in order |
| StrengthPeripheral.WeightFrameRoundTrip | PICO/strength_peripheral.py:183-187 | parsing a weight frame of fewer than 256 samples gives back exactly the buffered samples |
| StrengthPeripheral.OverfullFrameRejected | PICO/strength_peripheral.py:183 | a frame of 256 or more samples carries a wrapped count, and the reader rejects it |
| StrengthPeripheral.BatteryFrameLayout | PICO/strength_peripheral.py:209 | a battery frame is 5 bytes: code 0x00, then the millivolts as a little-endian word |
| StrengthPeripheral.CalibrationWeight | PICO/strength_peripheral.py:138-147 | a calibrate command yields a weight exactly when it has at least 6 bytes |
| StrengthPeripheral.CalibrateCommandRoundTrip | PICO/strength_peripheral.py:140-142 | a 6-byte calibrate command carrying weight w yields w |
| StrengthPeripheral.CommandArgument | PICO/strength_peripheral.py:151 | the argument is present exactly when the command is longer than its opcode, and opcode plus argument is the command |
| StrengthPeripheral.BuildWeightFrame | PICO/strength_peripheral.py:183-187 | the packing loop builds exactly the weight frame of the buffer |
| StrengthPeripheral.Peripheral.constructor | PICO/strength_peripheral.py:25-70 | no connections, not measuring, empty buffer, no callbacks, nothing sent, advertising started once |
| StrengthPeripheral.Peripheral.IsConnected | PICO/strength_peripheral.py:220-222 | connected exactly when the connection set is non-empty |
| StrengthPeripheral.Peripheral.OnTare | PICO/strength_peripheral.py:228-230 | registers the tare callback and changes nothing else |
| StrengthPeripheral.Peripheral.OnCommand | PICO/strength_peripheral.py:232-234 | registers the command callback and changes nothing else |
| StrengthPeripheral.Peripheral.OnCalibrate | PICO/strength_peripheral.py:240-241 | registers the calibrate callback and changes nothing else |
| StrengthPeripheral.RaisingCallbackSkipsCommand | PICO/strength_peripheral.py:124-153 | a tare callback that raises leaves the command callback uncalled; one that returns is followed by it |
| StrengthPeripheral.Peripheral.HandleCommand | PICO/strength_peripheral.py:113-154 | empty writes are ignored; start sets measuring and the start tick; stop clears measuring; tare and well-formed calibrate call their callbacks; the command callback then gets the opcode and the argument, unless the tare or calibrate callback raised |
| StrengthPeripheral.Peripheral.IrqHandler | PICO/strength_peripheral.py:92-111 | connect adds the handle; disconnecting a known handle removes it, stops measuring and re-advertises; a write to the control handle has exactly the command's effect on measuring, the start tick and the callbacks, a raising callback included; other events and writes change nothing |
| StrengthPeripheral.Peripheral.SendWeightMeasurement | PICO/strength_peripheral.py:165-200 | refused unless connected and measuring; otherwise buffers the sample with its tick delta and, once 4 samples or 25 ms are reached, notifies every connection with the frame (count byte modulo 256) and empties the buffer; a failed notify keeps the buffer and reports failure |
| StrengthPeripheral.Peripheral.SendBatteryLevel | PICO/strength_peripheral.py:202-218 | succeeds exactly when connected and notify succeeds, and then sends every connection the battery frame of the millivolts modulo 2^32 |
| Nau7802Driver.BitRoundTrip | PICO/nau7802driver.py:73-86 | reading a bit after writing it gives the written value |
| Nau7802Driver.BitFrame | PICO/nau7802driver.py:78-86 | writing a bit leaves every other bit of the register unchanged |
| Nau7802Driver.FieldRoundTrip | PICO/nau7802driver.py:88-101 | reading an n-bit field after writing x gives x's low n bits (two's complement for negative x) |
| Nau7802Driver.FieldFrame | PICO/nau7802driver.py:94-101 | writing a field leaves every bit outside its mask unchanged |
| Nau7802Driver.FieldBitFrame | PICO/nau7802driver.py:94-101 | the same, bit by bit |
| Nau7802Driver.LdoKeepsGain | PICO/nau7802driver.py:242 | setting the LDO field (CTRL1 bits 3-5) keeps the gain field (bits 0-2) |
| Nau7802Driver.GainKeepsLdo | PICO/nau7802driver.py:266 | setting the gain field keeps the LDO field |
| Nau7802Driver.RateKeepsCalibration | PICO/nau7802driver.py:285 | setting the rate field (CTRL2 bits 4-6) keeps the calibration bits 0-3 |
| Nau7802Driver.ThreeBitValue | PICO/nau7802driver.py:94-101 | a three-bit field stores any value 0 to 7 exactly |
| Nau7802Driver.ThreeBitRange | PICO/nau7802driver.py:88-92 | a three-bit field always reads as 0 to 7 |
| Nau7802Driver.Raw24 | PICO/nau7802driver.py:212 | the three bytes form a value in [0, 2^24) |
| Nau7802Driver.Decode24 | PICO/nau7802driver.py:212-222 | the result lies in [-2^23, 2^23), is congruent to the raw word modulo 2^24, and is negative exactly when the top byte has bit 7 set |
| Nau7802Driver.Decode24RoundTrip | PICO/nau7802driver.py:209-222 | decoding the register bytes of any signed 24-bit value gives the value back |
| Nau7802Driver.WaitExit | PICO/nau7802driver.py:313-314 | the wait loop stops at the first CTRL2 read whose bit 2 differs from the bit it waits on, with all earlier reads equal to it; it never stops when all reads are equal |
| Nau7802Driver.WaitExitFirst | PICO/nau7802driver.py:313-314 | the first read with a different bit 2 is where the loop stops |
| Nau7802Driver.WaitExitNone | PICO/nau7802driver.py:313-314 | reads that all equal the waited-on bit never end the loop |
| Nau7802Driver.CalibrateIgnoresOutcome | PICO/nau7802driver.py:313-317 | as written: a calibration still running on the first two reads is reported as a success, failed or not |
| Nau7802Driver.CalibrateMissesCompletion | PICO/nau7802driver.py:313-314 | as written: a calibration already finished at the first read is waited on forever |
| Nau7802Driver.CalibrateCorrectedReportsOutcome | PICO/nau7802driver.py:313-317 | waiting while bit 2 is set reports exactly the calibration's outcome |
| Nau7802Driver.Nau7802.constructor | PICO/nau7802driver.py:55-63 | keeps the address and the chip's register file |
| Nau7802Driver.Nau7802.ReadBit | PICO/nau7802driver.py:73-76 | true exactly when the register has the bit at that position set |
| Nau7802Driver.Nau7802.WriteBit | PICO/nau7802driver.py:78-86 | changes one bit of one register, the bit then reads as written, and the write reports success |
| Nau7802Driver.Nau7802.ReadBits | PICO/nau7802driver.py:88-92 | the field is below 2^n, and shifted back into place it is the register with every bit outside the mask cleared |
| Nau7802Driver.Nau7802.WriteBits | PICO/nau7802driver.py:94-101 | changes one field of one register, which then reads as the value's low bits; the bits outside the mask are kept |
| Nau7802Driver.Nau7802.Available | PICO/nau7802driver.py:194-200 | true exactly when PU_CTRL has the cycle-ready bit (0x20) set |
| Nau7802Driver.Nau7802.Read | PICO/nau7802driver.py:202-222 | the conversion is a signed 24-bit value |
| Nau7802Driver.Nau7802.SetGain | PICO/nau7802driver.py:257-266 | writes the CTRL1 gain field; a gain 0-7 then reads back; the LDO field is kept |
| Nau7802Driver.Nau7802.GetGain | PICO/nau7802driver.py:268-274 | the gain reads as 0 to 7 |
| Nau7802Driver.Nau7802.SetRate | PICO/nau7802driver.py:276-285 | writes the CTRL2 rate field; a rate 0-7 then reads back; the calibration bits are kept |
| Nau7802Driver.Nau7802.GetRate | PICO/nau7802driver.py:287-293 | the rate reads as 0 to 7 |
| Nau7802Driver.Nau7802.SetLDO | PICO/nau7802driver.py:224-242 | external: clears PU_CTRL bit 7 only; otherwise sets bit 7 and writes the CTRL1 LDO field; the setting then reads back and the gain is kept |
| Nau7802Driver.Nau7802.GetLDO | PICO/nau7802driver.py:244-255 | external exactly when PU_CTRL bit 7 is clear, else 0 to 7 |
| Nau7802Driver.Nau7802.Reset | PICO/nau7802driver.py:147-163 | pulses RR, sets PUD, and returns the power-up-ready bit |
| Nau7802Driver.Nau7802.Enable | PICO/nau7802driver.py:165-192 | power-down clears PUA and PUD and succeeds; power-up sets PUD, PUA and CS and returns the ready bit |
| Nau7802Driver.Nau7802.Begin | PICO/nau7802driver.py:103-145 | succeeds exactly when the chip is ready and the revision's low nibble is 0xF; the register file after each stopping point; on success LDO 3.3 V, gain 128 and 10 SPS read back |
| Nau7802Driver.Nau7802.PollCalibration | PICO/nau7802driver.py:312-317 | the result is the wait loop's outcome over the CTRL2 reads; only CTRL2 changes: to the read after the loop's exit when there is an outcome, else to the last read |
| Nau7802Driver.Nau7802.Calibrate | PICO/nau7802driver.py:295-317 | as written: sets the mode and start bits, then returns the outcome of waiting while bit 2 is clear, leaving CTRL2 as the deciding read, or the last one |
| Nau7802Driver.Nau7802.CalibrateCorrected | PICO/nau7802driver.py:295-317 | the same with the wait re-aimed at bit 2 being set |
| Hx711Driver.GainPulses | PICO/hx711_pio.py:73-79 | gain 128, 32 and 64 give 25, 26 and 27 clock pulses; any other gain keeps the current setting |
| Hx711Driver.SignConvertIsTwosComplement | PICO/hx711_pio.py:169-171 | converts a 24-bit word to its two's-complement value |
| Hx711Driver.ReadSuccess | PICO/hx711_pio.py:159-176 | a successful read clears the error count, comes from a valid word, and returns its sign-converted data bits |
| Hx711Driver.ReadRejectsInvalidWord | PICO/hx711_pio.py:165-167 | the all-ones word is refused and costs two error counts |
| Hx711Driver.ReadFailureCountsTwice | PICO/hx711_pio.py:139-182 | every failed attempt under the threshold adds two to the error count and uses one conversion |
| Hx711Driver.ReadAtThreshold | PICO/hx711_pio.py:124-128 | at 10 errors a reset is tried first: failure refuses the read, success clears the count and reads |
| Hx711Driver.AverageLoopBounds | PICO/hx711_pio.py:188-199 | at most 2·times attempts and at most `times` successes; stopping early means `times` successes |
| Hx711Driver.AverageBounds | PICO/hx711_pio.py:184-204 | no average for `times` ≤ 0; otherwise an average exactly when some read succeeded |
| Hx711Driver.Correction | PICO/hx711_pio.py:210 | the low-pass step has the sign of the deviation, is no larger, and is non-zero when the deviation is |
| Hx711Driver.Lowpass | PICO/hx711_pio.py:206-214 | the filtered value moves toward the reading without overshooting, and stays put only when they already agree |
| Hx711Driver.Units | PICO/hx711_pio.py:226-232 | the value divided by the scale, and 0 when the scale is 0 |
| Hx711Driver.Hx711.constructor | PICO/hx711_pio.py:9-46 | offset 0, scale 1, time constant 0.25, the gain code `set_gain` selects; the filter state and link after `set_gain`'s two reads from a clean link, then one more read that sets only the success flag |
| Hx711Driver.Hx711.Read | PICO/hx711_pio.py:121-182 | the error bookkeeping and the result follow the read outcome; the settings are kept |
| Hx711Driver.Hx711.SetGain | PICO/hx711_pio.py:73-87 | sets the gain code, then reads twice and keeps the second reading as the filter state when both succeed; a failed read keeps it and marks the link failed |
| Hx711Driver.Hx711.ReadAverage | PICO/hx711_pio.py:184-204 | the result is the averaging loop's outcome |
| Hx711Driver.Hx711.ReadLowpass | PICO/hx711_pio.py:206-214 | filters a successful reading, keeps the filter on a failed one, and returns the filter state |
| Hx711Driver.Hx711.GetValue | PICO/hx711_pio.py:216-224 | the low-pass value minus the offset |
| Hx711Driver.Hx711.GetUnits | PICO/hx711_pio.py:226-232 | the offset-compensated value in units of the scale |
| Hx711Driver.Hx711.ResetChip | PICO/hx711_pio.py:93-119 | uses one reset attempt and reports its outcome |
| Hx711Driver.Hx711.Tare | PICO/hx711_pio.py:234-251 | the offset becomes the first successful average, retried once after a successful reset; otherwise it is kept and the tare fails |
| Hx711Driver.Hx711.SetScale | PICO/hx711_pio.py:253-254 | sets the scale only |
| Hx711Driver.Hx711.SetOffset | PICO/hx711_pio.py:256-257 | sets the offset only |
| Hx711Driver.Hx711.SetTimeConstant | PICO/hx711_pio.py:259-263 | with no argument returns the constant; a value in (0, 1) replaces it; others are ignored |
| WeightSensorNau7802.WaitLoop | PICO/weight_sensor_nau7802.py:87-90 | polls at most the given number of times and reads no conversion |
| WeightSensorNau7802.AcquireSample | PICO/weight_sensor_nau7802.py:181-190 | a sample is produced exactly when the wait ends without error, the next check reports ready and the read succeeds, and it is the next conversion |
| WeightSensorNau7802.GatherBounds | PICO/weight_sensor_nau7802.py:82-96 | the gathering loop counts at most one reading per pass, and the total stays within the 24-bit range times the count |
| WeightSensorNau7802.MeanInRange | PICO/weight_sensor_nau7802.py:103 | the mean of 24-bit readings is in [-2^23, 2^23) |
| WeightSensorNau7802.GatheredMeanInRange | PICO/weight_sensor_nau7802.py:82-103 | a gathered mean uses at most the requested number of readings and lies in the 24-bit range |
| WeightSensorNau7802.WeightOf | PICO/weight_sensor_nau7802.py:190-194 | the weight is non-negative and, unless clamped to 0, times the scale gives the raw reading minus the offset |
| WeightSensorNau7802.CalibratedScale | PICO/weight_sensor_nau7802.py:143-161 | a scale exactly when the weight exceeds 0.001 kg and the scale's magnitude exceeds 0.1; it maps the weight to the offset-compensated mean |
| WeightSensorNau7802.CalibrationRoundTrip | PICO/weight_sensor_nau7802.py:143-194 | weighing the calibration mean with the new scale gives back the known weight |
| WeightSensorNau7802.SimulatedWeight | PICO/weight_sensor_nau7802.py:171-173 | the simulated weight lies in [10, 20) |
| WeightSensorNau7802.WeightSensor.constructor | PICO/weight_sensor_nau7802.py:9-67 | simulation unless the chip was set up; a missing or zero scale factor selects the default; offset 0 |
| WeightSensorNau7802.WeightSensor.WaitForData | PICO/weight_sensor_nau7802.py:87-90 | the cursor after the wait loop |
| WeightSensorNau7802.WeightSensor.AcquireReading | PICO/weight_sensor_nau7802.py:207-213 | the cursor and the result of waiting for one conversion and reading it |
| WeightSensorNau7802.WeightSensor.GatherReadings | PICO/weight_sensor_nau7802.py:85-96 | the total and count over the passes of the gathering loop |
| WeightSensorNau7802.WeightSensor.Tare | PICO/weight_sensor_nau7802.py:69-109 | simulation succeeds without change; without a driver fails; otherwise the offset becomes the mean of the valid readings, and the tare fails when there are none |
| WeightSensorNau7802.WeightSensor.Calibrate | PICO/weight_sensor_nau7802.py:111-165 | refused in simulation or without a driver; otherwise the scale becomes the calibrated scale of the 10-reading mean when there is one; too small a weight never changes it |
| WeightSensorNau7802.WeightSensor.GetWeight | PICO/weight_sensor_nau7802.py:167-198 | the simulated weight, 0 without a driver or data, else the clamped calibrated weight; never negative |
| WeightSensorNau7802.WeightSensor.GetRawReading | PICO/weight_sensor_nau7802.py:200-217 | 0 without chip or data, else the conversion; always a 24-bit value |
| WeightSensorNau7802.WeightSensor.ResetReadings | PICO/weight_sensor_nau7802.py:219-238 | succeeds at once in simulation and fails without a driver; otherwise reads one conversion per "ready" check, stops at the first check that is not "ready" or at a read that raises, and succeeds exactly when that check answers "not ready" |
| TrackerApp.DequePush | app.py:18 | appending to a bounded deque grows it up to the bound, puts the new entry last and drops the oldest entries |
| TrackerApp.LastN | app.py:18 | the last n entries of a sequence |
| TrackerApp.DequePushKeepsLast | app.py:71 | the 100-entry deque always holds the last 100 weights of the session |
| TrackerApp.Sort | app.py:37 | the result is sorted and is a permutation of the window |
| TrackerApp.InsertPermutes | app.py:37 | inserting into the sorted window adds exactly that value |
| TrackerApp.MedianBounds | app.py:37 | the median lies between two window values, and an odd window's median is one of them |
| TrackerApp.RollingMedianOfThree | app.py:33-38 | with fewer than 3 readings the filter returns the last one; otherwise a value of the last 3, between their extremes |
| TrackerApp.PeakOf | app.py:68-74 | the peak is non-negative, bounds every smoothed value of the session, and is 0 or one of them |
| TrackerApp.SumBounds | app.py:90 | the sum of weights in [lo, hi] lies between lo·n and hi·n |
| TrackerApp.Average | app.py:90 | 0 for no weights, otherwise between the lightest and the heaviest weight held |
| TrackerApp.Extremes | app.py:90 | the positions of a lightest and a heaviest weight |
| TrackerApp.AverageBounds | app.py:90 | the average of weights in [lo, hi] lies in [lo, hi] |
| TrackerApp.ResponseOf | app.py:90-99 | grams become kilograms; the average lies between the lightest and heaviest held weight, or is 0 with none; the elapsed time is 0 outside a session, otherwise measured from the start and non-negative from a past start; clear-chart exactly when one weight is held |
| TrackerApp.Accepted | app.py:51-55 | a failed or negative reading is replaced by the current weight |
| TrackerApp.Tracker.constructor | app.py:18-26 | empty deques, no session, minimum weight 500, current weight 1 |
| TrackerApp.Tracker.SetMinWeight | app.py:138-143 | sets the threshold only |
| TrackerApp.Tracker.SetTrackingDuration | app.py:145-150 | sets the duration only |
| TrackerApp.Tracker.StartSession | app.py:64-69 | clears the session: no weights, peak 0, tracking from now, no cool-down |
| TrackerApp.Tracker.RecordWeight | app.py:71-74 | appends the weight to the deque and extends the session history; the peak stays the session maximum |
| TrackerApp.Tracker.CheckDuration | app.py:76-80 | past a non-zero duration the session stops and the cool-down starts at its first stop |
| TrackerApp.Tracker.TrackSession | app.py:63-84 | below the threshold or in cool-down: no session and the session history kept; else a session starts (cleared) or continues, takes the weight, and the duration limit applies |
| TrackerApp.Tracker.EmitIfDue | app.py:86-100 | at least 25 ms after the last emission, emits the response of the current figures and records the time; otherwise nothing |
| TrackerApp.Tracker.AcceptReading | app.py:51-59 | stores the accepted weight as current and in the raw deque, and returns its rolling median |
| TrackerApp.Tracker.Step | app.py:50-103 | one iteration: a raised reading changes nothing; an outlier only updates the current and raw weights; otherwise the session rules run on the accepted weight and its rolling median, then the emission check |
| AdcStatistics.MinOf | PICO/sequential_adc_test.py:241 | the least sample, one of them |
| AdcStatistics.MaxOf | PICO/sequential_adc_test.py:242 | the greatest sample (or bin count, line 312), one of them |
| AdcStatistics.SquaredDeviations | PICO/sequential_adc_test.py:246 | the sum of squared deviations is non-negative |
| AdcStatistics.Statistics | PICO/sequential_adc_test.py:231-234 | no statistics exactly for no samples |
| AdcStatistics.SumBounds | PICO/sequential_adc_test.py:240 | the sum of samples in [lo, hi] lies between lo·n and hi·n |
| AdcStatistics.StatisticsBounds | PICO/sequential_adc_test.py:236-247 | the count, min ≤ mean ≤ max, min and max are samples and bound all, the range is max − min, the variance is non-negative |
| AdcStatistics.BinIndex | PICO/sequential_adc_test.py:308 | the bin index is below the bin count |
| AdcStatistics.BinIndexRange | PICO/sequential_adc_test.py:303-308 | a sample lands in the bin whose printed range contains it; the last bin also takes the maximum |
| AdcStatistics.BinIndexEnds | PICO/sequential_adc_test.py:308 | the minimum goes to the first bin and the maximum to the last |
| AdcStatistics.Tally | PICO/sequential_adc_test.py:305-309 | one count per bin |
| AdcStatistics.TallyTotal | PICO/sequential_adc_test.py:305-309 | the bin counts add up to the number of samples |
| AdcStatistics.TallyHits | PICO/sequential_adc_test.py:305-309 | every sample's bin has a positive count |
| AdcStatistics.BinCounts | PICO/sequential_adc_test.py:291-309 | no histogram for no samples or equal extremes; otherwise the counting loop yields the tally over [min, max] |
| AdcStatistics.HistogramShape | PICO/sequential_adc_test.py:297-309 | the histogram has `bins` counts summing to the sample count, with the first and last bins non-empty |
| AdcStatistics.BarWidth | PICO/sequential_adc_test.py:321 | a bar is at most 50 wide, exactly 50 for the largest count, and 0 for an empty bin |
| AdcStatistics.BarWidths | PICO/sequential_adc_test.py:318-323 | one bar per bin within 50 columns; the fullest bar is 50, empty bins get no bar |
| SequentialAdcTest.SignExtend24 | PICO/sequential_adc_test.py:225-227 | the result lies in [-2^23, 2^23), is congruent to the value modulo 2^24 and is negative exactly above 0x7FFFFF |
| SequentialAdcTest.ReadNau7802 | PICO/sequential_adc_test.py:212-229 | no value exactly when the cycle-ready bit is clear |
| SequentialAdcTest.ReadAgreesWithDriver | PICO/sequential_adc_test.py:212-229 | the direct register read equals the driver's `available`/`read`, and any value is a signed 24-bit value |
| SequentialAdcTest.ValuesAreTheConversions | PICO/sequential_adc_test.py:405-420 | the collected stream holds exactly the conversions the polls returned |
| SequentialAdcTest.AwaitReading | PICO/sequential_adc_test.py:404-411 | the busy wait returns the next conversion, or none when the polls run out |
| SequentialAdcTest.CollectSamples | PICO/sequential_adc_test.py:398-426 | the sample count equals the number stored, at most 1000: the first 1000 conversions |
| UpdatedTestScript.ReadNau7802 | PICO/updated-test-script.py:76-80 | a value exactly when the driver reports one available, and then a plausible one |
| UpdatedTestScript.Plausibles | PICO/updated-test-script.py:271-279 | the filter keeps only values in the signed 24-bit range |
| UpdatedTestScript.PlausiblesMembers | PICO/updated-test-script.py:271-279 | a value is kept exactly when it occurs and is plausible |
| UpdatedTestScript.DriverReadingsPass | PICO/updated-test-script.py:271-272 | the filter drops none of the driver's conversions |
| UpdatedTestScript.CollectSamples | PICO/updated-test-script.py:253-285 | the count equals the number stored, at most 3000, all plausible: the first 3000 plausible conversions |

## Left out

- The BLE stack is reduced to events and a log: service registration, advertising payloads, UUIDs and the blink and logger calls are not modelled (`_init_ble`, `_advertise`).
- `on_weight`: it only stores a callback that the peripheral never calls.
- The HX711 PIO program, the GPIO waits, interrupt set-up and `__wait_loop` timing are not modelled. A conversion attempt is one oracle answer, and a timed-out wait is `NoResponse`.
- `reset_hx711`'s pin toggling is modelled only as its outcome.
- `power_down` and `power_up` toggle a pin and return nothing. They are not modelled.
- I2C transfers, `time.sleep_ms` and the debug `print` in the NAU7802 `read` are not modelled.
- Float rounding is not modelled: float32 weights are carried as their bit pattern, and host weights, means and variances are exact reals.
- `round(…, 1)` and `round(…, 2)` in the emitted response are not modelled. The response carries the unrounded figures.
- The standard deviation, noise ratio, ENOB and SNR in `calculate_statistics` need `sqrt` and `log`. They are not modelled; count, mean, min, max, range and variance are.
- Sample times, timestamps, intervals and frequency are not modelled, nor is the progress printing.
- The histogram's bin width is a float in the source. The model bins in exact rational arithmetic.
- `display_detailed_results`, `run_test`, `init_hx711`, `init_nau7802` and the HX711 test loops of both scripts are output and set-up code. They are not modelled.
- The scripts' time limit is modelled only as the finite sequence of read results obtained before it.
- Flask routes and socket handlers other than `set_min_weight`, `set_tracking_duration` and the response they share are not modelled. Neither are threads, `print_memory_usage` or `scale.tare`.
- StrengthPeripheral.Peripheral.SendWeightMeasurement: a failed notify is all or nothing. In the source, connections notified before the failing `gatts_notify` have the frame, and the kept buffer goes to them again with the next batch. The iteration order of the connection set is not modelled.
- StrengthPeripheral.Peripheral.SendBatteryLevel: the same all-or-nothing notify.
- TrackerApp.Tracker.Step: the `np.std` outlier test is a boolean input. The clock is one value per iteration, although `app.py` reads it several times.
- WeightSensorNau7802.WeightSensor.ResetReadings: with a driver outside simulation, it requires that a poll which is not "ready" eventually comes. Without one, the source loops forever.
- WeightSensorNau7802.WeightSensor.constructor: the set-up steps (I2C scan, `begin`, `setGain`, `setRate`, `calibrate`, test read) are one input telling whether all of them succeeded.
- Nau7802Driver.Nau7802.WriteBits: requires the field to fit in eight bits, as in every call the driver makes.

## Findings

| source | as written | input that shows it | evidently intended | confidence | as-written member | corrected member |
|---|---|---|---|---|---|---|
| PICO/nau7802driver.py:313 | `calibrate` keeps polling while CTRL2 bit 2 (CALS) reads 0, and leaves at the first read where it is 1 | CTRL2 reads 0x04 (calibrating) on the first two reads and 0x08 (done, CAL_ERR set) afterwards: the failed calibration is reported as a success. A calibration already finished at the first read is waited on forever | poll while CALS reads 1, then return the negated CAL_ERR bit; `PICO/sequential_adc_test.py:149-150` and `:184-186` wait for the same bit to clear | high, not executed | Nau7802Driver.Nau7802.Calibrate, Nau7802Driver.CalibrateIgnoresOutcome, Nau7802Driver.CalibrateMissesCompletion | Nau7802Driver.Nau7802.CalibrateCorrected, Nau7802Driver.CalibrateCorrectedReportsOutcome |
