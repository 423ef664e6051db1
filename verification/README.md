# Ground station: a Dafny model

RocketryVT's Ground-Station has three parts:

- A Raspberry Pi Pico 2W running FreeRTOS. Its tasks do the following:
  - A GPS task reads the station's own position. It echoes raw NMEA sentences to the log and publishes a rate-limited `rocket/gps` message.
  - A LoRa task receives SIGMA telemetry frames from the rocket.
  - A servo task points a two-servo antenna gimbal from the station to the rocket.
  - A USB task is the only printer of the shared log queue.
- A MicroPython version of the tracker with these parts:
  - an NMEA reader;
  - the pointing arithmetic;
  - a hobby-servo driver;
  - an SX127x LoRa driver.
- Two desktop windows, one in Qt/C++ and one in PyQt. Each reads telemetry from a serial line and keeps mission statistics. The Qt window runs a demo flight simulation on a timer while no device is connected. The PyQt window reads length-prefixed protobuf frames, and its simulation step runs inside the handler of each received packet, so it advances only while a device is connected. Its key/value text parser has no caller in gui/app.py.

The project models these parts one Dafny module per source file:

| module | models |
|---|---|
| `Shared` | shared.hpp: the message records, the two bounded FIFO queues (`BoundedQueue`), the depth-1 overwrite/peek location slots (`Slot`), and FreeRTOS' wrapping 32-bit tick arithmetic |
| `GpsTask`, `ServoTask`, `LoraTask`, `UsbTask` | one loop iteration of each firmware task, as a method over that task's persistent state and the shared objects |
| `NmeaReader` | pico/gps.py: the `GPS`/`GPSFix` objects, line assembly with the 120-character guard, and RMC/GGA parsing |
| `Tracking`, `PicoServo`, `Numeric` | pico/tracking.py and pico/servo.py: bearing reduction, gimbal normalisation loops and clamps, pulse and duty computation |
| `Sx127x` | pico/sx127x.py, against a model of the chip as a register file with a FIFO and a log of SPI frames |
| `Mission` | the statistics and the simulation profile that both windows share |
| `ArcTestQt`, `ArcTestPy` | gui/src/ArcTest.cpp and gui/app.py: the telemetry parsers, the framing, the packet handler and the window state |
| `Text`, `Bytes`, `Wrappers`, `Folds` | Python and Qt string operations (split, strip, slicing, upper-case, truncation), bytes, `Option`, and the left fold both telemetry parsers run with its last-update-wins lemma |

Code outside these files enters as function-typed constants or parameters of the model. This covers:

- the firmware's NMEA parser, the SIGMA decoder and the bearing maths;
- protobuf decoding;
- `int()`, `float()` and `QString::toDouble`;
- printf formatting of floats;
- trigonometry.

Doubles are modelled as reals.

## Model

| member | source | states |
|---|---|---|
| Shared.TicksSince | pico/src/Tasks/GPS/gps_task.cpp:72 | `now - since` in unsigned 32-bit arithmetic: adding it to `since` modulo 2^32 gives `now`, and without a wrap it is the plain difference |
| Shared.TicksSinceAdvance | pico/src/Tasks/USB/usb_task.cpp:51-53 | elapsed time is recovered exactly across a wrap of the tick counter whenever less than a full period passed |
| Shared.PushAllPrefix | pico/src/shared.hpp:13-17 | non-blocking pushes onto a queue of capacity N keep what was queued and append the pushed items in order until the queue is full; later items are dropped and the length never exceeds N |
| Shared.BoundedQueue.constructor | pico/src/shared.hpp:17 | a queue starts empty with its fixed capacity |
| Shared.BoundedQueue.Waiting | pico/src/Tasks/USB/usb_task.cpp:58-59 | the number of waiting messages never exceeds the capacity |
| Shared.BoundedQueue.TrySend | pico/src/Tasks/USB/usb_task.cpp:28 | a push is accepted exactly when there is room; a rejected push leaves the queue unchanged |
| Shared.BoundedQueue.TryReceive | pico/src/Tasks/USB/usb_task.cpp:41-47 | a receive returns the oldest message and removes it, or returns nothing from an empty queue |
| Shared.Slot.constructor | pico/src/shared.hpp:68-82 | a location slot starts empty |
| Shared.Slot.Overwrite | pico/src/shared.hpp:68-72 | an overwrite always succeeds and replaces whatever the slot held |
| Shared.Slot.Peek | pico/src/shared.hpp:68-72 | a peek returns the slot's value and does not change it |
| Shared.AfterWritesIsLast | pico/src/shared.hpp:68-82 | after one or more overwrites a peek returns the most recent write, never an older one |
| GpsTask.EchoByte | pico/src/Tasks/GPS/gps_task.cpp:44-55 | for one byte of the echo buffer: NUL is ignored; LF emits the buffer only when it is non-empty and empties it; CR is never stored; a full buffer (127 characters) is emptied by the next byte other than NUL or LF, and that byte is dropped |
| GpsTask.EchoAllSnoc | pico/src/Tasks/GPS/gps_task.cpp:39-56 | echoing a run of bytes and then one more byte is echoing the longer run |
| GpsTask.RawLogAppend | pico/src/Tasks/GPS/gps_task.cpp:48-49 | the raw-sentence log lines of two runs of lines are those of the first run followed by those of the second |
| GpsTask.EchoAllClean | pico/src/Tasks/GPS/gps_task.cpp:46-55 | from a clean buffer, whatever bytes arrive, the echo buffer stays within 127 characters with no NUL, CR or LF, and every emitted line is non-empty and clean too, so the terminating NUL always fits |
| GpsTask.GpsMessage | pico/src/Tasks/GPS/gps_task.cpp:76-84 | the published message has topic `rocket/gps` and a payload that is a prefix of the JSON text of at most 127 characters (the whole JSON when it fits), inside both field sizes |
| GpsTask.EdgeLines | pico/src/Tasks/GPS/gps_task.cpp:58-89 | "fix acquired" is logged exactly on a no-fix→fix transition, "fix lost" exactly on a fix→no-fix transition, and at most one line per cycle |
| GpsTask.LogAfterLines | pico/src/Tasks/GPS/gps_task.cpp:39-56 | logging the lines of one run of bytes and then those of the next is logging the lines of both runs in order |
| GpsTask.GpsTask.constructor | pico/src/Tasks/GPS/gps_task.cpp:29-35 | the GPS task starts with nothing fed to the parser, an empty echo buffer, no fix and `last_pub` 0 |
| GpsTask.GpsTask.DrainByte | pico/src/Tasks/GPS/gps_task.cpp:40-55 | every byte, NUL included, is fed to the parser; the echo buffer changes as `EchoByte` says; an emitted line is pushed to the log queue |
| GpsTask.GpsTask.Drain | pico/src/Tasks/GPS/gps_task.cpp:39-56 | the drain loop feeds all waiting bytes in order and leaves the echo buffer and the log queue as `EchoAll` says; the fix flag and `last_pub` are untouched |
| GpsTask.GpsTask.Cycle | pico/src/Tasks/GPS/gps_task.cpp:37-89 | after a cycle, `had_fix` equals the parser's fix state. The edge lines are logged. While there is a fix the station slot is overwritten with its latitude, longitude and altitude; without a fix it is untouched. A message is published only with a fix and only when 1000 ticks have passed since the last publish in wrapping arithmetic, and then `last_pub` becomes `now` |
| ServoTask.ClampAngle | pico/src/Tasks/Servo/servo_task.cpp:24-25 | the angle is clamped into [deg_min, deg_max] and left alone inside it |
| ServoTask.AngleToCounts | pico/src/Tasks/Servo/servo_task.cpp:22-28 | for `deg_max > deg_min` the pulse count always lies in [1000, 2000] |
| ServoTask.AngleToCountsEnds | pico/src/Tasks/Servo/servo_task.cpp:22-28 | angles at or below `deg_min` give 1000, angles at or above `deg_max` give 2000, and clamping first changes nothing |
| ServoTask.AngleToCountsMonotone | pico/src/Tasks/Servo/servo_task.cpp:22-28 | the pulse count never decreases as the angle grows |
| ServoTask.ServoAzimuth | pico/src/Tasks/Servo/servo_task.cpp:76 | an azimuth in (180, 360) is reflected to 360 − az, which lies in (0, 180); azimuths up to 180 are kept |
| ServoTask.TrackCounts | pico/src/Tasks/Servo/servo_task.cpp:76-79 | both pulse counts lie in [1000, 2000]; a negative elevation gives 1000 and an elevation of 90 or more gives 2000 |
| ServoTask.ServoTask.constructor | pico/src/Tasks/Servo/servo_task.cpp:43-45 | both servos are parked at 1500 at start-up, with neither position seen |
| ServoTask.ServoTask.Cycle | pico/src/Tasks/Servo/servo_task.cpp:62-88 | a successful peek sets its "have" flag for good and replaces the remembered position. Once both positions are known, the servos get the counts for the remembered pair; until then both hold 1500. The slots are only peeked, never changed |
| LoraTask.StateName | pico/src/Tasks/LoRa/lora_task.cpp:19-33 | "UNKNOWN" is returned exactly for a value outside the nine named states; every name is non-empty |
| LoraTask.StateFromName | pico/src/Tasks/LoRa/lora_task.cpp:22-31 | reading a name back yields only named states |
| LoraTask.StateNameRoundTrip | pico/src/Tasks/LoRa/lora_task.cpp:19-33 | reading back a named state's name gives that state, and "UNKNOWN" reads as nothing |
| LoraTask.StateNameInjective | pico/src/Tasks/LoRa/lora_task.cpp:22-30 | no two named states share a name |
| LoraTask.PacketLog | pico/src/Tasks/LoRa/lora_task.cpp:75-121 | every received packet is logged with exactly one line: a read error for a failed read, a CSV row exactly when the frame decodes, and otherwise a bad-frame line. The error line carries the read's code. The CSV row carries the decoded frame, its state name and the packet's RSSI and SNR. The bad-frame line carries the packet's length, RSSI and SNR |
| LoraTask.RocketFix | pico/src/Tasks/LoRa/lora_task.cpp:73-110 | a position is produced exactly when the read succeeded, the frame decoded, and the GPS-valid flag is set. It carries the frame's lat, lon and GPS altitude, never the barometric altitude |
| LoraTask.LoraTask.constructor | pico/src/Tasks/LoRa/lora_task.cpp:36-49 | the LoRa task starts running, with the receiver not yet armed |
| LoraTask.LoraTask.Start | pico/src/Tasks/LoRa/lora_task.cpp:50-68 | a failed `begin` logs and halts the LoRa task without arming the receiver; otherwise the banner and the CSV header are logged and the receiver is armed once |
| LoraTask.LoraTask.Cycle | pico/src/Tasks/LoRa/lora_task.cpp:70-124 | a halted task, or no packet available, changes nothing. Otherwise the packet's log line is pushed, the rocket slot is overwritten exactly when `RocketFix` gives a position (and is untouched otherwise), and the receiver is re-armed once whatever the outcome |
| UsbTask.LogMessageOf | pico/src/Tasks/USB/usb_task.cpp:21-24 | a log line is the formatted text cut to at most 255 characters, so it fits the 256-byte buffer with its NUL |
| UsbTask.LogMessages | pico/src/Tasks/USB/usb_task.cpp:19-29 | a run of log_print calls produces one message per call, in call order |
| UsbTask.LogMessagesAppend | pico/src/Tasks/USB/usb_task.cpp:19-29 | the messages of two runs of calls are those of the first run followed by those of the second |
| UsbTask.PushAllAppend | pico/src/Tasks/USB/usb_task.cpp:28 | pushing two runs of messages one after the other is pushing their concatenation |
| UsbTask.LogPrint | pico/src/Tasks/USB/usb_task.cpp:19-29 | log_print never blocks: the message is appended when fewer than 64 are queued, and otherwise dropped with the queue unchanged |
| UsbTask.LogPrintAll | pico/src/Tasks/USB/usb_task.cpp:19-29 | consecutive log_print calls enqueue their lines in order, dropping those that find the queue full |
| UsbTask.PrintedLines | pico/src/Tasks/USB/usb_task.cpp:42-46 | each drained message is printed as its own text, in queue order |
| UsbTask.UsbTask.constructor | pico/src/Tasks/USB/usb_task.cpp:36-37 | `last_status` starts at 0 and nothing has been printed |
| UsbTask.UsbTask.DrainQueue | pico/src/Tasks/USB/usb_task.cpp:45-47 | the drain loop returns everything that was queued, oldest first, and leaves the queue empty |
| UsbTask.UsbTask.Cycle | pico/src/Tasks/USB/usb_task.cpp:39-60 | every queued line is printed in enqueue order and the queue ends empty. Then a status line is printed exactly when 10000 ticks have passed since the last one in wrapping arithmetic, and `last_status` becomes `now` |
| NmeaReader.NmeaToDd | pico/gps.py:119-133 | empty text, text with no '.', or degree or minute text that `int()`/`float()` refuse gives None. Otherwise the result is the integer degrees before the two digits in front of '.', plus the minutes divided by 60, negated for 'S' and 'W' |
| NmeaReader.DegreeMinuteSplit | pico/gps.py:125-127 | with three or more characters before the '.', the degree text and the minute text split the field exactly, and the minute text starts with two digits and the '.' |
| NmeaReader.NmeaToDdNeedsDegrees | pico/gps.py:125-133 | with fewer than three characters before the '.', Python's slicing makes `int()` or `float()` fail, so no value results |
| NmeaReader.ApplyRmc | pico/gps.py:80-97 | an RMC is accepted exactly with ≥ 10 fields, status 'A' and both coordinates readable. An accepted RMC makes the fix valid and changes only latitude, longitude, speed and course. A status other than 'A' only clears `valid`; every other rejection leaves the fix untouched |
| NmeaReader.ApplyGga | pico/gps.py:99-116 | a GGA is accepted exactly with ≥ 11 fields, a non-zero quality and both coordinates readable. An accepted GGA makes the fix valid and changes only latitude, longitude, quality, satellites and altitude; a rejected one leaves the fix untouched |
| NmeaReader.Unchecked | pico/gps.py:66-68 | everything from the first '*' on is removed, and a sentence without '*' is kept whole |
| NmeaReader.MessageId | pico/gps.py:72-73 | the id is the last three characters of the first field (the whole field when it is shorter) |
| NmeaReader.ApplySentence | pico/gps.py:64-78 | fewer than two fields, or an id other than RMC/GGA, returns False with the fix untouched; RMC and GGA go to their handlers |
| NmeaReader.ChecksumIgnored | pico/gps.py:66-69 | the checksum is never verified: any text after a '*' leaves the outcome unchanged |
| NmeaReader.OtherSentencesIgnored | pico/gps.py:69-71 | a sentence without ',' before its '*' is rejected and leaves the fix untouched |
| NmeaReader.Step | pico/gps.py:45-60 | LF empties the buffer and, when the stripped line starts with '$', parses it and records acceptance. CR changes nothing. Any other character is appended, and a buffer that grows past 120 characters is cleared |
| NmeaReader.RunKeepsBufferClean | pico/gps.py:45-60 | from a clean buffer, whatever bytes arrive, the buffer holds at most 120 characters and never a CR or LF |
| NmeaReader.NoNewlineNoParse | pico/gps.py:50-57 | without an LF nothing is parsed: the fix and the result stay as they were |
| NmeaReader.PlainTextAccumulates | pico/gps.py:56-57 | ordinary characters that fit under the guard are accumulated verbatim |
| NmeaReader.Chars | pico/gps.py:46-49 | each byte becomes the character with the same code |
| NmeaReader.GpsFix.constructor | pico/gps.py:13-21 | a new fix is all zeros and not valid |
| NmeaReader.GpsFix.StoreRmc | pico/gps.py:92-96 | an accepted RMC writes position, speed and course, sets `valid`, and touches nothing else |
| NmeaReader.GpsFix.StoreGga | pico/gps.py:110-115 | an accepted GGA writes position, quality, satellites and altitude, sets `valid`, and touches nothing else |
| NmeaReader.Gps.constructor | pico/gps.py:33-38 | the reader starts with an empty buffer and an empty fix |
| NmeaReader.Gps.ParseRmc | pico/gps.py:80-97 | the in-place handler returns and leaves exactly what `ApplyRmc` says |
| NmeaReader.Gps.ParseGga | pico/gps.py:99-116 | the in-place handler returns and leaves exactly what `ApplyGga` says |
| NmeaReader.Gps.Parse | pico/gps.py:64-78 | the in-place dispatcher returns and leaves exactly what `ApplySentence` says |
| NmeaReader.Gps.Feed | pico/gps.py:46-60 | one pass of the update loop does exactly what `Step` says, on the object's buffer and fix |
| NmeaReader.Gps.Update | pico/gps.py:41-61 | the buffer and fix end as the characters, applied one by one, say. The result is True exactly when some completed line was an accepted sentence |
| Tracking.Bearing | pico/tracking.py:27-28 | the final `% 360.0` lands in [0, 360), differs from its argument by whole turns, and keeps angles already in range |
| Tracking.ElevationAngle | pico/tracking.py:31-38 | the result is 0 when the points are less than 0.1 m apart. If atan2 in degrees keeps to the right half-plane, the elevation lies strictly between -90 and 90. It is positive exactly when the target is higher and at least 0.1 m away, and negative exactly when the target is lower and at least 0.1 m away |
| Tracking.GimbalAngles | pico/tracking.py:58-79 | both loops terminate. The normalised relative bearing differs from `brng - heading_offset` by whole turns. It lies in (-180, 180] when that difference is above -180, so +180 is kept, and in [-180, 180) otherwise, so -180 is kept. The azimuth is its shifted clamp in [0, 180], and 90 when the bearing equals the heading offset. The elevation is clamp(elevation_angle + 90, 0, 180); with atan2 in the right half-plane it stays strictly inside (0, 180) and is above 90 exactly when the target is higher |
| Tracking.HalfTurnUnique | pico/tracking.py:66-71 | only one whole-turn shift of the relative bearing lands in its interval, so the loops' result, and with it the azimuth, is determined |
| Numeric.Clamp | pico/tracking.py:73 | `max(lo, min(hi, x))` lies in [lo, hi], keeps values inside it, and gives the nearer bound outside it |
| PicoServo.PeriodUs | pico/servo.py:18 | the period is `1_000_000 // freq`: the largest p with p·freq ≤ 1 000 000 |
| PicoServo.PulseUs | pico/servo.py:26 | the pulse lies in [min_us, max_us]; it is min_us at 0° and max_us at 180° |
| PicoServo.Duty | pico/servo.py:27 | the duty is the whole number of steps at or below pulse·65535/period |
| PicoServo.DutyMonotone | pico/servo.py:24-27 | a larger requested angle never gives a smaller duty |
| PicoServo.PulseMonotone | pico/servo.py:26 | a larger angle never gives a shorter pulse |
| PicoServo.DefaultDutyRange | pico/servo.py:26-28 | with the configured 500–2500 µs at 50 Hz the period is 20000 µs, and every angle gives a duty in [1638, 8191] ⊂ [0, 65535] |
| PicoServo.Create | pico/servo.py:10-20 | constructing a servo fails exactly when the frequency is not positive, the PWM driver refuses it, or it exceeds 1 MHz; above 1 MHz the period is 0 and the centring `set_angle(90.0)` divides by zero. Otherwise a fresh servo stores its configuration and period and is centred at 90° |
| PicoServo.Servo.constructor | pico/servo.py:14-20 | for a frequency with a non-zero period (the case Create lets through), the servo stores its configuration and is centred at 90° |
| PicoServo.Servo.SetAngle | pico/servo.py:22-28 | the clamped angle is stored, and the duty written is the one for the requested angle |
| PicoServo.Servo.Angle | pico/servo.py:30-32 | the property returns the stored clamped angle, which lies in [0, 180] |
| PicoServo.Servo.Deinit | pico/servo.py:34-36 | the duty is driven to 0 and the PWM released |
| Sx127x.LowByte | pico/sx127x.py:107 | `v & 0xFF` is v modulo 256, and v itself for a byte |
| Sx127x.DecodeCommand | pico/sx127x.py:98-108 | the chip reads bit 7 of a frame's first byte as read/write and bits 6..0 as the register |
| Sx127x.FramesDecode | pico/sx127x.py:98-108 | a read frame (`addr & 0x7F`) decodes as a read and a write frame (`addr \| 0x80`) as a write, each of the intended register |
| Sx127x.RegisterWrite | pico/sx127x.py:105-108 | a write changes only its own register; IRQ_FLAGS clears the bits written as one |
| Sx127x.FifoBurst | pico/sx127x.py:110-115 | a burst read returns n bytes from the FIFO pointer on, wrapping at 256 |
| Sx127x.Frf | pico/sx127x.py:141 | `int(freq / FSTEP)` is the number of whole 32 MHz/2^19 steps in the frequency |
| Sx127x.FrfBytes | pico/sx127x.py:142-144 | the FRF value is written as three register bytes |
| Sx127x.FrfBytesRoundTrip | pico/sx127x.py:141-144 | the three bytes (bits 23..16, 15..8, 7..0) reassemble the whole 24-bit value |
| Sx127x.FrfFits | pico/sx127x.py:141-144 | every carrier below 1.024 GHz fits in 24 bits; 915 MHz gives 0xE4C000, written as E4 C0 00 |
| Sx127x.PreambleBytes | pico/sx127x.py:165-166 | the high and low preamble bytes reassemble any 16-bit preamble |
| Sx127x.BandwidthCode | pico/sx127x.py:157 | a listed bandwidth gets its table code, and anything else gets 7 |
| Sx127x.BandwidthCodeOrdered | pico/sx127x.py:48-59 | the table is strictly increasing, so no two bandwidths share a code |
| Sx127x.ModemConfig1Fields | pico/sx127x.py:156-159 | for coding rates 4/5..4/8, MODEM_CONFIG1 = bandwidth code·16 + (cr − 4)·2, with the implicit-header bit clear |
| Sx127x.ModemConfig2Fields | pico/sx127x.py:161-162 | for spreading factors 6..12, MODEM_CONFIG2 = sf·16 + 4 (CRC on) |
| Sx127x.OutputPower | pico/sx127x.py:172 | `max(0, min(tx_power − 2, 15))`: tx_power − 2 within 2..17 dBm, and the nearer limit outside |
| Sx127x.PaConfig | pico/sx127x.py:171-173 | PA_CONFIG = 0x80 + the output power: PA_BOOST selected, power in bits 3..0 |
| Sx127x.PaConfigPower | pico/sx127x.py:172 | the emitted power is always within 2..17 dBm, and equals the requested power inside that range |
| Sx127x.SnrFromReg | pico/sx127x.py:242-245 | the SNR register is a two's-complement byte in quarter dB, in [-32, 31.75] |
| Sx127x.SnrRoundTrip | pico/sx127x.py:275-278 | the SNR decoding inverts the chip's two's-complement encoding both ways |
| Sx127x.RssiFromReg | pico/sx127x.py:246 | the RSSI is the register minus 157, in [-157, 98] |
| Sx127x.ConfigureWrites | pico/sx127x.py:129-179 | the configuration writes leave every configured register at its last written value, and every other register as it was |
| Sx127x.Sx127x.constructor | pico/sx127x.py:68-87 | the driver stores its configuration |
| Sx127x.Sx127x.ReadReg | pico/sx127x.py:98-103 | a register read sends `addr & 0x7F`, returns the register and changes no register |
| Sx127x.Sx127x.WriteReg | pico/sx127x.py:105-108 | a register write sends `addr \| 0x80` and `val & 0xFF`, and the chip applies that write |
| Sx127x.Sx127x.ReadFifo | pico/sx127x.py:110-115 | a FIFO read returns n bytes from the FIFO pointer and advances the pointer |
| Sx127x.Sx127x.SetMode | pico/sx127x.py:182-183 | OP_MODE becomes the LoRa bit plus the mode |
| Sx127x.Sx127x.Standby | pico/sx127x.py:185-186 | OP_MODE becomes 0x81 with nothing else changed, after one write frame on the bus |
| Sx127x.Sx127x.Sleep | pico/sx127x.py:188-189 | OP_MODE becomes 0x80 with nothing else changed, after one write frame on the bus |
| Sx127x.Sx127x.Configure | pico/sx127x.py:129-179 | a chip whose version is not 0x12 is refused after one read, with no register written. Otherwise the chip ends in LoRa standby with carrier, modem, preamble, sync word, PA and current-limit registers as computed, FIFO bases 0, LNA boost set and auto-AGC on, and every other register as it was. The bus carries the version read and then the frames of SetCarrier, SetModem and SetPower, in order |
| Sx127x.Sx127x.SetCarrier | pico/sx127x.py:135-144 | LoRa sleep, then the three FRF registers; the bus carries exactly those five write frames, in order |
| Sx127x.Sx127x.SetModem | pico/sx127x.py:146-169 | FIFO bases, LNA boost, AGC, both modem configurations, the preamble and the sync word; the bus carries exactly those writes and the one LNA read, in order |
| Sx127x.Sx127x.SetPower | pico/sx127x.py:171-179 | PA configuration, current-limit trim, then standby; the bus carries exactly those three write frames |
| Sx127x.Sx127x.ReceiveContinuous | pico/sx127x.py:254-260 | standby, FIFO pointer 0, all IRQ flags cleared, DIO0 on RX-done, then continuous receive (0x85); the bus carries exactly those five write frames, in order |
| Sx127x.Sx127x.PollRx | pico/sx127x.py:262-281 | with RX_DONE clear it returns None after one read and no write. A CRC error returns None and clears the IRQ flags. Otherwise it returns the RX_NB_BYTES bytes at FIFO_RX_CURRENT with the decoded RSSI and SNR, and clears the flags. In each case the bus carries exactly the reads and writes of that path, in order |
| Sx127x.Sx127x.GetRssi | pico/sx127x.py:284-285 | returns the packet RSSI register minus 157, leaving registers and FIFO unchanged after one read frame |
| Sx127x.Sx127x.GetSnr | pico/sx127x.py:287-291 | returns the signed SNR register divided by 4, leaving registers and FIFO unchanged after one read frame |
| Mission.Track | gui/src/ArcTest.cpp:679-693 | the maxima never decrease and each ends as either its old value or the new reading. The flight latch is set exactly when it was set before or the altitude exceeds the threshold, and is never cleared |
| Mission.TrackAllSummary | gui/app.py:426-434 | over any run of readings, each maximum is at least its start and every reading, and equals its start or some reading. The latch is set exactly when it started set or some altitude exceeded the threshold |
| Mission.CapAltitude | gui/src/ArcTest.cpp:207-210 | the simulated altitude never exceeds 3048 m and is unchanged below it |
| Mission.NextTime | gui/src/ArcTest.cpp:296-301 | the clock advances by 0.1 s, or returns to 0 once past 60 s, and stays in [0, 60] |
| Mission.ClimbOutlastsPeriod | gui/src/ArcTest.cpp:205-236 | at 800 m/s the ballistic altitude is non-negative for every clock in [0, 60] |
| Mission.SlowClimbUnderCap | gui/app.py:361-363 | at 200 m/s the ballistic altitude never reaches 3048 m |
| Mission.SlowClimbLandsEarly | gui/app.py:396-398 | at 200 m/s the rocket lands before 41 s, so the clock never reaches the 60 s restart |
| ArcTestQt.KeyOf | gui/src/ArcTest.cpp:659-667 | a part selects a field exactly when it starts with that field's prefix |
| ArcTestQt.PrefixUnique | gui/src/ArcTest.cpp:660-667 | no part starts with two of the prefixes, so the order of the tests does not matter |
| ArcTestQt.ValueAfterPrefix | gui/src/ArcTest.cpp:665-666 | the value text is `part.mid(4)`. It follows the prefix for the four-character keys; for TEMP: and PRES: it starts with ':' |
| ArcTestQt.Fields.Set | gui/src/ArcTest.cpp:657-667 | assigning a field changes that field only |
| ArcTestQt.Assign | gui/src/ArcTest.cpp:660-667 | an unmatched part changes nothing; a matched part sets its field to the converted value |
| ArcTestQt.LastPartWins | gui/src/ArcTest.cpp:659-668 | a field ends with the value of the last part that names it |
| ArcTestQt.AbsentFieldIsZero | gui/src/ArcTest.cpp:657 | a field no part names stays 0 |
| ArcTestQt.SimulationStaysAboveGround | gui/src/ArcTest.cpp:205-236 | with the default 800 m/s launch the capped altitude is never below ground, so the below-ground reset is dead code |
| ArcTestQt.ArcTest.constructor | gui/src/ArcTest.cpp:118-148 | the rocket and the trajectory start at the launch site, with the clock and statistics at zero and no device |
| ArcTestQt.ArcTest.ParseTelemetryData | gui/src/ArcTest.cpp:650-715 | the altitude label shows the parsed altitude and the GPS label the parsed lat, lon and altitude; the velocity, acceleration, temperature, pressure and battery labels are not modelled. The statistics take the parsed altitude and velocity (latching at 10 m). The rocket moves and the trajectory gains a point exactly when lat ≠ 0 and lon ≠ 0. The clock and the connection are untouched |
| ArcTestQt.ArcTest.UpdateStatistics | gui/src/ArcTest.cpp:679-693 | the mission statistics change as `Track` says, and nothing else changes |
| ArcTestQt.ArcTest.UpdateRocketPositionFromTelemetry | gui/src/ArcTest.cpp:717-728 | the rocket moves to the point and the point is appended to the trajectory |
| ArcTestQt.ArcTest.ResetSimulation | gui/src/ArcTest.cpp:213-235 | the reset puts the clock at 0, the trajectory at the single launch point and the label at the launch site, and clears the statistics |
| ArcTestQt.ArcTest.UpdateRocketPosition | gui/src/ArcTest.cpp:183-320 | with real telemetry nothing changes. Otherwise the rocket moves to the capped simulated point, which joins the trajectory, the statistics take it, and the clock advances. Below ground, or past 60 s, the simulation resets. The clock stays in [0, 60], and the 10010 m threshold never sets the flight flag |
| ArcTestQt.ArcTest.ConnectToDevice | gui/src/ArcTest.cpp:569-590 | with a port selected and opened, the window switches to real telemetry; otherwise nothing changes |
| ArcTestQt.ArcTest.DisconnectFromDevice | gui/src/ArcTest.cpp:592-601 | the window goes back to the simulation |
| ArcTestPy.Assign | gui/app.py:410-416 | a part sets exactly the key it names (the text before its first ':', stripped and upper-cased) when `float()` accepts its value. Other keys are kept; an unreadable value is ignored |
| ArcTestPy.ParsedVals | gui/app.py:407-416 | the eight known keys are always present in the dictionary |
| ArcTestPy.ShownKeysPresent | gui/app.py:417-419 | the keys the labels look up are present, so the lookups cannot fail |
| ArcTestPy.LastSettingWins | gui/app.py:409-416 | a key ends with the value of the last part that sets it |
| ArcTestPy.UnsetKeyIsZero | gui/app.py:408 | a known key that no part sets stays 0.0 |
| ArcTestPy.KeyIgnoresCaseAndSpaces | gui/app.py:411-412 | for any key without ':' that neither starts nor ends with whitespace, padded with whitespace on either side, the part's key is the upper-cased key, whatever its value; so " lat :1.5" sets LAT |
| ArcTestPy.StripPadded | gui/app.py:412 | `strip()` removes exactly the whitespace padding around such a key |
| ArcTestPy.Le16 | gui/app.py:326 | `struct.unpack('<H')`: the low byte first, and a value below 65536 |
| ArcTestPy.EncodeFrame | gui/app.py:323-330 | the frame the reader expects: a little-endian 16-bit length, then the body |
| ArcTestPy.TakeFrame | gui/app.py:323-330 | fewer than two bytes waiting reads nothing. A body is returned only when the whole of it is waiting, and the stream then is its frame followed by the rest. Otherwise the header is consumed and nothing else |
| ArcTestPy.FrameRoundTrip | gui/app.py:323-330 | a complete frame is read back as its body, leaving what follows |
| ArcTestPy.PartialFrameLosesHeader | gui/app.py:323-330 | a frame with only part of its body waiting loses its header, and the body bytes are left behind |
| ArcTestPy.StreamRoundTrip | gui/app.py:323-330 | a stream of complete frames is read back as its bodies, in order |
| ArcTestPy.HandlePacket | gui/app.py:341-402 | the clock stays in [0, 60]. A restart (below ground, or past 60 s) clears the statistics and shows the launch site. Otherwise the clock advances by 0.1, the statistics take the simulated altitude and speed, and the position and altitude labels show the simulated point. The position label never ends on the packet's own position. Only a below-ground restart leaves the packet's altitude (for a GPS packet) on the altitude label |
| ArcTestPy.ClockStaysBelowLanding | gui/app.py:361-402 | with the 200 m/s launch, a packet handled with the clock below 41 s leaves it below 41 s. So from start-up the 60 s restart never happens and the altitude cap never applies |
| ArcTestPy.ParityFor | gui/app.py:255-256 | the parity is one of N, E, O, M, S, and 'N' for any unknown code |
| ArcTestPy.StopBitsFor | gui/app.py:257-258 | the stop bits are 1, 1.5 or 2, and 1 for any unknown code |
| ArcTestPy.ParityMatchesMenu | gui/app.py:135 | every parity menu entry maps to the letter its label starts with, and the five entries map to five different parities |
| ArcTestPy.StopBitsMatchMenu | gui/app.py:142 | every stop-bits menu entry maps to the number its label shows |
| ArcTestPy.SerialPort.Read | gui/app.py:324-329 | a read returns up to n of the waiting bytes, oldest first, and keeps the rest |
| ArcTestPy.SerialPort.Close | gui/app.py:284-285 | closing keeps the settings and the unread bytes |
| ArcTestPy.ArcTest.constructor | gui/app.py:38-55 | the window starts with the clock and statistics at zero, no label written, no port and no real telemetry |
| ArcTestPy.ArcTest.UpdateStatistics | gui/app.py:381-389 | the mission statistics change as `Track` says with the 10 m threshold, and nothing else changes |
| ArcTestPy.ArcTest.ParseTelemetryData | gui/app.py:404-443 | the labels show the parsed altitude and position, and the statistics take the parsed altitude and velocity. The clock and the port are untouched |
| ArcTestPy.ArcTest.ParseValues | gui/app.py:408-416 | the dictionary loop computes `ParsedVals` |
| ArcTestPy.ArcTest.HandleProtobufPacket | gui/app.py:341-402 | the window's fields change as `HandlePacket` says |
| ArcTestPy.ArcTest.UpdateRocketPosition | gui/app.py:317-340 | without real telemetry on an open port, nothing changes and nothing is simulated. Otherwise one frame is taken as `TakeFrame` says, and only a body that decodes reaches the packet handler |
| ArcTestPy.ArcTest.ApplySerialSettings | gui/app.py:247-260 | with no open port nothing changes. Otherwise the baud rate and then the data bits are set, stopping at the first text `int()` rejects; parity and stop bits follow from their maps |
| ArcTestPy.ArcTest.ToggleConnection | gui/app.py:262-290 | connecting needs a selected port that opens, and then switches to real telemetry. The new port's baud rate, byte size, parity and stop bits are then set from the chosen values as ApplySerialSettings does it: in that order, stopping at the first text `int()` rejects, and not at all for a port that is not open. Disconnecting closes the port, keeping its settings and unread bytes, and switches real telemetry off. A port the call does not use (an unused `newPort`, or the port replaced on connecting) is unchanged. The dashboard is untouched |
| Text.Split | gui/app.py:407 | `split` yields one more part than there are separators, and no part contains the separator |
| Text.JoinSplit | gui/app.py:407 | joining the parts with the separator gives back the text |
| Text.IndexOf | pico/gps.py:125 | the position of the first occurrence, or the length when there is none |
| Text.PySliceTo | pico/gps.py:126 | Python's `s[:k]`, negative k counting from the end |
| Text.PySliceFrom | pico/gps.py:127 | Python's `s[k:]`, negative k counting from the end |
| Text.Strip | pico/gps.py:51 | `strip()` removes the leading and trailing spaces and keeps the middle |
| Text.AsciiUpper | gui/app.py:412 | `upper()` maps a–z to A–Z and keeps every other character |
| Text.Truncate | pico/src/Tasks/USB/usb_task.cpp:24 | a prefix of at most n characters, and the whole text when it fits |

## Left out

- Floating point: doubles are reals, so rounding, NaN and infinities are not modelled. Trigonometry, square roots and `pow` are given functions or left out: the haversine distance, atan2, the simulated ground track and speed, and the temperature and pressure labels.
- String-to-number conversion: Python's `int()`/`float()` and `QString::toDouble` are given functions. `strip()` covers CPython's whitespace up to U+00FF (including U+0085 and U+00A0), and `upper()` maps ASCII letters only; whitespace and case mapping beyond those are not modelled.
- printf/vsnprintf formatting of log lines, the JSON payload and the status line are given functions. The status line's heap size and link states are not modelled.
- CSV file logging, the flight-time label (QTime), widgets, the map, the camera and the serial port list are not modelled.
- gps::GPSParser, SigmaLoRaData::deserialize, GroundStationMath, SX1276Radio and the protobuf classes are not part of this model. Each is a given function or a parameter.
- FreeRTOS blocking and concurrency are not modelled. Each task iteration is one atomic step, and a timed queue send succeeds when there is room and drops the message otherwise. One tick is taken as one millisecond, so `pdMS_TO_TICKS` is the identity; FreeRTOSConfig.h is not part of this model.
- The WiFi and MQTT tasks, pico/src/main.cpp, pico/transmitter.py and gui/src/main.cpp are not modelled: they are start-up and network plumbing.
- The UART and SPI peripherals are not modelled. Bytes waiting on a UART are an input of the drain loop; the SPI bus is the chip model's frame log; the reset pulse and the chip-select pin levels are left out.
- Sx127x `send`, `receive` and `_write_fifo` are not modelled: their loops wait on the clock with a timeout. Their decode path is the same as `poll_rx`, which is modelled.
- gui/src/ArcTest.cpp `applySerialSettings` is not modelled: it only maps combo box indices onto Qt enums. pyserial's validation of the values it is given is not modelled either.
- The `data_pb2 is None` and pyserial-missing branches of gui/app.py are not modelled, and nor are exceptions other than `int()`, `float()` and `ParseFromString` failures.
- `ToggleConnection` does not model the message boxes or button texts.
- `ConnectToDevice` leaves out the serial settings it applies, and does not model the port name or the open mode.
- `GimbalAngles` takes the bearing, the distance and the height difference as inputs. The atan2 in degrees is a given function, with the half-plane property as an assumption of the elevation clauses. `bearing`'s trigonometry and `haversine_distance` are not modelled.
- PicoServo.Create: for a non-positive frequency the model only says construction fails; whether the PWM driver, the division or `duty_u16` raises first is not modelled. The PWM driver's accepted range is a given predicate.
- Sx127x.Frf: the quotient is exact; the rounding of the Pico's single-precision floats is not modelled.
- `Servo.SetAngle` does not model `duty_u16`'s range check on out-of-range configurations.
