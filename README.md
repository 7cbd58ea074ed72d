# ipmicap core in Dafny

A Dafny model of the two sequential cores of ipmicap, a telemetry capture
tool for IPMI chassis sensors and accelerator power readings:

- **The capture-session manager** (`IpmiSessionManager`, ipmisession.py).
  Named sessions are opened with `start`. While open, every reading handed to
  `sensor`, `nvidia_sensor` or `g2_sensor` is appended to all of them. `stop`
  closes a session and reduces its buffer to energy figures
  (`_compute_session`). The reduction works per registered sensor. It takes
  that sensor's readings in arrival order and clamps them flat to the session
  window. It converts times to seconds since the window's start and
  integrates with the trapezoidal rule. The session total then skips every
  sensor whose name starts with "nvidia" or "apu".
- **The IPMI sampler** (`IpmiMon`, ipmimon.py). It covers:
  - the check that `run` makes, and its counter reset;
  - the sensor list built from the configured record ids (`get_sensors`);
  - the sensor descriptions (`get_sensor_descriptions`);
  - one sampling round (`_sample_sensors`), with its error counter and
    threshold;
  - the per-sensor sampler (`_sample_sensor`);
  - the lines `emit_sdr_list_entry` logs or prints.

Files:

- `wrappers.dfy`: `Option` and `Result`.
- `format.dfy`: the parts of Python's formatting the code uses. `%d`,
  `%0Nd`, `%0Nx` and `hex()` each come with a parser that inverts them.
  `%Ns` and `%-Ns` are stated by the field's length, the text's place in it
  and the fill; `str.startswith` is a prefix test.
- `energy.dfy`: `_compute_session` as pure functions, with lemmas on
  clamping, bounds and the exclusions in the total.
- `session.dfy`: the `SessionManager` class, whose `map`/`seq` fields the
  methods update in place.
- `monitor.dfy`: the `IpmiMon` class, the round of `_sample_sensors`, and
  `emit_sdr_list_entry`.

Modelling choices:

- Times are integers in microseconds, the resolution of Python's `datetime`.
  Readings are `real`, so trapezoid sums are exact.
- The manager's `sensors` dictionary is used as an insertion-ordered set. It
  is modelled as a duplicate-free `seq`.
- The foreign calls are inputs:
  - `fetch: int -> Sdr` stands for `get_repository_sdr`;
  - `ReadOutcome` stands for what `get_sensor_reading` and the raw-to-value
    conversion did for one sensor;
  - `Connect`'s `supportsSdrRepository` stands for the device's answer to
    `supports_function('sdr_repository')`.

The model follows the code on three points that are easy to misread:

- An absent reading (`None`) does not count as a failure (ipmimon.py:118).
  Only `False` and a value equal to 0 count.
- The counter is not reset by a success. It counts every error since `run`
  began, not consecutive ones.
- Only Full sensor records are read. The test for Compact records
  (ipmimon.py:137) sits inside the Full branch, under `value is None`, so
  it can never be true.

The record types are those of section 43 of the IPMI v2.0 specification:
43.1 Full Sensor Record and 43.2 Compact Sensor Record.

## Model

| member | source | states |
|---|---|---|
| Session.SessionManager.constructor | ipmisession.py:14-20 | a new manager has no sessions, no start times and no sensors |
| Session.SessionManager.Start | ipmisession.py:22-25 | sets `started[id]` to `dt` and replaces the buffer of `id` with an empty one, discarding what it held; every other id and the sensor registry are unchanged |
| Session.SessionManager.Stop | ipmisession.py:27-42 | for an unknown id: `SessionNotFound`, and nothing changes. For a known id: removes it from both maps, leaves `sensors` unchanged, and answers with `StopAnswer` of `ComputeSession` over the old buffer, start time and registry |
| Session.SessionManager.Sensor | ipmisession.py:44-51 | registers the id and appends exactly `[dt, id, value]` to the end of every open session's buffer; the set of sessions and the start times are unchanged |
| Session.SessionManager.NvidiaSensor | ipmisession.py:53-61 | the same as `Sensor`, under the id "nvidia-<nvId>" |
| Session.SessionManager.G2Sensor | ipmisession.py:63-71 | the same as `Sensor`, under the id "apu-<g2 in two digits>" |
| Session.Register | ipmisession.py:46 | the registry after `sensors[id] = True`: it keeps the earlier ids in order, holds exactly the old ids and `id`, and stays duplicate-free |
| Session.StopAnswer | ipmisession.py:39-42 | the full stats when `all_stats` is set, otherwise `tot_power`; an integration failure is reported as such in both cases |
| Session.NvidiaName | ipmisession.py:55 | the derived name starts with "nvidia" |
| Session.ApuName | ipmisession.py:65 | the derived name starts with "apu" |
| Session.NvidiaNameInjective | ipmisession.py:55 | distinct accelerator numbers give distinct names |
| Session.ApuNameInjective | ipmisession.py:65 | distinct APU numbers give distinct names, zero padding notwithstanding |
| Session.DerivedNamesExcluded | ipmisession.py:106-111 | every derived accelerator or APU name is skipped by the session total |
| Session.BroadcastExample | ipmisession.py:44-49 | one reading reaches both of two open sessions |
| Session.RestartExample | ipmisession.py:22-25 | restarting a session discards its earlier samples: only the reading after the restart is integrated (3.0 over 3 s gives 9.0) |
| Session.UnknownStopExample | ipmisession.py:28-30 | stopping an unknown session reports it and leaves the open sessions as they were |
| Energy.Seconds | ipmisession.py:93 | `(t - start).total_seconds()`: no contract of its own; `SeriesOf` and `SeriesSorted` state the elapsed times it gives |
| Energy.Excluded | ipmisession.py:104-112 | the total skips a sensor whose name starts with "nvidia" or "apu"; no contract of its own; `TotalSnoc`, `TotalIgnoresExcluded`, `TotalAllExcluded` and `Session.DerivedNamesExcluded` state its effect |
| Energy.Readings | ipmisession.py:84-85 | the readings of one sensor, no more than the buffer's rows; `ReadingsSnoc`, `ReadingsEmpty` and `ReadingsMembers` state which rows they are and in what order |
| Energy.ReadingsSnoc | ipmisession.py:84-85 | arrival order is kept: appending a row adds at most one point, at the end, and only to that row's sensor |
| Energy.ReadingsEmpty | ipmisession.py:84-86 | a sensor has no readings exactly when no row of the buffer names it |
| Energy.ReadingsMembers | ipmisession.py:84-85 | a point is a reading of a sensor exactly when some row of that sensor carries it |
| Energy.FirstMissing | ipmisession.py:82-88 | finds the first registered sensor without readings; every sensor before it has readings, and none is found only when all have readings |
| Energy.SeriesOf | ipmisession.py:89-94 | the clamped series has n+2 elapsed times and n+2 values. The times run from 0 to the window length, with the samples' offsets in between. The first and last values repeat the first and last readings |
| Energy.SeriesTail | ipmisession.py:91-93 | after the clamped start point come the samples' values and offsets in order, then the end point |
| Energy.PerSensor | ipmisession.py:81-94 | a series for exactly the registered sensors, each the clamped series `SeriesOf` of that sensor's readings over the window |
| Energy.Powers | ipmisession.py:96-102 | an energy for exactly the registered sensors, each the trapezoidal integral of its clamped series |
| Energy.ComputeSession | ipmisession.py:73-114 | fails exactly when some registered sensor has no readings, and names such a sensor. On success it gives the powers and series of exactly the registered sensors, each series being the clamped series of that sensor's readings and each power that sensor's energy, the window's start and end, and `totPower == Total(ids, powers)` |
| Energy.Trapezoid | ipmisession.py:100 | `numpy.trapz`; no contract of its own; `TrapezoidSnoc`, `TrapezoidBounds`, `TrapezoidAtLeast` and `TrapezoidAtMost` characterise it |
| Energy.Segment | ipmisession.py:100 | one trapezoid; no contract of its own; `FlatSegment`, `SegmentAtLeast` and `SegmentAtMost` characterise it |
| Energy.FlatSegment | ipmisession.py:100 | a trapezoid with equal sides is the rectangle of that height |
| Energy.SegmentAtLeast | ipmisession.py:100 | a trapezoid over ordinates at least lo is at least lo times its width |
| Energy.SegmentAtMost | ipmisession.py:100 | a trapezoid over ordinates at most hi is at most hi times its width |
| Energy.SensorEnergy | ipmisession.py:89-100 | the trapezoidal integral of a sensor's clamped series; no contract of its own; `Clamping`, `EnergyBounds`, `ConstantEnergy` and `SinglePoint` characterise it |
| Energy.Total | ipmisession.py:104-112 | the session total; no contract of its own; `TotalSingle`, `TotalSnoc`, `TotalIgnoresExcluded`, `TotalAllExcluded` and `ExcludedRowsIgnored` characterise it |
| Energy.TrapezoidSnoc | ipmisession.py:100 | integrating over one more pair adds exactly the last trapezoid |
| Energy.TrapezoidBounds | ipmisession.py:100 | over non-decreasing abscissae, the trapezoidal integral lies between the least and greatest ordinate times the width |
| Energy.TrapezoidAtLeast | ipmisession.py:100 | the lower half of `TrapezoidBounds` |
| Energy.TrapezoidAtMost | ipmisession.py:100 | the upper half of `TrapezoidBounds` |
| Energy.Clamping | ipmisession.py:91-102 | clamping is flat extrapolation: the energy is the first reading times its offset, plus the integral over the samples, plus the last reading times the time left to the end |
| Energy.ClampedEnds | ipmisession.py:91-102 | the clamped series adds one trapezoid before the first sample and one after the last |
| Energy.SeriesSorted | ipmisession.py:91-93 | samples in time order inside the window give non-decreasing elapsed seconds |
| Energy.SeriesAtLeast | ipmisession.py:92 | clamping adds no value below the least reading |
| Energy.SeriesAtMost | ipmisession.py:92 | clamping adds no value above the greatest reading |
| Energy.EnergyBounds | ipmisession.py:89-102 | for samples in time order inside the window, a sensor's energy lies between its least and greatest reading times the window length |
| Energy.EnergyAtLeast | ipmisession.py:89-102 | the lower half of `EnergyBounds` |
| Energy.EnergyAtMost | ipmisession.py:89-102 | the upper half of `EnergyBounds` |
| Energy.ConstantTrapezoid | ipmisession.py:100 | over a constant ordinate c, the trapezoidal integral is c times the distance from the first to the last abscissa, in any order |
| Energy.ConstantEnergy | ipmisession.py:89-102 | a sensor reading a constant c throughout has energy c times the window length, whatever the order of its readings and wherever they lie |
| Energy.ConstantOutOfOrderExample | ipmisession.py:89-102 | two readings 4.0 at 2 s and then at 1 s in a 3 s window integrate to 12 |
| Energy.SinglePoint | ipmisession.py:89-102 | one reading, wherever it lies, is held constant over the whole window |
| Energy.SingleReadingPower | ipmisession.py:96-102 | a one-row buffer of one registered sensor integrates, and that sensor's power is the energy of its single point |
| Energy.SingleReading | ipmisession.py:73-114 | such a session succeeds, and its total is that energy, or 0 when the sensor is excluded |
| Energy.TotalSingle | ipmisession.py:104-112 | the total over one id is its power, or 0 when excluded |
| Energy.TotalSnoc | ipmisession.py:104-112 | one more registered id adds its power to the total unless it is excluded |
| Energy.TotalIgnoresExcluded | ipmisession.py:104-112 | two power maps that agree on the non-excluded ids have the same total |
| Energy.TotalAllExcluded | ipmisession.py:104-112 | with only excluded ids registered, the total is 0 |
| Energy.ExcludedRowsIgnored | ipmisession.py:104-112 | when both sessions succeed, two buffers with the same readings for every non-excluded sensor have the same total |
| Energy.MissingAcceleratorFails | ipmisession.py:82-88 | exclusion from the total does not exempt a sensor from the check for readings: a registered "nvidia-0" without a row makes the session fail, and the same buffer with one row of it succeeds |
| Energy.ClampingExample | ipmisession.py:89-102 | readings 3.0 at 1 s and 5.0 at 2 s in a 3 s window give 3 + 4 + 5 = 12 |
| Energy.ExclusionExample | ipmisession.py:104-112 | a regular sensor with 12 and an accelerator with 99 total 12 |
| Monitor.IpmiMon.constructor | ipmimon.py:8-29 | a new monitor is unconnected, has no connection object, no sensors and a zero counter |
| Monitor.IpmiMon.Connect | ipmimon.py:54-69 | the connection object exists afterwards either way. The call raises the "no sdr_repository" error when the device lacks that function, and only otherwise marks the monitor connected |
| Monitor.IpmiMon.GetSensors | ipmimon.py:102-112 | raises when no records are configured, leaving the list alone. Otherwise it rebuilds the list with exactly one SDR per record id, in order. It fails with an empty list when there is no connection object |
| Monitor.IpmiMon.GetSensorDescriptions | ipmimon.py:91-100 | fetches the sensors only when there are none; on success returns one description `{name, record_id, number}` per sensor, in order, and succeeds exactly when sensors exist or can be fetched. Without records it raises and leaves the (empty) list alone; without a connection object it raises and leaves the list empty; in both cases it returns no descriptions |
| Monitor.IpmiMon.Run | ipmimon.py:31-45 | raises unless connected, changing nothing. Connected without sensors or records, it raises, announces nothing and leaves the sensors and the counter as they were. It fetches the sensors only when there are none. With a logger it logs exactly the `Announcement` of every sensor's description, in order, and without one logs nothing. It reaches the polling loop exactly when connected with sensors or record ids, and then the counter is 0 |
| Monitor.IpmiMon.Announce | ipmimon.py:40-43 | the lines logged are the descriptions' `Announcement`s, one each, in order |
| Monitor.Announcements | ipmimon.py:40-43 | one line per description, the i-th being the i-th description's `Announcement` |
| Monitor.IpmiMon.SampleSensors | ipmimon.py:114-122 | one round: the results, the lines, whether it raised and the new counter are exactly `RoundFrom` over the samples of every sensor, from the old counter (with the corrected sampler) |
| Monitor.RoundAsWritten | ipmimon.py:114-122 | no contract of its own; the round as written is related to the corrected round by `AsWrittenAgrees`, `AsWrittenNameError` and `AsWrittenNameErrorAt`, and shown on one input by `AsWrittenExample` |
| Monitor.AsWrittenAgrees | ipmimon.py:114-151 | as written, a round in which no Full record fails other than by a completion code is exactly the corrected round |
| Monitor.AsWrittenNameError | ipmimon.py:114-151 | when the round as written ends in the NameError, the corrected round sampled the same results up to there and records `False` for the sensor that raised |
| Monitor.AsWrittenNameErrorAt | ipmimon.py:131-151 | the sensor at which the round as written raises the NameError is a Full record whose reading failed other than by a completion code |
| Monitor.AsWrittenExample | ipmimon.py:114-151 | a failing Full record before one reading 5.0: as written the NameError escapes with nothing recorded; corrected, both are sampled and the counter is 1 |
| Monitor.RoundLoop | ipmimon.py:116-122 | the loop of `_sample_sensors` as an accumulator of results, lines and counter; no contract of its own; `RoundLoopIsRound` ties it to `RoundFrom`, and `SampleSensors`' loop invariant is stated in it |
| Monitor.RoundLoopIsRound | ipmimon.py:116-122 | the loop's accumulated state followed by the rest of the round is the round |
| Monitor.Errors | ipmimon.py:116-119 | the number of results that are `== False`, at most their number; `ErrorsSnoc` and `ErrorsPrefix` characterise it and `RoundCount` states the counter in it |
| Monitor.Raises | ipmimon.py:121-122 | whether the counter reaches the threshold after the last sensor sampled; no contract of its own; `RaisesStep`, `ReachingRaises`, `RoundRaises`, `RoundEnds` and `ThresholdStop` characterise it |
| Monitor.RoundCount | ipmimon.py:116-119 | the counter a round leaves is the old counter plus exactly one per sampled error; successes never lower it |
| Monitor.RoundResults | ipmimon.py:116-122 | a round samples exactly the sensors up to the first one after which the counter reaches the threshold, in order |
| Monitor.RoundLines | ipmimon.py:116-122 | a round emits the lines of exactly those sensors, in order |
| Monitor.RoundRaises | ipmimon.py:121-122 | a round raises exactly when the counter has reached the threshold after the last sensor it sampled |
| Monitor.RoundEnds | ipmimon.py:116-122 | a round raises exactly when it sampled something and left the counter at or above the threshold; a round that does not raise samples every sensor |
| Monitor.RoundFrom | ipmimon.py:114-122 | the round from some sensor on samples no more sensors than remain |
| Monitor.Processed | ipmimon.py:116-122 | a round over a non-empty sensor list samples at least one sensor and at most all of them |
| Monitor.RaisesStep | ipmimon.py:118-122 | whether a round raises is decided by its first sensor when that one reaches the threshold, and otherwise by the rest of the round from the updated counter |
| Monitor.ThresholdStop | ipmimon.py:121-122 | the counter was below the threshold after every sensor before the last one sampled, and a round that does not raise samples every sensor |
| Monitor.ReachingRaises | ipmimon.py:121-122 | reaching the threshold after any sensor makes the round raise |
| Monitor.NoErrorsNoRaise | ipmimon.py:116-122 | from a counter below the threshold, a round without errors samples every sensor and does not raise |
| Monitor.NonConsecutiveErrors | ipmimon.py:116-122 | with the default threshold 2, failures at the first and third sensors end the round after the third, although a success came between them |
| Monitor.IsError | ipmimon.py:118 | no contract of its own; `ZeroCountsAsError` states for which results it holds, and `ErrorsSnoc` and `RoundCount` tie it to the counter |
| Monitor.ZeroCountsAsError | ipmimon.py:118 | a value of 0 counts as an error, as does `False`; `None` and a non-zero value do not |
| Monitor.ErrorsSnoc | ipmimon.py:118-119 | each further sample adds one error exactly when it fails or reads 0 |
| Monitor.ErrorsPrefix | ipmimon.py:116-119 | counting the first k results is counting the first one and then the next k-1 |
| Monitor.SampleAll | ipmimon.py:116 | one sample per configured sensor, in order |
| Monitor.SampleSensor | ipmimon.py:124-151 | a non-Full record gives `None` and no line. A Full record that reads gives its converted value, or exactly `None` (not an error) when the reading is absent, and the list entry of its id, number, name, value text and states. A completion-code error gives `False` and the completion-code line of that record and code; any other failure gives `False` and the error line naming the exception |
| Monitor.SampleSensorAsWritten | ipmimon.py:124-151 | as written, a Full record whose reading raises anything but a completion-code error escapes the sampler; every other outcome is `SampleSensor`'s |
| Monitor.MissingSysImport | ipmimon.py:149-151 | as written, a failing Full reading escapes, where the sampler evidently means to print "Sample Sensor Error: <name>" and return `False`, an error |
| Monitor.ValueText | ipmimon.py:166-170 | the `%s` of the sampled value: its `str()` text, or "None" when absent; no contract of its own; `SampleSensor` puts it in the list entry, and `LogMessage` and `TableRow` place it unchanged |
| Monitor.Render | ipmimon.py:141-171 | a list entry goes to the logger exactly when there is one, as `LogMessage`, and is printed as `TableRow` otherwise. A completion-code line is printed as `CompletionCodeRow`; the other error line is printed as "Sample Sensor Error: " followed by exactly the exception name |
| Monitor.EmitSdrListEntry | ipmimon.py:156-171 | with a logger, exactly the message "<record_id> : <value>" is logged; otherwise the table row is printed |
| Monitor.NumberText | ipmimon.py:157-160 | "na" exactly when the number is absent or 0; otherwise `str(number)` as `IsNumeral` at width 0 in base 10: '-' exactly for a negative number, then only decimal digits, no leading zero, reading back to the number |
| Monitor.StatesText | ipmimon.py:161-164 | "na" exactly when the states are absent or 0; otherwise `hex(states)` as `IsHexText`: "0x" (after '-' for negatives), then only lower-case hexadecimal digits, no leading zero, reading back to the states |
| Monitor.IdCell | ipmimon.py:170 | "0x", then `%04x` of the record id as `IsNumeral` at width 4 in base 16: '-' exactly for negatives, only lower-case hexadecimal digits, at least 4 characters, a leading zero only where the width needs it, reading back to the id |
| Monitor.Columns | ipmimon.py:170 | the cells joined by " \| ": the row has exactly the cells' lengths plus 3 per separator, each cell sits unchanged at its `CellStart`, and " \| " follows every cell but the last |
| Monitor.JoinCons | ipmimon.py:170 | a cell, " \| " and a join of the remaining cells is a join of all of them |
| Monitor.LogMessage | ipmimon.py:167 | the message is the record id's decimal text, which reads back to it, then exactly " : ", then exactly the value text, and nothing else |
| Monitor.TableRow | ipmimon.py:170 | the row is the join by " \| " of the record id cell, the number text right-justified in 3, the name left-justified in 18, the value text right-justified in 9 and the states text, each in its place |
| Monitor.RowRecordId | ipmimon.py:170 | the record id reads back from any printed row |
| Monitor.CompletionCodeRow | ipmimon.py:146 | the row is the join by " \| " of the record id cell, the number in decimal right-justified in 3, the name left-justified in 18 and the `ERR: CC=0x..` field, each in its place |
| Monitor.CompletionCodeText | ipmimon.py:146 | exactly "ERR: CC=0x", then `{:02x}` of the code as `IsNumeral` at width 2 in base 16: only lower-case hexadecimal digits (after '-' for negatives), at least 2 characters, a leading zero only where the width needs it, reading back to the code |
| Monitor.Describe | ipmimon.py:96-100 | one description per sensor, in order, carrying its name, record id and number |
| Monitor.Announcement | ipmimon.py:42 | no contract of its own; its text is stated by `AnnouncementFields`, and `Announce` and `Run` log exactly it |
| Monitor.AnnouncementFields | ipmimon.py:42 | the logged line is "SENSOR: ", the name, a space, the record id in decimal, a space and the number in decimal, and both numbers read back |
| Format.PadLeft | ipmimon.py:170 | `%Ns` (and the `0` flag): the text right-justified in a field of at least N characters, filled on the left |
| Format.PadRight | ipmimon.py:170 | `%-Ns`: the text left-justified in a field of at least N characters, filled with spaces |
| Format.Padded | ipmisession.py:65 | `%0Nd` and `%0Nx`: at least N characters, a leading '-' exactly for negatives, a digit first otherwise; the exact form is `PaddedNumeral` |
| Format.PaddedNumeral | ipmisession.py:65 | `%0Nd` and `%0Nx` write `IsNumeral`: '-' exactly for negatives, then only digits of the base, at least N characters in all, a leading zero only where the width needs it or the number is 0, reading back to the number |
| Format.Decimal | ipmisession.py:55 | `%d` and `str()` of an int: at least one character, '-' or a digit first; the exact form is `DecimalNumeral` |
| Format.DecimalNumeral | ipmisession.py:55 | `%d` writes `IsNumeral` at width 0 in base 10: '-' exactly for negatives, then only decimal digits, no leading zero unless the number is 0, reading back to the number |
| Format.Hex | ipmimon.py:162 | `hex()`: at least three characters; the exact form is `HexText` |
| Format.HexText | ipmimon.py:162 | `hex(n)` writes `IsHexText`: "-0x" for negatives, "0x" otherwise, then only lower-case hexadecimal digits, no leading zero unless n is 0, reading back to n |
| Format.DigitsAreDigits | ipmimon.py:158 | the digits of a natural number use only the base's digit characters, and start with '0' only for 0 |
| Format.PaddedRoundTrip | ipmisession.py:65 | a zero-padded number at any width reads back to the number |
| Format.DigitsRoundTrip | ipmimon.py:158 | the digits of a natural number in base 10 or 16 read back to it |
| Format.DecimalInjective | ipmisession.py:55 | `%d` is injective |
| Format.HexRoundTrip | ipmimon.py:162 | `hex(n)` reads back to n |

## Left out

- The pyipmi calls behind `connect` (ipmimon.py:56-63, 68) are foreign
  library and network I/O: interface creation, session setup, the device-id
  query and the SDR reservation. Only the capability answer and the order in
  which the connection object and the connected flag are set are modelled.
- `enumerate_sensors` (ipmimon.py:71-89) only prints what the SDR repository
  holds. It is I/O over the foreign iterator and changes no state.
- The polling loop `while True: _sample_sensors(); time.sleep(delay)`
  (ipmimon.py:47-51) is infinite and timed. `Run` stops where the loop
  starts, and `SampleSensors` models one round of it.
- `get_repository_sdr` is modelled as a total function. A failing fetch is
  not modelled.
- The raw-to-value conversion of section 36.3 of the IPMI v2.0 specification
  happens inside pyipmi. A reading arrives already converted, with its
  `str()` text as an input string. Python's float formatting is not
  modelled.
- The device id string is taken as already rendered text (`Sdr.name`), so
  the completion-code row and the table row are modelled with a `str` name.
  pyipmi's `device_id_string` is `bytes` (ipmimon.py:84 decodes it). With
  bytes, `'{:18s}'.format` at ipmimon.py:146 raises a TypeError out of the
  completion-code handler, and `%-18s` at ipmimon.py:170 prints the `b'...'`
  representation. Neither behaviour is modelled.
- Format.Padded, Format.Decimal, Format.Hex: their own contracts give only
  the length and the first character. The exact numeral (alphabet, sign,
  width, no extra leading zero, read-back) is stated by the lemmas
  `PaddedNumeral`, `DecimalNumeral` and `HexText`, which the column
  functions call, so that the quantified form does not enter every proof
  that mentions a number's text.
- Monitor.IpmiMon.SampleSensors: the per-sensor lines are returned as `Line`
  values, the calls that emit them. Their text is `Render` of each, not a
  string the method writes itself.
- Monitor.IpmiMon.Run: the lines for the logger are returned as a list of
  strings rather than passed to a logger object.
- Monitor.IpmiMon.SampleSensors: the method samples with the corrected
  `SampleSensor`, on which the rest of the model builds. The round as
  written, which a Full record failing other than by a completion code
  aborts with a NameError, is the function `RoundAsWritten`, related to the
  method's round by `AsWrittenAgrees`, `AsWrittenNameError` and
  `AsWrittenNameErrorAt`.
- Session.SessionManager.Stop: an integration failure is one outcome,
  `IntegrationFailed`. As written, `stop` returns -1 when `all_stats` is set
  and otherwise raises a TypeError by indexing the -1. Both happen after the
  session has been removed, as in the model.
- The checks `if self.started[session_id]` in `stop` and in the sensor
  methods (ipmisession.py:32, 48, 58, 68) always pass. A start time is a `datetime`,
  which is always truthy, so the warning branch at ipmisession.py:33-34 is
  not modelled.
- Energy.ComputeSession: `start_time` and `end_time` are kept as times.
  The `str()` rendering the stats dict holds is not modelled.
- The Simpson's-rule figure `simps` (ipmisession.py:101) is computed and
  never used. The pandas DataFrame plumbing is modelled as a filter in
  arrival order.
- Float64 rounding: values are `real` and times are integral microseconds.
- The console messages that `stop` and `_compute_session` print
  (ipmisession.py:29, 87, 107, 110) are I/O and are not modelled.
- `debug` and `session_started` (ipmisession.py:16, 20) are never read.
- ipmilogger.py is file I/O. ipmiserve.py is an HTTP server with a thread
  pool, that is, wiring and concurrency. test.py, test2.py and
  _archive/test.py are hardware-bound scripts. None of them is part of this
  model.

## Findings

| source | as written | input that shows it | evidently intended | confidence | as-written member | corrected member |
|---|---|---|---|---|---|---|
| ipmimon.py:149-151 | the bare `except:` handler calls `sys.exc_info()`, but ipmimon.py never imports `sys`, so the handler itself raises a NameError and the failure escapes `_sample_sensors` | a Full record whose reading or conversion raises anything but a `CompletionCodeError` | print "Sample Sensor Error: <exception type>" and return `False`, which counts as an error | not executed | Monitor.SampleSensorAsWritten | Monitor.SampleSensor |
