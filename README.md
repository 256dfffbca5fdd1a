# sidd: a verified model of the VLF SID monitor's core

sidd is a daemon that listens to a VLF receiver through a sound card. It
watches the power in configured frequency bands and records it to files, so
that sudden ionospheric disturbances show up as steps in the signal. This
project models the deterministic core of `sidd.c` in Dafny and proves its
properties.

The model covers:

- **The sample pipeline** (`process_signal`, `insert_sample`,
  `maybe_do_fft`, `process_fft`, `output_record`, `utility_spectrum`).
  - Each raw buffer is unpacked per sample width.
  - Every sample updates its channel's peak and sum of squares.
  - Each sample is windowed into the frame buffer at a cursor shared by both
    channels.
  - When the cursor wraps at FFTWID = 2 × bins, the frame is transformed.
    Its power is added to two accumulators per channel: `powspec` for output
    records and `sigavg` for the utility spectrum.
  - Two frame counters decide when a record and when a utility spectrum are
    due. Each one zeroes its own accumulators afterwards.
  - This is a `Channel` class and a `Monitor` class over arrays. Their
    methods are proved against specification functions, and the invariants
    tie the frame buffers to the exact history of samples taken in.
- **Loss-of-signal hysteresis** (`check_los`): a two-state machine with a
  pending timer and strict comparisons. A change of state raises one alert.
- **The template expander** (`substitute_params`). It expands file names
  and time stamps from a `%` directive set.
  - Calendar fields are taken from `gmtime` of the start of the UTC day.
  - `gmtime` is modelled as a proved inverse of `timegm`.
- **The configuration reader** (`load_config`, `config_band`).
  - Each line is cut at CR, LF and `;`, then split into white-space
    separated fields.
  - Dispatch is on keyword plus field count, matched case-insensitively.
  - Value mappings are enumerated, and the band table has a capacity check.
- **Band averaging and the output policies** (`output_record_multi`,
  `output_record_each`, `output_spectrum_record`). These run against an
  abstract file store.
  - Files are reopened only when the expanded prefix changes.
  - A header is written only when it is wanted and the file is empty.
- **Start-up arithmetic** in `main`: the bin resolution, the frame counts
  and the SPECTRUM bin range.

Doubles are Dafny `real`. The FFT is a function value given to the monitor,
and the Hamming window is a given sequence of coefficients. The clock is a
parameter of every step that reads it.

Modules: `Basics`, `Calendar`, `Template`, `Config`, `Samples`, `Spectrum`,
`Los`, `Output`, `Monitor`, one per `.dfy` file of the same name.

Some of the daemon's behaviour is easy to misread from its configuration
keywords and messages; the model follows the code as written:

- **Templates.** A malformed output template is not rejected at start-up. It
  is fatal at the first record (`sidd.c:611-612`), and a bad time-stamp
  template is not checked at all (`sidd.c:645`).
- **Loss of signal.** A peak equal to the threshold neither starts nor
  cancels the pending timer. The state changes only once the timer is
  strictly older than the timeout (`sidd.c:332-346`).
- **Bands.** The band table takes at most 39 bands, not 40, because the
  counter is incremented before the capacity test (`sidd.c:989-991`).
- **Bin range.** Nothing in the code checks that a band's bins, or the
  SPECTRUM cuton..cutoff range, lie inside the accumulators, nor that the
  sample rate is positive. The model states these as preconditions of the
  monitor.

## Model

| member | source | states |
|---|---|---|
| Basics.ToLower | sidd.c:1083-1085 | tolower in the C locale: only ASCII capitals change, each to the letter 32 code points up |
| Basics.IsSpace | sidd.c:1025-1028 | isspace in the C locale: the space and the control characters 9 to 13, nothing else |
| Basics.EqualsIgnoreCase | sidd.c:997-999 | strcasecmp(a, b) == 0: equal strings match, matches have equal length, and they differ only at letters |
| Basics.Decimal | sidd.c:591-593 | printf "%d"/"%ld" of a non-negative value: a non-empty string of digits, a single digit exactly below 10 |
| Basics.DecimalRoundTrip | sidd.c:591-593 | reading the digits back gives the number again |
| Basics.Pad2 | sidd.c:581-587 | printf "%02d": at least two digits, exactly two below 100, and the digits denote the value |
| Basics.LeadingDigits | sidd.c:994-995 | the longest prefix of digits, as atoi scans it |
| Basics.DropSpace | sidd.c:1025 | the line without its leading isspace characters, and only those removed |
| Basics.AtoiUnsigned | sidd.c:994-995 | atoi of a run of digits is its decimal value |
| Basics.AtoiSigned | sidd.c:994-995 | atoi honours a leading '+' or '-' sign |
| Basics.AtoiDecimal | sidd.c:994-995 | atoi reads back the decimal text of any integer, with or without a sign |
| Basics.Atoi | sidd.c:994-995 | atoi: a blank string reads 0, and a negative value needs a leading minus after the white space |
| Calendar.MonthLength | sidd.c:569-570 | every month of the Gregorian calendar has 28 to 31 days |
| Calendar.MonthsFillYear | sidd.c:569-570 | the twelve months fill the year exactly, leap years included |
| Calendar.FindYear | sidd.c:569-570 | the year search lands on a year that holds the remaining day count, without losing days |
| Calendar.FindMonth | sidd.c:569-570 | the month search lands on a month that holds the remaining day count, without losing days |
| Calendar.CivilFromDays | sidd.c:569-570 | the date of a day number is a valid date whose day number is that number |
| Calendar.FindYearUnique | sidd.c:569-570 | the year search finds the only year that fits |
| Calendar.FindMonthUnique | sidd.c:569-570 | the month search finds the only month that fits |
| Calendar.CivilFromDayNumber | sidd.c:569-570 | every valid date is recovered from its day number, so day numbers and dates correspond one to one |
| Calendar.Gmtime | sidd.c:569-570 | gmtime of a non-negative time gives a valid broken-down time that timegm maps back to that time |
| Calendar.GmtimeOfTimegm | sidd.c:569-570 | gmtime undoes timegm: no two valid broken-down times share a time |
| Calendar.Timegm | sidd.c:569-570 | the time of a broken-down UTC time lies within the day of its date: at or after its midnight, before the next one |
| Calendar.DayStart | sidd.c:569 | tv_sec - tv_sec % 86400 is the last multiple of a day at or before the time, less than a day before it |
| Calendar.DayStartIsMidnight | sidd.c:569-570 | the start of the day breaks down to midnight of the same UTC date |
| Template.DayFields | sidd.c:569-570 | the calendar fields used are a valid broken-down midnight whose time is the start of the day |
| Template.DirectiveText | sidd.c:577-597 | a directive character is unknown exactly outside y m d H M S B U u E e %, and %B fails exactly without a band |
| Template.Expand | sidd.c:565-603 | the meaning of a template read left to right; a missing-band failure happens only when no band is given |
| Template.SubstituteParams | sidd.c:565-603 | the writing loop gives the left-to-right meaning of the template, failures included |
| Template.ExpandLiteral | sidd.c:574 | a template without '%' is copied unchanged |
| Template.ExpandConcat | sidd.c:572-602 | a template that expands fully contributes its text in front of the rest's expansion |
| Template.PercentEscape | sidd.c:580 | "%%" yields one '%' |
| Template.ExpandSucceedsIffWellFormed | sidd.c:577-597 | with a band, a template expands exactly when every '%' (a trailing one included) opens an accepted directive, and otherwise fails on a bad directive |
| Template.NoBandNeedsBandDirective | sidd.c:589-590 | the missing-band failure needs a %B and no band; a well-formed template without %B always expands |
| Template.SuccessIndependentOfBand | sidd.c:671-682 | whether a template expands does not depend on which band is named, so the "ID" test stands for every band |
| Template.ClockFieldsAreZero | sidd.c:569-587 | %H, %M and %S always expand to "00" |
| Template.ClockField | sidd.c:585-587 | any one of %H, %M, %S expands to "00" |
| Template.SecondsDirectives | sidd.c:591-594 | %U is the Unix time and %E the seconds since midnight UTC, below 86400 |
| Template.DirectiveStep | sidd.c:575-597 | an accepted directive contributes its text in front of the rest's expansion |
| Template.DateFileName | sidd.c:581-583 | the default "%y%m%d" name is the two-digit year mod 100, month 1..12 and day, six characters before the suffix |
| Template.SameDaySameExpansion | sidd.c:569-590 | a template of calendar fields, band and literals expands the same at any two times in one UTC day |
| Template.SameDaySameDirective | sidd.c:569-590 | each such directive reads the same within one UTC day |
| Config.Defaults | sidd.c:116-214 | the start values: no bands, mono, 2-byte samples, 2048 bins, BANDS_EACH |
| Config.CutAt | sidd.c:1018-1020 | strchr-and-terminate: the prefix before the first occurrence, which it does not contain |
| Config.Truncate | sidd.c:1018-1020 | the line is cut to its longest prefix free of CR, LF and ';', ending where one of them stood |
| Config.TakeWord | sidd.c:1028 | a field runs to the first white space |
| Config.Fields | sidd.c:1022-1030 | the fields of a line, never more of them than the line has characters |
| Config.FieldsAreWords | sidd.c:1022-1030 | every field is a non-empty run of non-white-space characters |
| Config.WordEnd | sidd.c:1028 | the end of a run of non-white-space characters is at white space or the end of the line |
| Config.FieldsFromIsFields | sidd.c:1022-1030 | scanning position by position gives the maximal runs of non-white-space characters |
| Config.SplitFields | sidd.c:1022-1030 | the tokenizing loop yields exactly the fields of the line |
| Config.FieldsOfJoin | sidd.c:1022-1030 | splitting undoes joining with single spaces |
| Config.Lower | sidd.c:1033-1189 | the keyword in lower case, character by character |
| Config.CaseInsensitiveMatch | sidd.c:1083-1085 | strcasecmp against a lower-case keyword is equality after lower-casing, both ways |
| Config.ConfigBand | sidd.c:987-1004 | a registered band extends the table by one, keeps the earlier bands, and the table stays below MAXBANDS |
| Config.ConfigBandSpec | sidd.c:987-1001 | registration succeeds exactly when a slot is spare and the side is left or right in any case, appending the band; the 40th is refused with the capacity message |
| Config.SideOf | sidd.c:997-1001 | the band side is left exactly when the word is "left" in any case, right exactly when it is "right", and nothing otherwise |
| Config.BytesForBits | sidd.c:1092-1100 | a byte count exists exactly for 8, 16, 24 and 32 bits, and it is 1 to 4, an eighth of the bits |
| Config.ApplySetting | sidd.c:1042-1187 | a setting line is accepted only with two or three fields |
| Config.PolicySetting | sidd.c:1033-1044 | output_policy is accepted exactly for SPECTRUM, BANDS_EACH or BANDS_MULTI in any case, sets that policy, and otherwise is fatal with "unrecognised output policy [value]" |
| Config.HeaderSetting | sidd.c:1109-1116 | output_header is accepted exactly for yes or no in any case, is set exactly for yes, and otherwise is fatal with "expecting yes or no for output_header" |
| Config.PowerSetting | sidd.c:1118-1125 | output_power is accepted exactly for yes or no in any case, is set exactly for yes, and otherwise is fatal with "expecting yes or no for output_power" |
| Config.PeakSetting | sidd.c:1127-1134 | output_peak is accepted exactly for yes or no in any case, is set exactly for yes, and otherwise is fatal with "expecting yes or no for output_peak" |
| Config.SchedSetting | sidd.c:1142-1148 | sched is accepted exactly for high or low in any case, gives high priority exactly for high, and otherwise is fatal with "expecting high or low for sched parameter" |
| Config.DatadirSetting | sidd.c:1157-1163 | datadir is accepted exactly when the value is an existing directory, which becomes the data directory; otherwise it is fatal with "no data directory, value" |
| Config.ScaleSetting | sidd.c:1177-1184 | field_scale is accepted exactly for db or linear in any case, gives the dB scale exactly for db, and otherwise is fatal with "expecting linear or db for field_scale" |
| Config.ApplyLine | sidd.c:1033-1189 | an accepted line never fills the band table |
| Config.ApplyLines | sidd.c:1012-1190 | reading the rest of a file only adds bands: the table read so far stays its prefix |
| Config.LoadConfig | sidd.c:1006-1193 | the reading loop gives the line-by-line meaning of the file from the defaults, stopping at the first fatal line; an accepted table has a spare slot |
| Config.BandTableNeverFull | sidd.c:989-991 | however long the file, at most 39 bands are accepted |
| Config.UnknownLineIsFatal | sidd.c:1188-1189 | a keyword and field count the reader does not know is fatal with the line number |
| Config.FreeLineIsAccepted | sidd.c:1042-1187 | the keywords taken without checks are always accepted and leave the bands alone |
| Config.BitsSetting | sidd.c:1090-1101 | bits is accepted exactly for 8, 16, 24 and 32, setting the width to a eighth of it and nothing else |
| Config.ModeSetting | sidd.c:1081-1088 | mode is accepted exactly for mono or stereo in any case, giving 1 or 2 channels; otherwise fatal with the line number |
| Config.BlankHasNoFields | sidd.c:1031 | a line of white space has no fields |
| Config.CommentLineIgnored | sidd.c:1018-1031 | a line of white space before a ';' changes nothing but the line count |
| Samples.Sample8 | sidd.c:896-897 | (b - 127)/128 lies in [-127/128, 1] and is zero exactly at 127 |
| Samples.Raw16 | sidd.c:914-919 | a little-endian short: 16-bit signed range, negative exactly when the high byte's top bit is set |
| Samples.Raw16RoundTrip | sidd.c:914-919 | byte pairs and 16-bit values correspond one to one |
| Samples.Sample16 | sidd.c:919-920 | v/32768 lies in [-1, 1) and scales back to the raw value |
| Samples.Raw24 | sidd.c:942 | the masked low 24 bits lie in [0, 2^24) |
| Samples.Sample24 | sidd.c:942-943 | the 24-bit sample lies in [0, 2) and scales back to the masked value |
| Samples.Sample24SignBit | sidd.c:942-943 | without sign extension, exactly the samples with the sign bit set land in [1, 2); FF FF FF gives just under 2 |
| Samples.Raw32 | sidd.c:960-965 | a little-endian int: 32-bit signed range, negative exactly when the top byte's top bit is set |
| Samples.Sample32 | sidd.c:965-966 | v/2^31 lies in [-1, 1) and scales back to the raw value |
| Samples.SampleAt | sidd.c:889-979 | a sample of any width lies in [-1, 1], except 24-bit ones in [0, 2) |
| Samples.Slot | sidd.c:901-907 | a channel's sample of period k lies inside period k of the interleaved buffer |
| Samples.ChannelSamples | sidd.c:889-979 | one sample per period for the channel |
| Samples.PeriodSample | sidd.c:901-909 | taking in period i's sample extends the channel's first i samples to its first i + 1 |
| Samples.SlotsInterleave | sidd.c:901-909 | in stereo the left sample comes first and the right one second, and periods follow each other without gaps |
| Spectrum.Power | sidd.c:821-823 | re² + im² is never negative |
| Spectrum.AddPowers | sidd.c:819-826 | accumulating one frame keeps the accumulator's size |
| Spectrum.AddPowersNoDc | sidd.c:818-826 | the record accumulator has a zero DC bin and otherwise grows as the spectrum accumulator does |
| Spectrum.AddPowersGrows | sidd.c:824-825 | accumulating never lowers a bin, so accumulators from zero stay non-negative |
| Spectrum.AddPowersCommute | sidd.c:819-826 | the order in which frames are accumulated does not matter |
| Spectrum.AddAll | sidd.c:819-826 | accumulating any number of frames keeps the accumulator's size |
| Spectrum.TotalPower | sidd.c:821-823 | a bin's total power over frames is never negative |
| Spectrum.AddAllIsTotal | sidd.c:818-826 | after any frames, bin 0 is untouched and every other bin holds its start value plus its total power over the frames |
| Spectrum.BinCoversFrequency | sidd.c:653-654 | a non-negative frequency lies in the bin it is mapped to: n·DF ≤ hz < (n+1)·DF |
| Spectrum.BinOfMonotonic | sidd.c:653-654 | higher frequencies never map to lower bins |
| Spectrum.BinOf | sidd.c:653-654 | the bin of a frequency truncates toward zero: non-negative for a non-negative frequency, never positive for a negative one |
| Spectrum.SumAppend | sidd.c:655 | the band sum of two adjacent runs is the sum of their sums |
| Spectrum.SumBounds | sidd.c:655 | the band sum lies between the count times the least and the greatest bin |
| Spectrum.SumNonNegative | sidd.c:655 | a sum of non-negative bins is non-negative |
| Spectrum.BandPower | sidd.c:650-656 | the band loop gives the inclusive bin sum divided by output_int·(n2 - n1 + 1) |
| Spectrum.BandValue | sidd.c:650-656 | the value of a band is non-negative when its bins are and output_int is positive |
| Spectrum.BandValueIsMean | sidd.c:655-656 | the band value per frame is a mean: between the least and the greatest bin of the band |
| Spectrum.SingleBinBand | sidd.c:655-656 | a one-bin band reports that bin's power per frame |
| Spectrum.BandSplits | sidd.c:655 | splitting a band into two adjacent bands splits its total power |
| Spectrum.SpectrumRow | sidd.c:761-763 | the SPECTRUM record holds the half-open range cuton ≤ i < cutoff, each bin divided by the frame count |
| Spectrum.BinCentre | sidd.c:367-368 | the bin centre (i + 0.5)·DF is positive |
| Spectrum.BinCentreInBin | sidd.c:752 | every bin's centre lies strictly inside the bin's frequency interval, i·DF to (i + 1)·DF |
| Spectrum.OutputInterval | sidd.c:1322-1323 | the frame count is the rounded interval, with 0 replaced by 1, so never 0 |
| Spectrum.OutputIntervalAtLeastOne | sidd.c:1322-1323 | a non-negative interval gives at least one frame per record |
| Los.AlertText | sidd.c:338-351 | the alert is "loss of signal" or "signal restored"; in stereo it is followed by " on " and the channel name |
| Los.CheckLos | sidd.c:328-354 | check_los: the timer afterwards is cleared, kept, or started at the clock reading, nothing else |
| Los.AlertIffChange | sidd.c:334-352 | an alert is raised exactly when the state changes, and its text names the state entered |
| Los.ChangeNeedsTimeout | sidd.c:332-348 | a change needs the peak beyond or on the threshold and a timer strictly older than the timeout, and leaves no timer |
| Los.PeakAtThresholdKeepsTimer | sidd.c:332-346 | a peak equal to the threshold neither starts nor cancels a timer |
| Los.BackCancelsTimer | sidd.c:333-345 | a peak back on the home side cancels the timer and keeps the state, without alert |
| Los.BeyondStartsTimer | sidd.c:332-344 | a peak beyond the threshold with no timer starts one at the clock reading, unless the timeout has already gone by |
| Los.Mirror | sidd.c:330-353 | the lost state is the normal one with the comparisons swapped |
| Los.SustainedLoss | sidd.c:330-340 | a weak signal starts the timer, and once the timeout has gone by the loss is declared with one alert |
| Output.PathOf | sidd.c:618 | the file name is the data directory, a slash, then the prefix |
| Output.PrefixOf | sidd.c:611-612 | a failed prefix expansion is fatal, with the output_files message or the %B message |
| Output.StampOf | sidd.c:645 | a time stamp is never rejected, except a %B without band, which is fatal |
| Output.TextOf | sidd.c:598-601 | the text of an expansion: all of it on success, what was written before a bad directive, nothing for a missing band |
| Output.Append | sidd.c:647-661 | writing appends to the one file and leaves every other file alone |
| Output.Open | sidd.c:622-641 | opening in append mode keeps the contents and adds the header only when wanted and the file is empty |
| Output.SharedStep | sidd.c:605-663 | the single-file step leaves the band handles alone, holds the new file whenever the prefix changes, and only appends to files |
| Output.EachStep | sidd.c:665-718 | the per-band step keeps the single-file handle, holds one handle per band, and on a new prefix the handle of each band's own file |
| Output.OpenAll | sidd.c:679-686 | opening files in append mode removes none and creates every one listed |
| Output.Records | sidd.c:702-717 | the record loop only appends: every file keeps its earlier lines as a prefix |
| Output.NoHandles | sidd.c:1003 | every band starts with no output handle |
| Output.BandFiles | sidd.c:679-683 | one file name per band, in table order |
| Output.Handles | sidd.c:679-684 | one handle per opened file |
| Output.OpenBand | sidd.c:684-697 | fopen of one band's file creates it, and the header goes into the new handle exactly when wanted and stat finds the file empty |
| Output.OpenNext | sidd.c:679-699 | one turn of the reopening loop extends the files opened, the handles held and the buffered headers by one band |
| Output.OutputFiles.constructor | sidd.c:205 | the daemon starts with an empty prefix, no shared file open and no band handle |
| Output.OutputFiles.WriteShared | sidd.c:605-663 | a BANDS_MULTI or SPECTRUM record updates the store as the single-file step specifies, or fails with its message |
| Output.OutputFiles.WriteEach | sidd.c:665-718 | a BANDS_EACH record updates the store as the per-band step specifies, headers buffered per handle included, or fails with its message |
| Output.OutputFiles.ReopenBands | sidd.c:679-699 | the reopening loop opens every band's file in order, holds one handle per band, and returns each handle's header, decided against the files as they were before the loop |
| Output.OutputFiles.WriteRecords | sidd.c:702-717 | the record loop writes, through each band's handle, what it buffered and then the band's record |
| Output.SharedFatalCases | sidd.c:611-645 | a single-file policy fails only on a bad output_files template or a %B, and always writes with well-formed templates free of %B |
| Output.BadDirectiveIgnoresBand | sidd.c:611-671 | a template failing on a bad directive without a band also fails with one |
| Output.SharedRecordPlacement | sidd.c:614-647 | reopening happens exactly when the prefix changes; the record lands after the header, which is written only when wanted into an empty file; other files are untouched |
| Output.SameDaySameFile | sidd.c:614 | with the default date template, a second record on the same UTC day goes to the same file without reopening |
| Output.EachFatalCases | sidd.c:671-672 | BANDS_EACH fails exactly on a malformed output_files template |
| Output.OpenAllStep | sidd.c:679-699 | opening one more band's file, holding one more handle |
| Output.HandlesStep | sidd.c:679-699 | one more band holds one more handle, on its file |
| Output.BufferedStep | sidd.c:687-697 | one more band buffers its own header decision |
| Output.OpenAllKeeps | sidd.c:684-686 | opening writes nothing: every file keeps its lines |
| Output.RecordsPerBand | sidd.c:702-717 | with distinct handles each band's file gains exactly that band's record |
| Output.RecordsUntouched | sidd.c:702-717 | files no band writes to are untouched |
| Output.RecordsOneFile | sidd.c:702-717 | with every band on one file, the file gains each band's buffered lines and record, band after band |
| Output.EachStepReopened | sidd.c:674-717 | on a new prefix every band's file is opened, one handle per band, and each record follows what its handle buffered |
| Output.EachRecordPlacement | sidd.c:674-717 | on a new prefix each band's file gets the header when wanted and empty, then that band's own record |
| Output.EachSharedFile | sidd.c:679-717 | when every band shares one file, each band brings its own header, when wanted and the file was empty, before its own record |
| Output.BandFileWithoutBand | sidd.c:671-682 | with a template without %B every band's file is the one the stand-in "ID" names |
| Output.TwoBandsTwoHeaders | sidd.c:679-717 | two bands on one empty file with headers on: header, record, header, record |
| Output.EachOtherFiles | sidd.c:674-717 | a BANDS_EACH record leaves alone every file that is neither a band's new file nor one it already holds |
| Monitor.CounterAfter | sidd.c:858-867 | a frame counter is never negative |
| Monitor.CounterDivMod | sidd.c:858-862 | with a limit of at least 1 the counter is the count mod the limit and the firings are the count div the limit |
| Monitor.CounterNeverFires | sidd.c:864-868 | a limit below 1 (uspec_max = 0 without a spectrum file) never fires |
| Monitor.FiresOnMultiples | sidd.c:858-867 | a counter fires on count n + 1 exactly when the limit is at least 1 and divides n + 1, and it then reads 0 |
| Monitor.CycleStep | sidd.c:852-867 | one more count fires exactly when the counter reaches its limit, and restarts it from zero |
| Monitor.CounterAtMost | sidd.c:852-867 | a counter never exceeds the counts |
| Monitor.ProgressTrans | sidd.c:875-981 | progress over two stretches of sample periods is progress over both |
| Monitor.BandValues | sidd.c:650-656 | one value per band |
| Monitor.MultiFields | sidd.c:647-660 | a BANDS_MULTI record is the two peaks, the two sums of squares per FFTWID samples (before the square root), then the band values |
| Monitor.Freqs | sidd.c:750-752 | the SPECTRUM header has one frequency per recorded bin |
| Monitor.UtilityRow | sidd.c:366-372 | a utility-spectrum line is the bin centre, then the left accumulator over uspec_max, then in stereo the right one over uspec_max |
| Monitor.UtilityRows | sidd.c:366-372 | one line per bin |
| Monitor.Windowed | sidd.c:847 | each stored sample is the sample times its position's window coefficient |
| Monitor.WindowedStep | sidd.c:847 | storing a sample at the cursor extends the windowed tail by that sample |
| Monitor.TailFull | sidd.c:847-853 | a full frame buffer holding the windowed tail of the samples is the last FFTWID samples, windowed |
| Monitor.PeakFrom | sidd.c:843-844 | the peak since a clear-down is non-negative, at least every magnitude taken in since, and one of them |
| Monitor.SumFrom | sidd.c:842 | the sum of squares since a clear-down is non-negative |
| Monitor.AccumulatedStep | sidd.c:841-844 | insert_sample's peak and sum updates keep them the peak and sum of squares of the samples since the clear-down |
| Monitor.PeakFromStep | sidd.c:843-844 | one more sample: the peak becomes the larger of the old peak and the new magnitude |
| Monitor.SumFromStep | sidd.c:842 | one more sample: the sum gains its square |
| Monitor.AccumulatedCleared | sidd.c:795-800 | right after a clear-down, zero peak and zero sum are those of no samples |
| Monitor.Channel.constructor | sidd.c:1227-1239 | both accumulators zeroed; no peak, no energy, signal present with no timer |
| Monitor.Channel.InsertSample | sidd.c:841-848 | the square is added to the sum, the peak becomes max(peak, abs f), and the windowed sample is stored at the cursor |
| Monitor.Channel.ProcessFft | sidd.c:808-829 | both accumulators gain the frame's power with the record's DC bin zeroed, and check_los runs on the peak |
| Monitor.Zeros | sidd.c:1238 | zeroed accumulators have the bin count and are non-negative |
| Monitor.Idents | sidd.c:638-639 | one identifier per band |
| Monitor.ZeroArray | sidd.c:798 | the zeroing loop clears every element |
| Monitor.Monitor.constructor | sidd.c:1310-1336 | start-up: the settings, bands, bin count, window, transform and threshold are kept, FFTWID is twice the bins, cuton and cutoff are the bins of range1 and range2 under SPECTRUM (0 otherwise), frame counts from the rounded intervals (0 becomes 1), uspec_max 0 without a spectrum file, counters zero, no samples taken in; the channels are named "left" and "right" as their static initialisation (sidd.c:186) gives, with no loss of signal and no timer, no peak and no energy, and fresh zeroed accumulators even in mono |
| Monitor.Monitor.ProcessFrame | sidd.c:855-856 | the left channel is processed, then the right one only in stereo; the alerts are appended in that order |
| Monitor.Monitor.ComputeBandValues | sidd.c:650-656 | the band loop gives each band's value from its side's accumulator |
| Monitor.Monitor.RecordStep | sidd.c:786-791 | the record goes by output policy: SPECTRUM and BANDS_MULTI write the shared file and leave every band file alone; BANDS_EACH writes band files only, leaving the shared file alone; a band file for each band remains |
| Monitor.Monitor.SpectrumFields | sidd.c:761-767 | the field loop gives the SPECTRUM row |
| Monitor.Monitor.ClearRecord | sidd.c:795-800 | powspec, peak and sum of squares of both channels are zeroed, even in mono; loss-of-signal state is kept |
| Monitor.Monitor.OutputRecord | sidd.c:773-801 | the record of the configured policy is written, then the clear-down; a fatal output error is returned |
| Monitor.Monitor.UtilitySpectrum | sidd.c:356-377 | without a file nothing changes; otherwise the file is rewritten and the left sigavg is zeroed, the right one only in stereo |
| Monitor.Monitor.MaybeDoFft | sidd.c:850-869 | the cursor advances and nothing else changes until it wraps; on the wrap the new state is the one FrameStep gives for the frame buffers' spectra, and the clear-down point moves to the current sample exactly when a record is written |
| Monitor.Monitor.Tick | sidd.c:852 | one more sample period within the frame, the frame still the tail of the samples |
| Monitor.Monitor.Wrap | sidd.c:852-868 | the cursor goes back to zero and the new state is the one FrameStep gives for the frame buffers' spectra; the clear-down point moves exactly when a record is written |
| Monitor.Monitor.Rewind | sidd.c:852-853 | the cursor wraps exactly when it reaches FFTWID, counting one more frame and changing nothing else |
| Monitor.Monitor.FullFrame | sidd.c:853-868 | a full frame gives the state FrameStep states: Transformed, then the record counter as AfterRecord, then unless the record failed the utility counter as AfterSpectrum; the clear-down point moves exactly when a record is written |
| Monitor.Monitor.FrameDone | sidd.c:858-868 | the output counter and then the utility counter advance as AfterRecord and AfterSpectrum state; an output error skips the utility spectrum and leaves the accumulators, peaks and sums as they were |
| Monitor.Monitor.RecordTick | sidd.c:858-862 | the output counter advances, as AfterRecord states; the clear-down point moves exactly when a record is written |
| Monitor.Monitor.FireRecord | sidd.c:859-861 | at output_int the counter restarts, the record of the policy is written from the accumulators, and then both record accumulators are zeroed and the peaks and sums cleared, as AfterRecord states; after an output error only the files, the counter and the record count have moved |
| Monitor.Monitor.SpectrumTick | sidd.c:864-868 | the utility counter advances and the new state is AfterSpectrum's: at uspec_max the utility spectrum is written from sigavg and sigavg is cleared, the right one only in stereo |
| Monitor.Monitor.Transformed | sidd.c:808-829 | a transformed frame keeps the accumulator sizes and the files, and moves only the four accumulators, the alerts and the two loss-of-signal states |
| Monitor.Monitor.AfterRecord | sidd.c:858-862 | the output counter fails only when it fires; it restarts at output_int with one more record and otherwise counts up; only the files, the counters, the record accumulators, peaks and sums move |
| Monitor.Monitor.AfterSpectrum | sidd.c:864-868 | one more utility spectrum exactly when the counter reaches uspec_max of at least 1; only that counter, the spectrum count, the utility file and the spectrum accumulators move |
| Monitor.Monitor.DoneOf | sidd.c:858-868 | a record step followed, unless it failed, by a spectrum step is the counters' part of a frame step |
| Monitor.Monitor.TakePeriod | sidd.c:901-907 | one period inserts the left sample and, in stereo, the right one: each history grows by it and only the peaks and sums move, the right channel's not at all in mono |
| Monitor.Monitor.FeedLeft | sidd.c:904 | insert_sample on the left channel: the windowed sample at the cursor, the peak max(peak, abs f), the sum plus f² |
| Monitor.Monitor.FeedRight | sidd.c:907 | insert_sample on the right channel: the windowed sample at the cursor, the peak max(peak, abs g), the sum plus g² |
| Monitor.Monitor.Fed | sidd.c:841-844 | taking in samples moves only the peaks and sums, and the peaks never drop below the new magnitudes |
| Monitor.Monitor.OnePeriod | sidd.c:901-909 | one sample period as PeriodStep states: until the frame is full only the cursor, peaks and sums move; on the full frame, which always holds FFTWID samples since start-up and follows the clear-down, the last FFTWID samples windowed are transformed and the record sees the peak and sum since the clear-down; the clear-down point moves exactly when a record is written |
| Monitor.Monitor.Advance | sidd.c:850-869 | maybe_do_fft after the samples are taken in completes the period as PeriodStep states, and the clear-down point moves exactly when a record is written |
| Monitor.Monitor.PeriodOf | sidd.c:901-909 | inserting then maybe_do_fft make up one period as PeriodStep states |
| Monitor.Monitor.FrameArgs | sidd.c:847-856 | on a full frame, the frame buffers are the last FFTWID samples windowed and the peaks and sums are those since the clear-down |
| Monitor.Monitor.FrameOf | sidd.c:847-855 | the spectrum of a full frame buffer is the spectrum of the last FFTWID samples, windowed |
| Monitor.Monitor.FrameStepMono | sidd.c:855-856 | in mono the right frame buffer plays no part in a frame step |
| Monitor.Monitor.PeriodProgress | sidd.c:901-909 | a sample period only appends alerts, and changes files only with a record and the utility spectrum only with a spectrum |
| Monitor.Monitor.FrameProgress | sidd.c:853-868 | so does a full frame |
| Monitor.Monitor.BufferPeriod | sidd.c:901-909 | period i of the buffer is taken in, extending each channel's samples from the first i periods to the first i + 1, and makes progress |
| Monitor.Monitor.ProcessBuffer | sidd.c:875-981 | alerts are only appended and files and utility spectrum change only with a record or spectrum; without an output error every sample of the buffer is taken in, in order, and the frame is the tail of them |
| Monitor.Monitor.Tally | sidd.c:850-868 | the frames are the samples over FFTWID, the records the frames over output_int and the utility spectra the frames over uspec_max, none for an interval below 1 |

## Left out

- Sound card setup and reads (OSS and ALSA) and the retry loop around them are not modelled. A buffer arrives as a parameter of `ProcessBuffer`, with the number of periods read, and the outer endless `while (1)` loop of `process_signal` is left to the caller.
- Logging, mail alerts, daemonising, signal handlers and real-time scheduling are OS plumbing and are not modelled. An alert is a string appended to `alerts`, and a fatal error is an error result instead of `exit`.
- FFTW planning and execution are not modelled. The transform is a function value of the monitor, giving n/2 + 1 bins for n samples.
- The Hamming window's `sin` coefficients (`setup_hamming_window`) are not computed. The window is a sequence given to the monitor.
- `sqrt` and `log10` are not modelled. The BANDS_MULTI record carries sum of squares over FFTWID, without the square root. The dB conversion of `field_scale db` (`CF_offset_db + 10·log10(e + 1e-9)`) is not applied to written values.
- `rint` of the output and utility intervals is an input. The constructor takes the rounded frame counts.
- printf formatting of floating values (`%.3f`, `%.5e`, `field_format`) is not modelled. Lines keep their numbers, and `%u` and `%e` keep their text as given.
- `atof` is not modelled. Floating settings (`output_interval`, `los` threshold, `utility_spectrum` seconds, `offset_db`) keep their text, and the monitor takes the threshold as a real.
- Calendar.Gmtime: only non-negative times are modelled.
- Integer overflow of C `int` and `time_t` is not modelled (counters, `atoi`, `los_time + timeout`).
- Fixed buffer sizes are not modelled: 100-byte names, 50-byte band identifiers, the 20-entry field array, and `fgets` reading 99 bytes of a longer line at a time.
- `fopen` and `stat` failures, `fclose` and `fflush` are not modelled. Of stdio buffering, only the BANDS_EACH header that waits in a band's handle until that handle is first written is modelled. Every other line reaches its file when written.
- The `datadir` test is a set of directory paths given to the reader, not a call to `stat`.
- Samples.Raw16, Samples.Raw24, Samples.Raw32: the buffer is read as little-endian. The 24-bit read takes the low three bytes of a four-byte word, so reading the byte after the last sample is not modelled.
- Spectrum.BinCoversFrequency: the bin of a frequency is computed exactly as hz·FFTWID/rate truncated toward zero. The daemon divides by the double DF, so the model does not capture results that differ from the exact quotient by rounding.
- Monitor.Monitor.constructor: requires at least one bin, a positive sample rate, and every band's bins within the accumulators with its start bin not after its end bin. This holds even under SPECTRUM, where the bands are never read. Under SPECTRUM it also requires the cuton..cutoff range within the accumulators. The daemon checks none of these.
- Output.StampOf, Output.TextOf: after a bad directive in the time stamp template, `substitute_params` returns without writing the terminating NUL (sidd.c:601 writes it only on success), so the daemon prints undefined bytes after the partial text. The model takes the text written before the bad directive.
- Monitor.Monitor.ProcessFrame: check_los reads the clock twice. Both readings are the buffer's clock here, so a timer started and tested in the same call sees one time.
- Monitor.Monitor.ProcessBuffer: one clock reading serves the whole buffer. The daemon calls `gettimeofday` for each record.
- The debug `report` of peak and RMS in `output_record` is logging and is not modelled.
- Monitor.Monitor.FireRecord, Monitor.Monitor.OutputRecord, Output.OutputFiles.WriteShared, Output.OutputFiles.WriteEach: after a fatal output error the contents of the output files are not stated. The daemon exits through `bailout` at that point and writes nothing more, so the model states only that the record count and the output counter moved and that the accumulators, peaks and sums are left as they were.
- `nread`, `card_delay`, `sched`, `device`, `mail`, `output_power`, `output_peak` and `logfile` are read into the settings but not used further. What uses them is I/O or scheduling.
