# Barracuda temperature and fan check, modelled in Dafny

`check_usolved_barracuda_temperature.py` is a monitoring plugin. It reads three
walks of a Barracuda firewall's sensor table over SNMP: the names, the type
codes and the readings. It zips them into records and makes one pass over the
records. The pass rates every fan (type "1") and temperature sensor
(type "2") that the `-O` filter selects: a fan reading 0 is critical, and a
temperature is compared with the `-c` and then the `-w` threshold (fans are
never compared with a threshold). It keeps the worst status. It prints a status line (`OK`, `WARNING`, `CRITICAL`
or `UNKNOWN`, then the alarm texts or a summary of what was found), then one
detail line per checked sensor, with the perfdata, if any, after the last
line. Without a hostname it prints a two-line usage message instead. The exit
code encodes the status (0 to 3).

The model follows the script's own structure:

- `wrappers.dfy`: `Option`.
- `text.dfy` (module `Text`): the Python string operations the script uses.
  These are `rstrip()`, `replace`, the negative slice `s[:-n]` and `str()` of
  a count. The script never calls `join`. Inside the loop over the records
  it builds the alarm texts, the temperature entries and the perfdata by
  appending `part + sep`, and after the loop it slices the last separator
  off with `[:-2]` or `[:-1]`. The OK summary is built from two conditional
  appends of `clause + " / "` and one `[:-3]`. `Text.Join` is the model's reference
  definition of that result, and `DropTerminator` proves that the
  append-and-slice idiom gives it. The detail block is built the other way
  round, by appending `"\n" + line`, and is never cut; that is
  `Text.Prefixed`.
- `nagios.dfy` (module `Nagios`): the four status keys, the `return_code`
  map, and the worst-wins update of the key.
- `collector.dfy` (module `Collector`): the line clean-up of
  `get_sensors_execute` and the index loop of `get_sensors`.
  `CleanLines` and `Zip` are methods with loops.
- `evaluation.dfy` (module `Evaluation`):
  - `check_sensors` as imperative code. `CheckSensors` loops over an `array`
    of records and rewrites the names of renamed records in place, as line 209
    does. `Visit` is one turn of that loop. `Compose`, `OkSummary` and
    `PerfdataText` are the code after the loop.
  - Specification functions for what the loop accumulates: `Worst`,
    `Alarms`, `FanCount`, `TempCount`, `Details`, `TempEntries`, `PerfTokens`.
  - `Evaluate`, the report they make together.
  - `Pass`, the loop's locals after any prefix of the records. `PassTracks`
    proves that `Pass` agrees with the specification functions.
- `properties.dfy` (module `Properties`): what the pass promises, proved about
  `Evaluate` and the specification functions. Each lemma other than the
  `Example*` ones is valid for every input; those are about two fixed
  records.
- `plugin.dfy` (module `Plugin`): the main block. `Run` handles the
  missing-hostname message, collection, the check, the `" | "` perfdata
  separator and the exit code.

Numbers are abstract. `Numerics` holds three functions:

- `Numerics.parseFloat` is Python's `float()`;
- `Numerics.parseInt` is `int()`;
- `Numerics.show` is `str()` of a float.

Either parse function returns None where Python raises a ValueError. The
script handles no ValueError, so such a reading ends the run. `CheckSensors`
then returns None and `Run` returns `Crashed`. `float()` runs on every type "2"
reading, whatever the filter (line 168). `int()` runs only on type "1" readings
while fans are checked (line 175). The degrees are `float(value) / 1000`,
computed exactly as a real.

The thresholds are `Option<real>`, already converted. None means the option
was not given or was empty, which Python's truthiness test at lines 180 and
185 skips. A threshold of 0 is set.

Two behaviours of the code a reader might not expect:

- The code does not check that the three walks have the same length. It runs
  once per name, fails on shorter type or value walks, and drops extra
  entries. The model states this as the precondition
  `|types| >= |names| && |values| >= |names|`, not as an error result.
- The code strips only trailing whitespace (`rstrip`), not leading whitespace.

## Model

| member | source | states |
|---|---|---|
| Nagios.Name | check_usolved_barracuda_temperature.py:50 | the key strings "OK", "WARNING", "CRITICAL" and "UNKNOWN" that start the status line at lines 238, 242 and 246; distinct keys have distinct names (`Nagios.NameInjective`) |
| Nagios.NameInjective | check_usolved_barracuda_temperature.py:238-246 | two keys print the same string exactly when they are the same key |
| Nagios.ReturnCode | check_usolved_barracuda_temperature.py:50 | the exit codes are OK 0, WARNING 1, CRITICAL 2, UNKNOWN 3, never above 3 |
| Nagios.ReturnCodeInjective | check_usolved_barracuda_temperature.py:50 | two statuses have the same exit code exactly when they are the same status |
| Nagios.Escalate | check_usolved_barracuda_temperature.py:177-190 | raising an alarm sets the key to the more severe of the key and the alarm's level, so a warning never lowers CRITICAL; the key never becomes UNKNOWN during the pass |
| Text.RStrip | check_usolved_barracuda_temperature.py:112 | `rstrip()` keeps a prefix of the line; the prefix does not end in whitespace, and everything it cuts is whitespace |
| Text.Delete | check_usolved_barracuda_temperature.py:112 | `replace('"', '')` leaves no occurrence of the character, never lengthens the text, and is the identity on text without it |
| Text.DeleteConcat | check_usolved_barracuda_temperature.py:112 | deleting a character from two texts joined end to end gives the two deletions joined, so the kept characters stay in their order |
| Text.DeleteCounts | check_usolved_barracuda_temperature.py:112 | deleting a character keeps every other character exactly as often as before |
| Text.Replace | check_usolved_barracuda_temperature.py:209 | `replace(" ", "-")` keeps the length, and each position holds the replacement where the original held the replaced character and the original character elsewhere |
| Text.DropLast | check_usolved_barracuda_temperature.py:229-232 | `s[:-n]` removes the last n characters, or gives "" when the text is shorter than n |
| Text.DropTerminator | check_usolved_barracuda_temperature.py:246 | cutting the final separator off text built as part + separator for each of one or more parts gives the parts joined by the separator |
| Text.TerminatedSnoc | check_usolved_barracuda_temperature.py:177 | appending `part + sep` to the text built from some parts gives the text built from those parts and one more |
| Text.PrefixedSnoc | check_usolved_barracuda_temperature.py:199 | appending `"\n" + line` to the detail text built from some lines gives the text built from those lines and one more |
| Text.NatToString | check_usolved_barracuda_temperature.py:226 | `str(count_fan)` is a non-empty string of decimal digits, with no leading zero for a positive count, whose value is the count |
| Collector.Clean | check_usolved_barracuda_temperature.py:112 | a cleaned line holds no `"`, is never longer than the raw line, and a line with no quote and no trailing whitespace comes back unchanged |
| Collector.CleanKeepsCharacters | check_usolved_barracuda_temperature.py:112 | cleaning only removes characters: no character occurs more often than in the raw line |
| Collector.CleanLines | check_usolved_barracuda_temperature.py:106-114 | one entry per output line, in order, entry i being the cleaned line i |
| Collector.Zip | check_usolved_barracuda_temperature.py:133-145 | given type and value walks at least as long as the name walk, exactly one record per name, record i holding name i, type i and value i |
| Collector.GetSensors | check_usolved_barracuda_temperature.py:117-145 | the records are the cleaned walks zipped position by position, and no field of any record holds a `"` |
| Collector.Records | check_usolved_barracuda_temperature.py:133-145 | the record list of three walks: record i holds the cleaned name, type and reading of line i |
| Evaluation.AlarmOf | check_usolved_barracuda_temperature.py:175-190 | a record raises at most one alarm; only a record the filter selects can alarm; an alarm is CRITICAL or WARNING, and only a temperature can warn (when an alarm fires is `Properties.AlarmRules`) |
| Evaluation.WatchesFans | check_usolved_barracuda_temperature.py:175 | `arg_object == 'all' or arg_object == 'fan'`: the filter checks fans |
| Evaluation.WatchesTemps | check_usolved_barracuda_temperature.py:180 | `arg_object == 'all' or arg_object == 'temp'`: the filter checks temperatures |
| Evaluation.IsFan | check_usolved_barracuda_temperature.py:195 | a type "1" record under a filter that checks fans, the test of lines 175 and 195 |
| Evaluation.IsTemp | check_usolved_barracuda_temperature.py:201 | a type "2" record under a filter that checks temperatures, the test of lines 180, 185 and 201 |
| Evaluation.Matches | check_usolved_barracuda_temperature.py:195-201 | the record is counted and gets a detail line: it is a checked fan or a checked temperature sensor, never both (`Properties.FanOrTemp`) |
| Evaluation.PerfdataOn | check_usolved_barracuda_temperature.py:208 | `arg_perfdata == 'yes'`, tested at lines 208 and 286 |
| Evaluation.NotWorking | check_usolved_barracuda_temperature.py:177 | a stopped fan's alarm text, `"<name> is not working"` |
| Evaluation.Degrees | check_usolved_barracuda_temperature.py:182-187 | a temperature's alarm text, `"<name> is <degrees> *C"` |
| Evaluation.DegreesEntry | check_usolved_barracuda_temperature.py:205-206 | a temperature's detail and summary entry, `"<name>: <degrees> *C"` |
| Evaluation.TempEntry | check_usolved_barracuda_temperature.py:205-206 | that entry for a record, with `str()` of its degrees |
| Evaluation.RpmEntry | check_usolved_barracuda_temperature.py:199 | a fan's detail line, `"<name>: <reading> RPM"` |
| Evaluation.FanEntry | check_usolved_barracuda_temperature.py:199 | that line for a record, with the raw reading |
| Evaluation.PerfPair | check_usolved_barracuda_temperature.py:210 | a perfdata token, `"<name>=<degrees>"` |
| Evaluation.PerfToken | check_usolved_barracuda_temperature.py:209-210 | that token for a record, with the spaces of its name turned into dashes |
| Evaluation.FanStopped | check_usolved_barracuda_temperature.py:175 | a checked fan whose reading `int()` turns into 0, the first rule of the chain |
| Evaluation.AtCritical | check_usolved_barracuda_temperature.py:180 | a checked temperature at or above a set critical threshold |
| Evaluation.AtWarning | check_usolved_barracuda_temperature.py:185 | a checked temperature at or above a set warning threshold |
| Evaluation.Parses | check_usolved_barracuda_temperature.py:167-175 | a record is handled without a ValueError when its reading converts: with `float()` for every type "2" record whatever the filter, with `int()` for a type "1" record while fans are checked |
| Evaluation.Celsius | check_usolved_barracuda_temperature.py:167-170 | the degrees of a record: `float(value) / 1000` for type "2", 0.0 for any other type |
| Evaluation.Rename | check_usolved_barracuda_temperature.py:208-209 | with perfdata "yes" a checked temperature sensor's name has every space turned into a dash and every other character kept in place (so the length is the same and no space is left); type and reading are kept, and every other record is unchanged |
| Evaluation.Alarms | check_usolved_barracuda_temperature.py:177-187 | the alarm texts the `return_msg_put` accumulator collects, one per alarming record, in record order |
| Evaluation.FanCount | check_usolved_barracuda_temperature.py:195-196 | `count_fan`: the number of checked fans, at most the number of records |
| Evaluation.TempCount | check_usolved_barracuda_temperature.py:201-202 | `count_temp`: the number of checked temperature sensors, at most the number of records |
| Evaluation.Details | check_usolved_barracuda_temperature.py:195-205 | the lines `return_msg_extended_put` collects: an RPM line per checked fan and a degrees line per checked temperature sensor, in record order |
| Evaluation.TempEntries | check_usolved_barracuda_temperature.py:206 | the entries `return_msg_put_temp` collects, one per checked temperature sensor |
| Evaluation.PerfTokens | check_usolved_barracuda_temperature.py:208-210 | the tokens `return_perfdata_put` collects, one per checked temperature sensor with perfdata "yes" |
| Evaluation.FanClause | check_usolved_barracuda_temperature.py:219-226 | `"<n> fan"` for one fan, `"<n> fans"` for more |
| Evaluation.OkClauses | check_usolved_barracuda_temperature.py:219-229 | the at most two clauses of an OK summary: the fan clause when a fan was counted and the temperature entries when a temperature was counted |
| Evaluation.Evaluate | check_usolved_barracuda_temperature.py:213-260 | the report of records that all convert: the key, `return_msg` with its detail block, and `return_perfdata`; the lemmas under `Properties` state what it promises |
| Evaluation.FirstFailure | check_usolved_barracuda_temperature.py:167-175 | the index of the first record whose reading `float()` or `int()` rejects: every record before it converts, the record at it does not |
| Evaluation.Worst | check_usolved_barracuda_temperature.py:153 | the key is never UNKNOWN while the records are being rated |
| Evaluation.AlarmsIffNotOk | check_usolved_barracuda_temperature.py:215-246 | there is an alarm text exactly when the key has left OK, so the OK branch and the alarm branch of the message are the only two cases |
| Evaluation.TempEntriesCount | check_usolved_barracuda_temperature.py:202-206 | there is exactly one temperature entry per counted temperature sensor |
| Evaluation.TempEntriesNonEmpty | check_usolved_barracuda_temperature.py:206 | no temperature entry is empty |
| Evaluation.SteppedTracks | check_usolved_barracuda_temperature.py:163-210 | one turn of the loop moves each local (key, alarm text, temperature text, perfdata text, detail text, both counts) on by exactly that record's contribution |
| Evaluation.PassTracks | check_usolved_barracuda_temperature.py:153-210 | after any prefix of the records the loop's locals hold the worst level, the alarm texts, the temperature entries, the perfdata tokens and the detail lines of that prefix, each followed or preceded by its separator, and the two counts |
| Evaluation.Visit | check_usolved_barracuda_temperature.py:163-210 | one turn fails exactly when the record's reading does not convert; otherwise the locals move on by that record and the record comes out renamed as line 209 renames it |
| Evaluation.OkSummary | check_usolved_barracuda_temperature.py:215-232 | `sensor_output` is the fan clause and the temperature clause that are present, joined by " / ", and is empty when neither is |
| Evaluation.OkClausesEmpty | check_usolved_barracuda_temperature.py:237-242 | the OK summary is empty exactly when both counts are zero, which is when the key becomes UNKNOWN |
| Evaluation.PerfdataText | check_usolved_barracuda_temperature.py:259-260 | `return_perfdata` is the perfdata tokens joined by single spaces, with no trailing space |
| Evaluation.Compose | check_usolved_barracuda_temperature.py:215-263 | the code after the loop produces exactly the report `Evaluate` describes |
| Evaluation.CheckSensors | check_usolved_barracuda_temperature.py:149-263 | the pass fails exactly when some reading does not convert; otherwise it returns the `Evaluate` report; records before the failing one are renamed and the rest are untouched |
| Properties.WorstIsMaximum | check_usolved_barracuda_temperature.py:153-190 | the key is at least as severe as every record's alarm, and when it is not OK some record raised exactly that level |
| Properties.WorstCases | check_usolved_barracuda_temperature.py:175-190 | the key is CRITICAL exactly when some record is critical; WARNING exactly when some record warns and none is critical; OK exactly when no record alarms |
| Properties.WorstConcat | check_usolved_barracuda_temperature.py:178-190 | the key over two runs of records is the more severe of their keys |
| Properties.CriticalSticks | check_usolved_barracuda_temperature.py:183-190 | later records never lower the key, and a key that reached CRITICAL stays CRITICAL |
| Properties.AlarmsConcat | check_usolved_barracuda_temperature.py:177-187 | the alarm texts come in record order |
| Properties.DetailsConcat | check_usolved_barracuda_temperature.py:199-205 | the detail lines come in record order |
| Properties.TempEntriesConcat | check_usolved_barracuda_temperature.py:206 | the temperature entries come in record order |
| Properties.PerfTokensConcat | check_usolved_barracuda_temperature.py:210 | the perfdata tokens come in record order |
| Properties.CountsConcat | check_usolved_barracuda_temperature.py:196-202 | the fan and temperature counts add up over runs of records |
| Properties.OneRecord | check_usolved_barracuda_temperature.py:175-210 | wherever a record stands it adds at most one alarm text, one to the fan or the temperature count and one detail line when it matches the filter, and a perfdata token only as a matching temperature with perfdata "yes" |
| Properties.DetailsCount | check_usolved_barracuda_temperature.py:195-205 | there is one detail line per counted record |
| Properties.PerfTokensCount | check_usolved_barracuda_temperature.py:208-210 | there is one perfdata token per counted temperature sensor with perfdata "yes", and none otherwise |
| Properties.NothingCounted | check_usolved_barracuda_temperature.py:195-202 | both counts are zero exactly when no record matches the filter |
| Properties.QuietRecordKeepsKey | check_usolved_barracuda_temperature.py:175-190 | a record that raises no alarm leaves the key as it would be without it |
| Properties.IgnoredRecord | check_usolved_barracuda_temperature.py:175-210 | a record the filter does not select leaves the whole report as it would be without it |
| Properties.NoSensorsFound | check_usolved_barracuda_temperature.py:237-242 | the report is UNKNOWN exactly when no record matches the filter, and then its message is "UNKNOWN - No sensors found" and it has no perfdata |
| Properties.UnknownFilter | check_usolved_barracuda_temperature.py:175-201 | a filter other than "all", "fan" and "temp" gives UNKNOWN with "No sensors found" |
| Properties.StoppedFan | check_usolved_barracuda_temperature.py:175-178 | a checked fan reading 0 makes the report CRITICAL wherever it stands; its "is not working" text is among the alarm texts of the message |
| Properties.FanOrTemp | check_usolved_barracuda_temperature.py:195-201 | no record is both a checked fan and a checked temperature sensor |
| Properties.AlarmRules | check_usolved_barracuda_temperature.py:175-190 | a record is CRITICAL exactly when it is a checked fan reading 0 or a checked temperature at or above a set critical threshold; WARNING exactly when it is a checked temperature at or above a set warning threshold and not at the critical one; quiet otherwise, so a running fan or an unset threshold never alarms; the texts are "is not working" for the fan and the degrees text for temperatures |
| Properties.HotTemperature | check_usolved_barracuda_temperature.py:180-183 | a checked temperature at or above a set critical threshold makes the report CRITICAL wherever it stands, with its degrees text among the alarm texts |
| Properties.WarmTemperature | check_usolved_barracuda_temperature.py:185-190 | a checked temperature at or above the warning threshold and below the critical one makes the report at least WARNING, with its degrees text among the alarm texts |
| Properties.WarningOnly | check_usolved_barracuda_temperature.py:185-190 | with a temperature at the warning threshold, no stopped fan and no temperature at the critical threshold, the report is WARNING |
| Properties.NoThresholds | check_usolved_barracuda_temperature.py:175-242 | with no thresholds set and no stopped fan nothing alarms, and the report is OK exactly when some record matches the filter |
| Properties.MessageShape | check_usolved_barracuda_temperature.py:237-253 | the message is the key's name, " - ", the summary, then the detail block, whatever the key |
| Properties.MessageEnds | check_usolved_barracuda_temperature.py:238-253 | the message starts with the key's name and " - " and ends with the detail block |
| Properties.PerfdataNeedsOption | check_usolved_barracuda_temperature.py:208-210 | there is perfdata only when perfdata is "yes" |
| Properties.ExampleRecords | check_usolved_barracuda_temperature.py:175-210 | a fan at 3000 RPM and a sensor "Temp 1" at 25000 millidegrees raise no alarm without thresholds, and their entries are "Fan1: 3000 RPM", "Temp 1: 25.0 *C" and "Temp-1=25.0" |
| Properties.ExampleFolds | check_usolved_barracuda_temperature.py:163-210 | over those two records: key OK, one fan, one temperature, the detail lines in order, one perfdata token |
| Properties.ExampleClauses | check_usolved_barracuda_temperature.py:219-229 | the OK clauses of those two records are "1 fan" and "Temp 1: 25.0 *C" |
| Properties.ExampleDetails | check_usolved_barracuda_temperature.py:199-205 | their detail block is "\nFan1: 3000 RPM\nTemp 1: 25.0 *C" |
| Properties.Example | check_usolved_barracuda_temperature.py:215-260 | their report is OK with "OK - 1 fan / Temp 1: 25.0 *C" and the two detail lines, and perfdata "Temp-1=25.0" |
| Plugin.Given | check_usolved_barracuda_temperature.py:271 | Python's truthiness of the hostname: given and not empty |
| Plugin.MissingArguments | check_usolved_barracuda_temperature.py:273 | the usage message, which starts with "UNKNOWN - " |
| Plugin.Finish | check_usolved_barracuda_temperature.py:286-291 | the line printed after the check starts with the message, and the exit code is the key's return code |
| Plugin.Run | check_usolved_barracuda_temperature.py:271-291 | without a hostname: the usage message and exit code 3; with one: a crash exactly when some reading does not convert, otherwise the printed line and exit code of the report for the collected records |
| Plugin.FinishedReport | check_usolved_barracuda_temperature.py:286-291 | the printed line is the message, followed by " \| " and the perfdata exactly when there is perfdata; the exit code is the key's |
| Plugin.NoSensorsExit | check_usolved_barracuda_temperature.py:241-242 | when every reading converts, records the filter never selects print "UNKNOWN - No sensors found" and exit with code 3 |
| Plugin.StoppedFanExit | check_usolved_barracuda_temperature.py:175-178 | when every reading converts, a checked fan reading 0 makes the plugin exit with code 2 |

## Left out

- The SNMP client command line and `os.popen` (lines 108, 114, 119-129). The three walks are parameters: sequences of raw output lines. `readlines()` splitting is not modelled.
- `optparse` (lines 72-90). The filter, thresholds and perfdata switch are fields of `Options`. The community, SNMP version and timeout only shape the SNMP command, so they are left out.
- `print` and `sys.exit` in `output_nagios` (lines 97-101). `Run` returns the line and the code as an `Outcome`.
- `os.path.basename(__file__)` (line 273). It is the `script` parameter of `Run`.
- Python's `float()`, `int()` and `str()` of a float (lines 168, 175, 182, 205, 210). They are abstract functions in `Numerics`, and the degrees are exact reals. Binary floating point, its rounding and its decimal rendering are not modelled. Neither are NaN and infinities, which `float()` also accepts.
- Converting `-w` and `-c` with `float()` (lines 180 and 185). The thresholds come already converted, so the ValueError for an unparsable threshold is not modelled.
- Collector.Zip: does not model the IndexError that shorter type or value walks raise. Callers must meet the length precondition.
- Crashed: does not carry Python's traceback text or the process's exit status. An uncaught ValueError ends Python with exit status 1 and prints nothing on standard output, and a monitoring system reads status 1 as WARNING.
- Plugin.NoSensorsExit, Plugin.StoppedFanExit: are stated for the report of `Evaluate`, that is for a run in which every reading converts. A type "2" reading that `float()` rejects crashes the plugin even when the filter ignores that record (line 168), and so does a bad reading beside a stopped fan; `Plugin.Run` states when that happens.
- Evaluation.Evaluate: describes only records that all convert. If a reading does not convert, `CheckSensors` stops at that record, and `FirstFailure` says which record that is.
