/** `check_sensors`: one pass over the sensor records that rates every
    matching sensor against the thresholds, keeps the worst status key, counts
    fans and temperature sensors, and builds the status message, the extended
    detail block and the performance data. */
module Evaluation {
  import opened Wrappers
  import opened Text
  import opened Nagios
  import opened Collector

  /** The command-line options the check reads. `filter` is the `-O` object
      ("all", "fan" or "temp"; any other text matches no sensor). A threshold is
      None when `-w`/`-c` was not given or given as the empty string; "0" is a
      set threshold of 0. `perfdata` is the raw `-P` argument. */
  datatype Options = Options(filter: string, warning: Option<real>, critical: Option<real>, perfdata: Option<string>)

  /** Python's `float()` and `int()` on a reading (None where Python raises a
      ValueError) and `str()` of a float, left uninterpreted. */
  datatype Numerics = Numerics(parseFloat: string -> Option<real>, parseInt: string -> Option<int>, show: real -> string)

  predicate WatchesFans(o: Options) {
    o.filter == "all" || o.filter == "fan"
  }

  predicate WatchesTemps(o: Options) {
    o.filter == "all" || o.filter == "temp"
  }

  /** A fan (type "1") under a filter that checks fans. */
  predicate IsFan(s: Sensor, o: Options) {
    WatchesFans(o) && s.kind == "1"
  }

  /** A temperature sensor (type "2") under a filter that checks temperatures. */
  predicate IsTemp(s: Sensor, o: Options) {
    WatchesTemps(o) && s.kind == "2"
  }

  /** Whether the record takes part in the check at all. */
  predicate Matches(s: Sensor, o: Options) {
    IsFan(s, o) || IsTemp(s, o)
  }

  predicate PerfdataOn(o: Options) {
    o.perfdata == Some("yes")
  }

  /** The record is handled without a ValueError: every type "2" reading is
      converted with `float()` whatever the filter, and a fan reading with
      `int()` when fans are checked. */
  predicate Parses(s: Sensor, o: Options, num: Numerics) {
    && (s.kind == "2" ==> num.parseFloat(s.value).Some?)
    && (IsFan(s, o) ==> num.parseInt(s.value).Some?)
  }

  /** `float(value) / 1000` for a temperature record, 0.0 for any other. */
  function Celsius(s: Sensor, num: Numerics): real {
    if s.kind == "2" then
      match num.parseFloat(s.value)
      case Some(v) => v / 1000.0
      case None => 0.0
    else 0.0
  }

  // The text pieces the check writes, over the name and the reading.

  function NotWorking(name: string): string {
    name + " is not working"
  }

  function Degrees(name: string, v: string): string {
    name + " is " + v + " *C"
  }

  function DegreesEntry(name: string, v: string): string {
    name + ": " + v + " *C"
  }

  function RpmEntry(name: string, rpm: string): string {
    name + ": " + rpm + " RPM"
  }

  function PerfPair(name: string, v: string): string {
    name + "=" + v
  }

  /** A temperature sensor's detail line and summary entry, `"<name>: <degrees> *C"`. */
  function TempEntry(s: Sensor, num: Numerics): string {
    DegreesEntry(s.name, num.show(Celsius(s, num)))
  }

  /** A fan's detail line, `"<name>: <rpm> RPM"`, with the raw reading. */
  function FanEntry(s: Sensor): string {
    RpmEntry(s.name, s.value)
  }

  /** A temperature sensor's perfdata token: its name with every space turned
      into a dash, "=", and the degrees. */
  function PerfToken(s: Sensor, num: Numerics): string {
    PerfPair(Replace(s.name, ' ', '-'), num.show(Celsius(s, num)))
  }

  /** The at most one alarm a record raises. */
  datatype Alarm = Quiet | Fired(level: Status, text: string)

  function LevelOf(a: Alarm): Status {
    if a.Fired? then a.level else OK
  }

  /** A checked fan whose reading `int()` turns into 0. */
  predicate FanStopped(s: Sensor, o: Options, num: Numerics) {
    IsFan(s, o) && num.parseInt(s.value) == Some(0)
  }

  /** A checked temperature at or above a set critical threshold. */
  predicate AtCritical(s: Sensor, o: Options, num: Numerics) {
    IsTemp(s, o) && o.critical.Some? && Celsius(s, num) >= o.critical.value
  }

  /** A checked temperature at or above a set warning threshold. */
  predicate AtWarning(s: Sensor, o: Options, num: Numerics) {
    IsTemp(s, o) && o.warning.Some? && Celsius(s, num) >= o.warning.value
  }

  /** The rules of the `if`/`elif` chain, first match wins: a checked fan that
      reads 0 is critical; otherwise a checked temperature at or above a set
      critical threshold is critical; otherwise one at or above a set warning
      threshold is a warning. Only matching records alarm, and only
      temperatures can warn. */
  function AlarmOf(s: Sensor, o: Options, num: Numerics): (a: Alarm)
    ensures a.Fired? ==> Matches(s, o)
    ensures a.Fired? ==> a.level == CRITICAL || a.level == WARNING
    ensures a.Fired? && a.level == WARNING ==> IsTemp(s, o)
  {
    if FanStopped(s, o, num) then
      Fired(CRITICAL, NotWorking(s.name))
    else if AtCritical(s, o, num) then
      Fired(CRITICAL, Degrees(s.name, num.show(Celsius(s, num))))
    else if AtWarning(s, o, num) then
      Fired(WARNING, Degrees(s.name, num.show(Celsius(s, num))))
    else
      Quiet
  }

  /** The record after the check: with perfdata on, a matching temperature
      sensor's name has its spaces turned into dashes. */
  function Rename(s: Sensor, o: Options): (r: Sensor)
    ensures r.kind == s.kind && r.value == s.value && |r.name| == |s.name|
    ensures IsTemp(s, o) && PerfdataOn(o) ==>
      forall i :: 0 <= i < |s.name| ==> r.name[i] == if s.name[i] == ' ' then '-' else s.name[i]
    ensures IsTemp(s, o) && PerfdataOn(o) ==> ' ' !in r.name
    ensures !(IsTemp(s, o) && PerfdataOn(o)) ==> r == s
  {
    if IsTemp(s, o) && PerfdataOn(o) then s.(name := Replace(s.name, ' ', '-')) else s
  }

  /** The index of the first record that raises a ValueError, or |ss| if none does. */
  function FirstFailure(ss: seq<Sensor>, o: Options, num: Numerics): (k: nat)
    ensures k <= |ss|
    ensures forall i :: 0 <= i < k ==> Parses(ss[i], o, num)
    ensures k < |ss| ==> !Parses(ss[k], o, num)
  {
    if ss == [] || !Parses(ss[0], o, num) then 0 else 1 + FirstFailure(ss[1..], o, num)
  }

  // The quantities the pass accumulates, each as a function of the records
  // seen so far.

  /** The status key after the records `ss`. */
  function Worst(ss: seq<Sensor>, o: Options, num: Numerics): (r: Status)
    ensures r != UNKNOWN
  {
    if ss == [] then OK
    else Escalate(Worst(ss[..|ss| - 1], o, num), LevelOf(AlarmOf(ss[|ss| - 1], o, num)))
  }

  /** The alarm texts, in record order. */
  function Alarms(ss: seq<Sensor>, o: Options, num: Numerics): seq<string> {
    if ss == [] then []
    else
      var a := AlarmOf(ss[|ss| - 1], o, num);
      if a.Fired? then Alarms(ss[..|ss| - 1], o, num) + [a.text] else Alarms(ss[..|ss| - 1], o, num)
  }

  function FanCount(ss: seq<Sensor>, o: Options): (n: nat)
    ensures n <= |ss|
  {
    if ss == [] then 0
    else FanCount(ss[..|ss| - 1], o) + if IsFan(ss[|ss| - 1], o) then 1 else 0
  }

  function TempCount(ss: seq<Sensor>, o: Options): (n: nat)
    ensures n <= |ss|
  {
    if ss == [] then 0
    else TempCount(ss[..|ss| - 1], o) + if IsTemp(ss[|ss| - 1], o) then 1 else 0
  }

  /** The extended detail lines, one per matching record, in record order. */
  function Details(ss: seq<Sensor>, o: Options, num: Numerics): seq<string> {
    if ss == [] then []
    else
      var s := ss[|ss| - 1];
      if IsFan(s, o) then Details(ss[..|ss| - 1], o, num) + [FanEntry(s)]
      else if IsTemp(s, o) then Details(ss[..|ss| - 1], o, num) + [TempEntry(s, num)]
      else Details(ss[..|ss| - 1], o, num)
  }

  /** The temperature entries of the OK summary, in record order. */
  function TempEntries(ss: seq<Sensor>, o: Options, num: Numerics): seq<string> {
    if ss == [] then []
    else
      var s := ss[|ss| - 1];
      if IsTemp(s, o) then TempEntries(ss[..|ss| - 1], o, num) + [TempEntry(s, num)]
      else TempEntries(ss[..|ss| - 1], o, num)
  }

  /** The perfdata tokens, in record order. */
  function PerfTokens(ss: seq<Sensor>, o: Options, num: Numerics): seq<string> {
    if ss == [] then []
    else
      var s := ss[|ss| - 1];
      if IsTemp(s, o) && PerfdataOn(o) then PerfTokens(ss[..|ss| - 1], o, num) + [PerfToken(s, num)]
      else PerfTokens(ss[..|ss| - 1], o, num)
  }

  /** `"<n> fan"` or `"<n> fans"`. */
  function FanClause(n: nat): string {
    NatToString(n) + " " + if n > 1 then "fans" else "fan"
  }

  /** The clauses of an OK summary: the fan clause and the joined temperature
      entries, each only when its count is not zero. */
  function OkClauses(ss: seq<Sensor>, o: Options, num: Numerics): (r: seq<string>)
    ensures |r| <= 2
  {
    (if FanCount(ss, o) > 0 then [FanClause(FanCount(ss, o))] else []) +
    (if TempCount(ss, o) > 0 then [Join(TempEntries(ss, o, num), ", ")] else [])
  }

  /** What `check_sensors` leaves behind: the key (its return code is the exit
      code), `return_msg` and `return_perfdata`. */
  datatype Report = Report(key: Status, message: string, perfdata: string)

  /** The report for records that all convert. When an alarm fired the message
      is the key and the alarm texts joined by ", "; otherwise it is "OK - "
      and the fan and temperature clauses joined by " / ", or, when no record
      matched, UNKNOWN with "No sensors found". The detail lines follow, each
      on its own line; the perfdata is the tokens joined by single spaces. */
  function Evaluate(ss: seq<Sensor>, o: Options, num: Numerics): Report {
    var worst := Worst(ss, o, num);
    var clauses := OkClauses(ss, o, num);
    var key := if worst == OK && clauses == [] then UNKNOWN else worst;
    var summary :=
      if worst != OK then Name(worst) + " - " + Join(Alarms(ss, o, num), ", ")
      else if clauses == [] then Name(UNKNOWN) + " - No sensors found"
      else Name(OK) + " - " + Join(clauses, " / ");
    Report(key, summary + Prefixed(Details(ss, o, num), "\n"), Join(PerfTokens(ss, o, num), " "))
  }

  /** An alarm text exists exactly when the key has left OK. */
  lemma {:induction false} AlarmsIffNotOk(ss: seq<Sensor>, o: Options, num: Numerics)
    ensures Alarms(ss, o, num) == [] <==> Worst(ss, o, num) == OK
  {
    if ss != [] {
      AlarmsIffNotOk(ss[..|ss| - 1], o, num);
    }
  }

  /** One temperature entry per counted temperature sensor. */
  lemma {:induction false} TempEntriesCount(ss: seq<Sensor>, o: Options, num: Numerics)
    ensures |TempEntries(ss, o, num)| == TempCount(ss, o)
  {
    if ss != [] {
      TempEntriesCount(ss[..|ss| - 1], o, num);
    }
  }

  /** The local variables of the pass: `return_key`, `return_msg_put`,
      `return_msg_put_temp`, `return_perfdata_put`, `return_msg_extended_put`,
      `count_temp` and `count_fan`. */
  datatype Tally = Tally(
    key: Status, alarmText: string, tempText: string, perfText: string, extendedText: string,
    countTemp: nat, countFan: nat)

  /** The locals hold what the pass has built after the records `done`. */
  ghost predicate Tracks(t: Tally, done: seq<Sensor>, o: Options, num: Numerics) {
    && t.key == Worst(done, o, num)
    && t.alarmText == Terminated(Alarms(done, o, num), ", ")
    && t.tempText == Terminated(TempEntries(done, o, num), ", ")
    && t.perfText == Terminated(PerfTokens(done, o, num), " ")
    && t.extendedText == Prefixed(Details(done, o, num), "\n")
    && t.countTemp == TempCount(done, o)
    && t.countFan == FanCount(done, o)
  }

  /** The locals after one more record, in terms of the rules. */
  ghost function Stepped(t: Tally, s: Sensor, o: Options, num: Numerics): Tally
    requires t.key != UNKNOWN
  {
    var a := AlarmOf(s, o, num);
    Tally(
      Escalate(t.key, LevelOf(a)),
      if a.Fired? then t.alarmText + (a.text + ", ") else t.alarmText,
      if IsTemp(s, o) then t.tempText + (TempEntry(s, num) + ", ") else t.tempText,
      if IsTemp(s, o) && PerfdataOn(o) then t.perfText + (PerfToken(s, num) + " ") else t.perfText,
      if IsFan(s, o) then t.extendedText + ("\n" + FanEntry(s))
      else if IsTemp(s, o) then t.extendedText + ("\n" + TempEntry(s, num))
      else t.extendedText,
      t.countTemp + (if IsTemp(s, o) then 1 else 0),
      t.countFan + (if IsFan(s, o) then 1 else 0))
  }

  // Each accumulated quantity moves on by one record as `Stepped` says.

  lemma StepKey(t: Tally, done: seq<Sensor>, s: Sensor, o: Options, num: Numerics)
    requires t.key == Worst(done, o, num)
    ensures Stepped(t, s, o, num).key == Worst(done + [s], o, num)
  {
    assert (done + [s])[..|done|] == done;
  }

  lemma StepAlarms(t: Tally, done: seq<Sensor>, s: Sensor, o: Options, num: Numerics)
    requires t.key != UNKNOWN && t.alarmText == Terminated(Alarms(done, o, num), ", ")
    ensures Stepped(t, s, o, num).alarmText == Terminated(Alarms(done + [s], o, num), ", ")
  {
    assert (done + [s])[..|done|] == done;
    var a := AlarmOf(s, o, num);
    if a.Fired? {
      TerminatedSnoc(Alarms(done, o, num), a.text, ", ");
    }
  }

  lemma StepTemps(t: Tally, done: seq<Sensor>, s: Sensor, o: Options, num: Numerics)
    requires t.key != UNKNOWN && t.tempText == Terminated(TempEntries(done, o, num), ", ")
    ensures Stepped(t, s, o, num).tempText == Terminated(TempEntries(done + [s], o, num), ", ")
  {
    assert (done + [s])[..|done|] == done;
    if IsTemp(s, o) {
      TerminatedSnoc(TempEntries(done, o, num), TempEntry(s, num), ", ");
    }
  }

  lemma StepPerf(t: Tally, done: seq<Sensor>, s: Sensor, o: Options, num: Numerics)
    requires t.key != UNKNOWN && t.perfText == Terminated(PerfTokens(done, o, num), " ")
    ensures Stepped(t, s, o, num).perfText == Terminated(PerfTokens(done + [s], o, num), " ")
  {
    assert (done + [s])[..|done|] == done;
    if IsTemp(s, o) && PerfdataOn(o) {
      TerminatedSnoc(PerfTokens(done, o, num), PerfToken(s, num), " ");
    }
  }

  lemma StepCounts(t: Tally, done: seq<Sensor>, s: Sensor, o: Options, num: Numerics)
    requires t.key != UNKNOWN && t.countTemp == TempCount(done, o) && t.countFan == FanCount(done, o)
    ensures Stepped(t, s, o, num).countTemp == TempCount(done + [s], o)
    ensures Stepped(t, s, o, num).countFan == FanCount(done + [s], o)
  {
    assert (done + [s])[..|done|] == done;
  }

  lemma StepDetails(t: Tally, done: seq<Sensor>, s: Sensor, o: Options, num: Numerics)
    requires t.key != UNKNOWN && t.extendedText == Prefixed(Details(done, o, num), "\n")
    ensures Stepped(t, s, o, num).extendedText == Prefixed(Details(done + [s], o, num), "\n")
  {
    assert (done + [s])[..|done|] == done;
    if IsFan(s, o) {
      PrefixedSnoc(Details(done, o, num), FanEntry(s), "\n");
    } else if IsTemp(s, o) {
      PrefixedSnoc(Details(done, o, num), TempEntry(s, num), "\n");
    }
  }

  lemma SteppedTracks(t: Tally, done: seq<Sensor>, s: Sensor, o: Options, num: Numerics)
    requires Tracks(t, done, o, num)
    ensures Tracks(Stepped(t, s, o, num), done + [s], o, num)
  {
    StepKey(t, done, s, o, num);
    StepAlarms(t, done, s, o, num);
    StepTemps(t, done, s, o, num);
    StepPerf(t, done, s, o, num);
    StepDetails(t, done, s, o, num);
    StepCounts(t, done, s, o, num);
  }

  /** The locals after the loop has gone through the records `done`. */
  ghost function Pass(done: seq<Sensor>, o: Options, num: Numerics): (t: Tally)
    ensures t.key != UNKNOWN
  {
    if done == [] then Tally(OK, "", "", "", "", 0, 0)
    else Stepped(Pass(done[..|done| - 1], o, num), done[|done| - 1], o, num)
  }

  lemma PassSnoc(done: seq<Sensor>, s: Sensor, o: Options, num: Numerics)
    ensures Pass(done + [s], o, num) == Stepped(Pass(done, o, num), s, o, num)
  {
    assert (done + [s])[..|done|] == done;
  }

  /** The locals of the loop hold what the specification functions say. */
  lemma {:induction false} PassTracks(done: seq<Sensor>, o: Options, num: Numerics)
    ensures Tracks(Pass(done, o, num), done, o, num)
  {
    if done != [] {
      var init, last := done[..|done| - 1], done[|done| - 1];
      assert done == init + [last];
      PassTracks(init, o, num);
      SteppedTracks(Pass(init, o, num), init, last, o, num);
    }
  }

  /** One turn of the loop of `check_sensors`, on record `s`. It fails (the
      ValueError of `float()` or `int()`) exactly when `s` does not convert;
      otherwise the locals move on by `s`, and `after` is the record as the
      turn leaves it. */
  method Visit(s: Sensor, o: Options, num: Numerics, t: Tally) returns (ok: bool, next: Tally, after: Sensor)
    requires t.key != UNKNOWN
    ensures ok <==> Parses(s, o, num)
    ensures ok ==> after == Rename(s, o)
    ensures ok ==> next == Stepped(t, s, o, num)
  {
    next, after := t, s;

    var celsius := 0.0;
    if s.kind == "2" {
      var parsed := num.parseFloat(s.value);
      if parsed.None? {
        return false, next, after;
      }
      celsius := parsed.value / 1000.0;
    }
    assert celsius == Celsius(s, num);

    var fanStopped := false;
    if WatchesFans(o) && s.kind == "1" {
      var parsed := num.parseInt(s.value);
      if parsed.None? {
        return false, next, after;
      }
      fanStopped := parsed.value == 0;
    }
    ok := true;

    if fanStopped {
      next := next.(alarmText := next.alarmText + (NotWorking(s.name) + ", "), key := CRITICAL);
    } else if WatchesTemps(o) && s.kind == "2" && o.critical.Some? && celsius >= o.critical.value {
      next := next.(alarmText := next.alarmText + (Degrees(s.name, num.show(celsius)) + ", "), key := CRITICAL);
    } else if WatchesTemps(o) && s.kind == "2" && o.warning.Some? && celsius >= o.warning.value {
      next := next.(alarmText := next.alarmText + (Degrees(s.name, num.show(celsius)) + ", "));
      if next.key != CRITICAL {
        next := next.(key := WARNING);
      }
    }

    if WatchesFans(o) && s.kind == "1" {
      next := next.(countFan := next.countFan + 1);
      next := next.(extendedText := next.extendedText + ("\n" + RpmEntry(s.name, s.value)));
    } else if WatchesTemps(o) && s.kind == "2" {
      next := next.(countTemp := next.countTemp + 1);
      next := next.(extendedText := next.extendedText + ("\n" + DegreesEntry(s.name, num.show(celsius))));
      next := next.(tempText := next.tempText + (DegreesEntry(s.name, num.show(celsius)) + ", "));
      if o.perfdata == Some("yes") {
        after := after.(name := Replace(after.name, ' ', '-'));
        next := next.(perfText := next.perfText + (PerfPair(after.name, num.show(celsius)) + " "));
      }
    }
  }

  /** The OK branch after the loop: `sensor_output`, the fan clause and the
      temperature clause with their " / " separators, the last one cut off. */
  method OkSummary(t: Tally, ghost ss: seq<Sensor>, o: Options, num: Numerics) returns (output: string)
    requires Tracks(t, ss, o, num)
    ensures output == Join(OkClauses(ss, o, num), " / ")
  {
    TempEntriesCount(ss, o, num);
    output := "";
    ghost var built: seq<string> := [];
    if t.countFan > 0 {
      var noun := if t.countFan > 1 then "fans" else "fan";
      output := output + (NatToString(t.countFan) + " " + noun + " / ");
      TerminatedSnoc(built, FanClause(t.countFan), " / ");
      built := built + [FanClause(t.countFan)];
    }
    if t.countTemp > 0 {
      DropTerminator(TempEntries(ss, o, num), ", ");
      output := output + (DropLast(t.tempText, 2) + " / ");
      TerminatedSnoc(built, Join(TempEntries(ss, o, num), ", "), " / ");
      built := built + [Join(TempEntries(ss, o, num), ", ")];
    }
    assert built == OkClauses(ss, o, num);
    output := DropLast(output, 3);
    if built != [] {
      DropTerminator(built, " / ");
    }
  }

  /** The OK summary is empty exactly when no record matched. */
  lemma OkClausesEmpty(ss: seq<Sensor>, o: Options, num: Numerics)
    ensures OkClauses(ss, o, num) == [] <==> FanCount(ss, o) == 0 && TempCount(ss, o) == 0
    ensures OkClauses(ss, o, num) != [] ==> Join(OkClauses(ss, o, num), " / ") != ""
  {
    if TempCount(ss, o) > 0 {
      TempEntriesCount(ss, o, num);
      TempEntriesNonEmpty(ss, o, num);
      JoinEndsWithLast(TempEntries(ss, o, num), ", ");
    }
    if OkClauses(ss, o, num) != [] {
      JoinEndsWithLast(OkClauses(ss, o, num), " / ");
    }
  }

  /** `return_perfdata`: the perfdata text without its trailing space. */
  method PerfdataText(t: Tally, ghost ss: seq<Sensor>, o: Options, num: Numerics) returns (perfdata: string)
    requires t.perfText == Terminated(PerfTokens(ss, o, num), " ")
    ensures perfdata == Join(PerfTokens(ss, o, num), " ")
  {
    perfdata := "";
    if t.perfText != "" {
      perfdata := DropLast(t.perfText, 1);
    }
    if PerfTokens(ss, o, num) != [] {
      DropTerminator(PerfTokens(ss, o, num), " ");
    }
  }

  /** The code after the loop of `check_sensors`: it turns the locals left by
      all the records into the report. */
  method Compose(t: Tally, ghost ss: seq<Sensor>, o: Options, num: Numerics) returns (r: Report)
    requires Tracks(t, ss, o, num)
    ensures r == Evaluate(ss, o, num)
  {
    AlarmsIffNotOk(ss, o, num);
    OkClausesEmpty(ss, o, num);
    var key := t.key;
    var message;
    if key == OK {
      var output := OkSummary(t, ss, o, num);
      if output != "" {
        message := Name(key) + " - " + output;
      } else {
        key := UNKNOWN;
        message := Name(key) + " - No sensors found";
      }
    } else {
      DropTerminator(Alarms(ss, o, num), ", ");
      message := Name(key) + " - " + DropLast(t.alarmText, 2);
    }
    ghost var summary := message;

    if t.extendedText != "" {
      message := message + t.extendedText;
    }
    assert message == summary + Prefixed(Details(ss, o, num), "\n");

    var perfdata := PerfdataText(t, ss, o, num);
    r := Report(key, message, perfdata);
  }

  /** Every temperature entry is non-empty: it holds at least ": " and " *C". */
  lemma {:induction false} TempEntriesNonEmpty(ss: seq<Sensor>, o: Options, num: Numerics)
    ensures forall i :: 0 <= i < |TempEntries(ss, o, num)| ==> TempEntries(ss, o, num)[i] != ""
  {
    if ss != [] {
      TempEntriesNonEmpty(ss[..|ss| - 1], o, num);
    }
  }

  /** `cur` is `ss` with the first `i` records renamed and the rest as they were. */
  ghost predicate RenamedUpTo(cur: seq<Sensor>, ss: seq<Sensor>, i: int, o: Options) {
    && |cur| == |ss| && 0 <= i <= |ss|
    && (forall j :: 0 <= j < i ==> cur[j] == Rename(ss[j], o))
    && (forall j :: i <= j < |ss| ==> cur[j] == ss[j])
  }

  lemma RenameNext(cur: seq<Sensor>, ss: seq<Sensor>, i: int, o: Options)
    requires RenamedUpTo(cur, ss, i, o) && i < |ss|
    ensures RenamedUpTo(cur[i := Rename(ss[i], o)], ss, i + 1, o)
  {
  }

  /** `check_sensors` over the records in `sensors`. Conversions that Python
      would reject end the pass with None (the uncaught ValueError); the
      records before the failing one have been renamed for perfdata by then.
      Otherwise the result is the report `Evaluate` describes. */
  method CheckSensors(sensors: array<Sensor>, o: Options, num: Numerics) returns (r: Option<Report>)
    modifies sensors
    ensures r.None? <==> FirstFailure(old(sensors[..]), o, num) < sensors.Length
    ensures r.Some? ==> r.value == Evaluate(old(sensors[..]), o, num)
    ensures forall j :: 0 <= j < FirstFailure(old(sensors[..]), o, num) ==> sensors[j] == Rename(old(sensors[j]), o)
    ensures forall j :: FirstFailure(old(sensors[..]), o, num) <= j < sensors.Length ==> sensors[j] == old(sensors[j])
  {
    ghost var ss := sensors[..];
    var t := Tally(OK, "", "", "", "", 0, 0);

    var i := 0;
    ghost var done := [];
    while i < sensors.Length
      invariant 0 <= i <= sensors.Length
      invariant done == ss[..i]
      invariant i <= FirstFailure(ss, o, num)
      invariant RenamedUpTo(sensors[..], ss, i, o)
      invariant t == Pass(done, o, num)
    {
      var s := sensors[i];
      var ok, after;
      ok, t, after := Visit(s, o, num, t);
      if !ok {
        assert FirstFailure(ss, o, num) == i;
        return None;
      }
      RenameNext(sensors[..], ss, i, o);
      sensors[i] := after;
      PassSnoc(done, s, o, num);
      done := done + [s];
      assert done == ss[..i + 1];
      i := i + 1;
    }
    assert done == ss;
    assert FirstFailure(ss, o, num) == sensors.Length;
    PassTracks(ss, o, num);
    var report := Compose(t, ss, o, num);
    r := Some(report);
  }
}
