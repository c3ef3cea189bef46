/** What the pass of `check_sensors` promises, stated over the specification
    functions of the pass: the worst-wins key, the order of the texts, one
    count and one detail line per matching record, records outside the filter
    ignored, and the "No sensors found" fallback. */
module Properties {
  import opened Wrappers
  import opened Text
  import opened Nagios
  import opened Collector
  import opened Evaluation

  // Worst wins.

  /** The key is at least as severe as every record's alarm, and when it is
      not OK some record raised exactly that level. */
  lemma {:induction false} WorstIsMaximum(ss: seq<Sensor>, o: Options, num: Numerics)
    ensures forall i :: 0 <= i < |ss| ==>
      ReturnCode(LevelOf(AlarmOf(ss[i], o, num))) <= ReturnCode(Worst(ss, o, num))
    ensures Worst(ss, o, num) != OK ==>
      exists i :: 0 <= i < |ss| && LevelOf(AlarmOf(ss[i], o, num)) == Worst(ss, o, num)
  {
    if ss != [] {
      var init, last := ss[..|ss| - 1], ss[|ss| - 1];
      WorstIsMaximum(init, o, num);
      forall i | 0 <= i < |ss|
        ensures ReturnCode(LevelOf(AlarmOf(ss[i], o, num))) <= ReturnCode(Worst(ss, o, num))
      {
        if i < |ss| - 1 {
          assert ss[i] == init[i];
        }
      }
      if Worst(ss, o, num) != OK && LevelOf(AlarmOf(last, o, num)) != Worst(ss, o, num) {
        assert Worst(ss, o, num) == Worst(init, o, num);
        var j :| 0 <= j < |init| && LevelOf(AlarmOf(init[j], o, num)) == Worst(init, o, num);
        assert ss[j] == init[j];
      }
    }
  }

  /** The key is CRITICAL exactly when some record is critical, WARNING exactly
      when some record warns and none is critical, and OK exactly when no
      record alarms. */
  lemma WorstCases(ss: seq<Sensor>, o: Options, num: Numerics)
    ensures Worst(ss, o, num) == CRITICAL <==>
      exists i :: 0 <= i < |ss| && LevelOf(AlarmOf(ss[i], o, num)) == CRITICAL
    ensures Worst(ss, o, num) == WARNING <==>
      (exists i :: 0 <= i < |ss| && LevelOf(AlarmOf(ss[i], o, num)) == WARNING) &&
      (forall i :: 0 <= i < |ss| ==> LevelOf(AlarmOf(ss[i], o, num)) != CRITICAL)
    ensures Worst(ss, o, num) == OK <==>
      forall i :: 0 <= i < |ss| ==> LevelOf(AlarmOf(ss[i], o, num)) == OK
  {
    WorstIsMaximum(ss, o, num);
  }

  /** The key of a concatenation is the more severe of the two keys. */
  lemma {:induction false} WorstConcat(a: seq<Sensor>, b: seq<Sensor>, o: Options, num: Numerics)
    ensures ReturnCode(Worst(a + b, o, num)) == Max(ReturnCode(Worst(a, o, num)), ReturnCode(Worst(b, o, num)))
  {
    if b == [] {
      assert a + b == a;
    } else {
      var init := b[..|b| - 1];
      assert (a + b)[..|a + b| - 1] == a + init;
      assert (a + b)[|a + b| - 1] == b[|b| - 1];
      WorstConcat(a, init, o, num);
    }
  }

  /** The key only moves up: later records never lower it, and once it is
      CRITICAL it stays CRITICAL. */
  lemma CriticalSticks(a: seq<Sensor>, b: seq<Sensor>, o: Options, num: Numerics)
    ensures ReturnCode(Worst(a, o, num)) <= ReturnCode(Worst(a + b, o, num))
    ensures Worst(a, o, num) == CRITICAL ==> Worst(a + b, o, num) == CRITICAL
  {
    WorstConcat(a, b, o, num);
  }

  // The texts and counts of a concatenation are those of its parts, in order.

  lemma {:induction false} AlarmsConcat(a: seq<Sensor>, b: seq<Sensor>, o: Options, num: Numerics)
    ensures Alarms(a + b, o, num) == Alarms(a, o, num) + Alarms(b, o, num)
  {
    if b == [] {
      assert a + b == a;
    } else {
      var init := b[..|b| - 1];
      assert (a + b)[..|a + b| - 1] == a + init;
      assert (a + b)[|a + b| - 1] == b[|b| - 1];
      AlarmsConcat(a, init, o, num);
    }
  }

  lemma {:induction false} DetailsConcat(a: seq<Sensor>, b: seq<Sensor>, o: Options, num: Numerics)
    ensures Details(a + b, o, num) == Details(a, o, num) + Details(b, o, num)
  {
    if b == [] {
      assert a + b == a;
    } else {
      var init := b[..|b| - 1];
      assert (a + b)[..|a + b| - 1] == a + init;
      assert (a + b)[|a + b| - 1] == b[|b| - 1];
      DetailsConcat(a, init, o, num);
    }
  }

  lemma {:induction false} TempEntriesConcat(a: seq<Sensor>, b: seq<Sensor>, o: Options, num: Numerics)
    ensures TempEntries(a + b, o, num) == TempEntries(a, o, num) + TempEntries(b, o, num)
  {
    if b == [] {
      assert a + b == a;
    } else {
      var init := b[..|b| - 1];
      assert (a + b)[..|a + b| - 1] == a + init;
      assert (a + b)[|a + b| - 1] == b[|b| - 1];
      TempEntriesConcat(a, init, o, num);
    }
  }

  lemma {:induction false} PerfTokensConcat(a: seq<Sensor>, b: seq<Sensor>, o: Options, num: Numerics)
    ensures PerfTokens(a + b, o, num) == PerfTokens(a, o, num) + PerfTokens(b, o, num)
  {
    if b == [] {
      assert a + b == a;
    } else {
      var init := b[..|b| - 1];
      assert (a + b)[..|a + b| - 1] == a + init;
      assert (a + b)[|a + b| - 1] == b[|b| - 1];
      PerfTokensConcat(a, init, o, num);
    }
  }

  lemma {:induction false} CountsConcat(a: seq<Sensor>, b: seq<Sensor>, o: Options)
    ensures FanCount(a + b, o) == FanCount(a, o) + FanCount(b, o)
    ensures TempCount(a + b, o) == TempCount(a, o) + TempCount(b, o)
  {
    if b == [] {
      assert a + b == a;
    } else {
      var init := b[..|b| - 1];
      assert (a + b)[..|a + b| - 1] == a + init;
      assert (a + b)[|a + b| - 1] == b[|b| - 1];
      CountsConcat(a, init, o);
    }
  }

  /** What one record contributes wherever it stands: at most one alarm text,
      exactly one to the fan or the temperature count and one detail line when
      it matches the filter, and nothing else. */
  lemma OneRecord(a: seq<Sensor>, s: Sensor, b: seq<Sensor>, o: Options, num: Numerics)
    ensures Alarms(a + [s] + b, o, num) ==
      Alarms(a, o, num) + (if AlarmOf(s, o, num).Fired? then [AlarmOf(s, o, num).text] else []) + Alarms(b, o, num)
    ensures Details(a + [s] + b, o, num) ==
      Details(a, o, num) +
      (if IsFan(s, o) then [FanEntry(s)] else if IsTemp(s, o) then [TempEntry(s, num)] else []) +
      Details(b, o, num)
    ensures FanCount(a + [s] + b, o) == FanCount(a, o) + (if IsFan(s, o) then 1 else 0) + FanCount(b, o)
    ensures TempCount(a + [s] + b, o) == TempCount(a, o) + (if IsTemp(s, o) then 1 else 0) + TempCount(b, o)
    ensures PerfTokens(a + [s] + b, o, num) ==
      PerfTokens(a, o, num) + (if IsTemp(s, o) && PerfdataOn(o) then [PerfToken(s, num)] else []) + PerfTokens(b, o, num)
  {
    assert [s][..0] == [];
    AlarmsConcat(a, [s], o, num);
    AlarmsConcat(a + [s], b, o, num);
    DetailsConcat(a, [s], o, num);
    DetailsConcat(a + [s], b, o, num);
    CountsConcat(a, [s], o);
    CountsConcat(a + [s], b, o);
    PerfTokensConcat(a, [s], o, num);
    PerfTokensConcat(a + [s], b, o, num);
  }

  /** One detail line per counted record. */
  lemma {:induction false} DetailsCount(ss: seq<Sensor>, o: Options, num: Numerics)
    ensures |Details(ss, o, num)| == FanCount(ss, o) + TempCount(ss, o)
  {
    if ss != [] {
      DetailsCount(ss[..|ss| - 1], o, num);
    }
  }

  /** One perfdata token per counted temperature sensor when perfdata is on
      and none when it is off. */
  lemma {:induction false} PerfTokensCount(ss: seq<Sensor>, o: Options, num: Numerics)
    ensures |PerfTokens(ss, o, num)| == if PerfdataOn(o) then TempCount(ss, o) else 0
  {
    if ss != [] {
      PerfTokensCount(ss[..|ss| - 1], o, num);
    }
  }

  /** Both counts are zero exactly when no record matches the filter. */
  lemma {:induction false} NothingCounted(ss: seq<Sensor>, o: Options)
    ensures FanCount(ss, o) == 0 && TempCount(ss, o) == 0 <==> forall i :: 0 <= i < |ss| ==> !Matches(ss[i], o)
  {
    if ss != [] {
      var init := ss[..|ss| - 1];
      NothingCounted(init, o);
      if forall i :: 0 <= i < |init| ==> !Matches(init[i], o) {
        assert forall i :: 0 <= i < |ss| - 1 ==> ss[i] == init[i];
      } else {
        var j :| 0 <= j < |init| && Matches(init[j], o);
        assert ss[j] == init[j];
      }
    }
  }

  /** A record that raises no alarm leaves the key as it would be without it. */
  lemma QuietRecordKeepsKey(a: seq<Sensor>, s: Sensor, b: seq<Sensor>, o: Options, num: Numerics)
    requires AlarmOf(s, o, num) == Quiet
    ensures Worst(a + [s] + b, o, num) == Worst(a + b, o, num)
  {
    WorstConcat(a, [s], o, num);
    WorstConcat(a + [s], b, o, num);
    WorstConcat(a, b, o, num);
    assert Worst([s], o, num) == OK by {
      assert [s][..0] == [];
    }
    ReturnCodeInjective(Worst(a + [s] + b, o, num), Worst(a + b, o, num));
  }

  /** A record outside the filter (a fan under "temp", a temperature under
      "fan", any other type, any record under an unknown filter) leaves the
      report as it would be without it. */
  lemma IgnoredRecord(a: seq<Sensor>, s: Sensor, b: seq<Sensor>, o: Options, num: Numerics)
    requires !Matches(s, o)
    ensures Evaluate(a + [s] + b, o, num) == Evaluate(a + b, o, num)
  {
    QuietRecordKeepsKey(a, s, b, o, num);
    OneRecord(a, s, b, o, num);
    AlarmsConcat(a, b, o, num);
    DetailsConcat(a, b, o, num);
    CountsConcat(a, b, o);
    PerfTokensConcat(a, b, o, num);
    TempEntriesConcat(a, [s], o, num);
    TempEntriesConcat(a + [s], b, o, num);
    TempEntriesConcat(a, b, o, num);
    assert TempEntries([s], o, num) == [] by {
      assert [s][..0] == [];
    }
    var with, without := a + [s] + b, a + b;
    assert Alarms(with, o, num) == Alarms(without, o, num);
    assert Details(with, o, num) == Details(without, o, num);
    assert PerfTokens(with, o, num) == PerfTokens(without, o, num);
    assert TempEntries(with, o, num) == TempEntries(without, o, num);
    assert OkClauses(with, o, num) == OkClauses(without, o, num);
  }

  /** The report is UNKNOWN exactly when no record matches the filter, and
      then it says "No sensors found" with no detail lines and no perfdata. */
  lemma NoSensorsFound(ss: seq<Sensor>, o: Options, num: Numerics)
    ensures Evaluate(ss, o, num).key == UNKNOWN <==> forall i :: 0 <= i < |ss| ==> !Matches(ss[i], o)
    ensures Evaluate(ss, o, num).key == UNKNOWN ==>
      Evaluate(ss, o, num).message == "UNKNOWN - No sensors found" && Evaluate(ss, o, num).perfdata == ""
  {
    NothingCounted(ss, o);
    WorstIsMaximum(ss, o, num);
    DetailsCount(ss, o, num);
    PerfTokensCount(ss, o, num);
    if Worst(ss, o, num) != OK {
      var j :| 0 <= j < |ss| && LevelOf(AlarmOf(ss[j], o, num)) == Worst(ss, o, num);
      assert Matches(ss[j], o);
    }
    if forall i :: 0 <= i < |ss| ==> !Matches(ss[i], o) {
      assert Details(ss, o, num) == [];
      assert Name(UNKNOWN) + " - No sensors found" == "UNKNOWN - No sensors found";
    }
  }

  /** A filter other than "all", "fan" and "temp" matches nothing. */
  lemma UnknownFilter(ss: seq<Sensor>, o: Options, num: Numerics)
    requires o.filter != "all" && o.filter != "fan" && o.filter != "temp"
    ensures Evaluate(ss, o, num).key == UNKNOWN
    ensures Evaluate(ss, o, num).message == "UNKNOWN - No sensors found"
  {
    NoSensorsFound(ss, o, num);
  }

  /** A checked fan that reads 0 makes the report CRITICAL, wherever it stands,
      and its "is not working" text is among the alarm texts of the message. */
  lemma StoppedFan(a: seq<Sensor>, s: Sensor, b: seq<Sensor>, o: Options, num: Numerics)
    requires IsFan(s, o) && num.parseInt(s.value) == Some(0)
    ensures Evaluate(a + [s] + b, o, num).key == CRITICAL
    ensures NotWorking(s.name) in Alarms(a + [s] + b, o, num)
    ensures Evaluate(a + [s] + b, o, num).message ==
      Name(CRITICAL) + " - " + Join(Alarms(a + [s] + b, o, num), ", ") + Prefixed(Details(a + [s] + b, o, num), "\n")
  {
    OneRecord(a, s, b, o, num);
    WorstIsMaximum(a + [s] + b, o, num);
    assert (a + [s] + b)[|a|] == s;
  }

  // The threshold rules, one record at a time.

  /** No record is both a checked fan and a checked temperature sensor, so
      the `if`/`elif` of lines 195 and 201 never has to choose. */
  lemma FanOrTemp(s: Sensor, o: Options)
    ensures !(IsFan(s, o) && IsTemp(s, o))
  {
    if s.kind == "1" {
      assert s.kind[0] != "2"[0];
    }
  }

  /** When a record alarms, and with which level and text. The comparisons
      are inclusive; an unset threshold never fires; and a temperature at or
      above both thresholds is critical, not a warning. A checked fan that
      reads anything but 0 and a temperature below every set threshold stay
      quiet. */
  lemma AlarmRules(s: Sensor, o: Options, num: Numerics)
    ensures LevelOf(AlarmOf(s, o, num)) == CRITICAL <==> FanStopped(s, o, num) || AtCritical(s, o, num)
    ensures LevelOf(AlarmOf(s, o, num)) == WARNING <==> AtWarning(s, o, num) && !AtCritical(s, o, num)
    ensures AlarmOf(s, o, num) == Quiet <==>
      !FanStopped(s, o, num) && !AtCritical(s, o, num) && !AtWarning(s, o, num)
    ensures FanStopped(s, o, num) ==> AlarmOf(s, o, num) == Fired(CRITICAL, NotWorking(s.name))
    ensures AtCritical(s, o, num) || AtWarning(s, o, num) ==>
      AlarmOf(s, o, num).Fired? && AlarmOf(s, o, num).text == Degrees(s.name, num.show(Celsius(s, num)))
    ensures o.critical.None? && o.warning.None? ==>
      (AlarmOf(s, o, num).Fired? <==> FanStopped(s, o, num))
  {
    FanOrTemp(s, o);
  }

  /** A checked temperature at or above a set critical threshold makes the
      report CRITICAL wherever it stands, and its degrees text is among the
      alarm texts of the message. */
  lemma HotTemperature(a: seq<Sensor>, s: Sensor, b: seq<Sensor>, o: Options, num: Numerics)
    requires AtCritical(s, o, num)
    ensures Evaluate(a + [s] + b, o, num).key == CRITICAL
    ensures Degrees(s.name, num.show(Celsius(s, num))) in Alarms(a + [s] + b, o, num)
  {
    AlarmRules(s, o, num);
    OneRecord(a, s, b, o, num);
    WorstIsMaximum(a + [s] + b, o, num);
    assert (a + [s] + b)[|a|] == s;
  }

  /** A temperature at or above the warning threshold but below the critical
      one raises the report to at least WARNING and puts its degrees text
      among the alarm texts. */
  lemma WarmTemperature(a: seq<Sensor>, s: Sensor, b: seq<Sensor>, o: Options, num: Numerics)
    requires AtWarning(s, o, num) && !AtCritical(s, o, num)
    ensures ReturnCode(Evaluate(a + [s] + b, o, num).key) >= ReturnCode(WARNING)
    ensures Evaluate(a + [s] + b, o, num).key != UNKNOWN
    ensures Degrees(s.name, num.show(Celsius(s, num))) in Alarms(a + [s] + b, o, num)
  {
    AlarmRules(s, o, num);
    OneRecord(a, s, b, o, num);
    WorstIsMaximum(a + [s] + b, o, num);
    assert (a + [s] + b)[|a|] == s;
  }

  /** With some temperature at the warning threshold, no stopped fan and no
      temperature at the critical threshold, the report is WARNING. */
  lemma WarningOnly(ss: seq<Sensor>, o: Options, num: Numerics)
    requires exists i :: 0 <= i < |ss| && AtWarning(ss[i], o, num)
    requires forall i :: 0 <= i < |ss| ==> !FanStopped(ss[i], o, num) && !AtCritical(ss[i], o, num)
    ensures Evaluate(ss, o, num).key == WARNING
  {
    forall i | 0 <= i < |ss|
      ensures LevelOf(AlarmOf(ss[i], o, num)) != CRITICAL
    {
      AlarmRules(ss[i], o, num);
    }
    var j :| 0 <= j < |ss| && AtWarning(ss[j], o, num);
    AlarmRules(ss[j], o, num);
    WorstCases(ss, o, num);
  }

  /** Without thresholds and without a stopped fan nothing alarms, and the
      report is OK exactly when some record matches the filter (UNKNOWN
      otherwise). */
  lemma NoThresholds(ss: seq<Sensor>, o: Options, num: Numerics)
    requires o.critical.None? && o.warning.None?
    requires forall i :: 0 <= i < |ss| ==> !FanStopped(ss[i], o, num)
    ensures Alarms(ss, o, num) == []
    ensures Evaluate(ss, o, num).key == OK <==> exists i :: 0 <= i < |ss| && Matches(ss[i], o)
  {
    forall i | 0 <= i < |ss|
      ensures LevelOf(AlarmOf(ss[i], o, num)) == OK
    {
      AlarmRules(ss[i], o, num);
    }
    WorstCases(ss, o, num);
    AlarmsIffNotOk(ss, o, num);
    NoSensorsFound(ss, o, num);
  }

  /** The summary line of the report: the key's name, " - ", and the alarm
      texts, the OK clauses or "No sensors found". */
  function Summary(ss: seq<Sensor>, o: Options, num: Numerics): string {
    var worst, clauses := Worst(ss, o, num), OkClauses(ss, o, num);
    if worst != OK then Join(Alarms(ss, o, num), ", ")
    else if clauses == [] then "No sensors found"
    else Join(clauses, " / ")
  }

  /** The message is the key's name, " - ", the summary, and then the detail
      block, whatever the key. */
  lemma MessageShape(ss: seq<Sensor>, o: Options, num: Numerics)
    ensures Evaluate(ss, o, num).message ==
      Name(Evaluate(ss, o, num).key) + " - " + Summary(ss, o, num) + Prefixed(Details(ss, o, num), "\n")
  {
    if Worst(ss, o, num) == OK && OkClauses(ss, o, num) == [] {
      assert " - No sensors found" == " - " + "No sensors found";
    }
  }

  /** So the message starts with the key's name and " - ", and ends with the
      detail block. */
  lemma MessageEnds(ss: seq<Sensor>, o: Options, num: Numerics)
    ensures Name(Evaluate(ss, o, num).key) + " - " <= Evaluate(ss, o, num).message
    ensures var m, p := Evaluate(ss, o, num).message, Prefixed(Details(ss, o, num), "\n");
      |p| <= |m| && m[|m| - |p|..] == p
  {
    MessageShape(ss, o, num);
    var m, head, p := Evaluate(ss, o, num).message, Name(Evaluate(ss, o, num).key) + " - ", Prefixed(Details(ss, o, num), "\n");
    assert m == head + Summary(ss, o, num) + p;
    assert m[..|head|] == head;
    assert m[|m| - |p|..] == p;
  }

  /** With perfdata off there is no perfdata; with it on, only counted
      temperature sensors give tokens. */
  lemma PerfdataNeedsOption(ss: seq<Sensor>, o: Options, num: Numerics)
    ensures Evaluate(ss, o, num).perfdata != "" ==> PerfdataOn(o)
    ensures !PerfdataOn(o) ==> Evaluate(ss, o, num).perfdata == ""
  {
    PerfTokensCount(ss, o, num);
  }

  // One fan reading 3000 RPM and one sensor "Temp 1" reading 25000
  // millidegrees, everything checked, no thresholds, perfdata on.

  const exampleFan := Sensor("Fan1", "1", "3000")
  const exampleTemp := Sensor("Temp 1", "2", "25000")
  const exampleOptions := Options("all", None, None, Some("yes"))

  /** How each of the two records is rated and written. */
  lemma ExampleRecords(num: Numerics)
    requires num.parseInt("3000") == Some(3000)
    requires num.parseFloat("25000") == Some(25000.0)
    requires num.show(25.0) == "25.0"
    ensures IsFan(exampleFan, exampleOptions) && !IsTemp(exampleFan, exampleOptions)
    ensures IsTemp(exampleTemp, exampleOptions) && !IsFan(exampleTemp, exampleOptions)
    ensures AlarmOf(exampleFan, exampleOptions, num) == Quiet && AlarmOf(exampleTemp, exampleOptions, num) == Quiet
    ensures FanEntry(exampleFan) == "Fan1: 3000 RPM"
    ensures TempEntry(exampleTemp, num) == "Temp 1: 25.0 *C"
    ensures PerfToken(exampleTemp, num) == "Temp-1=25.0"
  {
    assert exampleFan.kind[0] != "2"[0] && exampleTemp.kind[0] != "1"[0];
    assert Celsius(exampleTemp, num) == 25.0;
    assert Replace("Temp 1", ' ', '-') == "Temp-1";
  }

  /** What the pass accumulates over the two records. */
  lemma ExampleFolds(num: Numerics)
    requires num.parseInt("3000") == Some(3000)
    requires num.parseFloat("25000") == Some(25000.0)
    requires num.show(25.0) == "25.0"
    ensures var ss, o := [exampleFan, exampleTemp], exampleOptions;
      && Worst(ss, o, num) == OK
      && FanCount(ss, o) == 1 && TempCount(ss, o) == 1
      && TempEntries(ss, o, num) == ["Temp 1: 25.0 *C"]
      && Details(ss, o, num) == ["Fan1: 3000 RPM", "Temp 1: 25.0 *C"]
      && PerfTokens(ss, o, num) == ["Temp-1=25.0"]
  {
    ExampleRecords(num);
    var ss, o := [exampleFan, exampleTemp], exampleOptions;
    var first := [exampleFan];
    assert ss[..1] == first && first[..0] == [] && first[0] == exampleFan && ss[1] == exampleTemp;
    assert Worst(first, o, num) == OK;
    assert FanCount(first, o) == 1 && TempCount(first, o) == 0;
    assert TempEntries(first, o, num) == [];
    assert PerfTokens(first, o, num) == PerfTokens([], o, num);
    assert Details(first, o, num) == ["Fan1: 3000 RPM"];
  }

  /** The OK clauses of the two records. */
  lemma ExampleClauses(num: Numerics)
    requires num.parseInt("3000") == Some(3000)
    requires num.parseFloat("25000") == Some(25000.0)
    requires num.show(25.0) == "25.0"
    ensures OkClauses([exampleFan, exampleTemp], exampleOptions, num) == ["1 fan", "Temp 1: 25.0 *C"]
  {
    ExampleFolds(num);
    assert NatToString(1) == "1";
    assert FanClause(1) == "1 fan";
  }

  /** The detail block of the two records: the fan line, then the temperature line. */
  lemma ExampleDetails(num: Numerics)
    requires num.parseInt("3000") == Some(3000)
    requires num.parseFloat("25000") == Some(25000.0)
    requires num.show(25.0) == "25.0"
    ensures Prefixed(Details([exampleFan, exampleTemp], exampleOptions, num), "\n") ==
      "\n" + "Fan1: 3000 RPM" + "\n" + "Temp 1: 25.0 *C"
  {
    ExampleFolds(num);
    var fan, temp := "Fan1: 3000 RPM", "Temp 1: 25.0 *C";
    var details := [fan, temp];
    assert details[..1] == [fan] && [fan][..0] == [];
    assert "" + "\n" == "\n";
    assert Prefixed([fan], "\n") == "\n" + fan;
  }

  /** The report for the two records: the OK summary with one fan and the
      temperature entry, the two detail lines in record order, and the
      temperature sensor's perfdata token with its space turned into a dash. */
  lemma Example(num: Numerics)
    requires num.parseInt("3000") == Some(3000)
    requires num.parseFloat("25000") == Some(25000.0)
    requires num.show(25.0) == "25.0"
    ensures var e := Evaluate([exampleFan, exampleTemp], exampleOptions, num);
      && e.key == OK
      && e.message == "OK - " + ("1 fan" + " / " + "Temp 1: 25.0 *C") + ("\n" + "Fan1: 3000 RPM" + "\n" + "Temp 1: 25.0 *C")
      && e.perfdata == "Temp-1=25.0"
  {
    ExampleFolds(num);
    ExampleClauses(num);
    ExampleDetails(num);
    var clauses := ["1 fan", "Temp 1: 25.0 *C"];
    assert clauses[..1] == ["1 fan"];
    assert "OK" + " - " == "OK - ";
  }
}
