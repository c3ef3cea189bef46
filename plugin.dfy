/** The main block of the plugin: the usage message when no hostname is
    given, otherwise collection, the check and the line printed for the
    monitoring system with the exit code. */
module Plugin {
  import opened Wrappers
  import opened Nagios
  import opened Collector
  import opened Evaluation
  import opened Properties

  /** What the process does in the end: print `text` and exit with `code`, or
      stop on an uncaught ValueError from `float()` or `int()`. */
  datatype Outcome = Exit(text: string, code: nat) | Crashed

  /** The message for a missing hostname; `script` is the plugin's file name. */
  function MissingArguments(script: string): (r: string)
    ensures "UNKNOWN - " <= r
  {
    "UNKNOWN - Not all required arguments given\nType ./" + script + " --help for all options."
  }

  /** Python truthiness of an optional string argument. */
  predicate Given(arg: Option<string>) {
    arg.Some? && arg.value != ""
  }

  /** `output_nagios(return_msg, return_perfdata, return_status)` after the
      check: the perfdata gets its " | " separator when perfdata is on and
      there is any. */
  function Finish(rep: Report, o: Options): (r: Outcome)
    ensures r.Exit? && r.code == ReturnCode(rep.key) && r.code <= 3
    ensures rep.message <= r.text
  {
    var perfdata := if PerfdataOn(o) && rep.perfdata != "" then " | " + rep.perfdata else rep.perfdata;
    Exit(rep.message + perfdata, ReturnCode(rep.key))
  }

  /** The main block over the three walks' raw output lines. Without a
      hostname it prints the usage message and exits UNKNOWN; otherwise it
      collects the records, runs the check on them and prints the result, or
      stops at the first reading that does not convert. */
  method Run(hostname: Option<string>, script: string, o: Options, num: Numerics,
             rawNames: seq<string>, rawTypes: seq<string>, rawValues: seq<string>) returns (out: Outcome)
    requires Given(hostname) ==> |rawTypes| >= |rawNames| && |rawValues| >= |rawNames|
    ensures !Given(hostname) ==> out == Exit(MissingArguments(script), 3)
    ensures Given(hostname) ==>
      (out.Crashed? <==> FirstFailure(Records(rawNames, rawTypes, rawValues), o, num) < |rawNames|)
    ensures Given(hostname) && out.Exit? ==> out == Finish(Evaluate(Records(rawNames, rawTypes, rawValues), o, num), o)
  {
    if !Given(hostname) {
      return Exit(MissingArguments(script), ReturnCode(UNKNOWN));
    }
    var sensors := GetSensors(rawNames, rawTypes, rawValues);
    var table := new Sensor[|sensors|](i requires 0 <= i < |sensors| => sensors[i]);
    assert table[..] == sensors;
    var status := CheckSensors(table, o, num);
    if status.None? {
      return Crashed;
    }
    var rep := status.value;
    var perfdata := rep.perfdata;
    if o.perfdata == Some("yes") && perfdata != "" {
      perfdata := " | " + perfdata;
    }
    out := Exit(rep.message + perfdata, ReturnCode(rep.key));
  }

  /** The printed line is the message, followed by " | " and the perfdata
      exactly when there is perfdata, and the exit code is the key's. */
  lemma FinishedReport(ss: seq<Sensor>, o: Options, num: Numerics)
    ensures var e := Evaluate(ss, o, num);
      Finish(e, o) == Exit(if e.perfdata == "" then e.message else e.message + " | " + e.perfdata, ReturnCode(e.key))
  {
    PerfdataNeedsOption(ss, o, num);
  }

  /** When every reading converts, records that all stay outside the filter
      end with "No sensors found" and exit code 3. */
  lemma NoSensorsExit(ss: seq<Sensor>, o: Options, num: Numerics)
    requires forall i :: 0 <= i < |ss| ==> !Matches(ss[i], o)
    ensures Finish(Evaluate(ss, o, num), o) == Exit("UNKNOWN - No sensors found", 3)
  {
    NoSensorsFound(ss, o, num);
    FinishedReport(ss, o, num);
  }

  /** When every reading converts, a checked fan reading 0 makes the plugin
      exit with code 2. */
  lemma StoppedFanExit(a: seq<Sensor>, s: Sensor, b: seq<Sensor>, o: Options, num: Numerics)
    requires IsFan(s, o) && num.parseInt(s.value) == Some(0)
    ensures Finish(Evaluate(a + [s] + b, o, num), o).code == 2
  {
    StoppedFan(a, s, b, o, num);
  }
}
