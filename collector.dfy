/** Sensor collection: the clean-up of every line the SNMP walk prints, and
    the positional assembly of the name, type and value walks into records. */
module Collector {
  import opened Text

  /** One `{'name', 'type', 'value'}` record of the sensor table. `kind` is the
      raw type code ("1" for a fan, "2" for a temperature sensor) and `value`
      the raw reading (RPM for fans, millidegrees Celsius for temperatures). */
  datatype Sensor = Sensor(name: string, kind: string, value: string)

  /** `line.rstrip().replace('"', '')`: trailing whitespace is removed first,
      then every double quote. The result holds no quote, is not longer than
      the line, and a line that has neither quotes nor trailing whitespace comes
      back unchanged. */
  function Clean(line: string): (r: string)
    ensures '"' !in r
    ensures |r| <= |line|
    ensures '"' !in line && (line == [] || !IsSpace(line[|line| - 1])) ==> r == line
  {
    var stripped := RStrip(line);
    assert line == stripped + line[|stripped|..];
    Delete(stripped, '"')
  }

  /** Cleaning only removes characters: every character of the result is one
      of the line's, and no character occurs more often than in the line. */
  lemma CleanKeepsCharacters(line: string)
    ensures multiset(Clean(line)) <= multiset(line)
  {
    var stripped := RStrip(line);
    assert line == stripped + line[|stripped|..];
    assert multiset(line) == multiset(stripped) + multiset(line[|stripped|..]);
    DeleteCounts(stripped, '"');
  }

  /** The loop of `get_sensors_execute`: one cleaned entry per output line. */
  method CleanLines(lines: seq<string>) returns (sensor: seq<string>)
    ensures |sensor| == |lines|
    ensures forall i :: 0 <= i < |lines| ==> sensor[i] == Clean(lines[i])
  {
    sensor := [];
    var k := 0;
    while k < |lines|
      invariant 0 <= k <= |lines|
      invariant |sensor| == k
      invariant forall i :: 0 <= i < k ==> sensor[i] == Clean(lines[i])
      decreases |lines| - k
    {
      sensor := sensor + [Clean(lines[k])];
      k := k + 1;
    }
  }

  /** The `while` loop of `get_sensors`: record i takes the i-th name, type and
      value. It runs once per name, so the type and value walks must be at
      least as long as the name walk; longer ones are cut to its length. */
  method Zip(names: seq<string>, types: seq<string>, values: seq<string>) returns (sensors: seq<Sensor>)
    requires |types| >= |names| && |values| >= |names|
    ensures |sensors| == |names|
    ensures forall i :: 0 <= i < |names| ==> sensors[i] == Sensor(names[i], types[i], values[i])
  {
    sensors := [];
    var i := 0;
    while i < |names|
      invariant 0 <= i <= |names|
      invariant |sensors| == i
      invariant forall j :: 0 <= j < i ==> sensors[j] == Sensor(names[j], types[j], values[j])
    {
      sensors := sensors + [Sensor(names[i], types[i], values[i])];
      i := i + 1;
    }
  }

  /** The records the collector yields for three raw walks. */
  function Records(rawNames: seq<string>, rawTypes: seq<string>, rawValues: seq<string>): seq<Sensor>
    requires |rawTypes| >= |rawNames| && |rawValues| >= |rawNames|
  {
    seq(|rawNames|, i requires 0 <= i < |rawNames| =>
      Sensor(Clean(rawNames[i]), Clean(rawTypes[i]), Clean(rawValues[i])))
  }

  /** `get_sensors` over the three walks' raw output lines: every line of every
      walk is cleaned, then the cleaned walks are zipped. */
  method GetSensors(rawNames: seq<string>, rawTypes: seq<string>, rawValues: seq<string>)
      returns (sensors: seq<Sensor>)
    requires |rawTypes| >= |rawNames| && |rawValues| >= |rawNames|
    ensures sensors == Records(rawNames, rawTypes, rawValues)
    ensures forall i :: 0 <= i < |sensors| ==> '"' !in sensors[i].name && '"' !in sensors[i].kind && '"' !in sensors[i].value
  {
    var names := CleanLines(rawNames);
    var types := CleanLines(rawTypes);
    var values := CleanLines(rawValues);
    sensors := Zip(names, types, values);
  }
}
