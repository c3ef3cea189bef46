/** The monitoring-plugin status keys and the exit codes they map to. */
module Nagios {

  /** The four status keys; the plugin writes them as the strings "OK",
      "WARNING", "CRITICAL" and "UNKNOWN". */
  datatype Status = OK | WARNING | CRITICAL | UNKNOWN

  /** The key string that starts the status line. */
  function Name(s: Status): string {
    match s
    case OK => "OK"
    case WARNING => "WARNING"
    case CRITICAL => "CRITICAL"
    case UNKNOWN => "UNKNOWN"
  }

  /** The `return_code` table: the process exit code of each key. */
  function ReturnCode(s: Status): (c: nat)
    ensures c <= 3
  {
    match s
    case OK => 0
    case WARNING => 1
    case CRITICAL => 2
    case UNKNOWN => 3
  }

  /** Distinct keys print distinct strings, so the status line names its key. */
  lemma NameInjective(a: Status, b: Status)
    ensures Name(a) == Name(b) <==> a == b
  {
    if a != b {
      assert Name(a)[0] != Name(b)[0] || |Name(a)| != |Name(b)|;
    }
  }

  lemma ReturnCodeInjective(a: Status, b: Status)
    ensures ReturnCode(a) == ReturnCode(b) <==> a == b
  {
  }

  function Max(a: nat, b: nat): nat {
    if a >= b then a else b
  }

  /** How one sensor's alarm at `level` changes the running key while the
      sensors are checked: a critical alarm always sets CRITICAL, a warning
      sets WARNING unless the key is already CRITICAL, and no alarm (OK)
      leaves the key alone. Over OK, WARNING and CRITICAL this is "the worst
      wins", in the order of the exit codes. */
  function Escalate(key: Status, level: Status): (r: Status)
    requires key != UNKNOWN && level != UNKNOWN
    ensures r != UNKNOWN
    ensures ReturnCode(r) == Max(ReturnCode(key), ReturnCode(level))
  {
    if level == CRITICAL then CRITICAL
    else if level == WARNING then (if key != CRITICAL then WARNING else key)
    else key
  }
}
