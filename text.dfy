/** The Python 2 string operations the plugin relies on, written out over
    `seq<char>`: `rstrip()`, `replace` of a single character, negative
    slices such as `s[:-2]`, and `str()` of a non-negative integer, together with `Join`, the reference the
    script's append-then-slice loops are proved against. */
module Text {

  /** The characters that Python 2's `str.rstrip()` removes when it is called
      without an argument (the ones for which `str.isspace()` holds). */
  predicate IsSpace(c: char) {
    c == ' ' || c == '\t' || c == '\n' || c == '\r' || c == '\U{0B}' || c == '\U{0C}'
  }

  /** `s.rstrip()`: the longest prefix of `s` that does not end in whitespace. */
  function RStrip(s: string): (r: string)
    ensures r <= s
    ensures r == [] || !IsSpace(r[|r| - 1])
    ensures forall i :: |r| <= i < |s| ==> IsSpace(s[i])
  {
    if s != [] && IsSpace(s[|s| - 1]) then RStrip(s[..|s| - 1]) else s
  }

  /** `s.replace(c, '')`: every occurrence of `c` deleted, the other characters
      kept in order (`DeleteConcat`) and in number (`DeleteCounts`). */
  function Delete(s: string, c: char): (r: string)
    ensures c !in r
    ensures |r| <= |s|
    ensures c !in s ==> r == s
  {
    if s == [] then []
    else
      var init := s[..|s| - 1];
      assert s == init + [s[|s| - 1]];
      Delete(init, c) + (if s[|s| - 1] == c then [] else [s[|s| - 1]])
  }

  /** Deleting `c` keeps every other character as often as it occurs. */
  lemma {:induction false} DeleteCounts(s: string, c: char)
    ensures multiset(Delete(s, c)) == multiset(s)[c := 0]
  {
    if s != [] {
      var init := s[..|s| - 1];
      assert s == init + [s[|s| - 1]];
      DeleteCounts(init, c);
    }
  }

  /** Deleting works piece by piece, so the kept characters stay in order. */
  lemma {:induction false} DeleteConcat(a: string, b: string, c: char)
    ensures Delete(a + b, c) == Delete(a, c) + Delete(b, c)
  {
    if b != [] {
      var init := b[..|b| - 1];
      assert (a + b)[..|a + b| - 1] == a + init;
      assert (a + b)[|a + b| - 1] == b[|b| - 1];
      DeleteConcat(a, init, c);
    } else {
      assert a + b == a;
    }
  }

  /** `s.replace(a, b)` for one-character `a` and `b`. */
  function Replace(s: string, a: char, b: char): (r: string)
    ensures |r| == |s|
    ensures forall i :: 0 <= i < |s| ==> r[i] == if s[i] == a then b else s[i]
  {
    if s == [] then [] else Replace(s[..|s| - 1], a, b) + [if s[|s| - 1] == a then b else s[|s| - 1]]
  }

  /** The parts with `sep` between each two of them. The script never calls
      `join`; it appends `part + sep` in a loop and slices the last `sep` off
      (see `DropTerminator`). This is the reference that loop is proved
      against. */
  function Join(parts: seq<string>, sep: string): string {
    if |parts| == 0 then ""
    else if |parts| == 1 then parts[0]
    else Join(parts[..|parts| - 1], sep) + sep + parts[|parts| - 1]
  }

  /** What a loop builds that appends `part + sep` for every part in turn. */
  function Terminated(parts: seq<string>, sep: string): string {
    if parts == [] then "" else Terminated(parts[..|parts| - 1], sep) + parts[|parts| - 1] + sep
  }

  /** What a loop builds that appends `pre + part` for every part in turn. */
  function Prefixed(parts: seq<string>, pre: string): string {
    if parts == [] then "" else Prefixed(parts[..|parts| - 1], pre) + pre + parts[|parts| - 1]
  }

  /** Python's `s[:-n]` for a positive `n`: the last `n` characters removed,
      or the empty string when `s` is shorter than that. */
  function DropLast(s: string, n: nat): (r: string)
    requires n > 0
    ensures |s| >= n ==> |r| == |s| - n && r + s[|s| - n..] == s
    ensures |s| < n ==> r == ""
  {
    if |s| >= n then s[..|s| - n] else ""
  }

  lemma TerminatedSnoc(parts: seq<string>, p: string, sep: string)
    ensures Terminated(parts + [p], sep) == Terminated(parts, sep) + (p + sep)
  {
    assert (parts + [p])[..|parts|] == parts;
  }

  lemma PrefixedSnoc(parts: seq<string>, p: string, pre: string)
    ensures Prefixed(parts + [p], pre) == Prefixed(parts, pre) + (pre + p)
  {
    assert (parts + [p])[..|parts|] == parts;
  }

  lemma {:induction false} TerminatedIsJoinThenSep(parts: seq<string>, sep: string)
    requires parts != []
    ensures Terminated(parts, sep) == Join(parts, sep) + sep
  {
    if |parts| > 1 {
      TerminatedIsJoinThenSep(parts[..|parts| - 1], sep);
    }
  }

  /** Cutting the final separator off a separator-terminated concatenation
      gives the joined string: `(''.join(p + sep for p in parts))[:-len(sep)]
      == sep.join(parts)` whenever `parts` is not empty. */
  lemma DropTerminator(parts: seq<string>, sep: string)
    requires parts != [] && sep != ""
    ensures DropLast(Terminated(parts, sep), |sep|) == Join(parts, sep)
  {
    TerminatedIsJoinThenSep(parts, sep);
    var t := Terminated(parts, sep);
    assert t[..|t| - |sep|] == Join(parts, sep);
  }

  /** A join ends with its last part, so it is empty only if that part is. */
  lemma {:induction false} JoinEndsWithLast(parts: seq<string>, sep: string)
    requires parts != []
    ensures |Join(parts, sep)| >= |parts[|parts| - 1]|
    ensures parts[|parts| - 1] != "" ==> Join(parts, sep) != ""
  {
  }

  function Digit(d: nat): (c: char)
    requires d < 10
    ensures '0' <= c <= '9'
  {
    ['0', '1', '2', '3', '4', '5', '6', '7', '8', '9'][d]
  }

  /** `str(n)` for a non-negative integer: its decimal digits. */
  function NatToString(n: nat): (r: string)
    ensures |r| >= 1
    ensures forall i :: 0 <= i < |r| ==> '0' <= r[i] <= '9'
    ensures n > 0 ==> r[0] != '0'
    ensures DecimalValue(r) == n
  {
    if n < 10 then [Digit(n)]
    else
      var r := NatToString(n / 10) + [Digit(n % 10)];
      assert r[..|r| - 1] == NatToString(n / 10);
      r
  }

  /** The number a string of decimal digits denotes. */
  function DecimalValue(s: string): nat
    requires forall i :: 0 <= i < |s| ==> '0' <= s[i] <= '9'
  {
    if s == [] then 0 else 10 * DecimalValue(s[..|s| - 1]) + (s[|s| - 1] as int - '0' as int)
  }
}
