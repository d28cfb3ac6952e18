/** Reading the Prometheus text exposition format (runpod_testbed/harvest/scrape.py:4-31): lines, names, labels and
    values, as the two regular expressions take them apart. */
module Scrape {
  import opened Types

  // ---- lines: str.splitlines and str.strip ----

  predicate Breaks(c: char) {
    c in "\n\r\U{000b}\U{000c}\U{001c}\U{001d}\U{001e}\U{0085}\U{2028}\U{2029}"
  }

  predicate Space(c: char) {
    Breaks(c) || c in " \t\U{001f}\U{00a0}\U{1680}\U{202f}\U{205f}\U{3000}" || '\U{2000}' <= c <= '\U{200a}'
  }

  /** The index of the first line break, or the length. */
  function LineEnd(s: string): (n: nat)
    ensures n <= |s|
    ensures forall i :: 0 <= i < n ==> !Breaks(s[i])
    ensures n < |s| ==> Breaks(s[n])
  {
    if s == "" || Breaks(s[0]) then 0 else 1 + LineEnd(s[1..])
  }

  /** A carriage return followed by a line feed is one break. */
  function Lines(text: string): seq<string>
    decreases |text|
  {
    if text == "" then []
    else
      var n := LineEnd(text);
      if n == |text| then [text]
      else if text[n] == '\r' && n + 1 < |text| && text[n + 1] == '\n' then [text[..n]] + Lines(text[n + 2..])
      else [text[..n]] + Lines(text[n + 1..])
  }

  function TrimLeft(s: string): (r: string)
    ensures |r| <= |s|
  {
    if s != "" && Space(s[0]) then TrimLeft(s[1..]) else s
  }

  function TrimRight(s: string): (r: string)
    ensures |r| <= |s|
  {
    if s != "" && Space(s[|s| - 1]) then TrimRight(s[..|s| - 1]) else s
  }

  function Strip(s: string): string { TrimRight(TrimLeft(s)) }

  // ---- one sample line ----

  predicate NameStart(c: char) { 'a' <= c <= 'z' || 'A' <= c <= 'Z' || c == '_' || c == ':' }

  predicate Word(c: char) { 'a' <= c <= 'z' || 'A' <= c <= 'Z' || '0' <= c <= '9' || c == '_' }

  /** How many leading characters satisfy p. */
  function Span(s: string, p: char -> bool): (n: nat)
    ensures n <= |s|
    ensures forall i :: 0 <= i < n ==> p(s[i])
    ensures n < |s| ==> !p(s[n])
  {
    if s == "" || !p(s[0]) then 0 else 1 + Span(s[1..], p)
  }

  const NAME_CHAR: char -> bool := c => Word(c) || c == ':'
  const WORD: char -> bool := c => Word(c)
  const NOT_BRACE: char -> bool := c => c != '}'
  const SPACE: char -> bool := c => Space(c)
  const NOT_SPACE: char -> bool := c => !Space(c)

  /** The closing quote of a label value, an escaped character counting as one; none when it never closes. */
  function Quote(s: string, i: nat): (q: Option<nat>)
    requires i <= |s|
    ensures q.Some? ==> i <= q.value < |s|
    decreases |s| - i
  {
    if i == |s| then None
    else if s[i] == '"' then Some(i)
    else if s[i] != '\\' then Quote(s, i + 1)
    else if i + 1 < |s| && s[i + 1] != '\n' then Quote(s, i + 2)
    else None
  }

  /** The label that starts at i, with the index after it: a word, then ="value". */
  function LabelAt(s: string, i: nat): (r: Option<(string, string, nat)>)
    requires i <= |s|
    ensures r.Some? ==> i < r.value.2 <= |s|
  {
    var n := i + Span(s[i..], WORD);
    if n == i || !(n + 1 < |s| && s[n] == '=' && s[n + 1] == '"') then None
    else
      var q := Quote(s, n + 2);
      if q.None? then None else Some((s[i..n], s[n + 2..q.value], q.value + 1))
  }

  /** The labels found from i on, left to right; a later label replaces an earlier one of the same name. */
  function Labels(s: string, i: nat, found: map<string, string>): map<string, string>
    requires i <= |s|
    decreases |s| - i
  {
    if i == |s| then found
    else
      match LabelAt(s, i)
      case Some((k, v, next)) => Labels(s, next, found[k := v])
      case None => Labels(s, i + 1, found)
  }

  datatype Row = Row(name: string, labels: map<string, string>, value: real)

  /** The part between the braces and what follows it; an unclosed brace is no sample. */
  function Braced(s: string): Option<(string, string)> {
    if s == "" || s[0] != '{' then Some(("", s))
    else
      var n := Span(s[1..], NOT_BRACE);
      if 1 + n == |s| then None else Some((s[1..1 + n], s[2 + n..]))
  }

  /** A stripped line as name, label text and value text. */
  function Fields(line: string): Option<(string, string, string)> {
    if line == "" || !NameStart(line[0]) then None
    else
      var n := Span(line, NAME_CHAR);
      match Braced(line[n..])
      case None => None
      case Some((labels, rest)) =>
        var gap := Span(rest, SPACE);
        if gap == 0 || gap == |rest| || gap + Span(rest[gap..], NOT_SPACE) != |rest| then None
        else Some((line[..n], labels, rest[gap..]))
  }

  /** One line's row, if it is a sample whose value reads as a number; toFloat is Python's float. */
  function LineRow(line: string, toFloat: string -> Option<real>): seq<Row> {
    var s := Strip(line);
    if s == "" || s[0] == '#' then []
    else
      match Fields(s)
      case None => []
      case Some((name, labels, val)) =>
        if toFloat(val).None? then [] else [Row(name, Labels(labels, 0, map[]), toFloat(val).value)]
  }

  function RowsOf(lines: seq<string>, toFloat: string -> Option<real>): seq<Row> {
    if lines == [] then [] else RowsOf(lines[..|lines| - 1], toFloat) + LineRow(lines[|lines| - 1], toFloat)
  }

  /** parse_prometheus. */
  method ParsePrometheus(text: string, toFloat: string -> Option<real>) returns (rows: seq<Row>)
    ensures rows == RowsOf(Lines(text), toFloat)
  {
    rows := [];
    var lines := Lines(text);
    for n := 0 to |lines|
      invariant rows == RowsOf(lines[..n], toFloat)
    {
      assert lines[..n + 1][..n] == lines[..n];
      var line := Strip(lines[n]);
      if line == "" || line[0] == '#' {
        continue;
      }
      var m := Fields(line);
      if m.None? {
        continue;
      }
      var value := toFloat(m.value.2);
      if value.None? {
        continue;
      }
      rows := rows + [Row(m.value.0, Labels(m.value.1, 0, map[]), value.value)];
    }
    assert lines[..|lines|] == lines;
  }
}
