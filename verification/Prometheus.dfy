/** Writing the Prometheus text exposition format (shim-go/prometheus.go:94-133), and the round trip through the
    scraper's parser. */
module Prometheus {
  import opened Scrape
  import opened Types

  // ---- text ----

  datatype Label = Label(key: string, value: string)

  /** key="value" pairs between commas; no value here needs the escapes of %q. */
  function LabelText(labels: seq<Label>): string
    decreases |labels|, 0
  {
    if labels == [] then ""
    else labels[0].key + ("=\"" + (labels[0].value + ("\"" + MoreLabels(labels[1..]))))
  }

  function MoreLabels(labels: seq<Label>): string
    decreases |labels|, 1
  {
    if labels == [] then "" else "," + LabelText(labels)
  }

  function Sample(name: string, labels: seq<Label>, val: string): string {
    name + (if labels == [] then "" else "{" + LabelText(labels) + "}") + (" " + val)
  }

  function Joined(lines: seq<string>): string {
    if lines == [] then "" else lines[0] + ("\n" + Joined(lines[1..]))
  }

  function LabelMap(found: map<string, string>, labels: seq<Label>): map<string, string>
    decreases |labels|
  {
    if labels == [] then found else LabelMap(found[labels[0].key := labels[0].value], labels[1..])
  }

  // ---- texts the parser takes apart as they were put together ----

  ghost predicate Name(s: string) {
    s != "" && NameStart(s[0]) && forall i :: 0 <= i < |s| ==> NAME_CHAR(s[i])
  }

  ghost predicate Words(s: string) {
    s != "" && forall i :: 0 <= i < |s| ==> Word(s[i])
  }

  /** A label value that needs no escape and closes no brace. */
  ghost predicate Clean(s: string) {
    forall i :: 0 <= i < |s| ==> s[i] != '"' && s[i] != '\\' && s[i] != '}' && !Breaks(s[i])
  }

  /** A value's text: something, and no blank in it. */
  ghost predicate Token(s: string) {
    s != "" && forall i :: 0 <= i < |s| ==> !Space(s[i])
  }

  ghost predicate Plain(labels: seq<Label>) {
    forall i :: 0 <= i < |labels| ==> Words(labels[i].key) && Clean(labels[i].value)
  }

  ghost predicate OneLine(s: string) { forall i :: 0 <= i < |s| ==> !Breaks(s[i]) }

  // ---- spans and lines ----

  lemma {:induction false} SpanExact(s: string, t: string, p: char -> bool)
    requires forall i :: 0 <= i < |s| ==> p(s[i])
    requires t == "" || !p(t[0])
    ensures Span(s + t, p) == |s|
  {
    if s == "" {
      assert s + t == t;
    } else {
      assert (s + t)[1..] == s[1..] + t;
      SpanExact(s[1..], t, p);
    }
  }

  lemma {:induction false} LineEndExact(line: string, rest: string)
    requires OneLine(line)
    ensures LineEnd(line + ("\n" + rest)) == |line|
  {
    if line == "" {
      assert (line + ("\n" + rest))[0] == '\n';
    } else {
      assert (line + ("\n" + rest))[1..] == line[1..] + ("\n" + rest);
      LineEndExact(line[1..], rest);
    }
  }

  lemma FirstLine(line: string, rest: string)
    requires OneLine(line)
    ensures Lines(line + ("\n" + rest)) == [line] + Lines(rest)
  {
    hide LineEnd;
    LineEndExact(line, rest);
    var text := line + ("\n" + rest);
    assert text[|line|] == '\n';
    assert text[..|line|] == line && text[|line| + 1..] == rest;
  }

  /** Lines written one after another are read back, whatever text follows them. */
  lemma {:induction false} JoinedLines(lines: seq<string>, rest: string)
    requires forall i :: 0 <= i < |lines| ==> OneLine(lines[i])
    ensures Lines(Joined(lines) + rest) == lines + Lines(rest)
  {
    hide Lines;
    if lines == [] {
      assert Joined(lines) + rest == rest;
    } else {
      JoinedLines(lines[1..], rest);
      FirstLine(lines[0], Joined(lines[1..]) + rest);
      assert Joined(lines) + rest == lines[0] + ("\n" + (Joined(lines[1..]) + rest));
    }
  }

  lemma {:induction false} RowsAppend(a: seq<string>, b: seq<string>, toFloat: string -> Option<real>)
    ensures RowsOf(a + b, toFloat) == RowsOf(a, toFloat) + RowsOf(b, toFloat)
  {
    hide LineRow;
    if b == [] {
      assert a + b == a;
    } else {
      assert (a + b)[..|a + b| - 1] == a + b[..|b| - 1];
      RowsAppend(a, b[..|b| - 1], toFloat);
    }
  }

  // ---- labels ----

  lemma {:induction false} QuoteExact(s: string, i: nat, v: string)
    requires Clean(v) && i + |v| < |s| && s[i..i + |v|] == v && s[i + |v|] == '"'
    ensures Quote(s, i) == Some(i + |v|)
    decreases |v|
  {
    if v != "" {
      assert s[i] == v[0];
      assert s[i + 1..i + 1 + |v[1..]|] == v[1..];
      QuoteExact(s, i + 1, v[1..]);
    }
  }

  /** Where the parts of a written label stand. */
  lemma LabelParts(s: string, i: nat, k: string, v: string, rest: string)
    requires i <= |s| && s[i..] == k + ("=\"" + (v + ("\"" + rest)))
    ensures var n := i + |k|;
            && n + 2 + |v| < |s| && s[i..n] == k && s[n] == '=' && s[n + 1] == '"'
            && s[n + 2..n + 2 + |v|] == v && s[n + 2 + |v|] == '"' && |s| - |rest| == n + 3 + |v|
  {
    var t := s[i..];
    assert s[i..i + |k|] == t[..|k|] == k;
    assert s[i + |k|] == t[|k|] && s[i + |k| + 1] == t[|k| + 1];
    assert s[i + |k| + 2..i + |k| + 2 + |v|] == t[|k| + 2..|k| + 2 + |v|] == v;
    assert s[i + |k| + 2 + |v|] == t[|k| + 2 + |v|];
  }

  /** One label, read where it was written. */
  lemma LabelExact(s: string, i: nat, pair: Label, rest: string)
    requires Words(pair.key) && Clean(pair.value) && i <= |s|
    requires s[i..] == pair.key + ("=\"" + (pair.value + ("\"" + rest)))
    ensures LabelAt(s, i) == Some((pair.key, pair.value, |s| - |rest|))
  {
    hide Quote, Span;
    LabelParts(s, i, pair.key, pair.value, rest);
    SpanExact(pair.key, "=\"" + (pair.value + ("\"" + rest)), WORD);
    hide Words, Clean;
    QuoteExact(s, i + |pair.key| + 2, pair.value);
  }

  /** Reading one written label and what follows it. */
  lemma LabelsStep(s: string, i: nat, labels: seq<Label>, found: map<string, string>)
    requires labels != [] && Plain(labels) && i <= |s| && s[i..] == LabelText(labels)
    ensures var next := |s| - |MoreLabels(labels[1..])|;
            && i < next <= |s| && s[next..] == MoreLabels(labels[1..])
            && Labels(s, i, found) == Labels(s, next, found[labels[0].key := labels[0].value])
  {
    hide Words, Clean, MoreLabels;
    var rest := MoreLabels(labels[1..]);
    LabelExact(s, i, labels[0], rest);
    assert s[|s| - |rest|..] == rest;
  }

  lemma LabelsEnd(s: string, found: map<string, string>)
    ensures Labels(s, |s|, found) == found
  {
  }

  lemma {:induction false} LabelsExact(s: string, i: nat, labels: seq<Label>, found: map<string, string>)
    requires Plain(labels) && i <= |s| && s[i..] == LabelText(labels)
    ensures Labels(s, i, found) == LabelMap(found, labels)
    decreases |labels|
  {
    hide Labels, Words, Clean;
    if labels == [] {
      LabelsEnd(s, found);
    } else {
      LabelsStep(s, i, labels, found);
      var next := |s| - |MoreLabels(labels[1..])|;
      var more := found[labels[0].key := labels[0].value];
      if |labels| == 1 {
        LabelsEnd(s, more);
      } else {
        CommaSkipped(s, next, LabelText(labels[1..]), more);
        LabelsExact(s, next + 1, labels[1..], more);
      }
    }
  }

  lemma CommaSkipped(s: string, i: nat, rest: string, found: map<string, string>)
    requires i < |s| && s[i..] == "," + rest
    ensures Labels(s, i, found) == Labels(s, i + 1, found) && s[i + 1..] == rest
  {
    assert s[i..][0] == ',';
    assert s[i + 1..] == s[i..][1..];
  }

  // ---- sample lines ----

  ghost predicate Writable(name: string, labels: seq<Label>, val: string) {
    Name(name) && Plain(labels) && Token(val)
  }

  /** No closing brace and no line break. */
  ghost predicate Closed(s: string) {
    forall i :: 0 <= i < |s| ==> s[i] != '}' && !Breaks(s[i])
  }

  lemma {:induction false} LabelTextClosed(labels: seq<Label>)
    requires Plain(labels)
    ensures Closed(LabelText(labels))
    decreases |labels|
  {
    if labels != [] {
      LabelTextClosed(labels[1..]);
      var k, v, more := labels[0].key, labels[0].value, MoreLabels(labels[1..]);
      assert Words(k) && Clean(v);
      assert Closed(k) && Closed(v) && Closed("=\"") && Closed("\"") && Closed(",");
      assert Closed(more);
      assert Closed("\"" + more);
      assert Closed(v + ("\"" + more));
      assert Closed("=\"" + (v + ("\"" + more)));
    }
  }

  lemma ValueFields(val: string)
    requires Token(val)
    ensures Span(" " + val, SPACE) == 1 && Span(val, NOT_SPACE) == |val|
  {
    SpanExact(" ", val, SPACE);
    SpanExact(val, "", NOT_SPACE);
    assert val + "" == val;
  }

  lemma BracedExact(text: string, rest: string)
    requires forall i :: 0 <= i < |text| ==> text[i] != '}'
    ensures Braced("{" + text + "}" + rest) == Some((text, rest))
  {
    var s := "{" + text + "}" + rest;
    assert s[1..] == text + ("}" + rest);
    SpanExact(text, "}" + rest, NOT_BRACE);
    assert s[1..1 + |text|] == text && s[2 + |text|..] == rest;
  }

  lemma FieldsExact(name: string, labels: seq<Label>, val: string)
    requires Writable(name, labels, val)
    ensures Fields(Sample(name, labels, val)) == Some((name, LabelText(labels), val))
  {
    hide Span, Words, Clean;
    var tail := (if labels == [] then "" else "{" + LabelText(labels) + "}") + (" " + val);
    var line := Sample(name, labels, val);
    assert line == name + tail;
    SpanExact(name, tail, NAME_CHAR);
    assert line[..|name|] == name && line[|name|..] == tail;
    ValueFields(val);
    assert (" " + val)[1..] == val;
    if labels == [] {
      assert tail == " " + val;
    } else {
      LabelTextClosed(labels);
      assert Closed(LabelText(labels));
      assert tail == "{" + LabelText(labels) + "}" + (" " + val);
      BracedExact(LabelText(labels), " " + val);
    }
  }

  lemma StripTight(s: string)
    requires s != "" && !Space(s[0]) && !Space(s[|s| - 1])
    ensures Strip(s) == s
  {
  }

  lemma SampleEnds(name: string, labels: seq<Label>, val: string)
    requires Writable(name, labels, val)
    ensures var s := Sample(name, labels, val); s != "" && s[0] == name[0] && s[|s| - 1] == val[|val| - 1]
  {
  }

  /** A row for a value that reads as a number, none otherwise. */
  function RowFor(name: string, labels: seq<Label>, val: string, toFloat: string -> Option<real>): seq<Row> {
    if toFloat(val).None? then [] else [Row(name, LabelMap(map[], labels), toFloat(val).value)]
  }

  /** A written sample is read back: its name, its labels and its value. */
  lemma SampleRoundTrip(name: string, labels: seq<Label>, val: string, toFloat: string -> Option<real>)
    requires Writable(name, labels, val)
    ensures LineRow(Sample(name, labels, val), toFloat) == RowFor(name, labels, val, toFloat)
  {
    hide Sample, Strip, Fields, Labels, LabelText, LabelMap;
    SampleEnds(name, labels, val);
    StripTight(Sample(name, labels, val));
    FieldsExact(name, labels, val);
    LabelsExact(LabelText(labels), 0, labels, map[]);
    assert LabelText(labels)[0..] == LabelText(labels);
  }

  lemma {:induction false} TrimRightKeeps(s: string)
    requires s != "" && !Space(s[0])
    ensures TrimRight(s) != "" && TrimRight(s)[0] == s[0]
  {
    if Space(s[|s| - 1]) {
      TrimRightKeeps(s[..|s| - 1]);
    }
  }

  lemma CommentSkipped(text: string, toFloat: string -> Option<real>)
    ensures LineRow("#" + text, toFloat) == []
  {
    TrimRightKeeps("#" + text);
  }

  lemma SampleOneLine(name: string, labels: seq<Label>, val: string)
    requires Writable(name, labels, val)
    ensures OneLine(Sample(name, labels, val))
  {
    LabelTextClosed(labels);
    var text := LabelText(labels);
    assert Closed(text);
    assert OneLine(name) && OneLine(val) && OneLine(text);
    assert OneLine("{" + text + "}");
    assert OneLine(" " + val);
  }
}
