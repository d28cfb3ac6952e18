/** The metrics page (shim-go/prometheus.go:94-133) and what a scrape of it yields
    (runpod_testbed/harvest/scrape.py:8-31). */
module Exposition {
  import opened Decimal
  import opened Histograms
  import opened Prometheus
  import opened Scrape
  import opened Types

  // ---- samples ----

  datatype Entry = Entry(name: string, labels: seq<Label>, val: string)

  function Texts(entries: seq<Entry>): seq<string> {
    if entries == [] then []
    else
      var e := entries[|entries| - 1];
      Texts(entries[..|entries| - 1]) + [Sample(e.name, e.labels, e.val)]
  }

  function EntryRows(entries: seq<Entry>, toFloat: string -> Option<real>): seq<Row> {
    if entries == [] then []
    else
      var e := entries[|entries| - 1];
      EntryRows(entries[..|entries| - 1], toFloat) + RowFor(e.name, e.labels, e.val, toFloat)
  }

  ghost predicate AllWritable(entries: seq<Entry>) {
    forall e :: e in entries ==> Writable(e.name, e.labels, e.val)
  }

  ghost predicate AllOneLine(lines: seq<string>) {
    forall i :: 0 <= i < |lines| ==> OneLine(lines[i])
  }

  lemma {:induction false} EntriesRoundTrip(entries: seq<Entry>, toFloat: string -> Option<real>)
    requires AllWritable(entries)
    ensures AllOneLine(Texts(entries)) && RowsOf(Texts(entries), toFloat) == EntryRows(entries, toFloat)
  {
    hide Writable, Sample, LineRow, RowFor;
    if entries != [] {
      var before, e := entries[..|entries| - 1], entries[|entries| - 1];
      EntriesRoundTrip(before, toFloat);
      SampleRoundTrip(e.name, e.labels, e.val, toFloat);
      SampleOneLine(e.name, e.labels, e.val);
      assert Texts(entries)[..|Texts(before)|] == Texts(before);
    }
  }

  lemma {:induction false} RowOfEntry(entries: seq<Entry>, row: Row, toFloat: string -> Option<real>)
    ensures row in EntryRows(entries, toFloat) <==>
            exists e :: e in entries && RowFor(e.name, e.labels, e.val, toFloat) == [row]
  {
    hide LabelMap;
    if entries != [] {
      var before, last := entries[..|entries| - 1], entries[|entries| - 1];
      RowOfEntry(before, row, toFloat);
      assert entries == before + [last];
    }
  }

  // ---- single metrics ----

  datatype Value = Int(n: int) | Float(x: real) | OtherType

  /** promMetric; show is the text of a float. */
  function MetricLines(name: string, typ: string, help: string, v: Value, show: real -> string): seq<string> {
    if v.OtherType? then []
    else
      ["# HELP " + name + " " + help, "# TYPE " + name + " " + typ,
       Sample(name, [], if v.Int? then PrintInt(v.n) else show(v.x))]
  }

  /** Python's float reads decimal integers. */
  ghost predicate ReadsIntegers(toFloat: string -> Option<real>) {
    forall n: int :: toFloat(PrintInt(n)) == Some(n as real)
  }

  lemma IntToken(n: int)
    ensures Token(PrintInt(n))
  {
    var m: nat := if n < 0 then -n else n;
    assert AllDigits(PrintNat(m));
    assert forall i :: 0 <= i < |PrintNat(m)| ==> IsDigit(PrintNat(m)[i]);
  }

  lemma HelpLine(head: string, text: string, toFloat: string -> Option<real>)
    requires OneLine(head) && OneLine(text)
    ensures OneLine("# " + head + text) && LineRow("# " + head + text, toFloat) == []
  {
    hide LineRow;
    assert "# " + head + text == "#" + (" " + head + text);
    CommentSkipped(" " + head + text, toFloat);
  }

  /** The two comment lines that head a family yield nothing. */
  lemma HeadSkipped(name: string, typ: string, help: string, toFloat: string -> Option<real>)
    requires Name(name) && OneLine(help) && OneLine(typ)
    ensures var head := ["# HELP " + name + " " + help, "# TYPE " + name + " " + typ];
            AllOneLine(head) && RowsOf(head, toFloat) == []
  {
    hide LineRow;
    var a, b := "# HELP " + name + " " + help, "# TYPE " + name + " " + typ;
    assert OneLine(name) && OneLine(name + " " + help) && OneLine(name + " " + typ);
    HelpLine("HELP ", name + " " + help, toFloat);
    HelpLine("TYPE ", name + " " + typ, toFloat);
    assert a == "# " + "HELP " + (name + " " + help);
    assert b == "# " + "TYPE " + (name + " " + typ);
    assert [a, b][..1] == [a] && [a][..0] == [];
    assert RowsOf([a], toFloat) == [] && RowsOf([a, b], toFloat) == [];
  }

  /** A block of lines is read the same whatever follows it. */
  lemma BlockRead(lines: seq<string>, rest: string, toFloat: string -> Option<real>)
    requires AllOneLine(lines)
    ensures RowsOf(Lines(Joined(lines) + rest), toFloat) == RowsOf(lines, toFloat) + RowsOf(Lines(rest), toFloat)
  {
    hide RowsOf, Lines;
    JoinedLines(lines, rest);
    RowsAppend(lines, Lines(rest), toFloat);
  }

  /** A counter or integer gauge comes back as one row with its value, before whatever follows. */
  lemma MetricRoundTrip(name: string, typ: string, help: string, v: Value, show: real -> string, rest: string,
                        toFloat: string -> Option<real>)
    requires Name(name) && OneLine(help) && OneLine(typ) && ReadsIntegers(toFloat)
    requires v.Float? ==> Token(show(v.x))
    ensures RowsOf(Lines(Joined(MetricLines(name, typ, help, v, show)) + rest), toFloat) ==
            (match v
             case Int(n) => [Row(name, map[], n as real)]
             case Float(x) => RowFor(name, [], show(x), toFloat)
             case OtherType => []) + RowsOf(Lines(rest), toFloat)
  {
    hide Lines, LineRow, Joined, Sample, PrintInt;
    var lines := MetricLines(name, typ, help, v, show);
    if !v.OtherType? {
      var val := if v.Int? then PrintInt(v.n) else show(v.x);
      if v.Int? {
        IntToken(v.n);
      }
      HeadSkipped(name, typ, help, toFloat);
      SampleRoundTrip(name, [], val, toFloat);
      SampleOneLine(name, [], val);
      var head := ["# HELP " + name + " " + help, "# TYPE " + name + " " + typ];
      assert lines == head + [Sample(name, [], val)];
      assert lines[..2] == head;
    }
    BlockRead(lines, rest, toFloat);
  }

  // ---- histogram families ----

  function BucketEntry(name: string, source: string, le: string, n: nat): Entry {
    Entry(name + "_bucket", [Label("source", source), Label("le", le)], PrintInt(n))
  }

  /** The first n buckets of one source. */
  function BucketEntries(name: string, source: string, h: Snapshot, n: nat): seq<Entry>
    requires n <= |h.cumulative| == |BUCKETS|
  {
    if n == 0 then []
    else BucketEntries(name, source, h, n - 1)
         + [BucketEntry(name, source, PrintInt(BUCKETS[n - 1]), h.cumulative[n - 1])]
  }

  function TailEntries(name: string, source: string, h: Snapshot, show: real -> string): seq<Entry> {
    [BucketEntry(name, source, "+Inf", h.count),
     Entry(name + "_sum", [Label("source", source)], show(h.sum)),
     Entry(name + "_count", [Label("source", source)], PrintInt(h.count))]
  }

  function SourceEntries(name: string, source: string, h: Snapshot, show: real -> string): seq<Entry>
    requires |h.cumulative| == |BUCKETS|
  {
    BucketEntries(name, source, h, |BUCKETS|) + TailEntries(name, source, h, show)
  }

  /** Every source has been snapshotted bucket by bucket. */
  predicate Snapshots(hists: map<string, Snapshot>) {
    forall s :: s in hists ==> |hists[s].cumulative| == |BUCKETS|
  }

  function FamilyEntries(name: string, sources: seq<string>, hists: map<string, Snapshot>, show: real -> string):
    seq<Entry>
    requires Snapshots(hists)
  {
    if sources == [] then []
    else
      var s := sources[|sources| - 1];
      FamilyEntries(name, sources[..|sources| - 1], hists, show)
      + if s in hists then SourceEntries(name, s, hists[s], show) else []
  }

  function HistogramLines(name: string, help: string, sources: seq<string>, hists: map<string, Snapshot>,
                          show: real -> string): seq<string>
    requires Snapshots(hists)
  {
    if hists == map[] then []
    else ["# HELP " + name + " " + help, "# TYPE " + name + " histogram"]
         + Texts(FamilyEntries(name, sources, hists, show))
  }

  // ---- the writer ----

  predicate StringLe(a: string, b: string) {
    a == "" || (b != "" && (a[0] < b[0] || (a[0] == b[0] && StringLe(a[1..], b[1..]))))
  }

  ghost predicate Sorted(s: seq<string>) {
    forall i :: 0 < i < |s| ==> StringLe(s[i - 1], s[i])
  }

  lemma {:induction false} StringLeTotal(a: string, b: string)
    ensures StringLe(a, b) || StringLe(b, a)
  {
    if a != "" && b != "" && a[0] == b[0] {
      StringLeTotal(a[1..], b[1..]);
    }
  }

  lemma SortedAhead(x: string, s: seq<string>)
    requires Sorted(s) && (s != [] ==> StringLe(x, s[0]))
    ensures Sorted([x] + s)
  {
  }

  function Inserted(x: string, s: seq<string>): (r: seq<string>)
    requires Sorted(s)
    ensures Sorted(r) && r != [] && (r[0] == x || (s != [] && r[0] == s[0]))
    ensures multiset(r) == multiset(s) + multiset{x}
  {
    if s == [] || StringLe(x, s[0]) then
      SortedAhead(x, s);
      [x] + s
    else
      StringLeTotal(x, s[0]);
      assert s == [s[0]] + s[1..];
      SortedAhead(s[0], Inserted(x, s[1..]));
      [s[0]] + Inserted(x, s[1..])
  }

  /** sort.Strings. */
  function SortStrings(s: seq<string>): (r: seq<string>)
    ensures Sorted(r) && multiset(r) == multiset(s)
  {
    if s == [] then []
    else
      assert s == [s[0]] + s[1..];
      Inserted(s[0], SortStrings(s[1..]))
  }

  lemma {:induction false} JoinedAppend(lines: seq<string>, line: string)
    ensures Joined(lines + [line]) == Joined(lines) + (line + "\n")
  {
    if lines == [] {
      assert [line][1..] == [] && Joined([]) == "";
      assert Joined([line]) == line + ("\n" + "");
    } else {
      assert (lines + [line])[1..] == lines[1..] + [line];
      JoinedAppend(lines[1..], line);
    }
  }

  lemma {:induction false} TextsAppend(a: seq<Entry>, b: seq<Entry>)
    ensures Texts(a + b) == Texts(a) + Texts(b)
  {
    hide Sample;
    if b == [] {
      assert a + b == a;
    } else {
      assert (a + b)[..|a + b| - 1] == a + b[..|b| - 1];
      TextsAppend(a, b[..|b| - 1]);
    }
  }

  lemma {:induction false} JoinedConcat(a: seq<string>, b: seq<string>)
    ensures Joined(a + b) == Joined(a) + Joined(b)
  {
    if a == [] {
      assert a + b == b;
    } else {
      assert (a + b)[1..] == a[1..] + b;
      JoinedConcat(a[1..], b);
    }
  }

  lemma EmptyText()
    ensures Joined(Texts([])) == ""
  {
  }

  /** One source's lines, as the inner loop and the three lines after it append them. */
  method WriteSource(text: string, name: string, source: string, h: Snapshot, show: real -> string)
    returns (out: string)
    requires |h.cumulative| == |BUCKETS|
    ensures out == text + Joined(Texts(SourceEntries(name, source, h, show)))
  {
    hide Sample, PrintInt, Joined, Texts;
    EmptyText();
    out := text;
    for i := 0 to |BUCKETS|
      invariant out == text + Joined(Texts(BucketEntries(name, source, h, i)))
    {
      out := WriteEntry(out, text, BucketEntries(name, source, h, i),
                        BucketEntry(name, source, PrintInt(BUCKETS[i]), h.cumulative[i]));
    }
    ghost var done := BucketEntries(name, source, h, |BUCKETS|);
    var tail := TailEntries(name, source, h, show);
    assert done + [tail[0]] + [tail[1]] + [tail[2]] == done + tail;
    out := WriteEntry(out, text, done, tail[0]);
    out := WriteEntry(out, text, done + [tail[0]], tail[1]);
    out := WriteEntry(out, text, done + [tail[0]] + [tail[1]], tail[2]);
  }

  /** One Fprintf. */
  method WriteEntry(text: string, ghost start: string, ghost done: seq<Entry>, e: Entry) returns (out: string)
    requires text == start + Joined(Texts(done))
    ensures out == start + Joined(Texts(done + [e]))
  {
    hide Joined, Texts, Sample;
    EntryAppend(done, e);
    out := text + (Sample(e.name, e.labels, e.val) + "\n");
  }

  lemma EntryAppend(entries: seq<Entry>, e: Entry)
    ensures Joined(Texts(entries + [e])) == Joined(Texts(entries)) + (Sample(e.name, e.labels, e.val) + "\n")
  {
    hide Sample, Joined;
    assert (entries + [e])[..|entries|] == entries;
    JoinedAppend(Texts(entries), Sample(e.name, e.labels, e.val));
  }

  /** The sources of the family, collected in the map's order and sorted. */
  method SortedSources(hists: map<string, Snapshot>) returns (sources: seq<string>)
    ensures Sorted(sources) && multiset(sources) == multiset(hists.Keys)
  {
    var left, keys := hists.Keys, [];
    while left != {}
      invariant left <= hists.Keys && multiset(keys) == multiset(hists.Keys - left)
      decreases left
    {
      var s :| s in left;
      assert hists.Keys - (left - {s}) == (hists.Keys - left) + {s};
      keys := keys + [s];
      left := left - {s};
    }
    assert hists.Keys - left == hists.Keys;
    sources := SortStrings(keys);
  }

  function FamilyText(name: string, sources: seq<string>, hists: map<string, Snapshot>, show: real -> string): string
    requires Snapshots(hists)
  {
    Joined(Texts(FamilyEntries(name, sources, hists, show)))
  }

  lemma FamilyNext(name: string, sources: seq<string>, i: nat, hists: map<string, Snapshot>, show: real -> string)
    requires Snapshots(hists) && i < |sources| && sources[i] in hists
    ensures FamilyText(name, sources[..i + 1], hists, show) ==
            FamilyText(name, sources[..i], hists, show)
            + Joined(Texts(SourceEntries(name, sources[i], hists[sources[i]], show)))
  {
    hide Texts, Joined, SourceEntries;
    assert sources[..i + 1][..i] == sources[..i];
    var before := FamilyEntries(name, sources[..i], hists, show);
    var more := SourceEntries(name, sources[i], hists[sources[i]], show);
    TextsAppend(before, more);
    JoinedConcat(Texts(before), Texts(more));
  }

  lemma HeadText(a: string, b: string, lines: seq<string>)
    ensures Joined([a, b] + lines) == (a + "\n") + (b + "\n") + Joined(lines)
  {
    assert ([a, b] + lines)[1..] == [b] + lines;
    assert ([b] + lines)[1..] == lines;
    assert Joined([b] + lines) == b + ("\n" + Joined(lines));
  }

  /** promHistogram; sources is the order the lines were written in. */
  method PromHistogram(text: string, name: string, help: string, hists: map<string, Snapshot>, show: real -> string)
    returns (out: string, sources: seq<string>)
    requires Snapshots(hists)
    ensures Sorted(sources) && multiset(sources) == multiset(hists.Keys)
    ensures out == text + Joined(HistogramLines(name, help, sources, hists, show))
  {
    sources := SortedSources(hists);
    assert Joined([]) == "" && sources[..0] == [] && FamilyText(name, [], hists, show) == "";
    hide Joined, Texts, FamilyEntries, SourceEntries;
    if |hists| == 0 {
      return text, sources;
    }
    var keys := sources;
    var helpLine, typeLine := "# HELP " + name + " " + help, "# TYPE " + name + " histogram";
    var body := "";
    for i := 0 to |keys|
      invariant body == FamilyText(name, keys[..i], hists, show)
    {
      assert keys[i] in multiset(keys);
      FamilyNext(name, keys, i, hists, show);
      body := WriteSource(body, name, keys[i], hists[keys[i]], show);
    }
    assert keys[..|keys|] == keys;
    HeadText(helpLine, typeLine, Texts(FamilyEntries(name, keys, hists, show)));
    out := text + ((helpLine + "\n") + (typeLine + "\n") + body);
  }

  // ---- the round trip ----

  /** Names, sources and float texts that need no escaping: what the shim's own call passes. */
  ghost predicate Presentable(name: string, help: string, hists: map<string, Snapshot>, show: real -> string) {
    && Name(name) && OneLine(help) && Snapshots(hists)
    && forall s :: s in hists ==> Words(s) && Token(show(hists[s].sum))
  }

  lemma SuffixName(name: string, suffix: string)
    requires Name(name) && Words(suffix)
    ensures Name(name + suffix)
  {
    assert forall i :: 0 <= i < |suffix| ==> NAME_CHAR(suffix[i]);
  }

  lemma BucketWritable(name: string, source: string, le: string, n: nat)
    requires Name(name) && Words(source) && Clean(le)
    ensures var e := BucketEntry(name, source, le, n); Writable(e.name, e.labels, e.val)
  {
    SuffixName(name, "_bucket");
    IntToken(n);
  }

  lemma {:induction false} BucketsWritable(name: string, source: string, h: Snapshot, n: nat)
    requires Name(name) && Words(source) && n <= |h.cumulative| == |BUCKETS|
    ensures AllWritable(BucketEntries(name, source, h, n))
  {
    hide Writable, BucketEntry;
    if n > 0 {
      BucketsWritable(name, source, h, n - 1);
      IntToken(BUCKETS[n - 1]);
      TokenIsClean(BUCKETS[n - 1]);
      BucketWritable(name, source, PrintInt(BUCKETS[n - 1]), h.cumulative[n - 1]);
    }
  }

  lemma TokenIsClean(n: nat)
    ensures Clean(PrintInt(n)) && PrintInt(n) != "+Inf"
  {
    assert AllDigits(PrintNat(n));
    assert IsDigit(PrintNat(n)[0]);
  }

  lemma TailWritable(name: string, source: string, h: Snapshot, show: real -> string)
    requires Name(name) && Words(source) && Token(show(h.sum))
    ensures AllWritable(TailEntries(name, source, h, show))
  {
    BucketWritable(name, source, "+Inf", h.count);
    SuffixName(name, "_sum");
    SuffixName(name, "_count");
    IntToken(h.count);
  }

  lemma {:induction false} FamilyWritable(name: string, help: string, sources: seq<string>,
                                          hists: map<string, Snapshot>, show: real -> string)
    requires Presentable(name, help, hists, show)
    ensures AllWritable(FamilyEntries(name, sources, hists, show))
  {
    hide Writable, BucketEntries, TailEntries;
    if sources != [] {
      var s := sources[|sources| - 1];
      FamilyWritable(name, help, sources[..|sources| - 1], hists, show);
      if s in hists {
        BucketsWritable(name, s, hists[s], |BUCKETS|);
        TailWritable(name, s, hists[s], show);
      }
    }
  }

  /** A headed block of written samples yields the samples' rows. */
  lemma EntriesRead(head: seq<string>, entries: seq<Entry>, rest: string, toFloat: string -> Option<real>)
    requires AllOneLine(head) && RowsOf(head, toFloat) == [] && AllWritable(entries)
    ensures RowsOf(Lines(Joined(head + Texts(entries)) + rest), toFloat) ==
            EntryRows(entries, toFloat) + RowsOf(Lines(rest), toFloat)
  {
    hide RowsOf, Lines, Joined, Texts, EntryRows, Writable, OneLine;
    EntriesRoundTrip(entries, toFloat);
    RowsAppend(head, Texts(entries), toFloat);
    BlockRead(head + Texts(entries), rest, toFloat);
  }

  lemma EmptyPage(rest: string, toFloat: string -> Option<real>)
    ensures RowsOf(Lines(Joined([]) + rest), toFloat) == EntryRows([], toFloat) + RowsOf(Lines(rest), toFloat)
  {
    hide RowsOf, Lines, LineRow;
    assert Joined([]) + rest == rest;
  }

  /** Scraping the page that promHistogram wrote yields one row for each line it wrote, in order, and then
      whatever the rest of the page holds. */
  lemma HistogramRoundTrip(name: string, help: string, sources: seq<string>, hists: map<string, Snapshot>,
                           show: real -> string, rest: string, toFloat: string -> Option<real>)
    requires Presentable(name, help, hists, show) && (hists == map[] ==> sources == [])
    ensures RowsOf(Lines(Joined(HistogramLines(name, help, sources, hists, show)) + rest), toFloat) ==
            EntryRows(FamilyEntries(name, sources, hists, show), toFloat) + RowsOf(Lines(rest), toFloat)
  {
    hide RowsOf, Lines, LineRow, Joined, Texts, EntryRows, Name, Words, Token, SourceEntries;
    if hists == map[] {
      EmptyPage(rest, toFloat);
    } else {
      hide FamilyEntries;
      FamilyWritable(name, help, sources, hists, show);
      HeadSkipped(name, "histogram", help, toFloat);
      HistogramHead(name);
      EntriesRead(["# HELP " + name + " " + help, "# TYPE " + name + " " + "histogram"],
                  FamilyEntries(name, sources, hists, show), rest, toFloat);
    }
  }

  lemma HistogramHead(name: string)
    ensures "# TYPE " + name + " histogram" == "# TYPE " + name + " " + "histogram"
  {
    assert " histogram" == " " + "histogram";
  }

  // ---- what a scraped row says ----

  lemma {:induction false} BucketMember(name: string, source: string, h: Snapshot, n: nat, e: Entry)
    requires n <= |h.cumulative| == |BUCKETS|
    ensures e in BucketEntries(name, source, h, n) <==>
            exists i: nat :: i < n && e == BucketEntry(name, source, PrintInt(BUCKETS[i]), h.cumulative[i])
  {
    hide PrintInt, BucketEntry;
    if n > 0 {
      BucketMember(name, source, h, n - 1, e);
    }
  }

  lemma {:induction false} FamilyMember(name: string, sources: seq<string>, hists: map<string, Snapshot>,
                                        show: real -> string, e: Entry)
    requires Snapshots(hists)
    ensures e in FamilyEntries(name, sources, hists, show) <==>
            exists s :: s in sources && s in hists && e in SourceEntries(name, s, hists[s], show)
  {
    hide SourceEntries;
    if sources != [] {
      var before, last := sources[..|sources| - 1], sources[|sources| - 1];
      assert sources == before + [last];
      FamilyMember(name, before, hists, show, e);
    }
  }

  function BucketLabels(source: string, le: string): map<string, string> {
    map["source" := source, "le" := le]
  }

  lemma PairLabels(s: string, le: string, s': string, le': string)
    ensures LabelMap(map[], [Label("source", s), Label("le", le)]) == BucketLabels(s, le)
    ensures BucketLabels(s, le) == BucketLabels(s', le') ==> s == s' && le == le'
  {
    var labels, first := [Label("source", s), Label("le", le)], map["source" := s];
    assert labels[1..] == [Label("le", le)] && labels[1..][1..] == [];
    assert LabelMap(map[], labels) == LabelMap(first, labels[1..]);
    assert LabelMap(first, labels[1..]) == LabelMap(first["le" := le], []);
    assert BucketLabels(s, le)["source"] == s && BucketLabels(s, le)["le"] == le;
    assert BucketLabels(s', le')["source"] == s' && BucketLabels(s', le')["le"] == le';
    assert "source" != "le" by {
      assert |"source"| != |"le"|;
    }
  }

  lemma NamesDiffer(name: string)
    ensures name + "_sum" != name + "_bucket" && name + "_bucket" != name + "_count"
    ensures name + "_sum" != name + "_count"
  {
    assert |name + "_sum"| != |name + "_bucket"| && |name + "_count"| != |name + "_bucket"|;
    assert |name + "_sum"| != |name + "_count"|;
  }

  lemma SourceLabels(s: string, s': string)
    ensures LabelMap(map[], [Label("source", s)]) == map["source" := s]
    ensures map["source" := s] == map["source" := s'] ==> s == s'
  {
    assert LabelMap(map[], [Label("source", s)]) == LabelMap(map["source" := s], []);
    assert map["source" := s]["source"] == s && map["source" := s']["source"] == s';
  }

  lemma BoundText(i: nat, j: nat)
    requires i < |BUCKETS| && j < |BUCKETS| && PrintInt(BUCKETS[i]) == PrintInt(BUCKETS[j])
    ensures i == j
  {
    PrintNatInjective(BUCKETS[i], BUCKETS[j]);
    if i < j {
      Ascending(i, j);
    } else if j < i {
      Ascending(j, i);
    }
  }

  lemma WholePage(name: string, help: string, sources: seq<string>, hists: map<string, Snapshot>,
                  show: real -> string, toFloat: string -> Option<real>)
    requires Presentable(name, help, hists, show) && forall s :: s in sources <==> s in hists
    ensures RowsOf(Lines(Joined(HistogramLines(name, help, sources, hists, show))), toFloat) ==
            EntryRows(FamilyEntries(name, sources, hists, show), toFloat)
  {
    hide HistogramLines, FamilyEntries, EntryRows, Joined;
    if sources != [] {
      assert sources[0] in hists;
    }
    HistogramRoundTrip(name, help, sources, hists, show, "", toFloat);
    var page := Joined(HistogramLines(name, help, sources, hists, show));
    assert page + "" == page;
    assert RowsOf(Lines(""), toFloat) == [];
  }

  /** The kinds of line a source has: buckets, by the text of their bound, and the other two. */
  lemma EntryKinds(name: string, s: string, h: Snapshot, show: real -> string, e: Entry)
    requires |h.cumulative| == |BUCKETS| && e in SourceEntries(name, s, h, show)
    ensures e == TailEntries(name, s, h, show)[1] || e == TailEntries(name, s, h, show)[2]
            || e == BucketEntry(name, s, "+Inf", h.count)
            || exists i: nat :: i < |BUCKETS| && e == BucketEntry(name, s, PrintInt(BUCKETS[i]), h.cumulative[i])
  {
    hide PrintInt;
    BucketMember(name, s, h, |BUCKETS|, e);
  }

  /** A bucket's text names its bound, so its labels name one line. */
  lemma BucketIsUnique(name: string, s: string, h: Snapshot, show: real -> string, d: Entry, e: Entry)
    requires |h.cumulative| == |BUCKETS|
    requires d in SourceEntries(name, s, h, show) && e in SourceEntries(name, s, h, show)
    requires d.name == e.name == name + "_bucket" && d.labels == e.labels
    ensures d == e
  {
    hide PrintInt, SourceEntries;
    NamesDiffer(name);
    EntryKinds(name, s, h, show, d);
    EntryKinds(name, s, h, show, e);
    if i: nat :| i < |BUCKETS| && d == BucketEntry(name, s, PrintInt(BUCKETS[i]), h.cumulative[i]) {
      TokenIsClean(BUCKETS[i]);
      if j: nat :| j < |BUCKETS| && e == BucketEntry(name, s, PrintInt(BUCKETS[j]), h.cumulative[j]) {
        BoundText(i, j);
      }
    } else if j: nat :| j < |BUCKETS| && e == BucketEntry(name, s, PrintInt(BUCKETS[j]), h.cumulative[j]) {
      TokenIsClean(BUCKETS[j]);
    }
  }

  /** What the label map of a source's entry is. */
  lemma EntryLabels(name: string, s: string, h: Snapshot, show: real -> string, e: Entry)
    requires |h.cumulative| == |BUCKETS| && e in SourceEntries(name, s, h, show)
    ensures e.name == name + "_bucket" ==>
              |e.labels| == 2 && e.labels == [Label("source", s), Label("le", e.labels[1].value)]
    ensures e.name != name + "_bucket" ==> e.labels == [Label("source", s)]
  {
    hide PrintInt, SourceEntries;
    NamesDiffer(name);
    EntryKinds(name, s, h, show, e);
  }

  /** Two lines of a family with the same name and labels are the same line. */
  lemma EntryIsUnique(name: string, hists: map<string, Snapshot>, show: real -> string, s: string, d: Entry,
                      t: string, e: Entry)
    requires Snapshots(hists) && s in hists && t in hists
    requires d in SourceEntries(name, s, hists[s], show) && e in SourceEntries(name, t, hists[t], show)
    requires d.name == e.name && LabelMap(map[], d.labels) == LabelMap(map[], e.labels)
    ensures s == t && d == e
  {
    hide PrintInt, SourceEntries, LabelMap;
    EntryLabels(name, s, hists[s], show, d);
    EntryLabels(name, t, hists[t], show, e);
    if d.name == name + "_bucket" {
      PairLabels(s, d.labels[1].value, t, e.labels[1].value);
      PairLabels(t, e.labels[1].value, s, d.labels[1].value);
      BucketIsUnique(name, s, hists[s], show, d, e);
    } else {
      SourceLabels(s, t);
      SourceLabels(t, s);
      NamesDiffer(name);
      EntryKinds(name, s, hists[s], show, d);
      EntryKinds(name, t, hists[t], show, e);
    }
  }

  /** The page has one value for each line of each source: the one the line was written with. */
  lemma FamilyRow(name: string, sources: seq<string>, hists: map<string, Snapshot>, show: real -> string,
                  toFloat: string -> Option<real>, source: string, d: Entry, row: Row)
    requires Snapshots(hists) && source in sources && source in hists
    requires d in SourceEntries(name, source, hists[source], show) && toFloat(d.val).Some?
    requires row.name == d.name && row.labels == LabelMap(map[], d.labels)
    ensures row in EntryRows(FamilyEntries(name, sources, hists, show), toFloat) <==>
            row.value == toFloat(d.val).value
  {
    hide FamilyEntries, EntryRows, PrintInt, LabelMap, SourceEntries;
    var entries := FamilyEntries(name, sources, hists, show);
    FamilyMember(name, sources, hists, show, d);
    RowOfEntry(entries, row, toFloat);
    if row in EntryRows(entries, toFloat) {
      var e :| e in entries && RowFor(e.name, e.labels, e.val, toFloat) == [row];
      FamilyMember(name, sources, hists, show, e);
      var s :| s in sources && s in hists && e in SourceEntries(name, s, hists[s], show);
      EntryIsUnique(name, hists, show, source, d, s, e);
    }
    if row.value == toFloat(d.val).value {
      assert RowFor(d.name, d.labels, d.val, toFloat) == [row];
    }
  }

  /** The snapshots of each source's observations. */
  function Histories(samples: map<string, seq<real>>): map<string, Snapshot> {
    map s | s in samples :: SnapshotOf(History(samples[s]))
  }

  /** From observations to scraped rows: for each source and each bound, the page has exactly one value, and it is
      the number of observations that are at most the bound. */
  lemma ScrapedBucket(name: string, help: string, sources: seq<string>, samples: map<string, seq<real>>,
                      show: real -> string, toFloat: string -> Option<real>, source: string, i: nat, row: Row)
    requires Presentable(name, help, Histories(samples), show) && forall s :: s in sources <==> s in samples
    requires ReadsIntegers(toFloat) && source in samples && i < |BUCKETS|
    requires row.name == name + "_bucket" && row.labels == BucketLabels(source, PrintInt(BUCKETS[i]))
    ensures row in RowsOf(Lines(Joined(HistogramLines(name, help, sources, Histories(samples), show))), toFloat) <==>
            row.value == AtMost(samples[source], BUCKETS[i]) as real
  {
    hide Lines, RowsOf, HistogramLines, Joined, FamilyEntries, EntryRows, SnapshotOf, History, PrintInt, LabelMap;
    var hists := Histories(samples);
    WholePage(name, help, sources, hists, show, toFloat);
    SnapshotMeaning(samples[source]);
    assert hists[source].cumulative[i] == AtMost(samples[source], BUCKETS[i]);
    var d := BucketEntry(name, source, PrintInt(BUCKETS[i]), hists[source].cumulative[i]);
    BucketMember(name, source, hists[source], |BUCKETS|, d);
    PairLabels(source, PrintInt(BUCKETS[i]), source, PrintInt(BUCKETS[i]));
    FamilyRow(name, sources, hists, show, toFloat, source, d, row);
  }

  /** The +Inf bucket and the count are all the source's observations. */
  lemma ScrapedTotals(name: string, help: string, sources: seq<string>, samples: map<string, seq<real>>,
                      show: real -> string, toFloat: string -> Option<real>, source: string, row: Row)
    requires Presentable(name, help, Histories(samples), show) && forall s :: s in sources <==> s in samples
    requires ReadsIntegers(toFloat) && source in samples
    requires || (row.name == name + "_bucket" && row.labels == BucketLabels(source, "+Inf"))
             || (row.name == name + "_count" && row.labels == map["source" := source])
    ensures row in RowsOf(Lines(Joined(HistogramLines(name, help, sources, Histories(samples), show))), toFloat) <==>
            row.value == |samples[source]| as real
  {
    hide Lines, RowsOf, HistogramLines, Joined, FamilyEntries, EntryRows, SnapshotOf, History, PrintInt, LabelMap,
         BucketEntries;
    var hists := Histories(samples);
    WholePage(name, help, sources, hists, show, toFloat);
    SnapshotMeaning(samples[source]);
    var tail := TailEntries(name, source, hists[source], show);
    PairLabels(source, "+Inf", source, "+Inf");
    SourceLabels(source, source);
    var d := if row.name == name + "_bucket" then tail[0] else tail[2];
    NamesDiffer(name);
    FamilyRow(name, sources, hists, show, toFloat, source, d, row);
  }
}
