/** The manifest cache (shim-go/manifests.go): file names that must tell requests apart, and a first-in first-out
    index of the directory kept by Puts that write outside the lock and trim inside it. */
module Manifests {
  import opened Ages
  import opened Decimal
  import opened Ranges
  import opened Types
  import opened Seqs

  // ---- file names ----

  predicate Safe(c: char) {
    IsDigit(c) || 'A' <= c <= 'Z' || 'a' <= c <= 'z' || c == '_' || c == '-'
  }

  function Sanitized(s: string): (r: string)
    ensures |r| == |s|
  {
    if s == "" then "" else Sanitized(s[..|s| - 1]) + [if Safe(s[|s| - 1]) then s[|s| - 1] else '_']
  }

  function RangeKey(range: string): string {
    if Sanitized(range) == "" then "full" else Sanitized(range)
  }

  /** ManifestCache.path, less the directory. */
  function Name(version: string, fileID: string, range: string): string {
    version + "_" + fileID + "_" + RangeKey(range) + ".json"
  }

  predicate Blurred(c: char) { !Safe(c) || c == '_' }

  /** Two range headers that sanitizing cannot tell apart. */
  predicate Indistinct(a: string, b: string) {
    || (|a| == |b| && forall i :: 0 <= i < |a| ==> a[i] == b[i] || (Blurred(a[i]) && Blurred(b[i])))
    || (a == "" && b == "full") || (a == "full" && b == "")
  }

  lemma {:induction false} SanitizedAt(s: string, i: nat)
    requires i < |s|
    ensures Sanitized(s)[i] == if Safe(s[i]) then s[i] else '_'
  {
    if i < |s| - 1 {
      SanitizedAt(s[..|s| - 1], i);
    }
  }

  lemma SanitizedSame(a: string, b: string)
    ensures Sanitized(a) == Sanitized(b) <==>
            |a| == |b| && forall i :: 0 <= i < |a| ==> a[i] == b[i] || (Blurred(a[i]) && Blurred(b[i]))
  {
    hide Sanitized, Safe;
    if |a| == |b| {
      forall i | 0 <= i < |a|
        ensures Sanitized(a)[i] == Sanitized(b)[i] <==> a[i] == b[i] || (Blurred(a[i]) && Blurred(b[i]))
      {
        SanitizedAt(a, i);
        SanitizedAt(b, i);
      }
    }
  }

  /** Exactly when two range headers share a key: they differ only where both have an underscore or an unsafe
      character, or one is absent and the other spells the placeholder. */
  lemma RangeKeyCollides(a: string, b: string)
    ensures RangeKey(a) == RangeKey(b) <==> Indistinct(a, b)
  {
    SanitizedSame(a, b);
    SanitizedSame(a, "full");
    SanitizedSame(b, "full");
    FullIsSafe();
    assert Sanitized("full") == "full";
  }

  lemma FullIsSafe()
    ensures Sanitized("full") == "full"
  {
    SanitizedAt("full", 0);
    SanitizedAt("full", 1);
    SanitizedAt("full", 2);
    SanitizedAt("full", 3);
  }

  /** A text up to its first underscore is determined by the whole. */
  lemma SplitAtUnderscore(a: string, s: string, b: string, t: string)
    requires '_' !in a && '_' !in b && a + "_" + s == b + "_" + t
    ensures a == b && s == t
  {
    var x := a + "_" + s;
    assert x[|a|] == '_' && x[|b|] == '_';
    assert forall i :: 0 <= i < |a| ==> x[i] == a[i] && a[i] in a;
    assert forall i :: 0 <= i < |b| ==> x[i] == b[i] && b[i] in b;
    assert a == x[..|a|] && b == x[..|b|];
    assert s == x[|a| + 1..] && t == x[|b| + 1..];
  }

  lemma NameParts(version: string, fileID: string, range: string)
    ensures Name(version, fileID, range) == version + "_" + (fileID + "_" + (RangeKey(range) + ".json"))
  {
  }

  lemma DropSuffix(s: string, t: string, suffix: string)
    requires s + suffix == t + suffix
    ensures s == t
  {
    assert s == (s + suffix)[..|s|] && t == (t + suffix)[..|t|];
    assert |s| == |t|;
  }

  lemma SameNameSameParts(v: string, f: string, s: string, v': string, f': string, t: string)
    requires '_' !in v && '_' !in f && '_' !in v' && '_' !in f'
    requires v + "_" + (f + "_" + (s + ".json")) == v' + "_" + (f' + "_" + (t + ".json"))
    ensures v == v' && f == f' && s == t
  {
    SplitAtUnderscore(v, f + "_" + (s + ".json"), v', f' + "_" + (t + ".json"));
    SplitAtUnderscore(f, s + ".json", f', t + ".json");
    DropSuffix(s, t, ".json");
  }

  /** When version and file id carry no underscore, two requests share a file exactly when only their range
      headers differ and those are indistinct. */
  lemma NamesCollide(v: string, f: string, r: string, v': string, f': string, r': string)
    requires '_' !in v && '_' !in f && '_' !in v' && '_' !in f'
    ensures Name(v, f, r) == Name(v', f', r') <==> v == v' && f == f' && Indistinct(r, r')
  {
    RangeKeyCollides(r, r');
    NameParts(v, f, r);
    NameParts(v', f', r');
    if Name(v, f, r) == Name(v', f', r') {
      SameNameSameParts(v, f, RangeKey(r), v', f', RangeKey(r'));
    }
  }

  /** With an underscore in a version, different requests can share a file. */
  lemma UnderscoresCollide(a: string, b: string, c: string, range: string)
    ensures Name(a + "_" + b, c, range) == Name(a, b + "_" + c, range)
    ensures a + "_" + b != a
  {
    assert (a + "_" + b) + "_" + c == a + "_" + (b + "_" + c);
    assert |a + "_" + b| > |a|;
  }

  /** Exactly when two versions can collide: one is the other with an underscore and more behind it. */
  lemma VersionsCollide(v: string, v': string, range: string)
    requires v != v'
    ensures (exists f, g :: Name(v, f, range) == Name(v', g, range)) <==> v + "_" <= v' || v' + "_" <= v
  {
    if f, g :| Name(v, f, range) == Name(v', g, range) {
      VersionIsAhead(v, f, v', g, range);
    }
    if v + "_" <= v' {
      var b := v'[|v| + 1..];
      assert v' == v + "_" + b;
      UnderscoresCollide(v, b, "", range);
    }
    if v' + "_" <= v {
      var b := v[|v'| + 1..];
      assert v == v' + "_" + b;
      UnderscoresCollide(v', b, "", range);
    }
  }

  lemma VersionIsAhead(v: string, f: string, v': string, g: string, range: string)
    requires Name(v, f, range) == Name(v', g, range)
    ensures v == v' || v + "_" <= v' || v' + "_" <= v
  {
    var x := Name(v, f, range);
    NameParts(v, f, range);
    NameParts(v', g, range);
    assert x[..|v| + 1] == v + "_" && x[..|v'| + 1] == v' + "_";
    assert x[..|v|] == v && x[..|v'|] == v';
    if |v| < |v'| {
      assert x[..|v'|][..|v| + 1] == x[..|v| + 1];
    } else if |v'| < |v| {
      assert x[..|v|][..|v'| + 1] == x[..|v'| + 1];
    }
  }

  /** The range headers clients send: none, or one pair of offsets. */
  ghost predicate Simple(range: string) {
    range == "" || exists lo: nat, hi: nat :: range == PrintRange(lo, hi)
  }

  lemma DigitsNotBlurred(a: string, b: string, i: nat)
    requires AllDigits(a) && AllDigits(b) && i < |a + "-" + b|
    ensures !Blurred((a + "-" + b)[i])
  {
    if i < |a| {
      assert IsDigit(a[i]);
    } else if i > |a| {
      assert IsDigit(b[i - |a| - 1]);
    }
  }

  lemma PrintedDigits(n: nat)
    ensures AllDigits(PrintInt(n))
  {
  }

  lemma SimpleShape(range: string)
    requires Simple(range) && range != ""
    ensures PREFIX <= range && forall i :: 6 <= i < |range| ==> !Blurred(range[i])
  {
    hide PrintInt, Blurred;
    var lo: nat, hi: nat :| range == PrintRange(lo, hi);
    var text := PrintInt(lo) + "-" + PrintInt(hi);
    PrintedDigits(lo);
    PrintedDigits(hi);
    forall i | 6 <= i < |range| ensures !Blurred(range[i]) {
      DigitsNotBlurred(PrintInt(lo), PrintInt(hi), i - 6);
      assert range[i] == text[i - 6];
    }
  }

  datatype Doc = Doc(version: string, fileID: string, range: string, manifest: string)

  function FileOf(d: Doc): string { Name(d.version, d.fileID, d.range) }

  ghost predicate Plain(d: Doc) { '_' !in d.version && Simple(d.range) }

  lemma NoneBehind(a: string, s: string, at: int)
    requires '_' !in s && |a| < at < |a + "_" + s|
    ensures (a + "_" + s)[at] != '_'
  {
    assert (a + "_" + s)[at] == s[at - |a| - 1];
  }

  /** A text after its last underscore is determined by the whole. */
  lemma SplitAtLastUnderscore(a: string, s: string, b: string, t: string)
    requires '_' !in s && '_' !in t && a + "_" + s == b + "_" + t
    ensures a == b && s == t
  {
    var x := a + "_" + s;
    assert x[|a|] == '_' && x[|b|] == '_';
    if |a| < |b| {
      NoneBehind(a, s, |b|);
    } else if |b| < |a| {
      NoneBehind(b, t, |a|);
    } else {
      assert a == x[..|a|] && b == x[..|b|];
      assert s == x[|a| + 1..] && t == x[|b| + 1..];
    }
  }

  /** The key of a simple range: the placeholder, or the two offsets after the word. */
  function Offsets(range: string): string
    requires PREFIX <= range
  {
    range[6..]
  }

  lemma {:induction false} SanitizedConcat(a: string, b: string)
    ensures Sanitized(a + b) == Sanitized(a) + Sanitized(b)
  {
    if b == "" {
      assert a + b == a;
    } else {
      assert (a + b)[..|a + b| - 1] == a + b[..|b| - 1];
      SanitizedConcat(a, b[..|b| - 1]);
    }
  }

  lemma {:induction false} SharpStays(s: string)
    requires forall i :: 0 <= i < |s| ==> !Blurred(s[i])
    ensures Sanitized(s) == s && '_' !in s
  {
    if s != "" {
      SharpStays(s[..|s| - 1]);
    }
  }

  lemma PrefixKey()
    ensures Sanitized(PREFIX) == "bytes_"
  {
    SanitizedAt(PREFIX, 0);
    SanitizedAt(PREFIX, 1);
    SanitizedAt(PREFIX, 2);
    SanitizedAt(PREFIX, 3);
    SanitizedAt(PREFIX, 4);
    SanitizedAt(PREFIX, 5);
  }

  lemma SimpleKey(range: string)
    requires Simple(range)
    ensures if range == "" then RangeKey(range) == "full"
            else PREFIX <= range && '_' !in Offsets(range) && RangeKey(range) == "bytes_" + Offsets(range)
                 && Offsets(range) != ""
  {
    if range != "" {
      SimpleShape(range);
      var rest := Offsets(range);
      assert range == PREFIX + rest;
      assert forall i :: 0 <= i < |rest| ==> rest[i] == range[i + 6];
      SharpStays(rest);
      PrefixKey();
      SanitizedConcat(PREFIX, rest);
    }
  }

  /** The text of a request ahead of its last underscore, and the one after. */
  function Head(f: string, range: string): string { if range == "" then f else f + "_bytes" }

  function Tail(range: string): string { if PREFIX <= range then Offsets(range) else "full" }

  lemma KeySplit(f: string, range: string)
    requires Simple(range)
    ensures f + "_" + RangeKey(range) == Head(f, range) + "_" + Tail(range) && '_' !in Tail(range)
  {
    hide RangeKey, Simple;
    SimpleKey(range);
    if range != "" {
      assert f + "_" + ("bytes_" + Offsets(range)) == f + "_bytes" + "_" + Offsets(range);
    }
  }

  lemma TailTells(r: string, q: string)
    requires Simple(r) && Simple(q) && Tail(r) == Tail(q)
    ensures r == q
  {
    hide Simple;
    if r != "" {
      NotFull(r);
      assert r == PREFIX + Tail(r);
    }
    if q != "" {
      NotFull(q);
      assert q == PREFIX + Tail(q);
    }
  }

  /** The file id and the simple range behind it are determined by their joint text. */
  lemma FileAndRange(f: string, r: string, g: string, q: string)
    requires Simple(r) && Simple(q) && f + "_" + RangeKey(r) == g + "_" + RangeKey(q)
    ensures f == g && r == q
  {
    hide Simple, RangeKey, Tail;
    KeySplit(f, r);
    KeySplit(g, q);
    SplitAtLastUnderscore(Head(f, r), Tail(r), Head(g, q), Tail(q));
    TailTells(r, q);
    if r != "" {
      DropSuffix(f, g, "_bytes");
    }
  }

  lemma NotFull(range: string)
    requires Simple(range) && range != ""
    ensures PREFIX <= range && Offsets(range) != "full"
  {
    var lo: nat, hi: nat :| range == PrintRange(lo, hi);
    assert range[6..] == PrintInt(lo) + "-" + PrintInt(hi);
    PrintedDigits(lo);
    assert IsDigit(PrintInt(lo)[0]);
    assert range[6..][0] == PrintInt(lo)[0];
  }

  lemma NameOpens(version: string, fileID: string, range: string)
    ensures Name(version, fileID, range) == version + "_" + (fileID + "_" + RangeKey(range) + ".json")
  {
    hide RangeKey;
    assert fileID + "_" + RangeKey(range) + ".json" == fileID + "_" + (RangeKey(range) + ".json");
  }

  /** One file, one request: whatever the file ids, when versions carry no underscore. */
  lemma PathInjective(d: Doc, e: Doc)
    requires Plain(d) && Plain(e) && FileOf(d) == FileOf(e)
    ensures d.version == e.version && d.fileID == e.fileID && d.range == e.range
  {
    hide RangeKey, Simple, Name;
    NameOpens(d.version, d.fileID, d.range);
    NameOpens(e.version, e.fileID, e.range);
    var s, t := d.fileID + "_" + RangeKey(d.range), e.fileID + "_" + RangeKey(e.range);
    SplitAtUnderscore(d.version, s + ".json", e.version, t + ".json");
    DropSuffix(s, t, ".json");
    FileAndRange(d.fileID, d.range, e.fileID, e.range);
  }

  // ---- exactly which requests share a file ----

  /** f, an underscore and k spell what g, an underscore and l spell, with more of it in g. */
  predicate Longer(f: string, k: string, g: string, l: string) {
    f + "_" <= g && k == g[|f| + 1..] + "_" + l
  }

  lemma LongerSpellsSame(f: string, k: string, g: string, l: string)
    requires Longer(f, k, g, l)
    ensures f + "_" + k == g + "_" + l
  {
    assert g == f + "_" + g[|f| + 1..];
    assert f + "_" + (g[|f| + 1..] + "_" + l) == f + "_" + g[|f| + 1..] + "_" + l;
  }

  lemma LongerOrSame(f: string, k: string, g: string, l: string)
    requires f + "_" + k == g + "_" + l && |f| <= |g|
    ensures (f == g && k == l) || Longer(f, k, g, l)
  {
    var x := f + "_" + k;
    assert x[..|f|] == f && x[..|g|] == g && x[|f| + 1..] == k && x[|g| + 1..] == l;
    assert x[|f|] == '_' && x[|g|] == '_';
    if |f| < |g| {
      assert x[..|g|][..|f| + 1] == f + "_";
      assert x[|f| + 1..] == x[..|g|][|f| + 1..] + x[|g|..];
      assert x[|g|..] == "_" + l;
    }
  }

  /** Every way to split one text at an underscore twice. */
  lemma TwoSplits(f: string, k: string, g: string, l: string)
    ensures f + "_" + k == g + "_" + l <==> (f == g && k == l) || Longer(f, k, g, l) || Longer(g, l, f, k)
  {
    if f + "_" + k == g + "_" + l {
      if |f| <= |g| {
        LongerOrSame(f, k, g, l);
      } else {
        LongerOrSame(g, l, f, k);
      }
    }
    if Longer(f, k, g, l) {
      LongerSpellsSame(f, k, g, l);
    }
    if Longer(g, l, f, k) {
      LongerSpellsSame(g, l, f, k);
    }
  }

  /** Two file ids and range headers that no name tells apart: indistinct headers of one file id, or a header whose
      key spells the rest of the longer file id, an underscore and the other's key. */
  predicate Confused(f: string, r: string, g: string, q: string) {
    (f == g && Indistinct(r, q)) || Longer(f, RangeKey(r), g, RangeKey(q)) || Longer(g, RangeKey(q), f, RangeKey(r))
  }

  lemma ConfusedExactly(f: string, r: string, g: string, q: string)
    ensures f + "_" + RangeKey(r) == g + "_" + RangeKey(q) <==> Confused(f, r, g, q)
  {
    hide RangeKey, Longer, Indistinct;
    TwoSplits(f, RangeKey(r), g, RangeKey(q));
    RangeKeyCollides(r, q);
  }

  /** v' is v and an underscore, and the rest of it goes to the file id. */
  predicate Spills(v: string, f: string, r: string, v': string, g: string, q: string) {
    v + "_" <= v' && Confused(f, r, v'[|v| + 1..] + "_" + g, q)
  }

  /** Exactly which requests share a file, whatever their versions, file ids and range headers. */
  lemma SharedFile(v: string, f: string, r: string, v': string, g: string, q: string)
    ensures Name(v, f, r) == Name(v', g, q) <==>
            (v == v' && Confused(f, r, g, q)) || Spills(v, f, r, v', g, q) || Spills(v', g, q, v, f, r)
  {
    hide RangeKey, Confused, Name;
    NameOpens(v, f, r);
    NameOpens(v', g, q);
    var s, t := f + "_" + RangeKey(r), g + "_" + RangeKey(q);
    assert v + "_" + (s + ".json") == v + "_" + s + ".json" && v' + "_" + (t + ".json") == v' + "_" + t + ".json";
    if v + "_" + s + ".json" == v' + "_" + t + ".json" {
      DropSuffix(v + "_" + s, v' + "_" + t, ".json");
    }
    TwoSplits(v, s, v', t);
    ConfusedExactly(f, r, g, q);
    SpillsExactly(v, f, r, v', g, q);
    SpillsExactly(v', g, q, v, f, r);
  }

  lemma SpillsExactly(v: string, f: string, r: string, v': string, g: string, q: string)
    ensures Spills(v, f, r, v', g, q) <==> Longer(v, f + "_" + RangeKey(r), v', g + "_" + RangeKey(q))
  {
    hide RangeKey, Confused;
    if v + "_" <= v' {
      var rest := v'[|v| + 1..];
      ConfusedExactly(f, r, rest + "_" + g, q);
      assert rest + "_" + (g + "_" + RangeKey(q)) == rest + "_" + g + "_" + RangeKey(q);
    }
  }

  lemma PrefixShows(v: string, v': string)
    ensures v + "_" <= v' ==> '_' in v'
  {
    assert v + "_" <= v' ==> v'[|v|] == '_';
  }

  /** Versions without an underscore never spill: only file ids and range headers can be confused. */
  lemma SharedFileOfOneVersion(v: string, f: string, r: string, v': string, g: string, q: string)
    requires '_' !in v && '_' !in v'
    ensures Name(v, f, r) == Name(v', g, q) <==> v == v' && Confused(f, r, g, q)
  {
    hide Confused, Name;
    SharedFile(v, f, r, v', g, q);
    PrefixShows(v, v');
    PrefixShows(v', v);
  }

  /** The longer file id ends as a range key could. */
  predicate Extends(f: string, g: string) {
    f + "_" <= g && forall i :: |f| < i < |g| ==> Safe(g[i])
  }

  lemma KeyIsSafe(range: string, i: nat)
    requires i < |RangeKey(range)|
    ensures Safe(RangeKey(range)[i])
  {
    if Sanitized(range) != "" {
      SanitizedAt(range, i);
    }
  }

  lemma {:induction false} SafeStays(s: string)
    requires forall i :: 0 <= i < |s| ==> Safe(s[i])
    ensures Sanitized(s) == s
  {
    if s != "" {
      SafeStays(s[..|s| - 1]);
    }
  }

  lemma LongerExtends(f: string, r: string, g: string, q: string)
    requires Longer(f, RangeKey(r), g, RangeKey(q))
    ensures Extends(f, g)
  {
    hide RangeKey, Safe;
    forall i | |f| < i < |g| ensures Safe(g[i]) {
      assert RangeKey(r)[i - |f| - 1] == g[i];
      KeyIsSafe(r, i - |f| - 1);
    }
  }

  lemma ExtendsShares(version: string, f: string, g: string) returns (r: string, q: string)
    requires Extends(f, g)
    ensures Name(version, f, r) == Name(version, g, q)
  {
    hide Sanitized;
    r, q := g[|f| + 1..] + "_full", "";
    SafeStays(r);
    assert RangeKey("") == "full" by {
      assert Sanitized("") == "";
    }
    assert RangeKey(r) == g[|f| + 1..] + "_" + "full";
    hide RangeKey, Name;
    SharedFile(version, f, r, version, g, q);
  }

  /** Exactly when two file ids can collide under one version: one is the other with an underscore and safe
      characters behind it. */
  lemma FileIdsCollide(version: string, f: string, g: string)
    requires f != g
    ensures (exists r, q :: Name(version, f, r) == Name(version, g, q)) <==> Extends(f, g) || Extends(g, f)
  {
    hide RangeKey, Longer, Extends, Name;
    if r, q :| Name(version, f, r) == Name(version, g, q) {
      SharedFile(version, f, r, version, g, q);
      if Longer(f, RangeKey(r), g, RangeKey(q)) {
        LongerExtends(f, r, g, q);
      } else {
        LongerExtends(g, q, f, r);
      }
    }
    if Extends(f, g) {
      var r, q := ExtendsShares(version, f, g);
    }
    if Extends(g, f) {
      var r, q := ExtendsShares(version, g, f);
      assert Name(version, f, q) == Name(version, g, r);
    }
  }

  /** With an underscore in the file id alone, requests with odd range headers can share a file. */
  lemma FileIdCollides(version: string)
    ensures Name(version, "x_y", "z") == Name(version, "x", "y_z")
  {
    assert Sanitized("z") == "z" by {
      SanitizedAt("z", 0);
    }
    assert Sanitized("y_z") == "y_z" by {
      SanitizedAt("y_z", 0);
      SanitizedAt("y_z", 1);
      SanitizedAt("y_z", 2);
    }
    assert "x_y" + "_" + "z" == "x" + "_" + "y_z";
    assert Name(version, "x_y", "z") == version + "_" + ("x_y" + "_" + "z") + ".json";
    assert Name(version, "x", "y_z") == version + "_" + ("x" + "_" + "y_z") + ".json";
  }

  /** Two multi-range headers that do share a file. */
  lemma MultiRangesCollide(version: string, fileID: string)
    ensures "bytes=0-1,5-6" != "bytes=0-1;5-6"
    ensures Name(version, fileID, "bytes=0-1,5-6") == Name(version, fileID, "bytes=0-1;5-6")
  {
    var a, b := "bytes=0-1,5-6", "bytes=0-1;5-6";
    assert a[9] != b[9];
    RangeKeyCollides(a, b);
  }

  // ---- the index and the directory, one step at a time ----

  /** Who holds the mutex: nobody, or a Put that is trimming, or one about to remove a file it dropped. */
  datatype Mutex = Free | Trimming | Removing(path: string)

  /** The index, the manifest files, and the Puts that have written but not yet locked. */
  datatype State = State(order: seq<string>, known: set<string>, disk: map<string, Doc>,
                         pending: multiset<string>, mutex: Mutex)

  datatype Step = Write(d: Doc) | Lock(path: string) | Drop | Remove | Unlock

  ghost predicate Enabled(max: int, s: State, step: Step) {
    match step
    case Write(_) => true
    case Lock(path) => s.mutex.Free? && path in s.pending
    case Drop => s.mutex.Trimming? && |s.order| > max
    case Remove => s.mutex.Removing?
    case Unlock => s.mutex.Trimming? && |s.order| <= max
  }

  function Indexed(s: State, path: string): State {
    if path in s.known then s else s.(known := s.known + {path}, order := s.order + [path])
  }

  function Apply(s: State, step: Step): State
    requires step.Drop? ==> s.order != []
  {
    match step
    case Write(d) => s.(disk := s.disk[FileOf(d) := d], pending := s.pending + multiset{FileOf(d)})
    case Lock(path) => Indexed(s, path).(pending := s.pending - multiset{path}, mutex := Trimming)
    case Drop => s.(order := s.order[1..], known := s.known - {s.order[0]}, mutex := Removing(s.order[0]))
    case Remove => if s.mutex.Removing? then s.(disk := s.disk - {s.mutex.path}, mutex := Trimming) else s
    case Unlock => s.(mutex := Free)
  }

  function Paths(order: seq<string>): set<string> { set p | p in order }

  /** Every file is indexed, about to be, or about to go. */
  ghost predicate Tracked(s: State) {
    forall p :: p in s.disk ==> p in s.known || p in s.pending || s.mutex == Removing(p)
  }

  /** A file holds a manifest of a request that maps to it. */
  ghost predicate Faithful(s: State) {
    forall p :: p in s.disk ==> FileOf(s.disk[p]) == p
  }

  ghost predicate Inv(max: int, s: State) {
    && NoRepeats(s.order) && s.known == Paths(s.order)
    && |s.order| <= max + (if s.mutex.Free? then 0 else 1)
    && (s.mutex.Removing? ==> |s.order| <= max)
    && Tracked(s) && Faithful(s)
  }

  lemma IndexedKeeps(s: State, path: string)
    requires NoRepeats(s.order) && s.known == Paths(s.order)
    ensures NoRepeats(Indexed(s, path).order) && Indexed(s, path).known == Paths(Indexed(s, path).order)
    ensures path in Indexed(s, path).known && s.known <= Indexed(s, path).known
    ensures |Indexed(s, path).order| <= |s.order| + 1
  {
    if path !in s.known {
      assert Paths(s.order + [path]) == Paths(s.order) + {path};
      assert forall i :: 0 <= i < |s.order| ==> s.order[i] in Paths(s.order);
    }
  }

  lemma DropKeeps(order: seq<string>)
    requires NoRepeats(order) && order != []
    ensures NoRepeats(order[1..]) && Paths(order[1..]) == Paths(order) - {order[0]}
  {
    assert order == [order[0]] + order[1..];
  }

  /** Every step of every interleaving keeps the index exact, bounded outside the lock, and covering the
      directory. */
  lemma StepKeepsInv(max: int, s: State, step: Step)
    requires max > 0 && Inv(max, s) && Enabled(max, s, step)
    ensures Inv(max, Apply(s, step))
  {
    match step
    case Lock(path) => IndexedKeeps(s, path);
    case Drop => DropKeeps(s.order);
    case _ =>
  }

  ghost predicate Run(max: int, s: State, steps: seq<Step>, t: State)
    decreases |steps|
  {
    if steps == [] then s == t
    else Enabled(max, s, steps[0]) && (steps[0].Drop? ==> s.order != []) && Run(max, Apply(s, steps[0]), steps[1..], t)
  }

  lemma OneMore(max: int, s: State, step: Step, rest: seq<Step>, t: State)
    requires Enabled(max, s, step) && (step.Drop? ==> s.order != []) && Run(max, Apply(s, step), rest, t)
    ensures Run(max, s, [step] + rest, t)
  {
    assert ([step] + rest)[1..] == rest;
  }

  lemma {:induction false} RunKeepsInv(max: int, s: State, steps: seq<Step>, t: State)
    requires max > 0 && Inv(max, s) && Run(max, s, steps, t)
    ensures Inv(max, t)
    decreases |steps|
  {
    if steps != [] {
      StepKeepsInv(max, s, steps[0]);
      RunKeepsInv(max, Apply(s, steps[0]), steps[1..], t);
    }
  }

  /** What a lookup reads. */
  function Lookup(s: State, version: string, fileID: string, range: string): Option<Doc> {
    var path := Name(version, fileID, range);
    if path in s.disk then Some(s.disk[path]) else None
  }

  ghost predicate PlainWrites(steps: seq<Step>) {
    forall i :: 0 <= i < |steps| && steps[i].Write? ==> Plain(steps[i].d)
  }

  ghost predicate PlainDisk(s: State) {
    forall p :: p in s.disk ==> Plain(s.disk[p])
  }

  lemma {:induction false} RunStaysPlain(max: int, s: State, steps: seq<Step>, t: State)
    requires Run(max, s, steps, t) && PlainWrites(steps) && PlainDisk(s)
    ensures PlainDisk(t)
    decreases |steps|
  {
    if steps != [] {
      assert PlainWrites(steps[1..]);
      RunStaysPlain(max, Apply(s, steps[0]), steps[1..], t);
    }
  }

  lemma OwnDoc(s: State, d: Doc)
    requires Faithful(s) && PlainDisk(s) && Plain(d) && FileOf(d) in s.disk
    ensures var e := s.disk[FileOf(d)]; e.version == d.version && e.fileID == d.fileID && e.range == d.range
  {
    PathInjective(s.disk[FileOf(d)], d);
  }

  /** In every reachable state, what is found for a plain request was stored for that very request. */
  lemma LookupIsOwn(max: int, s: State, steps: seq<Step>, t: State, d: Doc)
    requires max > 0 && Inv(max, s) && PlainDisk(s) && Run(max, s, steps, t) && PlainWrites(steps) && Plain(d)
    ensures var found := Lookup(t, d.version, d.fileID, d.range);
            found.Some? ==> found.value.version == d.version && found.value.fileID == d.fileID
                            && found.value.range == d.range
  {
    RunKeepsInv(max, s, steps, t);
    RunStaysPlain(max, s, steps, t);
    var found := Lookup(t, d.version, d.fileID, d.range);
    if found.Some? {
      PathInjective(found.value, d);
    }
  }

  // ---- whole calls ----

  /** trimLocked, run to its end. */
  function Trimmed(max: int, s: State): (r: State)
    ensures r.pending == s.pending && r.mutex == s.mutex
    decreases |s.order|
  {
    if |s.order| <= max || s.order == [] then s
    else Trimmed(max, s.(order := s.order[1..], known := s.known - {s.order[0]}, disk := s.disk - {s.order[0]}))
  }

  function AfterPut(max: int, s: State, d: Doc): State {
    var written := s.(disk := s.disk[FileOf(d) := d]);
    if max <= 0 then written else Trimmed(max, Indexed(written, FileOf(d)))
  }

  /** The state in which a Put holds the mutex, its file written and its path indexed. */
  function Locked(s: State, d: Doc): State {
    Apply(Apply(s, Write(d)), Lock(FileOf(d)))
  }

  lemma PutEnds(max: int, s: State, d: Doc)
    requires max > 0 && s.mutex.Free?
    ensures Trimmed(max, Locked(s, d)).(mutex := Free) == AfterPut(max, s, d)
  {
    hide FileOf;
    var path := FileOf(d);
    TrimFrame(max, Locked(s, d), Indexed(s.(disk := s.disk[path := d]), path));
    assert s.pending + multiset{path} - multiset{path} == s.pending;
  }

  /** A Put that no other overlaps is one run of the steps. */
  lemma PutIsRun(max: int, s: State, d: Doc) returns (steps: seq<Step>)
    requires max > 0 && s.mutex.Free?
    ensures Run(max, s, steps, AfterPut(max, s, d))
  {
    hide Run, Trimmed, AfterPut, Indexed, FileOf;
    var rest := TrimIsRun(max, Locked(s, d));
    PutEnds(max, s, d);
    OneMore(max, Apply(s, Write(d)), Lock(FileOf(d)), rest, AfterPut(max, s, d));
    OneMore(max, s, Write(d), [Lock(FileOf(d))] + rest, AfterPut(max, s, d));
    steps := [Write(d)] + ([Lock(FileOf(d))] + rest);
  }

  lemma {:induction false} TrimIsRun(max: int, s: State) returns (steps: seq<Step>)
    requires max > 0 && s.mutex.Trimming?
    ensures Run(max, s, steps, Trimmed(max, s).(mutex := Free))
    decreases |s.order|
  {
    if |s.order| <= max {
      steps := [Unlock];
    } else {
      var dropped := Apply(s, Drop);
      var removed := Apply(dropped, Remove);
      var rest := TrimIsRun(max, removed);
      OneMore(max, dropped, Remove, rest, Trimmed(max, s).(mutex := Free));
      OneMore(max, s, Drop, [Remove] + rest, Trimmed(max, s).(mutex := Free));
      steps := [Drop] + ([Remove] + rest);
    }
  }

  /** Trimming looks only at the index and the files. */
  lemma {:induction false} TrimFrame(max: int, s: State, t: State)
    requires s.order == t.order && s.known == t.known && s.disk == t.disk
    ensures Trimmed(max, s).(mutex := t.mutex, pending := t.pending) == Trimmed(max, t)
    decreases |s.order|
  {
    if |s.order| > max && s.order != [] {
      TrimFrame(max, s.(order := s.order[1..], known := s.known - {s.order[0]}, disk := s.disk - {s.order[0]}),
                t.(order := t.order[1..], known := t.known - {t.order[0]}, disk := t.disk - {t.order[0]}));
    }
  }

  /** A Put by itself keeps everything the interleavings keep. */
  lemma PutKeepsInv(max: int, s: State, d: Doc)
    requires max > 0 && s.mutex.Free? && Inv(max, s)
    ensures Inv(max, AfterPut(max, s, d))
  {
    var steps := PutIsRun(max, s, d);
    RunKeepsInv(max, s, steps, AfterPut(max, s, d));
  }

  /** The newest entry outlives the trim, and so does every file that is still indexed. */
  lemma {:induction false} TrimKeepsNewest(max: int, s: State)
    requires max > 0 && NoRepeats(s.order) && s.order != []
    ensures var p := s.order[|s.order| - 1];
            p in s.disk ==> p in Trimmed(max, s).disk && Trimmed(max, s).disk[p] == s.disk[p]
    decreases |s.order|
  {
    if |s.order| > max {
      assert s.order[|s.order| - 1] == s.order[1..][|s.order| - 2];
      TrimKeepsNewest(max, s.(order := s.order[1..], known := s.known - {s.order[0]}, disk := s.disk - {s.order[0]}));
    }
  }

  /** What a Put stored is what the next lookup finds, whether or not the cache is bounded. */
  lemma PutThenLookup(max: int, s: State, d: Doc)
    requires max > 0 ==> s.mutex.Free? && Inv(max, s)
    ensures Lookup(AfterPut(max, s, d), d.version, d.fileID, d.range) == Some(d)
  {
    if max > 0 {
      var path := FileOf(d);
      var indexed := Indexed(s.(disk := s.disk[path := d]), path);
      IndexedKeeps(s, path);
      if path !in s.known {
        TrimKeepsNewest(max, indexed);
      }
    }
  }

  // ---- boot ----

  /** A file the glob matched; no time when it cannot be statted. */
  datatype Found = Found(path: string, mtime: Option<int>)

  function Stats(files: seq<Found>): seq<Aged<string>> {
    if files == [] then []
    else
      var last := files[|files| - 1];
      Stats(files[..|files| - 1]) + if last.mtime.Some? then [Aged(last.path, last.mtime.value)] else []
  }

  function PathsOf(seeds: seq<Aged<string>>): seq<string> {
    if seeds == [] then [] else PathsOf(seeds[..|seeds| - 1]) + [seeds[|seeds| - 1].item]
  }

  function Seeded(dir: map<string, Doc>, seeds: seq<Aged<string>>): State {
    State(PathsOf(seeds), Paths(PathsOf(seeds)), dir, multiset{}, Free)
  }

  lemma {:induction false} PathsOfMember(seeds: seq<Aged<string>>, p: string)
    ensures p in PathsOf(seeds) <==> exists m: int :: Aged(p, m) in seeds
  {
    if seeds != [] {
      var before, last := seeds[..|seeds| - 1], seeds[|seeds| - 1];
      PathsOfMember(before, p);
      assert seeds == before + [last];
      if p in PathsOf(before) {
        var m: int :| Aged(p, m) in before;
        assert Aged(p, m) in seeds;
      } else if p == last.item {
        assert Aged(p, last.mtime) in seeds;
      }
    }
  }

  lemma {:induction false} StatsMember(files: seq<Found>, p: string, m: int)
    ensures Aged(p, m) in Stats(files) <==> Found(p, Some(m)) in files
  {
    if files != [] {
      StatsMember(files[..|files| - 1], p, m);
      assert files == files[..|files| - 1] + [files[|files| - 1]];
    }
  }

  /** The files a trim leaves: those that were never indexed and those still indexed. */
  lemma {:induction false} TrimKeepsIndex(max: int, s: State)
    requires NoRepeats(s.order) && s.known == Paths(s.order) && max > 0
    ensures var t := Trimmed(max, s);
            && NoRepeats(t.order) && t.known == Paths(t.order) && |t.order| <= max && t.known <= s.known
            && forall p :: p in t.disk <==> p in s.disk && (p in s.known ==> p in t.known)
    ensures forall p :: p in Trimmed(max, s).disk ==> Trimmed(max, s).disk[p] == s.disk[p]
    decreases |s.order|
  {
    if |s.order| > max {
      DropKeeps(s.order);
      TrimKeepsIndex(max, s.(order := s.order[1..], known := s.known - {s.order[0]}, disk := s.disk - {s.order[0]}));
    }
  }

  /** The index at boot is exact and bounded, and every file left in the directory is covered by it exactly when
      no file there escaped the scan. */
  lemma BootCoversDisk(max: int, dir: map<string, Doc>, files: seq<Found>, seeds: seq<Aged<string>>)
    requires max > 0 && multiset(seeds) == multiset(Stats(files)) && NoRepeats(PathsOf(seeds))
    ensures var t := Trimmed(max, Seeded(dir, seeds));
            && NoRepeats(t.order) && t.known == Paths(t.order) && |t.order| <= max
            && (Tracked(t) <==> forall p :: p in dir ==> exists m: int :: Found(p, Some(m)) in files)
  {
    var s := Seeded(dir, seeds);
    TrimKeepsIndex(max, s);
    forall p ensures p in s.known <==> exists m: int :: Found(p, Some(m)) in files {
      PathsOfMember(seeds, p);
      if m: int :| Aged(p, m) in seeds {
        assert Aged(p, m) in multiset(seeds);
        StatsMember(files, p, m);
      }
      if m: int :| Found(p, Some(m)) in files {
        StatsMember(files, p, m);
        assert Aged(p, m) in multiset(Stats(files));
        assert Aged(p, m) in seeds;
      }
    }
    var t := Trimmed(max, s);
    assert Tracked(t) <==> forall p :: p in dir ==> p in s.known;
  }

  // ---- the object ----

  /** The mutex is held by one call at a time; disk stands for the manifest files of the directory. */
  class ManifestCache {
    const max: int
    var order: seq<string>
    var known: set<string>
    var disk: map<string, Doc>

    ghost function Abstract(): State
      reads this
    {
      State(order, known, disk, multiset{}, Free)
    }

    /** newManifestCache and seedFromDisk; seeds is the order the sort settled on. */
    constructor (max: int, dir: map<string, Doc>, files: seq<Found>, ghost seeds: seq<Aged<string>>)
      requires seeds == SortByAge(Stats(files))
      ensures this.max == max
      ensures Abstract() == if max <= 0 then State([], {}, dir, multiset{}, Free) else Trimmed(max, Seeded(dir, seeds))
    {
      this.max := max;
      order, known, disk := [], {}, dir;
      new;
      if max > 0 {
        SeedFromDisk(files);
      }
    }

    method SeedFromDisk(files: seq<Found>)
      requires max > 0 && order == [] && known == {}
      modifies this
      ensures Abstract() == Trimmed(max, Seeded(old(disk), SortByAge(Stats(files))))
    {
      var infos: seq<Aged<string>> := [];
      for i := 0 to |files|
        invariant infos == Stats(files[..i])
        invariant order == [] && known == {} && disk == old(disk)
      {
        assert files[..i + 1][..i] == files[..i];
        if files[i].mtime.Some? {
          infos := infos + [Aged(files[i].path, files[i].mtime.value)];
        }
      }
      assert files[..|files|] == files;
      infos := SortByAge(infos);
      for i := 0 to |infos|
        invariant order == PathsOf(infos[..i]) && known == Paths(order) && disk == old(disk)
      {
        assert infos[..i + 1][..i] == infos[..i];
        order := order + [infos[i].item];
        known := known + {infos[i].item};
      }
      assert infos[..|infos|] == infos;
      TrimLocked();
    }

    method TrimLocked()
      modifies this
      ensures Abstract() == if max <= 0 then old(Abstract()) else Trimmed(max, old(Abstract()))
    {
      if max <= 0 {
        return;
      }
      while |order| > max
        invariant Trimmed(max, Abstract()) == Trimmed(max, old(Abstract()))
        decreases |order|
      {
        var oldest := order[0];
        order := order[1..];
        known := known - {oldest};
        disk := disk - {oldest};
      }
    }

    /** encoded and written say whether the JSON encoding and the atomic write succeeded. */
    method Put(d: Doc, encoded: bool, written: bool)
      modifies this
      ensures Abstract() == if encoded && written then AfterPut(max, old(Abstract()), d) else old(Abstract())
      ensures max > 0 && old(Inv(max, Abstract())) ==> Inv(max, Abstract())
    {
      if max > 0 && Inv(max, Abstract()) {
        PutKeepsInv(max, Abstract(), d);
      }
      if !encoded || !written {
        return;
      }
      var path := FileOf(d);
      disk := disk[path := d];
      if max <= 0 {
        return;
      }
      if path !in known {
        known := known + {path};
        order := order + [path];
      }
      TrimLocked();
    }

    /** A miss means no file of the request's name; what is found was stored under that name, and when every
        stored request is plain, for that very request. */
    method Get(version: string, fileID: string, range: string) returns (found: Option<Doc>)
      ensures found.Some? <==> Name(version, fileID, range) in disk
      ensures Faithful(Abstract()) && found.Some? ==> FileOf(found.value) == Name(version, fileID, range)
      ensures Faithful(Abstract()) && PlainDisk(Abstract()) && '_' !in version && Simple(range) && found.Some? ==>
                found.value.version == version && found.value.fileID == fileID && found.value.range == range
      ensures found.Some? ==> found.value == disk[Name(version, fileID, range)]
    {
      if Faithful(Abstract()) && PlainDisk(Abstract()) && '_' !in version && Simple(range) {
        if Name(version, fileID, range) in disk {
          OwnDoc(Abstract(), Doc(version, fileID, range, ""));
        }
      }
      var path := Name(version, fileID, range);
      if path in disk {
        return Some(disk[path]);
      }
      return None;
    }
  }
}
