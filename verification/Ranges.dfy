/** Byte ranges as text (shim-go/util.go:26-51, shim-go/peer_hedge.go:25-31): parsing a Range header, the
    length it asks for, and the Content-Range label of a cache hit. Arithmetic is 64-bit and wraps. */
module Ranges {
  import opened Types
  import opened Decimal

  const TWO_TO_THE_64 := 0x1_0000_0000_0000_0000

  /** The 64-bit result of one addition or subtraction of two int64 values. */
  function Wrap(x: int): (r: int)
    requires -TWO_TO_THE_64 <= x < TWO_TO_THE_64
    ensures INT64_MIN <= r <= INT64_MAX
  {
    if x > INT64_MAX then x - TWO_TO_THE_64 else if x < INT64_MIN then x + TWO_TO_THE_64 else x
  }

  const PREFIX := "bytes="

  function TrimPrefix(s: string): string {
    if PREFIX <= s then s[|PREFIX|..] else s
  }

  /** The index of the first '-', or the length when there is none: strings.Cut. */
  function CutAt(s: string): (i: nat)
    ensures i <= |s|
    ensures forall j :: 0 <= j < i ==> s[j] != '-'
    ensures i < |s| ==> s[i] == '-'
  {
    if s == [] then 0 else if s[0] == '-' then 0 else 1 + CutAt(s[1..])
  }

  /** parseRange: (lo, hi + 1), or nothing. */
  function ParseRange(byteRange: string): (r: Option<(int, int)>)
    ensures r.Some? ==> INT64_MIN <= r.value.0 <= INT64_MAX && INT64_MIN <= r.value.1 <= INT64_MAX
  {
    var s := TrimPrefix(byteRange);
    var i := CutAt(s);
    if i == |s| then None
    else
      var lo := ParseInt(s[..i]);
      var hi := ParseInt(s[i + 1..]);
      if lo.None? || hi.None? then None else Some((lo.value, Wrap(hi.value + 1)))
  }

  function RangeSize(byteRange: string): int {
    match ParseRange(byteRange)
    case None => 0
    case Some(b) => Wrap(b.1 - b.0)
  }

  /** The test peerGet applies to a body of n bytes (shim-go/peer_fetch.go:150-153). */
  predicate Accepts(byteRange: string, n: nat) {
    ParseRange(byteRange).Some? && n == Wrap(ParseRange(byteRange).value.1 - ParseRange(byteRange).value.0)
  }

  /** contentRangeForHit: the empty label means the header is omitted. */
  function HitLabel(byteRange: string, n: int): string
    requires INT64_MIN <= n <= INT64_MAX
  {
    match ParseRange(byteRange)
    case None => ""
    case Some(b) =>
      if n <= 0 then "" else Label(b.0, Wrap(Wrap(b.0 + n) - 1))
  }

  function Label(lo: int, hi: int): string {
    "bytes " + PrintInt(lo) + "-" + PrintInt(hi) + "/*"
  }

  function PrintRange(lo: nat, hi: nat): string {
    PREFIX + (PrintInt(lo) + "-" + PrintInt(hi))
  }

  lemma CutFirst(a: string, b: string)
    requires '-' !in a
    ensures CutAt(a + "-" + b) == |a|
  {
    var s := a + "-" + b;
    assert s[|a|] == '-';
    assert forall i :: 0 <= i < |a| ==> s[i] == a[i] && a[i] in a;
  }

  lemma PrintedParts(lo: nat, hi: nat)
    ensures TrimPrefix(PrintRange(lo, hi)) == PrintInt(lo) + "-" + PrintInt(hi)
    ensures CutAt(TrimPrefix(PrintRange(lo, hi))) == |PrintInt(lo)|
  {
    var s := PrintInt(lo) + "-" + PrintInt(hi);
    assert forall i :: 0 <= i < |PrintInt(lo)| ==> IsDigit(PrintInt(lo)[i]);
    CutFirst(PrintInt(lo), PrintInt(hi));
  }

  /** A printed range parses back to its bounds; at the very last offset the upper bound wraps. */
  lemma RangeRoundTrip(lo: nat, hi: nat)
    requires lo <= hi <= INT64_MAX
    ensures ParseRange(PrintRange(lo, hi)) == Some((lo, if hi < INT64_MAX then hi + 1 else INT64_MIN))
  {
    hide ParseInt, PrintInt, TrimPrefix, CutAt;
    PrintedParts(lo, hi);
    var s := PrintInt(lo) + "-" + PrintInt(hi);
    assert s[..|PrintInt(lo)|] == PrintInt(lo);
    assert s[|PrintInt(lo)| + 1..] == PrintInt(hi);
    ParsePrinted(lo);
    ParsePrinted(hi);
  }

  /** The computed length is the real one for every range but the one that spans all offsets. */
  lemma RangeSizeExact(lo: nat, hi: nat)
    requires lo <= hi <= INT64_MAX
    ensures RangeSize(PrintRange(lo, hi)) == hi - lo + 1 <==> !(lo == 0 && hi == INT64_MAX)
  {
    hide ParseRange, PrintRange;
    RangeRoundTrip(lo, hi);
  }

  /** A body peerGet accepted for [lo, hi] has exactly the bytes asked for, and when it is later served
      from disk its label names exactly that range. */
  lemma AcceptedBodyIsLabelledExactly(lo: nat, hi: nat, n: nat)
    requires lo <= hi <= INT64_MAX && Accepts(PrintRange(lo, hi), n)
    ensures n == hi - lo + 1
    ensures HitLabel(PrintRange(lo, hi), n) == Label(lo, hi)
  {
    hide ParseRange, PrintRange, PrintInt;
    RangeRoundTrip(lo, hi);
    RangeSizeExact(lo, hi);
  }

  /** The label's upper bound, computed from the lower one and the length, wraps back to the parsed one. */
  lemma WrapBack(lo: int, hi: int, n: nat)
    requires INT64_MIN <= lo <= INT64_MAX && INT64_MIN <= hi <= INT64_MAX && n == Wrap(hi - lo)
    ensures Wrap(Wrap(lo + n) - 1) == Wrap(hi - 1)
  {
    assert Wrap(lo + n) == hi;
  }

  /** Whatever the header's spelling, an accepted non-empty body is labelled from the parsed lower bound
      to the parsed upper bound. */
  lemma AcceptedBodyLabel(byteRange: string, n: nat)
    requires 0 < n <= INT64_MAX && Accepts(byteRange, n)
    ensures var b := ParseRange(byteRange).value;
            HitLabel(byteRange, n) == Label(b.0, Wrap(b.1 - 1))
  {
    hide ParseRange, PrintInt;
    var b := ParseRange(byteRange).value;
    WrapBack(b.0, b.1, n);
  }
}
