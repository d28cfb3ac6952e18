/** The candidate list kept for each xorb and the fetch that tries it (shim-go/xorb.go:14-60), and the manifest
    rewrite that fills it (shim-go/reconstruction.go:9-33). */
module SignedUrls {
  import opened Types
  import opened Seqs
  import opened TtlMap

  // ---- candidate lists ----

  function First(urls: seq<string>, n: nat): (r: seq<string>)
    ensures |r| <= n && r <= urls
  {
    if |urls| <= n then urls else urls[..n]
  }

  /** The list after remembering url: it comes first, once, and the list is cut to cap. */
  function Candidates(previous: seq<string>, url: string, cap: nat): seq<string> {
    First([url] + Removed(previous, url), cap)
  }

  /** The urls without their repetitions, each at its first place. */
  function Unique(urls: seq<string>): seq<string> {
    if urls == [] then [] else [urls[0]] + Removed(Unique(urls[1..]), urls[0])
  }

  function Reversed(urls: seq<string>): (r: seq<string>)
    ensures |r| == |urls|
  {
    if urls == [] then [] else [urls[|urls| - 1]] + Reversed(urls[..|urls| - 1])
  }

  // ---- what Unique means ----

  lemma {:induction false} UniqueMember(urls: seq<string>, u: string)
    ensures u in Unique(urls) <==> u in urls
  {
    if urls != [] {
      assert urls == [urls[0]] + urls[1..];
      UniqueMember(urls[1..], u);
      RemovedMember(Unique(urls[1..]), urls[0], u);
    }
  }

  lemma {:induction false} UniqueDistinct(urls: seq<string>)
    ensures NoRepeats(Unique(urls))
  {
    if urls != [] {
      UniqueDistinct(urls[1..]);
      RemovedNoRepeats(Unique(urls[1..]), urls[0]);
      var rest := Removed(Unique(urls[1..]), urls[0]);
      assert forall i :: 0 <= i < |rest| ==> rest[i] in rest;
    }
  }

  // ---- remembering one url ----

  /** Cutting the list before removing a url loses nothing among the first n that remain. */
  lemma {:induction false} CutThenRemove(urls: seq<string>, url: string, n: nat)
    requires NoRepeats(urls)
    ensures First(Removed(urls, url), n) == First(Removed(First(urls, n + 1), url), n)
  {
    if urls != [] {
      var cut := First(urls, n + 1);
      assert cut[1..] == First(urls[1..], n);
      if urls[0] == url {
        assert url !in urls[1..] && url !in cut[1..];
        RemovedAbsent(urls[1..], url);
        RemovedAbsent(cut[1..], url);
      } else if n > 0 {
        CutThenRemove(urls[1..], url, n - 1);
        ConsFirst(urls[0], Removed(urls[1..], url), n);
        ConsFirst(urls[0], Removed(cut[1..], url), n);
      }
    }
  }

  lemma ConsFirst(url: string, urls: seq<string>, n: nat)
    requires n > 0
    ensures First([url] + urls, n) == [url] + First(urls, n - 1)
  {
  }

  lemma {:induction false} RemovedCommutes(urls: seq<string>, a: string, b: string)
    ensures Removed(Removed(urls, a), b) == Removed(Removed(urls, b), a)
  {
    if urls != [] {
      RemovedCommutes(urls[1..], a, b);
      RemovedCons(urls[0], Removed(urls[1..], a), b);
      RemovedCons(urls[0], Removed(urls[1..], b), a);
      RemovedFirst(urls, a);
      RemovedFirst(urls, b);
    }
  }

  lemma RemovedFirst(urls: seq<string>, u: string)
    requires urls != []
    ensures Removed(urls, u) == if urls[0] == u then Removed(urls[1..], u) else [urls[0]] + Removed(urls[1..], u)
  {
  }

  lemma RemovedCons(url: string, urls: seq<string>, u: string)
    ensures Removed([url] + urls, u) == (if url == u then [] else [url]) + Removed(urls, u)
  {
    assert ([url] + urls)[1..] == urls;
  }

  lemma AheadDistinct(urls: seq<string>, a: string)
    requires NoRepeats(urls)
    ensures NoRepeats([a] + Removed(urls, a))
  {
    RemovedNoRepeats(urls, a);
    var rest := Removed(urls, a);
    assert forall i :: 0 <= i < |rest| ==> rest[i] in rest;
  }

  lemma RemovedBoth(urls: seq<string>, a: string, b: string)
    ensures Removed([a] + Removed(urls, a), b) ==
            if a == b then Removed(urls, b) else [a] + Removed(Removed(urls, b), a)
  {
    RemovedCons(a, Removed(urls, a), b);
    if a == b {
      RemovedAbsent(Removed(urls, a), a);
    } else {
      RemovedCommutes(urls, a, b);
    }
  }

  /** The list two calls leave in turn, before the cut. */
  lemma InTurn(previous: seq<string>, a: string, b: string, cap: nat)
    requires NoRepeats(previous) && 0 < cap
    ensures Candidates(Candidates(previous, a, cap), b, cap) ==
            [b] + First(if a == b then Removed(previous, b) else [a] + Removed(Removed(previous, b), a), cap - 1)
  {
    hide Removed, First, NoRepeats;
    var list := [a] + Removed(previous, a);
    AheadDistinct(previous, a);
    CutThenRemove(list, b, cap - 1);
    ConsFirst(b, Removed(First(list, cap), b), cap);
    RemovedBoth(previous, a, b);
  }

  /** When the list is left as b's call leaves it without a's, it is so because a's url is b's, or is cut away, or
      stood first already. */
  predicate Harmless(previous: seq<string>, a: string, b: string, cap: nat) {
    a == b || cap <= 1 || (Removed(previous, b) != [] && Removed(previous, b)[0] == a)
  }

  lemma FirstInFront(rest: seq<string>, a: string, n: nat)
    requires NoRepeats(rest) && 0 < n
    ensures First(rest, n) == First([a] + Removed(rest, a), n) <==> rest != [] && rest[0] == a
  {
    assert First([a] + Removed(rest, a), n)[0] == a;
    if rest != [] {
      assert First(rest, n)[0] == rest[0];
      if rest[0] == a {
        assert a !in rest[1..];
        RemovedAbsent(rest[1..], a);
        RemovedFirst(rest, a);
        assert rest == [a] + rest[1..];
      }
    }
  }

  lemma SameBehind(b: string, s: seq<string>, t: seq<string>)
    ensures [b] + s == [b] + t <==> s == t
  {
    assert ([b] + s)[1..] == s && ([b] + t)[1..] == t;
  }

  /** Two overlapping calls read the same list; the second write is what stays. It is what the calls leave one
      after the other if and only if nothing is displaced. */
  lemma OverlapIsHarmless(previous: seq<string>, a: string, b: string, cap: nat)
    requires NoRepeats(previous)
    ensures Candidates(previous, b, cap) == Candidates(Candidates(previous, a, cap), b, cap) <==>
            Harmless(previous, a, b, cap)
  {
    if 0 < cap {
      InTurn(previous, a, b, cap);
      RemovedNoRepeats(previous, b);
      hide Removed, NoRepeats;
      var rest := Removed(previous, b);
      ConsFirst(b, rest, cap);
      SameBehind(b, First(rest, cap - 1), First(if a == b then rest else [a] + Removed(rest, a), cap - 1));
      if 1 < cap {
        FirstInFront(rest, a, cap - 1);
      }
    }
  }

  /** Two calls that both read before either writes: the second write drops the first call's url, which either
      order one after the other would have listed. */
  lemma OverlapLosesUrl(previous: seq<string>, a: string, b: string, cap: nat)
    requires a != b && a !in previous && 2 <= cap
    ensures a !in Candidates(previous, b, cap)
    ensures a in Candidates(Candidates(previous, a, cap), b, cap)
    ensures a in Candidates(Candidates(previous, b, cap), a, cap)
  {
    RemovedMember(previous, b, a);
    var first := Candidates(previous, a, cap);
    assert first[0] == a;
    var both := [b] + Removed(first, b);
    assert both[1] == a;
    assert First(both, cap)[1] == a;
    assert Candidates(Candidates(previous, b, cap), a, cap)[0] == a;
  }

  /** The newest cap distinct urls of a history. */
  function Newest(urls: seq<string>, cap: nat): seq<string> {
    First(Unique(Reversed(urls)), cap)
  }

  lemma RememberOne(urls: seq<string>, url: string, cap: nat)
    ensures Newest(urls + [url], cap) == Candidates(Newest(urls, cap), url, cap)
  {
    var older := Unique(Reversed(urls));
    assert (urls + [url])[..|urls|] == urls;
    assert Reversed(urls + [url]) == [url] + Reversed(urls);
    assert ([url] + Reversed(urls))[1..] == Reversed(urls);
    if cap > 0 {
      UniqueDistinct(Reversed(urls));
      CutThenRemove(older, url, cap - 1);
      ConsFirst(url, Removed(older, url), cap);
      ConsFirst(url, Removed(First(older, cap), url), cap);
    }
  }

  /** The distinct urls remembered after url's last appearance. */
  function Later(urls: seq<string>, url: string): set<string> {
    if urls == [] || urls[|urls| - 1] == url then {}
    else Later(urls[..|urls| - 1], url) + {urls[|urls| - 1]}
  }

  /** The elements of a list ahead of url. */
  function Ahead(urls: seq<string>, url: string): set<string> {
    if urls == [] || urls[0] == url then {} else Ahead(urls[1..], url) + {urls[0]}
  }

  lemma {:induction false} AheadRemoved(urls: seq<string>, x: string, url: string)
    requires x != url
    ensures Ahead(Removed(urls, x), url) == Ahead(urls, url) - {x}
  {
    if urls != [] {
      AheadRemoved(urls[1..], x, url);
      if urls[0] == x {
        assert Removed(urls, x) == Removed(urls[1..], x);
      } else {
        assert Removed(urls, x)[1..] == Removed(urls[1..], x);
      }
    }
  }

  lemma {:induction false} LaterIsAhead(urls: seq<string>, url: string)
    ensures Later(urls, url) == Ahead(Unique(Reversed(urls)), url)
  {
    if urls != [] {
      var before, last := urls[..|urls| - 1], urls[|urls| - 1];
      LaterIsAhead(before, url);
      assert Reversed(urls)[1..] == Reversed(before);
      if last != url {
        AheadRemoved(Unique(Reversed(before)), last, url);
      }
    }
  }

  lemma {:induction false} AheadMember(urls: seq<string>, url: string, u: string)
    requires u in Ahead(urls, url)
    ensures u in urls
  {
    if u != urls[0] {
      AheadMember(urls[1..], url, u);
    }
  }

  lemma {:induction false} AheadCounted(urls: seq<string>, url: string, n: nat)
    requires NoRepeats(urls)
    ensures url in First(urls, n) <==> url in urls && |Ahead(urls, url)| < n
  {
    if urls != [] && n > 0 {
      assert urls == [urls[0]] + urls[1..];
      assert First(urls, n) == [urls[0]] + First(urls[1..], n - 1);
      AheadCounted(urls[1..], url, n - 1);
      if urls[0] in Ahead(urls[1..], url) {
        AheadMember(urls[1..], url, urls[0]);
      }
    }
  }

  /** A url is listed exactly when it was remembered and fewer than cap different urls came after its last
      appearance. */
  lemma NewestMember(urls: seq<string>, url: string, cap: nat)
    ensures url in Newest(urls, cap) <==> url in urls && |Later(urls, url)| < cap
  {
    UniqueDistinct(Reversed(urls));
    AheadCounted(Unique(Reversed(urls)), url, cap);
    LaterIsAhead(urls, url);
    UniqueMember(Reversed(urls), url);
    ReversedMember(urls, url);
  }

  lemma {:induction false} ReversedMember(urls: seq<string>, url: string)
    ensures url in Reversed(urls) <==> url in urls
  {
    if urls != [] {
      assert urls == urls[..|urls| - 1] + [urls[|urls| - 1]];
      ReversedMember(urls[..|urls| - 1], url);
    }
  }

  // ---- histories of calls ----

  datatype Call = Remember(hash: string, url: string, now: int) | Lookup(hash: string, now: int)

  datatype Setup = Setup(ttl: int, max: int, cap: nat)

  function Listed(found: Option<seq<string>>): seq<string> {
    if found.Some? then found.value else []
  }

  function AfterCall(s: Store, call: Call, u: Setup): Store {
    var got := AfterGet(s, call.hash, call.now);
    match call
    case Lookup(_, _) => got
    case Remember(hash, url, now) =>
      AfterSet(got, hash, Candidates(Listed(Found(s, hash, now)), url, u.cap), now, u.ttl, u.max)
  }

  function AfterCalls(s: Store, calls: seq<Call>, u: Setup): Store {
    if calls == [] then s else AfterCall(AfterCalls(s, calls[..|calls| - 1], u), calls[|calls| - 1], u)
  }

  /** When hash was last remembered. */
  function LastTime(calls: seq<Call>, hash: string): Option<int> {
    if calls == [] then None
    else
      var last, before := calls[|calls| - 1], calls[..|calls| - 1];
      if last.Remember? && last.hash == hash then Some(last.now) else LastTime(before, hash)
  }

  /** The other hashes remembered since then. */
  function Since(calls: seq<Call>, hash: string): set<string> {
    if calls == [] then {}
    else
      var last, before := calls[|calls| - 1], calls[..|calls| - 1];
      if last.Lookup? then Since(before, hash)
      else if last.hash == hash then {}
      else Since(before, hash) + {last.hash}
  }

  /** The entry for hash has neither expired nor been pushed out by newer hashes. */
  predicate Live(calls: seq<Call>, hash: string, now: int, u: Setup) {
    var last := LastTime(calls, hash);
    last.Some? && now < last.value + u.ttl && (u.max > 0 ==> |Since(calls, hash)| < u.max)
  }

  /** The urls remembered for hash since its entry was last lost, oldest first. */
  function Urls(calls: seq<Call>, hash: string, u: Setup): seq<string> {
    if calls == [] then []
    else
      var last, before := calls[|calls| - 1], calls[..|calls| - 1];
      if last.Remember? && last.hash == hash then
        (if Live(before, hash, last.now, u) then Urls(before, hash, u) else []) + [last.url]
      else Urls(before, hash, u)
  }

  /** Two calls for one hash whose Gets both come before their Sets. */
  function AfterOverlap(s: Store, hash: string, a: string, b: string, now: int, u: Setup): Store {
    var first := AfterGet(s, hash, now);
    var second := AfterGet(first, hash, now);
    var forA := Candidates(Listed(Found(s, hash, now)), a, u.cap);
    var forB := Candidates(Listed(Found(first, hash, now)), b, u.cap);
    AfterSet(AfterSet(second, hash, forA, now, u.ttl, u.max), hash, forB, now, u.ttl, u.max)
  }

  lemma GetAgrees(s: Store, hash: string, now: int)
    requires Agree(s)
    ensures Agree(AfterGet(s, hash, now)) && Found(AfterGet(s, hash, now), hash, now) == Found(s, hash, now)
  {
    RemovedAgree(s, hash);
  }

  lemma InTurnOnStore(s: Store, hash: string, a: string, b: string, now: int, u: Setup)
    requires Agree(s) && u.ttl > 0
    ensures var turns := AfterCall(AfterCall(s, Remember(hash, a, now), u), Remember(hash, b, now), u);
            Found(turns, hash, now) ==
            Some(Candidates(Candidates(Listed(Found(s, hash, now)), a, u.cap), b, u.cap))
  {
    hide Candidates, Found, AfterGet, AfterSet, Agree;
    var got, forA := AfterGet(s, hash, now), Candidates(Listed(Found(s, hash, now)), a, u.cap);
    GetAgrees(s, hash, now);
    SetAgrees(got, hash, forA, now, u.ttl, u.max);
    SetThenFound(got, hash, forA, now, u.ttl, u.max);
    var t := AfterSet(got, hash, forA, now, u.ttl, u.max);
    GetAgrees(t, hash, now);
    SetThenFound(AfterGet(t, hash, now), hash, Candidates(forA, b, u.cap), now, u.ttl, u.max);
  }

  /** On the store: overlapping calls leave the list that the same calls leave in turn if and only if nothing is
      displaced. */
  lemma OverlapOnStore(s: Store, hash: string, a: string, b: string, now: int, u: Setup)
    requires Agree(s) && u.ttl > 0 && NoRepeats(Listed(Found(s, hash, now)))
    ensures var turns := AfterCall(AfterCall(s, Remember(hash, a, now), u), Remember(hash, b, now), u);
            Found(AfterOverlap(s, hash, a, b, now, u), hash, now) == Found(turns, hash, now) <==>
            Harmless(Listed(Found(s, hash, now)), a, b, u.cap)
  {
    hide Candidates, Found, AfterGet, AfterSet, Agree, AfterCall, NoRepeats, Harmless;
    var previous := Listed(Found(s, hash, now));
    var first := AfterGet(s, hash, now);
    GetAgrees(s, hash, now);
    GetAgrees(first, hash, now);
    SetAgrees(AfterGet(first, hash, now), hash, Candidates(previous, a, u.cap), now, u.ttl, u.max);
    SetThenFound(AfterSet(AfterGet(first, hash, now), hash, Candidates(previous, a, u.cap), now, u.ttl, u.max), hash,
                 Candidates(previous, b, u.cap), now, u.ttl, u.max);
    InTurnOnStore(s, hash, a, b, now, u);
    OverlapIsHarmless(previous, a, b, u.cap);
  }

  ghost predicate Ordered(calls: seq<Call>) {
    forall i, j :: 0 <= i < j < |calls| ==> calls[i].now <= calls[j].now
  }

  // ---- calls as operations of the store ----

  /** The store operations a history of calls makes: one Get each, and a Set for each url remembered. */
  function Ops(calls: seq<Call>, u: Setup): seq<Op> {
    if calls == [] then []
    else
      var last, before := calls[|calls| - 1], calls[..|calls| - 1];
      var get := Ops(before, u) + [GetOp(last.hash, last.now)];
      if last.Lookup? then get
      else get + [SetOp(last.hash, Newest(Urls(calls, last.hash, u), u.cap), last.now)]
  }

  lemma GetLeavesHistory(ops: seq<Op>, op: Op, hash: string)
    requires op.GetOp?
    ensures LastSet(ops + [op], hash) == LastSet(ops, hash) && Others(ops + [op], hash) == Others(ops, hash)
  {
    assert (ops + [op])[..|ops|] == ops;
  }

  lemma SetExtendsHistory(ops: seq<Op>, op: Op, hash: string)
    requires op.SetOp?
    ensures LastSet(ops + [op], hash) == if op.key == hash then Some((op.now, op.value)) else LastSet(ops, hash)
    ensures Others(ops + [op], hash) == if op.key == hash then {} else Others(ops, hash) + {op.key}
  {
    assert (ops + [op])[..|ops|] == ops;
  }

  lemma {:induction false} OpsHistory(calls: seq<Call>, hash: string, u: Setup)
    ensures LastSet(Ops(calls, u), hash) ==
            (if LastTime(calls, hash).Some?
             then Some((LastTime(calls, hash).value, Newest(Urls(calls, hash, u), u.cap))) else None)
    ensures Others(Ops(calls, u), hash) == Since(calls, hash)
  {
    if calls != [] {
      var last, before := calls[|calls| - 1], calls[..|calls| - 1];
      OpsHistory(before, hash, u);
      var get := GetOp(last.hash, last.now);
      GetLeavesHistory(Ops(before, u), get, hash);
      if last.Remember? {
        SetExtendsHistory(Ops(before, u) + [get],
                          SetOp(last.hash, Newest(Urls(calls, last.hash, u), u.cap), last.now), hash);
      }
    }
  }

  ghost predicate Within(ops: seq<Op>, lo: int, hi: int) {
    forall op :: op in ops ==> lo <= op.now <= hi
  }

  ghost predicate CallsWithin(calls: seq<Call>, lo: int, hi: int) {
    forall i :: 0 <= i < |calls| ==> lo <= calls[i].now <= hi
  }

  lemma {:induction false} OpsOrdered(calls: seq<Call>, u: Setup, lo: int, hi: int)
    requires Ordered(calls) && CallsWithin(calls, lo, hi)
    ensures Monotone(Ops(calls, u)) && Within(Ops(calls, u), lo, hi)
  {
    if calls != [] {
      var last, before := calls[|calls| - 1], calls[..|calls| - 1];
      assert CallsWithin(before, lo, last.now);
      OpsOrdered(before, u, lo, last.now);
      var ops := Ops(before, u);
      assert forall i :: 0 <= i < |ops| ==> ops[i] in ops;
    }
  }

  lemma LiveIsExpected(calls: seq<Call>, hash: string, now: int, u: Setup)
    ensures Expected(Ops(calls, u), hash, now, u.ttl, u.max) ==
            if Live(calls, hash, now, u) then Some(Newest(Urls(calls, hash, u), u.cap)) else None
  {
    OpsHistory(calls, hash, u);
  }

  lemma FoundIsNewest(calls: seq<Call>, hash: string, now: int, u: Setup)
    requires Ordered(calls) && forall i :: 0 <= i < |calls| ==> calls[i].now <= now
    ensures Found(After(Ops(calls, u), u.ttl, u.max), hash, now) ==
            if Live(calls, hash, now, u) then Some(Newest(Urls(calls, hash, u), u.cap)) else None
  {
    var lo := if calls == [] then now else calls[0].now;
    OpsOrdered(calls, u, lo, now);
    GetMeetsHistory(Ops(calls, u), hash, now, u.ttl, u.max);
    LiveIsExpected(calls, hash, now, u);
  }

  lemma RememberedList(before: seq<Call>, call: Call, s: Store, u: Setup)
    requires call.Remember?
    requires Found(s, call.hash, call.now) ==
             if Live(before, call.hash, call.now, u) then Some(Newest(Urls(before, call.hash, u), u.cap)) else None
    ensures Candidates(Listed(Found(s, call.hash, call.now)), call.url, u.cap) ==
            Newest(Urls(before + [call], call.hash, u), u.cap)
  {
    assert (before + [call])[..|before|] == before;
    if Live(before, call.hash, call.now, u) {
      RememberOne(Urls(before, call.hash, u), call.url, u.cap);
    } else {
      RememberOne([], call.url, u.cap);
      assert Newest([], u.cap) == [];
    }
  }

  lemma AfterOne(ops: seq<Op>, op: Op, u: Setup)
    ensures After(ops + [op], u.ttl, u.max) == Next(After(ops, u.ttl, u.max), op, u.ttl, u.max)
  {
    assert (ops + [op])[..|ops|] == ops;
  }

  lemma CallIsOps(before: seq<Call>, last: Call, s: Store, u: Setup)
    requires s == After(Ops(before, u), u.ttl, u.max)
    requires Found(s, last.hash, last.now) ==
             if Live(before, last.hash, last.now, u) then Some(Newest(Urls(before, last.hash, u), u.cap)) else None
    ensures AfterCall(s, last, u) == After(Ops(before + [last], u), u.ttl, u.max)
  {
    var ops := Ops(before, u);
    var get := ops + [GetOp(last.hash, last.now)];
    AfterOne(ops, GetOp(last.hash, last.now), u);
    assert (before + [last])[..|before|] == before;
    if last.Remember? {
      RememberedList(before, last, s, u);
      AfterOne(get, SetOp(last.hash, Newest(Urls(before + [last], last.hash, u), u.cap), last.now), u);
    }
  }

  lemma {:induction false} CallsAreOps(calls: seq<Call>, u: Setup)
    requires Ordered(calls)
    ensures AfterCalls(EMPTY, calls, u) == After(Ops(calls, u), u.ttl, u.max)
  {
    if calls != [] {
      hide Found, AfterCall, Live, Newest, Urls, Ops, After;
      var last, before := calls[|calls| - 1], calls[..|calls| - 1];
      assert before + [last] == calls;
      CallsAreOps(before, u);
      FoundIsNewest(before, last.hash, last.now, u);
      CallIsOps(before, last, AfterCalls(EMPTY, before, u), u);
    }
  }

  /** After any history of calls, what a lookup finds: exactly when the hash was remembered, has not expired and
      was not pushed out, the newest cap distinct urls remembered since the entry was last lost. */
  lemma CandidatesMeetHistory(calls: seq<Call>, hash: string, now: int, u: Setup)
    requires Ordered(calls) && forall i :: 0 <= i < |calls| ==> calls[i].now <= now
    ensures Found(AfterCalls(EMPTY, calls, u), hash, now) ==
            if Live(calls, hash, now, u) then Some(Newest(Urls(calls, hash, u), u.cap)) else None
  {
    CallsAreOps(calls, u);
    FoundIsNewest(calls, hash, now, u);
  }

  /** A list never exceeds the cap, so a fetch that tries each listed url once issues at most cap requests. */
  lemma CandidatesBounded(calls: seq<Call>, hash: string, now: int, u: Setup)
    requires Ordered(calls) && forall i :: 0 <= i < |calls| ==> calls[i].now <= now
    ensures |Listed(Found(AfterCalls(EMPTY, calls, u), hash, now))| <= u.cap
    ensures NoRepeats(Listed(Found(AfterCalls(EMPTY, calls, u), hash, now)))
  {
    CandidatesMeetHistory(calls, hash, now, u);
    UniqueDistinct(Reversed(Urls(calls, hash, u)));
  }

  // ---- the operations ----

  lemma {:induction false} RemovedNext(urls: seq<string>, url: string)
    requires urls != []
    ensures Removed(urls, url) ==
            Removed(urls[..|urls| - 1], url) + (if urls[|urls| - 1] == url then [] else [urls[|urls| - 1]])
  {
    if |urls| > 1 {
      assert urls[1..][..|urls| - 2] == urls[..|urls| - 1][1..];
      RemovedNext(urls[1..], url);
    }
  }

  method NextCandidates(previous: seq<string>, url: string, cap: nat) returns (next: seq<string>)
    ensures next == Candidates(previous, url, cap)
  {
    next := [url];
    for i := 0 to |previous|
      invariant next == [url] + Removed(previous[..i], url)
    {
      RemovedNext(previous[..i + 1], url);
      assert previous[..i + 1][..i] == previous[..i];
      if previous[i] != url {
        next := next + [previous[i]];
      }
    }
    assert previous[..|previous|] == previous;
    if |next| > cap {
      next := next[..cap];
    }
  }

  /** rememberSigned. */
  method RememberSigned(signed: TTLMap, hash: string, url: string, cap: nat, now: int)
    requires signed.Valid()
    modifies signed
    ensures signed.Valid()
    ensures signed.State() == AfterCall(old(signed.State()), Remember(hash, url, now),
                                        Setup(signed.ttl, signed.max, cap))
  {
    var found := signed.Get(hash, now);
    var previous := if found.Some? then found.value else [];
    var next := NextCandidates(previous, url, cap);
    signed.Set(hash, next, now);
  }

  /** What one attempt yields: no request could be built or no response came, or a status. */
  datatype Reply = NoReply | Status(code: int)

  predicate Authorized(reply: Reply) { reply.Status? && (reply.code == 200 || reply.code == 206) }

  datatype Outcome = Response(url: string) | Failed(status: int, last: int)

  /** The status of the last attempt that got one, 0 when none did. */
  function LastStatus(urls: seq<string>, reply: string -> Reply): int {
    if urls == [] then 0
    else if reply(urls[|urls| - 1]).Status? then reply(urls[|urls| - 1]).code
    else LastStatus(urls[..|urls| - 1], reply)
  }

  /** The listed urls were tried in turn while the context was live, which it is for `live` attempts: to the first
      that authorizes, or to no avail. */
  ghost predicate TriedInOrder(list: seq<string>, reply: string -> Reply, live: nat, r: Outcome, tried: nat) {
    if list == [] then r == Failed(409, 0) && tried == 0
    else
      tried <= |list| && tried <= live && match r
      case Response(url) =>
        && tried > 0 && url == list[tried - 1] && Authorized(reply(url))
        && forall i :: 0 <= i < tried - 1 ==> !Authorized(reply(list[i]))
      case Failed(status, last) =>
        && status == 502 && (tried == live || tried == |list|)
        && last == LastStatus(list[..tried], reply)
        && forall i :: 0 <= i < tried ==> !Authorized(reply(list[i]))
  }

  /** fetchAuthorized, given the list the store returned. */
  method TryCandidates(found: Option<seq<string>>, reply: string -> Reply, live: nat) returns (r: Outcome, tried: nat)
    ensures TriedInOrder(Listed(found), reply, live, r, tried)
  {
    tried := 0;
    if found.None? || |found.value| == 0 {
      return Failed(409, 0), 0;
    }
    var urls, last := found.value, 0;
    while tried < |urls|
      invariant tried <= |urls| && tried <= live
      invariant last == LastStatus(urls[..tried], reply)
      invariant forall i :: 0 <= i < tried ==> !Authorized(reply(urls[i]))
    {
      if tried == live {
        break;
      }
      var answer := reply(urls[tried]);
      assert urls[..tried + 1][..tried] == urls[..tried];
      tried := tried + 1;
      if answer.Status? {
        if answer.code == 200 || answer.code == 206 {
          return Response(urls[tried - 1]), tried;
        }
        last := answer.code;
      }
    }
    r := Failed(502, last);
  }

  /** fetchAuthorized: an uncancelled fetch succeeds exactly when a live listed url authorizes it, and fails with
      409 exactly when no non-empty list is live. */
  method FetchAuthorized(signed: TTLMap, hash: string, now: int, reply: string -> Reply, live: nat)
    returns (r: Outcome, tried: nat)
    requires signed.Valid()
    modifies signed
    ensures signed.Valid()
    ensures signed.State() == AfterCall(old(signed.State()), Lookup(hash, now), Setup(signed.ttl, signed.max, 0))
    ensures var list := Listed(Found(old(signed.State()), hash, now));
            && TriedInOrder(list, reply, live, r, tried)
            && tried <= |list|
            && (r == Failed(409, 0) <==> list == [])
            && (|list| <= live ==> (r.Response? <==> exists u :: u in list && Authorized(reply(u))))
            && (r.Response? ==> r.url in list && Authorized(reply(r.url)))
  {
    var found := signed.Get(hash, now);
    r, tried := TryCandidates(found, reply, live);
  }

  // ---- the manifest rewrite ----

  datatype Field = Text(text: string) | Other

  /** A decoded JSON object, as far as its "url" field goes. */
  class Window {
    var url: Field

    constructor (url: Field)
      ensures this.url == url
    {
      this.url := url;
    }
  }

  datatype Item = Object(window: Window) | NotObject

  datatype Entries = List(items: seq<Item>) | NotList

  function ShimUrl(base: string, hash: string): string {
    base + "/xorb/xorbs/default/" + hash
  }

  function Windows(items: seq<Item>): set<Window> {
    set i | 0 <= i < |items| && items[i].Object? :: items[i].window
  }

  /** Decoded JSON is a tree: no object is reached twice. */
  predicate Unshared(items: seq<Item>) {
    forall i, j :: 0 <= i < j < |items| && items[i].Object? && items[j].Object? ==>
      items[i].window != items[j].window
  }

  /** The url fields the entries hold; an entry that is no object holds none. */
  ghost predicate Shows(items: seq<Item>, fields: seq<Field>)
    reads Windows(items)
  {
    && |fields| == |items|
    && forall i :: 0 <= i < |items| ==>
         fields[i] == if items[i].Object? then items[i].window.url else Other
  }

  /** The string urls among the fields, in order. */
  function Texts(fields: seq<Field>): seq<string> {
    if fields == [] then []
    else
      var last := fields[|fields| - 1];
      Texts(fields[..|fields| - 1]) + if last.Text? then [last.text] else []
  }

  function RewrittenField(field: Field, base: string, hash: string): Field {
    if field.Text? then Text(ShimUrl(base, hash)) else field
  }

  /** Every string url becomes the shim's own; nothing else changes. */
  function Rewritten(fields: seq<Field>, base: string, hash: string): seq<Field> {
    seq(|fields|, i requires 0 <= i < |fields| => RewrittenField(fields[i], base, hash))
  }

  /** The calls that remember urls for hash, in order. */
  function Remembers(hash: string, urls: seq<string>, now: int): seq<Call> {
    if urls == [] then [] else Remembers(hash, urls[..|urls| - 1], now) + [Remember(hash, urls[|urls| - 1], now)]
  }

  lemma RememberNext(s: Store, calls: seq<Call>, hash: string, urls: seq<string>, url: string, now: int, u: Setup)
    ensures AfterCalls(s, calls + Remembers(hash, urls + [url], now), u) ==
            AfterCall(AfterCalls(s, calls + Remembers(hash, urls, now), u), Remember(hash, url, now), u)
  {
    assert (urls + [url])[..|urls|] == urls;
    var earlier := calls + Remembers(hash, urls, now);
    assert (earlier + [Remember(hash, url, now)])[..|earlier|] == earlier;
    assert calls + Remembers(hash, urls + [url], now) == earlier + [Remember(hash, url, now)];
  }

  function StoreWith(s: Store, hash: string, field: Field, now: int, u: Setup): Store {
    if field.Text? then AfterCall(s, Remember(hash, field.text, now), u) else s
  }

  /** The store after the first n fields have been visited. */
  ghost function StoreAfter(s: Store, hash: string, fields: seq<Field>, n: nat, now: int, u: Setup): Store
    requires n <= |fields|
  {
    if n == 0 then s else StoreWith(StoreAfter(s, hash, fields, n - 1, now, u), hash, fields[n - 1], now, u)
  }

  method RewriteEntry(hash: string, items: seq<Item>, i: nat, base: string, signed: TTLMap, cap: nat, now: int,
                      ghost fields: seq<Field>)
    requires signed.Valid() && Unshared(items) && Shows(items, fields) && i < |items|
    modifies signed, Windows(items)
    ensures signed.Valid()
    ensures signed.State() == StoreWith(old(signed.State()), hash, fields[i], now, Setup(signed.ttl, signed.max, cap))
    ensures Shows(items, fields[i := RewrittenField(fields[i], base, hash)])
  {
    var item := items[i];
    if item.Object? && item.window.url.Text? {
      RememberSigned(signed, hash, item.window.url.text, cap, now);
      item.window.url := Text(ShimUrl(base, hash));
    }
  }

  /** rewriteManifest, the entries of one xorb. */
  method RewriteEntries(hash: string, items: seq<Item>, base: string, signed: TTLMap, cap: nat, now: int,
                        ghost fields: seq<Field>)
    requires signed.Valid() && Unshared(items) && Shows(items, fields)
    modifies signed, Windows(items)
    ensures signed.Valid()
    ensures signed.State() == StoreAfter(old(signed.State()), hash, fields, |fields|, now,
                                          Setup(signed.ttl, signed.max, cap))
    ensures Shows(items, Rewritten(fields, base, hash))
  {
    ghost var u, start := Setup(signed.ttl, signed.max, cap), signed.State();
    ghost var done := Rewritten(fields, base, hash);
    ghost var shown := fields;
    for i := 0 to |items|
      invariant signed.Valid()
      invariant signed.State() == StoreAfter(start, hash, fields, i, now, u)
      invariant |shown| == |items| && forall j :: 0 <= j < |items| ==> shown[j] == if j < i then done[j] else fields[j]
      invariant Shows(items, shown)
    {
      RewriteEntry(hash, items, i, base, signed, cap, now, shown);
      shown := shown[i := done[i]];
    }
    assert shown == done;
  }

  /** The lists of a decoded manifest; a value that is not a list is passed over. */
  function Items(xorbs: map<string, Entries>, hash: string): seq<Item>
    requires hash in xorbs
  {
    if xorbs[hash].List? then xorbs[hash].items else []
  }

  function AllWindows(xorbs: map<string, Entries>): set<Window> {
    set hash, w | hash in xorbs && w in Windows(Items(xorbs, hash)) :: w
  }

  predicate Tree(xorbs: map<string, Entries>) {
    && (forall hash :: hash in xorbs ==> Unshared(Items(xorbs, hash)))
    && (forall g, h :: g in xorbs && h in xorbs && g != h ==> Windows(Items(xorbs, g)) !! Windows(Items(xorbs, h)))
  }

  function Of(fields: map<string, seq<Field>>, hash: string): seq<Field> {
    if hash in fields then fields[hash] else []
  }

  /** The lists of the xorbs in left still show their old fields, the others the rewritten ones. */
  ghost predicate Halfway(xorbs: map<string, Entries>, left: set<string>, fields: map<string, seq<Field>>,
                          base: string)
    reads AllWindows(xorbs)
  {
    forall hash :: hash in xorbs ==>
      Shows(Items(xorbs, hash), if hash in left then Of(fields, hash) else Rewritten(Of(fields, hash), base, hash))
  }

  /** The store after the lists have been visited in this order. */
  ghost function StoreVisited(s: Store, visits: seq<string>, fields: map<string, seq<Field>>, now: int, u: Setup): Store
  {
    if visits == [] then s
    else
      var last := visits[|visits| - 1];
      StoreAfter(StoreVisited(s, visits[..|visits| - 1], fields, now, u), last, Of(fields, last), |Of(fields, last)|,
                 now, u)
  }

  lemma ListIsReached(xorbs: map<string, Entries>, hash: string)
    requires hash in xorbs
    ensures Windows(Items(xorbs, hash)) <= AllWindows(xorbs)
  {
  }

  method Visit(xorbs: map<string, Entries>, hash: string, ghost left: set<string>, base: string, signed: TTLMap,
               cap: nat, now: int, ghost fields: map<string, seq<Field>>)
    requires signed.Valid() && Tree(xorbs) && hash in left && hash in xorbs && Halfway(xorbs, left, fields, base)
    modifies signed, AllWindows(xorbs)
    ensures signed.Valid()
    ensures signed.State() == StoreAfter(old(signed.State()), hash, Of(fields, hash), |Of(fields, hash)|, now,
                                         Setup(signed.ttl, signed.max, cap))
    ensures Halfway(xorbs, left - {hash}, fields, base)
  {
    ListIsReached(xorbs, hash);
    var items := Items(xorbs, hash);
    RewriteEntries(hash, items, base, signed, cap, now, Of(fields, hash));
    forall h | h in xorbs && h != hash
      ensures Shows(Items(xorbs, h), if h in left then Of(fields, h) else Rewritten(Of(fields, h), base, h))
    {
      assert Windows(Items(xorbs, h)) !! Windows(items);
    }
  }

  /** Every list but those left has been visited once. */
  ghost predicate Visited(visits: seq<string>, hashes: set<string>, left: set<string>) {
    NoRepeats(visits) && left <= hashes && KeySet(visits) == hashes - left
  }

  lemma VisitOne(s: Store, visits: seq<string>, hashes: set<string>, left: set<string>, hash: string,
                 fields: map<string, seq<Field>>, now: int, u: Setup)
    requires Visited(visits, hashes, left) && hash in left
    ensures Visited(visits + [hash], hashes, left - {hash})
    ensures StoreVisited(s, visits + [hash], fields, now, u) ==
            StoreAfter(StoreVisited(s, visits, fields, now, u), hash, Of(fields, hash), |Of(fields, hash)|, now, u)
  {
    assert forall i :: 0 <= i < |visits| ==> visits[i] in KeySet(visits);
    assert (visits + [hash])[..|visits|] == visits;
    assert KeySet(visits + [hash]) == KeySet(visits) + {hash};
  }

  /** rewriteManifest: the lists are visited in some order, each once; every string url in them is remembered in
      its place and replaced by the shim's own. */
  method RewriteManifest(xorbs: map<string, Entries>, base: string, signed: TTLMap, cap: nat, now: int,
                         ghost fields: map<string, seq<Field>>)
    returns (ghost visits: seq<string>)
    requires signed.Valid() && Tree(xorbs) && Halfway(xorbs, xorbs.Keys, fields, base)
    modifies signed, AllWindows(xorbs)
    ensures signed.Valid()
    ensures Visited(visits, xorbs.Keys, {})
    ensures signed.State() == StoreVisited(old(signed.State()), visits, fields, now,
                                           Setup(signed.ttl, signed.max, cap))
    ensures Halfway(xorbs, {}, fields, base)
  {
    ghost var u, start := Setup(signed.ttl, signed.max, cap), signed.State();
    visits := [];
    var left := xorbs.Keys;
    while left != {}
      invariant left <= xorbs.Keys && signed.Valid() && Visited(visits, xorbs.Keys, left)
      invariant signed.State() == StoreVisited(start, visits, fields, now, u)
      invariant Halfway(xorbs, left, fields, base)
      decreases left
    {
      var hash :| hash in left;
      VisitOne(start, visits, xorbs.Keys, left, hash, fields, now, u);
      Visit(xorbs, hash, left, base, signed, cap, now, fields);
      visits := visits + [hash];
      left := left - {hash};
    }
  }

  /** The calls a rewrite makes when it visits the lists in this order. */
  function VisitCalls(visits: seq<string>, fields: map<string, seq<Field>>, now: int): seq<Call>
  {
    if visits == [] then []
    else
      var last := visits[|visits| - 1];
      VisitCalls(visits[..|visits| - 1], fields, now) + Remembers(last, Texts(Of(fields, last)), now)
  }

  /** The calls of one more field. */
  lemma FieldCalls(calls: seq<Call>, hash: string, fields: seq<Field>, n: nat, now: int, u: Setup)
    requires n < |fields|
    ensures AfterCalls(EMPTY, calls + Remembers(hash, Texts(fields[..n + 1]), now), u) ==
            StoreWith(AfterCalls(EMPTY, calls + Remembers(hash, Texts(fields[..n]), now), u), hash, fields[n], now, u)
  {
    assert fields[..n + 1][..n] == fields[..n];
    if fields[n].Text? {
      RememberNext(EMPTY, calls, hash, Texts(fields[..n]), fields[n].text, now, u);
    } else {
      assert Texts(fields[..n + 1]) == Texts(fields[..n]);
    }
  }

  lemma {:induction false} StoreIsCalls(calls: seq<Call>, hash: string, fields: seq<Field>, n: nat, now: int, u: Setup)
    requires n <= |fields|
    ensures StoreAfter(AfterCalls(EMPTY, calls, u), hash, fields, n, now, u) ==
            AfterCalls(EMPTY, calls + Remembers(hash, Texts(fields[..n]), now), u)
  {
    if n == 0 {
      assert calls + Remembers(hash, Texts(fields[..0]), now) == calls;
    } else {
      StoreIsCalls(calls, hash, fields, n - 1, now, u);
      FieldCalls(calls, hash, fields, n - 1, now, u);
    }
  }

  lemma VisitCallsNext(calls: seq<Call>, visits: seq<string>, fields: map<string, seq<Field>>, now: int)
    ensures visits == [] ==> calls + VisitCalls(visits, fields, now) == calls
    ensures visits != [] ==>
              var before, last := visits[..|visits| - 1], visits[|visits| - 1];
              calls + VisitCalls(visits, fields, now) ==
              (calls + VisitCalls(before, fields, now)) + Remembers(last, Texts(Of(fields, last)), now)
  {
    hide Texts, Remembers, Of;
  }

  /** A rewritten manifest leaves the store of a longer history of calls. */
  lemma {:induction false} RewriteIsCalls(s: Store, calls: seq<Call>, all: seq<Call>, visits: seq<string>,
                                          fields: map<string, seq<Field>>, now: int, u: Setup)
    requires s == AfterCalls(EMPTY, calls, u) && all == calls + VisitCalls(visits, fields, now)
    ensures StoreVisited(s, visits, fields, now, u) == AfterCalls(EMPTY, all, u)
    decreases |visits|
  {
    hide AfterCall, Texts, Remembers, StoreAfter, VisitCalls;
    VisitCallsNext(calls, visits, fields, now);
    if visits != [] {
      var before, last := visits[..|visits| - 1], visits[|visits| - 1];
      var earlier := calls + VisitCalls(before, fields, now);
      RewriteIsCalls(s, calls, earlier, before, fields, now, u);
      StoreIsCalls(earlier, last, Of(fields, last), |Of(fields, last)|, now, u);
      assert Of(fields, last)[..|Of(fields, last)|] == Of(fields, last);
    }
  }

  /** Urls for hash have joined the ones listed after calls, or started a fresh list. */
  ghost predicate Joined(calls: seq<Call>, all: seq<Call>, hash: string, urls: seq<string>, now: int, u: Setup) {
    && Live(all, hash, now, u)
    && Urls(all, hash, u) == (if Live(calls, hash, now, u) then Urls(calls, hash, u) else []) + urls
  }

  lemma JoinOne(calls: seq<Call>, hash: string, url: string, now: int, u: Setup)
    requires u.ttl > 0
    ensures Joined(calls, calls + [Remember(hash, url, now)], hash, [url], now, u)
  {
    assert (calls + [Remember(hash, url, now)])[..|calls|] == calls;
  }

  lemma JoinMore(calls: seq<Call>, mid: seq<Call>, all: seq<Call>, hash: string, a: seq<string>, b: seq<string>,
                 now: int, u: Setup)
    requires Joined(calls, mid, hash, a, now, u) && Joined(mid, all, hash, b, now, u)
    ensures Joined(calls, all, hash, a + b, now, u)
  {
    hide Live, Urls;
  }

  /** A manifest's urls for a xorb join the ones already listed, or start a fresh list. */
  lemma {:induction false} RewriteLists(calls: seq<Call>, hash: string, urls: seq<string>, now: int, u: Setup)
    requires urls != [] && u.ttl > 0
    ensures Joined(calls, calls + Remembers(hash, urls, now), hash, urls, now, u)
  {
    var before, last := urls[..|urls| - 1], urls[|urls| - 1];
    var earlier := calls + Remembers(hash, before, now);
    JoinOne(earlier, hash, last, now, u);
    assert calls + Remembers(hash, urls, now) == earlier + [Remember(hash, last, now)];
    assert before + [last] == urls;
    if before == [] {
      assert earlier == calls;
    } else {
      RewriteLists(calls, hash, before, now, u);
      JoinMore(calls, earlier, earlier + [Remember(hash, last, now)], hash, before, [last], now, u);
    }
  }

  lemma {:induction false} OtherRemembers(calls: seq<Call>, other: string, urls: seq<string>, now: int, hash: string,
                                          u: Setup)
    requires other != hash
    ensures var all := calls + Remembers(other, urls, now);
            && LastTime(all, hash) == LastTime(calls, hash) && Urls(all, hash, u) == Urls(calls, hash, u)
            && Since(all, hash) <= Since(calls, hash) + {other}
  {
    if urls == [] {
      assert calls + Remembers(other, urls, now) == calls;
    } else {
      var before := urls[..|urls| - 1];
      OtherRemembers(calls, other, before, now, hash, u);
      var earlier := calls + Remembers(other, before, now);
      assert calls + Remembers(other, urls, now) == earlier + [Remember(other, urls[|urls| - 1], now)];
      assert (earlier + [Remember(other, urls[|urls| - 1], now)])[..|earlier|] == earlier;
    }
  }

  ghost predicate EndsWith(all: seq<string>, urls: seq<string>) {
    |urls| <= |all| && all[|all| - |urls|..] == urls
  }

  /** hash was remembered at now, last with these urls; since then only some of the others were. */
  ghost predicate JustListed(all: seq<Call>, hash: string, urls: seq<string>, others: set<string>, now: int, u: Setup) {
    && LastTime(all, hash) == Some(now) && Since(all, hash) <= others
    && EndsWith(Urls(all, hash, u), urls)
  }

  lemma {:induction false} JustRemembered(calls: seq<Call>, hash: string, urls: seq<string>, now: int, u: Setup)
    requires urls != [] && u.ttl > 0
    ensures JustListed(calls + Remembers(hash, urls, now), hash, urls, {}, now, u)
  {
    RewriteLists(calls, hash, urls, now, u);
    var earlier, last := calls + Remembers(hash, urls[..|urls| - 1], now), Remember(hash, urls[|urls| - 1], now);
    assert calls + Remembers(hash, urls, now) == earlier + [last];
    assert (earlier + [last])[..|earlier|] == earlier;
  }

  lemma {:induction false} VisitLists(calls: seq<Call>, visits: seq<string>, fields: map<string, seq<Field>>,
                                      hash: string, now: int, u: Setup)
    requires NoRepeats(visits) && hash in visits && Texts(Of(fields, hash)) != [] && u.ttl > 0
    ensures JustListed(calls + VisitCalls(visits, fields, now), hash, Texts(Of(fields, hash)),
                       KeySet(visits) - {hash}, now, u)
  {
    var before, last := visits[..|visits| - 1], visits[|visits| - 1];
    assert visits == before + [last];
    VisitCallsNext(calls, visits, fields, now);
    var earlier := calls + VisitCalls(before, fields, now);
    if last == hash {
      JustRemembered(earlier, hash, Texts(Of(fields, hash)), now, u);
    } else {
      VisitLists(calls, before, fields, hash, now, u);
      OtherRemembers(earlier, last, Texts(Of(fields, last)), now, hash, u);
    }
  }

  lemma JustListedIsLive(all: seq<Call>, visits: seq<string>, hash: string, urls: seq<string>, now: int, later: int,
                         u: Setup)
    requires NoRepeats(visits) && hash in visits && (u.max > 0 ==> |visits| <= u.max)
    requires JustListed(all, hash, urls, KeySet(visits) - {hash}, now, u) && later < now + u.ttl
    ensures Live(all, hash, later, u)
  {
    KeysCounted(visits);
    Subset(Since(all, hash), KeySet(visits) - {hash});
  }

  lemma {:induction false} Subset<T>(a: set<T>, b: set<T>)
    requires a <= b
    ensures |a| <= |b|
  {
    if a != {} {
      var x :| x in a;
      Subset(a - {x}, b - {x});
    }
  }

  /** Every xorb a rewritten manifest gives a url for can be fetched until the ttl has run out, when the manifest
      has no more xorbs than the store may hold: its candidates are the newest urls of a history that ends with
      the manifest's. */
  lemma ManifestIsServable(calls: seq<Call>, visits: seq<string>, fields: map<string, seq<Field>>, hash: string,
                           now: int, later: int, u: Setup)
    requires Ordered(calls) && now <= later < now + u.ttl
    requires forall i :: 0 <= i < |calls| ==> calls[i].now <= now
    requires NoRepeats(visits) && hash in visits && Texts(Of(fields, hash)) != []
    requires u.max > 0 ==> |visits| <= u.max
    ensures var all := calls + VisitCalls(visits, fields, now);
            && Found(AfterCalls(EMPTY, all, u), hash, later) == Some(Newest(Urls(all, hash, u), u.cap))
            && EndsWith(Urls(all, hash, u), Texts(Of(fields, hash)))
  {
    var all := calls + VisitCalls(visits, fields, now);
    VisitLists(calls, visits, fields, hash, now, u);
    JustListedIsLive(all, visits, hash, Texts(Of(fields, hash)), now, later, u);
    VisitTimes(visits, fields, now);
    CandidatesMeetHistory(all, hash, later, u);
  }

  ghost predicate AllAt(calls: seq<Call>, now: int) {
    forall i :: 0 <= i < |calls| ==> calls[i].now == now
  }

  lemma {:induction false} RememberTimes(hash: string, urls: seq<string>, now: int)
    ensures AllAt(Remembers(hash, urls, now), now)
  {
    if urls != [] {
      RememberTimes(hash, urls[..|urls| - 1], now);
    }
  }

  lemma {:induction false} VisitTimes(visits: seq<string>, fields: map<string, seq<Field>>, now: int)
    ensures AllAt(VisitCalls(visits, fields, now), now)
  {
    if visits != [] {
      VisitTimes(visits[..|visits| - 1], fields, now);
      RememberTimes(visits[|visits| - 1], Texts(Of(fields, visits[|visits| - 1])), now);
    }
  }
}
