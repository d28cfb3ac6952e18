/** The signed-url store (shim-go/signedmap.go): a map whose entries expire and whose oldest-set entry is dropped
    when it is full, and what a Get returns in terms of the whole history of calls. */
module TtlMap {
  import opened Types
  import opened Seqs

  datatype Item = Item(expiry: int, value: seq<string>)

  /** Keys in the order of their last Set, oldest first, and their items. */
  datatype Store = Store(order: seq<string>, items: map<string, Item>)

  const EMPTY := Store([], map[])

  /** Drops oldest keys until at most max remain; max <= 0 means no bound. */
  function Trimmed(s: Store, max: int): Store
    decreases |s.order|
  {
    if max <= 0 || |s.order| <= max then s
    else Trimmed(Store(s.order[1..], s.items - {s.order[0]}), max)
  }

  function Pushed(s: Store, k: string, item: Item): Store {
    Store(Removed(s.order, k) + [k], s.items[k := item])
  }

  function AfterSet(s: Store, k: string, v: seq<string>, now: int, ttl: int, max: int): Store {
    Trimmed(Pushed(s, k, Item(now + ttl, v)), max)
  }

  function Found(s: Store, k: string, now: int): Option<seq<string>> {
    if k in s.items && now < s.items[k].expiry then Some(s.items[k].value) else None
  }

  function AfterGet(s: Store, k: string, now: int): Store {
    if k in s.items && now >= s.items[k].expiry then Store(Removed(s.order, k), s.items - {k}) else s
  }

  // ---- the object ----

  class TTLMap {
    const ttl: int
    const max: int
    var order: seq<string>
    var items: map<string, Item>

    ghost predicate Valid()
      reads this
    {
      Agree(State())
    }

    ghost function State(): Store
      reads this
    {
      Store(order, items)
    }

    constructor (ttl: int, max: int)
      ensures Valid() && State() == EMPTY && this.ttl == ttl && this.max == max
    {
      this.ttl := ttl;
      this.max := max;
      order, items := [], map[];
    }

    method Set(key: string, value: seq<string>, now: int)
      requires Valid()
      modifies this
      ensures Valid()
      ensures State() == AfterSet(old(State()), key, value, now, ttl, max)
      ensures max > 0 ==> |order| <= max
    {
      PushedAgree(State(), key, Item(now + ttl, value));
      if key in items {
        order := Removed(order, key) + [key];
      } else {
        RemovedAbsent(order, key);
        order := order + [key];
      }
      items := items[key := Item(now + ttl, value)];
      while max > 0 && |order| > max
        invariant Valid()
        invariant Trimmed(State(), max) == AfterSet(old(State()), key, value, now, ttl, max)
        decreases |order|
      {
        TailAgree(State());
        items := items - {order[0]};
        order := order[1..];
      }
    }

    method Get(key: string, now: int) returns (value: Option<seq<string>>)
      requires Valid()
      modifies this
      ensures Valid()
      ensures value == Found(old(State()), key, now)
      ensures State() == AfterGet(old(State()), key, now)
    {
      if key !in items {
        return None;
      }
      if now >= items[key].expiry {
        RemovedAgree(State(), key);
        items := items - {key};
        order := Removed(order, key);
        return None;
      }
      return Some(items[key].value);
    }

    method Len() returns (n: nat)
      requires Valid()
      ensures n == |order| == |items|
    {
      KeysCounted(order);
      assert KeySet(order) == items.Keys;
      n := |items|;
    }
  }

  // ---- the list and the map agree ----

  ghost predicate Agree(s: Store) {
    NoRepeats(s.order) && forall k :: k in s.items <==> k in s.order
  }

  lemma PushedAgree(s: Store, k: string, item: Item)
    requires Agree(s)
    ensures Agree(Pushed(s, k, item))
  {
    RemovedMembers(s.order, k);
    RemovedNoRepeats(s.order, k);
    var r := Removed(s.order, k);
    assert forall i :: 0 <= i < |r| ==> r[i] in r;
  }

  lemma TailAgree(s: Store)
    requires Agree(s) && s.order != []
    ensures Agree(Store(s.order[1..], s.items - {s.order[0]}))
  {
    assert s.order == [s.order[0]] + s.order[1..];
  }

  lemma RemovedAgree(s: Store, k: string)
    requires Agree(s)
    ensures Agree(Store(Removed(s.order, k), s.items - {k}))
  {
    RemovedMembers(s.order, k);
    RemovedNoRepeats(s.order, k);
  }

  function KeySet(order: seq<string>): set<string> { set k | k in order }

  lemma {:induction false} KeysCounted(order: seq<string>)
    requires NoRepeats(order)
    ensures |KeySet(order)| == |order|
  {
    if order != [] {
      assert order == [order[0]] + order[1..];
      KeysCounted(order[1..]);
      assert KeySet(order) == {order[0]} + KeySet(order[1..]);
      assert order[0] !in order[1..];
    }
  }

  lemma {:induction false} TrimFindsLast(s: Store, k: string, max: int)
    requires Agree(s) && s.order != [] && s.order[|s.order| - 1] == k
    ensures k in s.items && k in Trimmed(s, max).items && Trimmed(s, max).items[k] == s.items[k]
    decreases |s.order|
  {
    if max > 0 && |s.order| > max {
      TailAgree(s);
      TrimFindsLast(Store(s.order[1..], s.items - {s.order[0]}), k, max);
    }
  }

  /** What was just set is found, whatever the bound. */
  lemma SetThenFound(s: Store, k: string, v: seq<string>, now: int, ttl: int, max: int)
    requires Agree(s) && ttl > 0
    ensures Found(AfterSet(s, k, v, now, ttl, max), k, now) == Some(v)
  {
    PushedAgree(s, k, Item(now + ttl, v));
    TrimFindsLast(Pushed(s, k, Item(now + ttl, v)), k, max);
  }

  lemma {:induction false} TrimAgrees(s: Store, max: int)
    requires Agree(s)
    ensures Agree(Trimmed(s, max))
    decreases |s.order|
  {
    if max > 0 && |s.order| > max {
      TailAgree(s);
      TrimAgrees(Store(s.order[1..], s.items - {s.order[0]}), max);
    }
  }

  lemma SetAgrees(s: Store, k: string, v: seq<string>, now: int, ttl: int, max: int)
    requires Agree(s)
    ensures Agree(AfterSet(s, k, v, now, ttl, max))
  {
    PushedAgree(s, k, Item(now + ttl, v));
    TrimAgrees(Pushed(s, k, Item(now + ttl, v)), max);
  }

  // ---- histories ----

  datatype Op = SetOp(key: string, value: seq<string>, now: int) | GetOp(key: string, now: int)

  function Next(s: Store, op: Op, ttl: int, max: int): Store {
    match op
    case SetOp(k, v, now) => AfterSet(s, k, v, now, ttl, max)
    case GetOp(k, now) => AfterGet(s, k, now)
  }

  function After(ops: seq<Op>, ttl: int, max: int): Store {
    if ops == [] then EMPTY else Next(After(ops[..|ops| - 1], ttl, max), ops[|ops| - 1], ttl, max)
  }

  /** The clock never runs backwards. */
  ghost predicate Monotone(ops: seq<Op>) {
    forall i, j :: 0 <= i < j < |ops| ==> ops[i].now <= ops[j].now
  }

  /** The last Set of k: its time and value. */
  function LastSet(ops: seq<Op>, k: string): Option<(int, seq<string>)> {
    if ops == [] then None
    else
      match ops[|ops| - 1]
      case SetOp(j, v, now) => if j == k then Some((now, v)) else LastSet(ops[..|ops| - 1], k)
      case GetOp(_, _) => LastSet(ops[..|ops| - 1], k)
  }

  /** The other keys Set since k's last Set. */
  function Others(ops: seq<Op>, k: string): set<string> {
    if ops == [] then {}
    else
      match ops[|ops| - 1]
      case SetOp(j, _, _) => if j == k then {} else Others(ops[..|ops| - 1], k) + {j}
      case GetOp(_, _) => Others(ops[..|ops| - 1], k)
  }

  /** What a Get of k at time now should return, from the history alone. */
  function Expected(ops: seq<Op>, k: string, now: int, ttl: int, max: int): Option<seq<string>> {
    var last := LastSet(ops, k);
    if last.Some? && now < last.value.0 + ttl && (max > 0 ==> |Others(ops, k)| < max) then Some(last.value.1) else None
  }

  // ---- the keys set after a key ----

  /** The keys behind k in the list. */
  function Behind(order: seq<string>, k: string): seq<string> {
    if order == [] then [] else if order[0] == k then order[1..] else Behind(order[1..], k)
  }

  lemma {:induction false} BehindPushed(order: seq<string>, k: string, j: string)
    requires NoRepeats(order) && k in order && k != j
    ensures KeySet(Behind(Removed(order, j) + [j], k)) == KeySet(Behind(order, k)) + {j}
  {
    assert order == [order[0]] + order[1..];
    if order[0] == k {
      assert (Removed(order, j) + [j])[1..] == Removed(order[1..], j) + [j];
      RemovedMembers(order[1..], j);
    } else {
      BehindPushed(order[1..], k, j);
      if order[0] != j {
        assert (Removed(order, j) + [j])[1..] == Removed(order[1..], j) + [j];
      }
    }
  }

  lemma {:induction false} BehindRemoved(order: seq<string>, k: string, j: string)
    requires NoRepeats(order) && k in order && k != j
    ensures KeySet(Behind(Removed(order, j), k)) == KeySet(Behind(order, k)) - {j}
  {
    assert order == [order[0]] + order[1..];
    if order[0] == k {
      assert Removed(order, j)[1..] == Removed(order[1..], j);
      RemovedMembers(order[1..], j);
    } else {
      BehindRemoved(order[1..], k, j);
      if order[0] != j {
        assert Removed(order, j)[1..] == Removed(order[1..], j);
      }
    }
  }

  lemma {:induction false} BehindIsLater(order: seq<string>, k: string, j: string)
    requires NoRepeats(order) && k in order && j in Behind(order, k)
    ensures exists a, b :: 0 <= a < b < |order| && order[a] == k && order[b] == j
  {
    assert order == [order[0]] + order[1..];
    if order[0] == k {
      var b :| 0 <= b < |order[1..]| && order[1..][b] == j;
      assert order[0] == k && order[b + 1] == j;
    } else {
      BehindIsLater(order[1..], k, j);
      var a, b :| 0 <= a < b < |order[1..]| && order[1..][a] == k && order[1..][b] == j;
      assert order[a + 1] == k && order[b + 1] == j;
    }
  }

  lemma {:induction false} BehindBound(order: seq<string>, k: string)
    requires NoRepeats(order) && k in order
    ensures |KeySet(Behind(order, k))| < |order|
  {
    assert order == [order[0]] + order[1..];
    if order[0] == k {
      KeysCounted(order[1..]);
    } else {
      BehindBound(order[1..], k);
    }
  }

  // ---- the invariant of a history ----

  /** Later in the list means set later, hence expiring later. */
  ghost predicate SortedByExpiry(s: Store) {
    forall i, j :: 0 <= i < j < |s.order| && s.order[i] in s.items && s.order[j] in s.items ==>
      s.items[s.order[i]].expiry <= s.items[s.order[j]].expiry
  }

  /** What the store holds of k, at time t, in terms of the history. */
  ghost predicate Tracks(ops: seq<Op>, s: Store, k: string, t: int, ttl: int, max: int) {
    var last := LastSet(ops, k);
    && (k in s.items ==> last.Some? && s.items[k] == Item(last.value.0 + ttl, last.value.1))
    && (last.Some? && t < last.value.0 + ttl ==>
          if k in s.items then KeySet(Behind(s.order, k)) == Others(ops, k)
          else max > 0 && |Others(ops, k)| >= max)
  }

  ghost predicate TracksAll(ops: seq<Op>, s: Store, t: int, ttl: int, max: int) {
    forall k :: Tracks(ops, s, k, t, ttl, max)
  }

  ghost predicate ExpireBy(s: Store, limit: int) {
    forall k :: k in s.items ==> s.items[k].expiry <= limit
  }

  ghost predicate Inv(ops: seq<Op>, s: Store, t: int, ttl: int, max: int) {
    && Agree(s) && SortedByExpiry(s) && (max > 0 ==> |s.order| <= max)
    && ExpireBy(s, t + ttl) && TracksAll(ops, s, t, ttl, max)
  }

  lemma SetOthers(ops: seq<Op>, s: Store, op: Op, k: string, t: int, ttl: int, max: int)
    requires op.SetOp? && t <= op.now && k != op.key && Agree(s) && Tracks(ops, s, k, t, ttl, max)
    ensures Tracks(ops + [op], Pushed(s, op.key, Item(op.now + ttl, op.value)), k, op.now, ttl, max)
  {
    assert (ops + [op])[..|ops|] == ops;
    var others := Others(ops, k);
    assert Others(ops + [op], k) == others + {op.key};
    assert |others + {op.key}| >= |others| by {
      if op.key in others {
        assert others + {op.key} == others;
      }
    }
    if k in s.items {
      BehindPushed(s.order, k, op.key);
    }
  }

  lemma {:induction false} BehindLast(order: seq<string>, k: string)
    requires k !in order
    ensures Behind(order + [k], k) == []
  {
    if order != [] {
      assert (order + [k])[1..] == order[1..] + [k];
      BehindLast(order[1..], k);
    }
  }

  lemma SetOwn(ops: seq<Op>, s: Store, op: Op, ttl: int, max: int)
    requires op.SetOp?
    ensures Tracks(ops + [op], Pushed(s, op.key, Item(op.now + ttl, op.value)), op.key, op.now, ttl, max)
  {
    assert (ops + [op])[..|ops|] == ops;
    RemovedMembers(s.order, op.key);
    BehindLast(Removed(s.order, op.key), op.key);
  }

  lemma PushedSorted(s: Store, k: string, item: Item)
    requires Agree(s) && SortedByExpiry(s) && ExpireBy(s, item.expiry)
    ensures SortedByExpiry(Pushed(s, k, item))
  {
    RemoveSorted(s.order, s.items, k);
    RemovedMembers(s.order, k);
    var r := Removed(s.order, k);
    assert forall i :: 0 <= i < |r| ==> r[i] in r;
  }

  lemma PushedSortedFrom(s: Store, k: string, item: Item, t: int)
    requires Agree(s) && SortedByExpiry(s) && ExpireBy(s, t) && t <= item.expiry
    ensures SortedByExpiry(Pushed(s, k, item))
  {
    assert ExpireBy(s, item.expiry);
    PushedSorted(s, k, item);
  }

  lemma {:induction false} RemoveSorted(order: seq<string>, items: map<string, Item>, k: string)
    requires SortedByExpiry(Store(order, items))
    ensures SortedByExpiry(Store(Removed(order, k), items))
  {
    if order != [] {
      assert forall i :: 0 < i < |order| ==> order[i] == order[1..][i - 1];
      RemoveSorted(order[1..], items, k);
      var r := Removed(order[1..], k);
      if order[0] != k {
        forall j | 0 <= j < |r| && order[0] in items && r[j] in items
          ensures items[order[0]].expiry <= items[r[j]].expiry
        {
          assert r[j] in r;
          RemovedMember(order[1..], k, r[j]);
        }
      }
    }
  }

  lemma DropTracks(ops: seq<Op>, s: Store, r: Store, t: int, ttl: int, max: int)
    requires NoRepeats(s.order) && 0 < max < |s.order| && TracksAll(ops, s, t, ttl, max)
    requires r == Store(s.order[1..], s.items - {s.order[0]})
    ensures TracksAll(ops, r, t, ttl, max)
  {
    var front := s.order[0];
    assert s.order == [front] + r.order;
    forall k ensures Tracks(ops, r, k, t, ttl, max) {
      assert Tracks(ops, s, k, t, ttl, max);
      if k == front {
        assert Behind(s.order, k) == r.order;
        KeysCounted(r.order);
      }
    }
  }

  /** Dropping the oldest key when the list is one too long. */
  lemma TrimKeeps(ops: seq<Op>, s: Store, t: int, ttl: int, max: int)
    requires Agree(s) && SortedByExpiry(s) && (max > 0 ==> |s.order| <= max + 1)
    requires ExpireBy(s, t + ttl) && TracksAll(ops, s, t, ttl, max)
    ensures Inv(ops, Trimmed(s, max), t, ttl, max)
  {
    if max > 0 && |s.order| > max {
      var front := s.order[0];
      var r := Store(s.order[1..], s.items - {front});
      TailAgree(s);
      assert Trimmed(s, max) == r;
      DropTracks(ops, s, r, t, ttl, max);
      hide Tracks, NoRepeats;
    }
  }

  lemma PushedTracks(ops: seq<Op>, s: Store, p: Store, op: Op, t: int, ttl: int, max: int)
    requires op.SetOp? && t <= op.now && Agree(s) && TracksAll(ops, s, t, ttl, max)
    requires p == Pushed(s, op.key, Item(op.now + ttl, op.value))
    ensures TracksAll(ops + [op], p, op.now, ttl, max)
  {
    var all := ops + [op];
    forall k ensures Tracks(all, p, k, op.now, ttl, max) {
      if k == op.key {
        SetOwn(ops, s, op, ttl, max);
      } else {
        SetOthers(ops, s, op, k, t, ttl, max);
      }
    }
  }

  lemma PushedBounds(s: Store, k: string, item: Item, t: int, max: int)
    requires ExpireBy(s, t) && t <= item.expiry && (max > 0 ==> |s.order| <= max)
    ensures ExpireBy(Pushed(s, k, item), item.expiry)
    ensures max > 0 ==> |Pushed(s, k, item).order| <= max + 1
  {
  }

  lemma SetKeepsInv(ops: seq<Op>, s: Store, op: Op, t: int, ttl: int, max: int)
    requires op.SetOp? && t <= op.now && Inv(ops, s, t, ttl, max)
    ensures Inv(ops + [op], Trimmed(Pushed(s, op.key, Item(op.now + ttl, op.value)), max), op.now, ttl, max)
  {
    var item := Item(op.now + ttl, op.value);
    var p := Pushed(s, op.key, item);
    PushedAgree(s, op.key, item);
    PushedBounds(s, op.key, item, t + ttl, max);
    PushedSortedFrom(s, op.key, item, t + ttl);
    PushedTracks(ops, s, p, op, t, ttl, max);
    TrimKeeps(ops + [op], p, op.now, ttl, max);
  }

  lemma GetKeepsInv(ops: seq<Op>, s: Store, op: Op, t: int, ttl: int, max: int)
    requires op.GetOp? && t <= op.now && Inv(ops, s, t, ttl, max)
    ensures Inv(ops + [op], AfterGet(s, op.key, op.now), op.now, ttl, max)
  {
    var r := AfterGet(s, op.key, op.now);
    if r != s {
      RemovedAgree(s, op.key);
      RemoveSorted(s.order, s.items, op.key);
      assert SortedByExpiry(r) by {
        assert SortedByExpiry(Store(r.order, s.items));
      }
    }
    var all := ops + [op];
    forall k ensures Tracks(all, r, k, op.now, ttl, max) {
      GetTracks(ops, s, op, k, t, ttl, max);
    }
  }

  lemma GetTracks(ops: seq<Op>, s: Store, op: Op, k: string, t: int, ttl: int, max: int)
    requires op.GetOp? && t <= op.now && Inv(ops, s, t, ttl, max)
    ensures Tracks(ops + [op], AfterGet(s, op.key, op.now), k, op.now, ttl, max)
  {
    assert (ops + [op])[..|ops|] == ops;
    assert Tracks(ops, s, k, t, ttl, max);
    assert Tracks(ops, s, op.key, t, ttl, max);
    if k in s.items && k != op.key && op.key in s.items && op.now >= s.items[op.key].expiry {
      BehindRemoved(s.order, k, op.key);
      if op.now < s.items[k].expiry && op.key in Behind(s.order, k) {
        BehindIsLater(s.order, k, op.key);
      }
    }
  }

  lemma NextKeepsInv(ops: seq<Op>, s: Store, op: Op, t: int, ttl: int, max: int)
    requires t <= op.now && Inv(ops, s, t, ttl, max)
    ensures Inv(ops + [op], Next(s, op, ttl, max), op.now, ttl, max)
  {
    hide Inv;
    if op.SetOp? {
      SetKeepsInv(ops, s, op, t, ttl, max);
    } else {
      GetKeepsInv(ops, s, op, t, ttl, max);
    }
  }

  ghost function Clock(ops: seq<Op>, start: int): int {
    if ops == [] then start else ops[|ops| - 1].now
  }

  lemma {:induction false} HistoryInv(ops: seq<Op>, start: int, ttl: int, max: int)
    requires Monotone(ops) && forall op :: op in ops ==> start <= op.now
    ensures Inv(ops, After(ops, ttl, max), Clock(ops, start), ttl, max)
  {
    if ops != [] {
      var before, op := ops[..|ops| - 1], ops[|ops| - 1];
      assert ops == before + [op];
      assert forall o :: o in before ==> o in ops;
      HistoryInv(before, start, ttl, max);
      assert Clock(before, start) <= op.now;
      NextKeepsInv(before, After(before, ttl, max), op, Clock(before, start), ttl, max);
    }
  }

  /** After any history with a clock that never runs back: list and map agree, the list is sorted by expiry and
      within max, and a Get returns exactly the value of the key's last Set when that has not expired and fewer
      than max other keys have been Set since, and nothing otherwise. */
  lemma GetMeetsHistory(ops: seq<Op>, k: string, now: int, ttl: int, max: int)
    requires Monotone(ops) && forall op :: op in ops ==> op.now <= now
    ensures var s := After(ops, ttl, max);
            && Agree(s) && SortedByExpiry(s) && (max > 0 ==> |s.order| <= max)
            && Found(s, k, now) == Expected(ops, k, now, ttl, max)
  {
    var start := if ops == [] then now else ops[0].now;
    HistoryInv(ops, start, ttl, max);
    var s := After(ops, ttl, max);
    assert Tracks(ops, s, k, Clock(ops, start), ttl, max);
    if k in s.items {
      BehindBound(s.order, k);
    }
  }
}
