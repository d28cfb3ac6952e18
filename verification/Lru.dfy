/** The LRU accountant on the heap (shim-go/lru.go): a list of shared elements, a map from keys to the same
    elements, and a running total, refining the sequences of LruSpec. */
module Lru {
  import opened Ages
  import opened LruSpec
  import opened Types

  /** A list element and the lruEntry it carries; both the list and the map point at it. */
  class Element {
    const key: string
    var size: nat

    constructor (key: string, size: nat)
      ensures this.key == key && this.size == size
    {
      this.key := key;
      this.size := size;
    }
  }

  /** What a list of elements says, read through the heap. */
  ghost function Entries(es: seq<Element>): (s: seq<Entry<string>>)
    reads es
    ensures |s| == |es|
  {
    if es == [] then [] else [Entry(es[0].key, es[0].size)] + Entries(es[1..])
  }

  lemma {:induction false} EntriesAt(es: seq<Element>)
    ensures forall i :: 0 <= i < |es| ==> Entries(es)[i] == Entry(es[i].key, es[i].size)
  {
    if es != [] {
      EntriesAt(es[1..]);
      forall i | 0 <= i < |es| ensures Entries(es)[i] == Entry(es[i].key, es[i].size) {
        if 0 < i {
          assert es[1..][i - 1] == es[i];
        }
      }
    }
  }

  /** lruSeed: a file found at boot. */
  type Seed = Aged<Entry<string>>

  function SeedEntries(seeds: seq<Seed>): seq<Entry<string>> {
    if seeds == [] then [] else [seeds[0].item] + SeedEntries(seeds[1..])
  }

  lemma LoadPush(s: seq<Entry<string>>, seed: Seed)
    requires Distinct(s)
    ensures Total(s + [seed.item]) == Total(s) + seed.item.size
  {
    TotalConcat(s, [seed.item]);
    assert Total([seed.item]) == seed.item.size + Total<string>([]);
  }

  /** The list without one element: list.Remove. */
  function Unlinked(es: seq<Element>, e: Element): seq<Element> {
    if es == [] then [] else if es[0] == e then es[1..] else [es[0]] + Unlinked(es[1..], e)
  }

  function KeysOf(s: seq<Entry<string>>): seq<string> {
    if s == [] then [] else [s[0].key] + KeysOf(s[1..])
  }

  lemma {:induction false} KeysOfConcat(a: seq<Entry<string>>, b: seq<Entry<string>>)
    ensures KeysOf(a + b) == KeysOf(a) + KeysOf(b)
  {
    if a == [] {
      assert a + b == b;
    } else {
      assert (a + b)[1..] == a[1..] + b;
      KeysOfConcat(a[1..], b);
    }
  }

  /** Distinct keys in the list. */
  ghost predicate DistinctKeys(es: seq<Element>) {
    forall i, j :: 0 <= i < j < |es| ==> es[i].key != es[j].key
  }

  lemma {:induction false} UnlinkedMember(es: seq<Element>, e: Element, d: Element)
    requires DistinctKeys(es)
    ensures d in Unlinked(es, e) <==> d in es && d != e
  {
    if es != [] {
      assert es == [es[0]] + es[1..];
      UnlinkedMember(es[1..], e, d);
    }
  }

  lemma {:induction false} UnlinkedDistinct(es: seq<Element>, e: Element)
    requires DistinctKeys(es)
    ensures DistinctKeys(Unlinked(es, e))
  {
    if es != [] && es[0] != e {
      UnlinkedDistinct(es[1..], e);
      var rest := Unlinked(es[1..], e);
      forall j | 0 <= j < |rest| ensures rest[j].key != es[0].key {
        UnlinkedMember(es[1..], e, rest[j]);
        var i :| 0 <= i < |es[1..]| && es[1..][i] == rest[j];
        assert es[i + 1] == rest[j];
      }
    }
  }

  /** The list and the map hold the same elements, one per key. */
  ghost predicate Linked(order: seq<Element>, items: map<string, Element>) {
    && DistinctKeys(order)
    && (forall i :: 0 <= i < |order| ==> order[i].key in items && items[order[i].key] == order[i])
    && (forall k :: k in items ==> items[k] in order && items[k].key == k)
  }

  lemma LinkedWithout(order: seq<Element>, items: map<string, Element>, el: Element)
    requires Linked(order, items) && el in order
    ensures Linked(Unlinked(order, el), items - {el.key})
  {
    UnlinkedDistinct(order, el);
    var rest, left := Unlinked(order, el), items - {el.key};
    forall i | 0 <= i < |rest| ensures rest[i].key in left && left[rest[i].key] == rest[i] {
      UnlinkedMember(order, el, rest[i]);
      assert rest[i] in rest;
    }
    forall k | k in left ensures left[k] in rest && left[k].key == k {
      UnlinkedMember(order, el, left[k]);
    }
  }

  lemma UnlinkedWithin(es: seq<Element>, e: Element)
    requires DistinctKeys(es)
    ensures forall d :: d in Unlinked(es, e) ==> d in es
  {
    forall d | d in Unlinked(es, e) ensures d in es {
      UnlinkedMember(es, e, d);
    }
  }

  lemma LinkedPush(order: seq<Element>, items: map<string, Element>, el: Element)
    requires Linked(order, items) && el.key !in items
    ensures Linked(order + [el], items[el.key := el])
  {
  }

  lemma LinkedMove(order: seq<Element>, items: map<string, Element>, el: Element)
    requires Linked(order, items) && el in order
    ensures Linked(Unlinked(order, el) + [el], items)
  {
    LinkedWithout(order, items, el);
    LinkedPush(Unlinked(order, el), items - {el.key}, el);
    assert (items - {el.key})[el.key := el] == items;
  }

  lemma {:induction false} EntriesConcat(a: seq<Element>, b: seq<Element>)
    ensures Entries(a + b) == Entries(a) + Entries(b)
  {
    if a == [] {
      assert a + b == b;
    } else {
      assert (a + b)[1..] == a[1..] + b;
      EntriesConcat(a[1..], b);
    }
  }

  /** Unlinking the element of a key removes that key's entry, and nothing else. */
  lemma {:induction false} UnlinkedEntries(es: seq<Element>, e: Element)
    requires DistinctKeys(es) && e in es
    ensures Entries(Unlinked(es, e)) == Without(Entries(es), e.key)
  {
    var s := Entries(es);
    assert s[1..] == Entries(es[1..]);
    EntriesAt(es);
    if es[0] == e {
      assert !Has(s[1..], e.key);
      WithoutAbsent(s[1..], e.key);
    } else {
      assert es[0].key != e.key;
      UnlinkedEntries(es[1..], e);
      assert Entries(Unlinked(es, e)) == [s[0]] + Entries(Unlinked(es[1..], e));
    }
  }

  /** One round of eviction, on the sequences: the front goes and the rest decides what follows. */
  lemma FrontGoes(rest: seq<Entry<string>>, lim: Limits, gauge: Gauge, reading: nat, next: nat,
                  tail: seq<Entry<string>>)
    requires rest != [] && OverLimit(lim, Total(rest), Reading(gauge, reading))
    requires next == (if Consults(lim, Total(rest)) then reading + 1 else reading) && tail == rest[1..]
    ensures EvictCount(rest, lim, gauge, reading) == 1 + EvictCount(tail, lim, gauge, next)
    ensures ReadingsAfter(rest, lim, gauge, reading) == ReadingsAfter(tail, lim, gauge, next)
  {
  }

  lemma FrontStays(rest: seq<Entry<string>>, lim: Limits, gauge: Gauge, reading: nat)
    requires rest != [] && !OverLimit(lim, Total(rest), Reading(gauge, reading))
    ensures EvictCount(rest, lim, gauge, reading) == 0
    ensures ReadingsAfter(rest, lim, gauge, reading) == if Consults(lim, Total(rest)) then reading + 1 else reading
  {
  }

  lemma Shift(start: seq<Entry<string>>, dropped: seq<Entry<string>>, rest: seq<Entry<string>>,
              tail: seq<Entry<string>>, log: seq<string>)
    requires rest != [] && start == dropped + rest && tail == rest[1..]
    ensures start == dropped + [rest[0]] + tail
    ensures log + KeysOf(dropped) + KeysOf([rest[0]]) == log + KeysOf(dropped + [rest[0]])
  {
    KeysOfConcat(dropped, [rest[0]]);
  }

  /** Unlinking the front leaves the tail. */
  lemma FrontWithout(es: seq<Element>)
    requires es != [] && DistinctKeys(es)
    ensures Unlinked(es, es[0]) == es[1..]
    ensures Without(Entries(es), es[0].key) == Entries(es)[1..]
    ensures Entries(es)[0].key == es[0].key
  {
    UnlinkedEntries(es, es[0]);
  }

  class LruCache {
    const lim: Limits
    const gauge: Gauge                     // what freeFn returns, call by call
    var order: seq<Element>                // front = LRU, back = MRU
    var items: map<string, Element>
    var total: nat
    var readings: nat                      // readings of the gauge taken
    var deleted: seq<string>               // calls of del, in order
    ghost var elements: set<Element>       // every element ever linked

    ghost predicate Valid()
      reads this, elements
    {
      (forall e :: e in order ==> e in elements) && Linked(order, items) && total == Total(Entries(order))
    }

    /** The (key, size) sequence the list and the map both represent. */
    ghost function Contents(): seq<Entry<string>>
      reads this, order
    {
      Entries(order)
    }

    constructor (lim: Limits, gauge: Gauge)
      ensures Valid() && elements == {} && Contents() == [] && deleted == [] && readings == 0
      ensures this.lim == lim && this.gauge == gauge
    {
      this.lim := lim;
      this.gauge := gauge;
      order, items, total := [], map[], 0;
      readings, deleted, elements := 0, [], {};
    }

    /** The map answers membership and size for the sequence. */
    lemma MapAgrees(key: string)
      requires Valid()
      ensures key in items <==> Has(Contents(), key)
      ensures key in items ==> SizeOf(Contents(), key) == items[key].size
      ensures Distinct(Contents())
    {
      EntriesAt(order);
      if key in items {
        var i :| 0 <= i < |order| && order[i] == items[key];
        assert Contents()[i].key == key;
        SizeOfMember(Contents(), key);
        var j :| 0 <= j < |order| && Contents()[j] == Entry(key, SizeOf(Contents(), key));
        assert i == j;
      }
    }

    method Touch(key: string)
      requires Valid()
      modifies this`order
      ensures Valid()
      ensures Contents() == LruSpec.Touch(old(Contents()), key)
    {
      MapAgrees(key);
      TouchKeeps(Contents(), key);
      if key in items {
        MoveToBack(items[key]);
      }
    }

    /** list.MoveToBack: the element's entry becomes the most recent. */
    method MoveToBack(el: Element)
      requires Linked(order, items) && el in order && forall e :: e in order ==> e in elements
      modifies this`order
      ensures Linked(order, items) && forall e :: e in order ==> e in elements
      ensures order == Unlinked(old(order), el) + [el]
      ensures Contents() == Without(old(Contents()), el.key) + [Entry(el.key, el.size)]
    {
      UnlinkedEntries(order, el);
      EntriesConcat(Unlinked(order, el), [el]);
      LinkedMove(order, items, el);
      UnlinkedWithin(order, el);
      assert Entries([el]) == [Entry(el.key, el.size)];
      ghost var moved := Entries(Unlinked(order, el) + [el]);
      order := Unlinked(order, el) + [el];
      assert Entries(order) == moved;
    }

    /** Evicts the oldest entries while a limit is exceeded; del is called once per evicted key, oldest first. */
    method EvictLocked()
      requires Valid()
      modifies this
      ensures Valid() && elements == old(elements)
      ensures Contents() == Kept(old(Contents()), lim, gauge, old(readings))
      ensures deleted == old(deleted) + KeysOf(Dropped(old(Contents()), lim, gauge, old(readings)))
      ensures readings == ReadingsAfter(old(Contents()), lim, gauge, old(readings))
    {
      ghost var start, dropped := Contents(), [];
      ghost var count := EvictCount(start, lim, gauge, readings);
      ghost var after := ReadingsAfter(start, lim, gauge, readings);
      while order != []
        invariant Valid() && elements == old(elements)
        invariant start == dropped + Contents()
        invariant count == |dropped| + EvictCount(Contents(), lim, gauge, readings)
        invariant after == ReadingsAfter(Contents(), lim, gauge, readings)
        invariant deleted == old(deleted) + KeysOf(dropped)
        decreases |order|
      {
        ghost var rest, reading := Contents(), readings;
        var over := EvictOne();
        if !over {
          FrontStays(rest, lim, gauge, reading);
          break;
        }
        FrontGoes(rest, lim, gauge, reading, readings, Contents());
        Shift(start, dropped, rest, Contents(), old(deleted));
        dropped := dropped + [rest[0]];
      }
      assert count == |dropped| && readings == after;
    }

    /** One round of the eviction loop. */
    method EvictOne() returns (over: bool)
      requires Valid() && order != []
      modifies this
      ensures Valid() && elements == old(elements)
      ensures over == OverLimit(lim, Total(old(Contents())), Reading(gauge, old(readings)))
      ensures readings == if Consults(lim, Total(old(Contents()))) then old(readings) + 1 else old(readings)
      ensures Contents() == if over then old(Contents())[1..] else old(Contents())
      ensures deleted == if over then old(deleted) + KeysOf([old(Contents())[0]]) else old(deleted)
      ensures |order| == if over then |old(order)| - 1 else |old(order)|
    {
      over := OverLimitLocked();
      if over {
        ghost var first := Contents()[0];
        PopFront();
        assert KeysOf([first]) == [first.key] + KeysOf([]);
      }
    }

    /** One eviction: the front element leaves the list, the map and the total, then its file goes. */
    method PopFront()
      requires Valid() && order != []
      modifies this
      ensures Valid() && elements == old(elements)
      ensures order == old(order)[1..] && Contents() == old(Contents())[1..]
      ensures deleted == old(deleted) + [old(Contents())[0].key] && readings == old(readings)
    {
      var front := order[0];
      FrontWithout(order);
      Unlink(front);
      deleted := deleted + [front.key];
    }

    /** An element leaves the list, the map and the total. */
    method Unlink(el: Element)
      requires Valid() && el in order
      modifies this`order, this`items, this`total
      ensures Valid()
      ensures order == Unlinked(old(order), el) && Contents() == Without(old(Contents()), el.key)
    {
      hide Total, Without, Unlinked;
      UnlinkedEntries(order, el);
      LinkedWithout(order, items, el);
      UnlinkedWithin(order, el);
      MapAgrees(el.key);
      TotalWithout(Contents(), el.key);
      ghost var rest := Entries(Unlinked(order, el));
      total, order, items := total - el.size, Unlinked(order, el), items - {el.key};
      assert Entries(order) == rest;
    }

    /** Whether a limit is exceeded now; the gauge is read only once the byte budget is met. */
    method OverLimitLocked() returns (over: bool)
      requires Valid()
      modifies this`readings
      ensures Valid() && Contents() == old(Contents())
      ensures over == OverLimit(lim, Total(Contents()), Reading(gauge, old(readings)))
      ensures readings == if Consults(lim, Total(Contents())) then old(readings) + 1 else old(readings)
    {
      if lim.max > 0 && total > lim.max {
        return true;
      }
      if lim.minFree > 0 {
        var free := Reading(gauge, readings);
        readings := readings + 1;
        if free.Some? && free.value < lim.minFree {
          return true;
        }
      }
      return false;
    }

    method Record(key: string, size: nat)
      requires Valid()
      modifies this, elements
      ensures Valid()
      ensures Contents() == Kept(Put(old(Contents()), key, size), lim, gauge, old(readings))
      ensures deleted == old(deleted) + KeysOf(Dropped(Put(old(Contents()), key, size), lim, gauge, old(readings)))
      ensures readings == ReadingsAfter(Put(old(Contents()), key, size), lim, gauge, old(readings))
      ensures fresh(elements - old(elements))
    {
      Insert(key, size);
      EvictLocked();
    }

    /** Record before its eviction: the entry is resized in place and moved to the back, or pushed. */
    method Insert(key: string, size: nat)
      requires Valid()
      modifies this, elements
      ensures Valid()
      ensures Contents() == Put(old(Contents()), key, size)
      ensures deleted == old(deleted) && readings == old(readings)
      ensures fresh(elements - old(elements))
    {
      MapAgrees(key);
      TotalPut(Contents(), key, size);
      if key in items {
        var el := items[key];
        SizeWithin(order, el);
        Resize(el, size);
        MoveToBack(el);
      } else {
        WithoutAbsent(Contents(), key);
        PushBack(key, size);
      }
    }

    /** The entry's size changes in place, seen through both the list and the map. */
    method Resize(el: Element, size: nat)
      requires Valid() && el in order && el.size <= total
      modifies this`total, el
      ensures Linked(order, items) && el.size == size
      ensures total == old(total) - old(el.size) + size
      ensures Without(Contents(), el.key) == Without(old(Contents()), el.key)
    {
      UnlinkedEntries(order, el);
      UnlinkedMember(order, el, el);
      ghost var others := Entries(Unlinked(order, el));
      total := total - el.size;
      el.size := size;
      total := total + size;
      assert Entries(Unlinked(order, el)) == others;
      UnlinkedEntries(order, el);
    }

    method PushBack(key: string, size: nat)
      requires Valid() && key !in items
      modifies this
      ensures Linked(order, items) && forall e :: e in order ==> e in elements
      ensures Contents() == old(Contents()) + [Entry(key, size)]
      ensures total == old(total) + size
      ensures deleted == old(deleted) && readings == old(readings)
      ensures fresh(elements - old(elements))
    {
      ghost var was := Contents();
      var el := new Element(key, size);
      LinkedPush(order, items, el);
      EntriesConcat(order, [el]);
      assert Entries([el]) == [Entry(key, size)];
      ghost var pushed := Entries(order + [el]);
      assert pushed == was + [Entry(key, size)];
      order, items, total, elements := order + [el], items[key := el], total + size, elements + {el};
      assert Entries(order) == pushed;
    }

    /** Seeds the accountant, oldest first; the first seed of a key wins. `sorted` is the order that
        sort.Slice produced, any one of those that agree with the modification times. */
    method Load(entries: seq<Seed>) returns (ghost sorted: seq<Seed>)
      requires Valid()
      modifies this
      ensures Valid() && fresh(elements - old(elements))
      ensures multiset(sorted) == multiset(entries) && ByAge(sorted)
      ensures Contents() == Kept(Loaded(old(Contents()), SeedEntries(sorted)), lim, gauge, old(readings))
      ensures deleted == old(deleted)
                         + KeysOf(Dropped(Loaded(old(Contents()), SeedEntries(sorted)), lim, gauge, old(readings)))
    {
      var ordered := SortByAge(entries);
      sorted := ordered;
      ghost var start := Contents();
      for i := 0 to |ordered|
        invariant Valid() && fresh(elements - old(elements))
        invariant Loaded(start, SeedEntries(ordered)) == Loaded(Contents(), SeedEntries(ordered[i..]))
        invariant deleted == old(deleted) && readings == old(readings)
      {
        MapAgrees(ordered[i].item.key);
        assert ordered[i..][1..] == ordered[i + 1..];
        if ordered[i].item.key !in items {
          LoadPush(Contents(), ordered[i]);
          PushBack(ordered[i].item.key, ordered[i].item.size);
        }
      }
      EvictLocked();
    }

    method Forget(key: string)
      requires Valid()
      modifies this
      ensures Valid() && elements == old(elements)
      ensures Contents() == Without(old(Contents()), key)
      ensures deleted == old(deleted) && readings == old(readings)
    {
      MapAgrees(key);
      if key in items {
        Unlink(items[key]);
      } else {
        WithoutAbsent(Contents(), key);
      }
    }
  }

  lemma {:induction false} SizeWithin(es: seq<Element>, e: Element)
    requires e in es
    ensures e.size <= Total(Entries(es))
  {
    assert Entries(es)[1..] == Entries(es[1..]);
    if es[0] != e {
      SizeWithin(es[1..], e);
    }
  }
}
