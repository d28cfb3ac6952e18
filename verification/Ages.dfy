/** Things found on disk at boot, ordered by modification time as both sort.Slice calls do
    (shim-go/lru.go:51-62, shim-go/manifests.go:58). */
module Ages {

  datatype Aged<+T> = Aged(item: T, mtime: int)

  /** Each is at least as old as the next. */
  ghost predicate ByAge<T>(s: seq<Aged<T>>) {
    forall i :: 0 < i < |s| ==> s[i - 1].mtime <= s[i].mtime
  }

  function InsertByAge<T>(e: Aged<T>, s: seq<Aged<T>>): (r: seq<Aged<T>>)
    requires ByAge(s)
    ensures ByAge(r) && r != [] && (r[0] == e || (s != [] && r[0] == s[0] && s[0].mtime <= e.mtime))
    ensures multiset(r) == multiset(s) + multiset{e}
  {
    if s == [] || e.mtime <= s[0].mtime then [e] + s
    else
      assert s == [s[0]] + s[1..];
      [s[0]] + InsertByAge(e, s[1..])
  }

  function SortByAge<T>(entries: seq<Aged<T>>): (r: seq<Aged<T>>)
    ensures ByAge(r) && multiset(r) == multiset(entries)
  {
    if entries == [] then []
    else
      assert entries == [entries[0]] + entries[1..];
      InsertByAge(entries[0], SortByAge(entries[1..]))
  }
}
