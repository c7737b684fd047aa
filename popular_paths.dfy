/**
 * The sidebar's "Popular paths": read every archived entry's selected path
 * (defaulting to 'Unknown'), count the paths other than 'Unknown' in a dict,
 * sort the dict's items by count, highest first, and keep the first three.
 */
module PopularPaths {
  import opened Wrappers
  import opened Json
  import opened Archive

  /** A path name with the number of entries that selected it. */
  type PathCount = (Json, nat)

  const Unknown := JStr("Unknown")

  /** Only values other than 'Unknown' are counted. */
  predicate Counted(v: Json) {
    v != Unknown
  }

  /**
   * `entry.get('use_case', {}).get('selected', 'Unknown')`: the default is
   * used only when a key is missing. `None` stands for the `AttributeError`
   * raised when the entry, or its `use_case`, is not a dict.
   */
  function SelectedPath(entry: Json): (path: Option<Json>)
    ensures path.None? <==>
      !entry.JObj? || ("use_case" in entry.fields && !entry.fields["use_case"].JObj?)
    ensures path.Some? && path.value != Unknown ==>
      "use_case" in entry.fields && "selected" in entry.fields["use_case"].fields
      && entry.fields["use_case"].fields["selected"] == path.value
    ensures entry.JObj? && "use_case" in entry.fields && entry.fields["use_case"].JObj?
      && "selected" in entry.fields["use_case"].fields
      ==> path == Some(entry.fields["use_case"].fields["selected"])
  {
    if !entry.JObj? then None
    else if "use_case" !in entry.fields then Some(Unknown)
    else
      var u := entry.fields["use_case"];
      if !u.JObj? then None
      else if "selected" in u.fields then Some(u.fields["selected"])
      else Some(Unknown)
  }

  /** The list comprehension over the archive: `None` when some entry raises. */
  function Paths(data: seq<Json>): (r: Option<seq<Json>>)
    ensures r.Some? <==> forall i :: 0 <= i < |data| ==> SelectedPath(data[i]).Some?
    ensures r.Some? ==> |r.value| == |data|
    ensures r.Some? ==> forall i :: 0 <= i < |data| ==> r.value[i] == SelectedPath(data[i]).value
  {
    if data == [] then Some([])
    else
      match Paths(data[..|data| - 1])
      case None => None
      case Some(init) =>
        match SelectedPath(data[|data| - 1])
        case None => None
        case Some(v) => Some(init + [v])
  }

  /** Every counted value can be a dict key; otherwise the tally raises `TypeError`. */
  predicate AllHashable(uses: seq<Json>) {
    forall j :: 0 <= j < |uses| && Counted(uses[j]) ==> Hashable(uses[j])
  }

  predicate Distinct(s: seq<Json>) {
    forall i, j :: 0 <= i < j < |s| ==> s[i] != s[j]
  }

  /** The position of the first occurrence of `x`. */
  function FirstIndex(s: seq<Json>, x: Json): (r: nat)
    requires x in s
    ensures r < |s| && s[r] == x
    ensures forall j :: 0 <= j < r ==> s[j] != x
  {
    if s[0] == x then 0 else 1 + FirstIndex(s[1..], x)
  }

  lemma {:induction false} FirstIndexUnique(s: seq<Json>, x: Json, r: nat)
    requires r < |s| && s[r] == x
    requires forall j :: 0 <= j < r ==> s[j] != x
    ensures FirstIndex(s, x) == r
  {
    if r > 0 {
      assert s[0] != x;
      FirstIndexUnique(s[1..], x, r - 1);
    }
  }

  /**
   * The counted values in order of first appearance: the key order of the
   * counting dict, since a Python dict iterates in insertion order.
   */
  function FirstSeen(uses: seq<Json>): (keys: seq<Json>)
    ensures forall k :: k in keys <==> k in uses && Counted(k)
    ensures Distinct(keys)
  {
    if uses == [] then []
    else
      var init := uses[..|uses| - 1];
      var u := uses[|uses| - 1];
      var keys := FirstSeen(init);
      assert uses == init + [u];
      if Counted(u) && u !in keys then keys + [u] else keys
  }

  /** The keys are ordered by where each first occurs. */
  lemma {:induction false} FirstSeenOrder(uses: seq<Json>)
    ensures forall i, j :: 0 <= i < j < |FirstSeen(uses)| ==>
      FirstIndex(uses, FirstSeen(uses)[i]) < FirstIndex(uses, FirstSeen(uses)[j])
  {
    if uses != [] {
      var init := uses[..|uses| - 1];
      var u := uses[|uses| - 1];
      var keys := FirstSeen(init);
      assert uses == init + [u];
      FirstSeenOrder(init);
      FirstSeenStep(init, u, keys);
    }
  }

  /** Appending to the list moves no first occurrence that was already there. */
  lemma FirstSeenStep(init: seq<Json>, u: Json, keys: seq<Json>)
    requires forall k :: k in keys ==> k in init
    ensures forall k :: k in keys ==> FirstIndex(init + [u], k) == FirstIndex(init, k)
    ensures u !in init ==> FirstIndex(init + [u], u) == |init|
  {
    forall k | k in keys ensures FirstIndex(init + [u], k) == FirstIndex(init, k) {
      var q := FirstIndex(init, k);
      FirstIndexUnique(init + [u], k, q);
    }
    if u !in init {
      FirstIndexUnique(init + [u], u, |init|);
    }
  }

  lemma FirstSeenAppend(s: seq<Json>, u: Json)
    ensures FirstSeen(s + [u]) == if Counted(u) && u !in FirstSeen(s) then FirstSeen(s) + [u] else FirstSeen(s)
  {
    assert (s + [u])[..|s|] == s;
  }

  /** The dict's items: each key with its number of occurrences. */
  function Pairs(keys: seq<Json>, uses: seq<Json>): (t: seq<PathCount>)
    ensures |t| == |keys|
    ensures forall i :: 0 <= i < |keys| ==> t[i] == (keys[i], multiset(uses)[keys[i]])
  {
    if keys == [] then [] else [(keys[0], multiset(uses)[keys[0]])] + Pairs(keys[1..], uses)
  }

  function Tally(uses: seq<Json>): seq<PathCount> {
    Pairs(FirstSeen(uses), uses)
  }

  // The sort: Python's `sorted(..., key=count, reverse=True)`, which is stable.

  predicate NonIncreasing(s: seq<PathCount>) {
    forall i, j :: 0 <= i < j < |s| ==> s[i].1 >= s[j].1
  }

  /** Places `x` before the first element whose count does not exceed its own. */
  function Insert(x: PathCount, t: seq<PathCount>): (r: seq<PathCount>)
    ensures |r| == |t| + 1
    ensures multiset(r) == multiset(t) + multiset{x}
  {
    if t == [] || x.1 >= t[0].1 then [x] + t
    else
      assert t == [t[0]] + t[1..];
      [t[0]] + Insert(x, t[1..])
  }

  /** Every count in the result of an insertion is the inserted one or one already there. */
  lemma InsertBound(x: PathCount, t: seq<PathCount>, bound: nat)
    requires x.1 <= bound && forall j :: 0 <= j < |t| ==> t[j].1 <= bound
    ensures forall j :: 0 <= j < |Insert(x, t)| ==> Insert(x, t)[j].1 <= bound
  {
    var r := Insert(x, t);
    forall j | 0 <= j < |r| ensures r[j].1 <= bound {
      assert r[j] in multiset(r);
      assert r[j] == x || r[j] in multiset(t);
    }
  }

  lemma {:induction false} InsertKeepsOrder(x: PathCount, t: seq<PathCount>)
    requires NonIncreasing(t)
    ensures NonIncreasing(Insert(x, t))
  {
    if t != [] && x.1 < t[0].1 {
      var rest := Insert(x, t[1..]);
      InsertKeepsOrder(x, t[1..]);
      InsertBound(x, t[1..], t[0].1);
      assert Insert(x, t) == [t[0]] + rest;
    }
  }

  function SortByCount(s: seq<PathCount>): (r: seq<PathCount>)
    ensures |r| == |s|
    ensures multiset(r) == multiset(s)
    ensures NonIncreasing(r)
  {
    if s == [] then []
    else
      assert s == [s[0]] + s[1..];
      var rest := SortByCount(s[1..]);
      InsertKeepsOrder(s[0], rest);
      Insert(s[0], rest)
  }

  /** `[:3]` */
  function Take3(s: seq<PathCount>): (r: seq<PathCount>)
    ensures r <= s && |r| == if |s| < 3 then |s| else 3
  {
    if |s| < 3 then s else s[..3]
  }

  /**
   * The popular paths the sidebar lists for the selected values `uses`: up
   * to three of the tally's items, highest count first.
   */
  function Popular(uses: seq<Json>): (top: seq<PathCount>)
    ensures |top| == if |FirstSeen(uses)| < 3 then |FirstSeen(uses)| else 3
    ensures NonIncreasing(top)
    ensures forall i :: 0 <= i < |top| ==> top[i] in Tally(uses)
  {
    var sorted := SortByCount(Tally(uses));
    SameMembers(sorted, Tally(uses));
    Take3(sorted)
  }

  /** Two sequences that are permutations of each other hold the same items. */
  lemma SameMembers(a: seq<PathCount>, b: seq<PathCount>)
    requires multiset(a) == multiset(b)
    ensures forall x :: x in a ==> x in b
  {
    forall x | x in a
      ensures x in b
    {
      assert x in multiset(a);
    }
  }

  /** The items of `s` with count `c`, in order. */
  function WithCount(s: seq<PathCount>, c: nat): seq<PathCount> {
    if s == [] then [] else (if s[0].1 == c then [s[0]] else []) + WithCount(s[1..], c)
  }

  lemma {:induction false} InsertWithCount(x: PathCount, t: seq<PathCount>, c: nat)
    ensures WithCount(Insert(x, t), c) == (if x.1 == c then [x] else []) + WithCount(t, c)
  {
    if t == [] || x.1 >= t[0].1 {
      assert ([x] + t)[1..] == t;
    } else {
      var rest := Insert(x, t[1..]);
      assert ([t[0]] + rest)[1..] == rest;
      InsertWithCount(x, t[1..], c);
    }
  }

  /** Stability: the sort keeps the relative order of items with equal counts. */
  lemma {:induction false} SortKeepsTies(s: seq<PathCount>, c: nat)
    ensures WithCount(SortByCount(s), c) == WithCount(s, c)
  {
    if s != [] {
      SortKeepsTies(s[1..], c);
      InsertWithCount(s[0], SortByCount(s[1..]), c);
    }
  }

  lemma {:induction false} WithCountOfPrefix(a: seq<PathCount>, b: seq<PathCount>, c: nat)
    requires a <= b
    ensures WithCount(a, c) <= WithCount(b, c)
  {
    if a != [] {
      assert a[1..] <= b[1..];
      WithCountOfPrefix(a[1..], b[1..], c);
    }
  }

  // Totals.

  function Total(s: seq<PathCount>): nat {
    if s == [] then 0 else s[0].1 + Total(s[1..])
  }

  /** The number of entries whose value is counted. */
  function CountedEntries(uses: seq<Json>): (n: nat)
    ensures n <= |uses|
  {
    if uses == [] then 0
    else CountedEntries(uses[..|uses| - 1]) + (if Counted(uses[|uses| - 1]) then 1 else 0)
  }

  lemma {:induction false} TotalConcat(a: seq<PathCount>, b: seq<PathCount>)
    ensures Total(a + b) == Total(a) + Total(b)
  {
    if a == [] {
      assert a + b == b;
    } else {
      assert (a + b)[1..] == a[1..] + b;
      TotalConcat(a[1..], b);
    }
  }

  lemma {:induction false} TotalInsert(x: PathCount, t: seq<PathCount>)
    ensures Total(Insert(x, t)) == x.1 + Total(t)
  {
    if t == [] || x.1 >= t[0].1 {
      assert ([x] + t)[1..] == t;
    } else {
      var rest := Insert(x, t[1..]);
      assert ([t[0]] + rest)[1..] == rest;
      TotalInsert(x, t[1..]);
    }
  }

  lemma {:induction false} TotalSort(s: seq<PathCount>)
    ensures Total(SortByCount(s)) == Total(s)
  {
    if s != [] {
      TotalSort(s[1..]);
      TotalInsert(s[0], SortByCount(s[1..]));
    }
  }

  lemma {:induction false} TotalPrefix(a: seq<PathCount>, b: seq<PathCount>)
    requires a <= b
    ensures Total(a) <= Total(b)
  {
    if a != [] {
      assert a[1..] <= b[1..];
      TotalPrefix(a[1..], b[1..]);
    }
  }

  /** Adding one occurrence of `u` adds one to the total exactly when `u` is a key. */
  lemma {:induction false} PairsAddOccurrence(keys: seq<Json>, init: seq<Json>, u: Json)
    requires Distinct(keys)
    ensures Total(Pairs(keys, init + [u])) == Total(Pairs(keys, init)) + (if u in keys then 1 else 0)
  {
    if keys != [] {
      assert Distinct(keys[1..]) by {
        forall i, j | 0 <= i < j < |keys[1..]| ensures keys[1..][i] != keys[1..][j] {
          assert keys[1..][i] == keys[i + 1] && keys[1..][j] == keys[j + 1];
        }
      }
      PairsAddOccurrence(keys[1..], init, u);
      assert u in keys <==> u == keys[0] || u in keys[1..];
      assert u == keys[0] ==> u !in keys[1..];
    }
  }

  lemma {:induction false} PairsAppendKey(keys: seq<Json>, k: Json, uses: seq<Json>)
    ensures Pairs(keys + [k], uses) == Pairs(keys, uses) + [(k, multiset(uses)[k])]
  {
  }

  /** A value seen for the first time becomes a key with count one. */
  lemma NewKeyAddsOne(keys: seq<Json>, init: seq<Json>, u: Json)
    requires u !in init
    ensures Total(Pairs(keys + [u], init + [u])) == Total(Pairs(keys, init + [u])) + 1
  {
    var uses := init + [u];
    PairsAppendKey(keys, u, uses);
    assert multiset(uses)[u] == multiset(init)[u] + 1;
    TotalConcat(Pairs(keys, uses), [(u, multiset(uses)[u])]);
  }

  /** The counts of the dict add up to the number of counted entries. */
  lemma {:induction false} TallyTotal(uses: seq<Json>)
    ensures Total(Tally(uses)) == CountedEntries(uses)
  {
    if uses != [] {
      var init := uses[..|uses| - 1];
      var u := uses[|uses| - 1];
      assert uses == init + [u];
      TallyTotal(init);
      var keys := FirstSeen(init);
      FirstSeenAppend(init, u);
      PairsAddOccurrence(keys, init, u);
      if Counted(u) && u !in keys {
        NewKeyAddsOne(keys, init, u);
      }
    }
  }

  // What the sidebar lists, stated outright.

  /** Each listed path is a counted value and carries the number of entries that selected it. */
  lemma PopularCounts(uses: seq<Json>)
    ensures forall i :: 0 <= i < |Popular(uses)| ==>
      var (k, n) := Popular(uses)[i];
      k in uses && Counted(k) && n == multiset(uses)[k] && n >= 1
  {
    var sorted := SortByCount(Tally(uses));
    forall i | 0 <= i < |Popular(uses)|
      ensures var (k, n) := Popular(uses)[i]; k in uses && Counted(k) && n == multiset(uses)[k] && n >= 1
    {
      var e := sorted[i];
      assert e in multiset(sorted);
      assert e in Tally(uses);
    }
  }

  /** No path left off the list has a higher count than any listed one. */
  lemma PopularAreTop(uses: seq<Json>, k: Json)
    requires k in uses && Counted(k)
    requires forall i :: 0 <= i < |Popular(uses)| ==> Popular(uses)[i].0 != k
    ensures forall i :: 0 <= i < |Popular(uses)| ==> multiset(uses)[k] <= Popular(uses)[i].1
  {
    var keys := FirstSeen(uses);
    var sorted := SortByCount(Tally(uses));
    var p :| 0 <= p < |keys| && keys[p] == k;
    var e := Tally(uses)[p];
    assert e == (k, multiset(uses)[k]);
    assert e in multiset(sorted);
    var q :| 0 <= q < |sorted| && sorted[q] == e;
    assert Popular(uses) <= sorted;
  }

  /**
   * Ties keep first-appearance order: for every count, the listed paths
   * with that count are the earliest-seen paths with that count, in the
   * order they were first seen.
   */
  lemma PopularTiesInFirstSeenOrder(uses: seq<Json>, c: nat)
    ensures WithCount(Popular(uses), c) <= WithCount(Tally(uses), c)
  {
    var sorted := SortByCount(Tally(uses));
    WithCountOfPrefix(Popular(uses), sorted, c);
    SortKeepsTies(Tally(uses), c);
  }

  /** The dict's items are listed in first-appearance order with their counts. */
  lemma TallyInFirstSeenOrder(uses: seq<Json>)
    ensures forall i :: 0 <= i < |Tally(uses)| ==> Counted(Tally(uses)[i].0) && Tally(uses)[i].1 == multiset(uses)[Tally(uses)[i].0]
    ensures forall i, j :: 0 <= i < j < |Tally(uses)| ==>
      FirstIndex(uses, Tally(uses)[i].0) < FirstIndex(uses, Tally(uses)[j].0)
    ensures forall k :: k in uses && Counted(k) ==> exists i :: 0 <= i < |Tally(uses)| && Tally(uses)[i].0 == k
  {
    var keys := FirstSeen(uses);
    FirstSeenOrder(uses);
    forall k | k in uses && Counted(k) ensures exists i :: 0 <= i < |Tally(uses)| && Tally(uses)[i].0 == k {
      var i :| 0 <= i < |keys| && keys[i] == k;
      assert Tally(uses)[i].0 == k;
    }
  }

  /** No more is counted than there are entries, listed or not. */
  lemma PopularTotalBounded(uses: seq<Json>)
    ensures Total(Popular(uses)) <= Total(Tally(uses)) <= |uses|
  {
    TallyTotal(uses);
    TotalSort(Tally(uses));
    TotalPrefix(Popular(uses), SortByCount(Tally(uses)));
  }

  /** The dict's items, read off in key order, are the tally. */
  lemma ItemsAreTally(keys: seq<Json>, counts: map<Json, nat>, uses: seq<Json>, items: seq<PathCount>)
    requires keys == FirstSeen(uses)
    requires forall k :: k in counts <==> k in keys
    requires forall k :: k in counts ==> counts[k] == multiset(uses)[k]
    requires |items| == |keys| && forall j :: 0 <= j < |keys| ==> items[j] == (keys[j], counts[keys[j]])
    ensures items == Tally(uses)
  {
  }

  /**
   * The counting loop: each counted value's dict entry goes up by one, a new
   * key being added on its first occurrence; then the dict's items.
   */
  method CountPaths(uses: seq<Json>) returns (tally: Option<seq<PathCount>>)
    ensures tally.Some? <==> AllHashable(uses)
    ensures tally.Some? ==> tally.value == Tally(uses)
  {
    var keys: seq<Json> := [];
    var counts: map<Json, nat> := map[];
    ghost var seen: multiset<Json> := multiset{};
    var i := 0;
    while i < |uses|
      invariant 0 <= i <= |uses|
      invariant seen == multiset(uses[..i])
      invariant keys == FirstSeen(uses[..i])
      invariant forall k :: k in counts <==> k in keys
      invariant forall k :: k in counts ==> counts[k] == seen[k]
      invariant AllHashable(uses[..i])
    {
      var uc := uses[i];
      assert uses[..i + 1] == uses[..i] + [uc];
      FirstSeenAppend(uses[..i], uc);
      if uc != Unknown {
        if !Hashable(uc) {
          assert !AllHashable(uses) by {
            assert uses[i] == uc;
          }
          return None;
        }
        var prior: nat := if uc in counts then counts[uc] else 0;
        if uc !in counts {
          keys := keys + [uc];
        }
        counts := counts[uc := prior + 1];
      }
      seen := seen + multiset{uc};
      i := i + 1;
    }
    assert uses[..i] == uses;

    var items := seq(|keys|, j requires 0 <= j < |keys| => (keys[j], counts[keys[j]]));
    ItemsAreTally(keys, counts, uses, items);
    tally := Some(items);
  }

  /** The comprehension, the counting loop, the sort and the slice, as the sidebar runs them. */
  method PopularPaths(data: seq<Json>) returns (top: Option<seq<PathCount>>)
    ensures top.Some? <==> Paths(data).Some? && AllHashable(Paths(data).value)
    ensures top.Some? ==> top.value == Popular(Paths(data).value)
  {
    var uses: seq<Json> := [];
    var i := 0;
    while i < |data|
      invariant 0 <= i <= |data|
      invariant |uses| == i
      invariant forall j :: 0 <= j < i ==> SelectedPath(data[j]).Some? && uses[j] == SelectedPath(data[j]).value
    {
      var v := SelectedPath(data[i]);
      if v.None? {
        return None;
      }
      uses := uses + [v.value];
      i := i + 1;
    }
    assert uses == Paths(data).value;

    top := None;
    var tally := CountPaths(uses);
    if tally.Some? {
      top := Some(Take3(SortByCount(tally.value)));
    }
  }

  /** The sidebar's statistics: how many entries, and the popular paths (`None` when the tally raised). */
  datatype Stats = Stats(assessed: nat, popular: Option<seq<PathCount>>)

  /**
   * Statistics are shown only for an archive that holds a list; a missing,
   * unreadable or non-list archive shows none.
   */
  method SidebarStats(file: FileState) returns (stats: Option<Stats>)
    ensures stats.Some? <==> file.Holds? && file.content.JArr?
    ensures stats.Some? ==> stats.value.assessed == |file.content.items|
    ensures stats.Some? ==>
      (stats.value.popular.Some? <==> Paths(file.content.items).Some? && AllHashable(Paths(file.content.items).value))
    ensures stats.Some? && stats.value.popular.Some? ==>
      stats.value.popular.value == Popular(Paths(file.content.items).value)
  {
    if file.Holds? && file.content.JArr? {
      var data := file.content.items;
      var popular: Option<seq<PathCount>> := Some([]);
      if |data| > 0 {
        popular := PopularPaths(data);
      }
      stats := Some(Stats(|data|, popular));
    } else {
      stats := None;
    }
  }
}
