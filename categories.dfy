/**
 * The per-category breakdown that the admin dashboard and the report both compute: a dictionary from
 * service type to count, filled by one pass over the requests, and its five largest entries.
 */
module Categories {
  import opened Wrappers
  import opened MockData
  import opened Sequences

  function OfType(k: string): ServiceRequest -> bool {
    (r: ServiceRequest) => r.serviceType == k
  }

  /** The number of requests of service type `k`. */
  function Occurrences(rs: seq<ServiceRequest>, k: string): nat {
    |Filter(rs, OfType(k))|
  }

  lemma OccurrencesSnoc(rs: seq<ServiceRequest>, x: ServiceRequest, k: string)
    ensures Occurrences(rs + [x], k) == Occurrences(rs, k) + if x.serviceType == k then 1 else 0
  {
    FilterConcat(rs, [x], OfType(k));
    assert Filter([x], OfType(k)) == (if x.serviceType == k then [x] else []) + Filter([], OfType(k));
  }

  /** A service type is counted at all exactly when some request carries it. */
  lemma {:induction false} OccurrencesPositive(rs: seq<ServiceRequest>, k: string)
    ensures Occurrences(rs, k) > 0 <==> exists i :: 0 <= i < |rs| && rs[i].serviceType == k
  {
    if rs != [] {
      OccurrencesPositive(rs[1..], k);
      if rs[0].serviceType != k && Occurrences(rs[1..], k) == 0 {
        forall i | 0 <= i < |rs| ensures rs[i].serviceType != k {
          if i > 0 {
            assert rs[i] == rs[1..][i - 1];
          }
        }
      }
      if Occurrences(rs[1..], k) > 0 {
        var i :| 0 <= i < |rs[1..]| && rs[1..][i].serviceType == k;
        assert rs[i + 1].serviceType == k;
      }
    }
  }

  /** When no two requests share a service type, each type is counted once. */
  lemma {:induction false} OccurrencesOfDistinct(rs: seq<ServiceRequest>)
    requires forall i, j :: 0 <= i < j < |rs| ==> rs[i].serviceType != rs[j].serviceType
    ensures forall i :: 0 <= i < |rs| ==> Occurrences(rs, rs[i].serviceType) == 1
  {
    if rs != [] {
      var x, r := rs[0], rs[1..];
      assert rs == [x] + r;
      OccurrencesOfDistinct(r);
      forall i | 0 <= i < |rs| ensures Occurrences(rs, rs[i].serviceType) == 1 {
        var t := rs[i].serviceType;
        FilterCons(x, r, OfType(t));
        if i == 0 {
          OccurrencesPositive(r, t);
          assert forall m :: 0 <= m < |r| ==> r[m] == rs[m + 1];
        } else {
          assert r[i - 1] == rs[i];
        }
      }
    }
  }

  /**
   * The dictionary's keys in the order they were first inserted, which is the order `Object.keys`
   * and `Object.entries` report them for non-numeric keys.
   */
  function FirstSeen(rs: seq<ServiceRequest>): (keys: seq<string>)
    ensures forall i, j :: 0 <= i < j < |keys| ==> keys[i] != keys[j]
    ensures forall k :: k in keys <==> exists i :: 0 <= i < |rs| && rs[i].serviceType == k
  {
    if rs == [] then []
    else
      var front := rs[..|rs| - 1];
      var t := rs[|rs| - 1].serviceType;
      var p := FirstSeen(front);
      assert forall i :: 0 <= i < |front| ==> front[i] == rs[i];
      if t in p then p else p + [t]
  }

  lemma FirstSeenSnoc(rs: seq<ServiceRequest>, x: ServiceRequest)
    ensures FirstSeen(rs + [x]) ==
            if x.serviceType in FirstSeen(rs) then FirstSeen(rs) else FirstSeen(rs) + [x.serviceType]
  {
    assert (rs + [x])[..|rs|] == rs;
  }

  /** The dictionary after counting `rs` holds exactly its types, each with its number of occurrences. */
  ghost predicate Counted(rs: seq<ServiceRequest>, keys: seq<string>, counts: map<string, nat>) {
    && keys == FirstSeen(rs)
    && (forall k :: k in counts <==> k in keys)
    && (forall k :: k in counts ==> counts[k] == Occurrences(rs, k))
  }

  /** One step of the loop: `categoryCount[t] = (categoryCount[t] || 0) + 1` for the `i`-th request. */
  lemma CountStep(rs: seq<ServiceRequest>, i: nat, keys: seq<string>, counts: map<string, nat>)
    requires i < |rs| && Counted(rs[..i], keys, counts)
    ensures var t := rs[i].serviceType;
            Counted(rs[..i + 1], if t in counts then keys else keys + [t],
                    counts[t := (if t in counts then counts[t] else 0) + 1])
  {
    var t := rs[i].serviceType;
    var prefix := rs[..i];
    assert rs[..i + 1] == prefix + [rs[i]];
    FirstSeenSnoc(prefix, rs[i]);
    var counts' := counts[t := (if t in counts then counts[t] else 0) + 1];
    forall k | k in counts' ensures counts'[k] == Occurrences(prefix + [rs[i]], k) {
      OccurrencesSnoc(prefix, rs[i], k);
      if k == t && t !in counts {
        OccurrencesPositive(prefix, k);
      }
    }
  }

  /** The `forEach` loop: one pass that creates or increments the entry of each request's type. */
  method CountCategories(rs: seq<ServiceRequest>) returns (keys: seq<string>, counts: map<string, nat>)
    ensures keys == FirstSeen(rs)
    ensures forall k :: k in counts <==> k in keys
    ensures forall k :: k in counts ==> counts[k] == Occurrences(rs, k)
  {
    keys := [];
    counts := map[];
    var i := 0;
    while i < |rs|
      invariant 0 <= i <= |rs|
      invariant Counted(rs[..i], keys, counts)
    {
      var t := rs[i].serviceType;
      CountStep(rs, i, keys, counts);
      if t !in counts {
        keys := keys + [t];
      }
      var previous := if t in counts then counts[t] else 0;
      counts := counts[t := previous + 1];
      i := i + 1;
    }
    assert rs[..|rs|] == rs;
  }

  /** One `{ name, count }` entry of the breakdown. */
  datatype CategoryEntry = CategoryEntry(name: string, count: nat)

  /** The entries of the dictionary, in key order. */
  function Entries(keys: seq<string>, rs: seq<ServiceRequest>): (es: seq<CategoryEntry>)
    ensures |es| == |keys|
    ensures forall i :: 0 <= i < |keys| ==> es[i] == CategoryEntry(keys[i], Occurrences(rs, keys[i]))
  {
    if keys == [] then [] else [CategoryEntry(keys[0], Occurrences(rs, keys[0]))] + Entries(keys[1..], rs)
  }

  /** The comparator `(a, b) => b.count - a.count`: a larger count may come first. */
  function MoreFrequent(a: CategoryEntry, b: CategoryEntry): bool {
    a.count >= b.count
  }

  /** Every category, largest count first, ties in key order. */
  function Ranked(rs: seq<ServiceRequest>): seq<CategoryEntry> {
    StableSort(Entries(FirstSeen(rs), rs), MoreFrequent)
  }

  /** `.slice(0, 5)` of the ranked categories. */
  function TopCategories(rs: seq<ServiceRequest>): seq<CategoryEntry> {
    var ranked := Ranked(rs);
    ranked[..if |ranked| < 5 then |ranked| else 5]
  }

  /** The first entry, if any: the category the report recommends more staff for. */
  function HighestVolume(rs: seq<ServiceRequest>): Option<CategoryEntry> {
    var top := TopCategories(rs);
    if top == [] then None else Some(top[0])
  }

  /** The sum of the counts. */
  function CountSum(es: seq<CategoryEntry>): nat {
    if es == [] then 0 else es[0].count + CountSum(es[1..])
  }

  lemma MoreFrequentIsPreorder()
    ensures Total(MoreFrequent) && Transitive(MoreFrequent)
  {
  }
  lemma {:induction false} CountSumConcat(a: seq<CategoryEntry>, b: seq<CategoryEntry>)
    ensures CountSum(a + b) == CountSum(a) + CountSum(b)
  {
    if a == [] {
      assert a + b == b;
    } else {
      assert (a + b)[1..] == a[1..] + b;
      CountSumConcat(a[1..], b);
    }
  }

  lemma {:induction false} CountSumInsert(x: CategoryEntry, s: seq<CategoryEntry>)
    ensures CountSum(Insert(x, s, MoreFrequent)) == x.count + CountSum(s)
  {
    if s != [] && !MoreFrequent(x, s[0]) {
      CountSumInsert(x, s[1..]);
    }
  }

  /** Sorting the entries does not change their sum. */
  lemma {:induction false} CountSumSorted(s: seq<CategoryEntry>)
    ensures CountSum(StableSort(s, MoreFrequent)) == CountSum(s)
  {
    if s != [] {
      CountSumSorted(s[1..]);
      CountSumInsert(s[0], StableSort(s[1..], MoreFrequent));
    }
  }

  lemma {:induction false} EntryWithinSum(s: seq<CategoryEntry>, i: nat)
    requires i < |s|
    ensures s[i].count <= CountSum(s)
  {
    if i > 0 {
      EntryWithinSum(s[1..], i - 1);
    }
  }

  lemma CountSumPrefix(s: seq<CategoryEntry>, n: nat)
    requires n <= |s|
    ensures CountSum(s[..n]) <= CountSum(s)
  {
    assert s == s[..n] + s[n..];
    CountSumConcat(s[..n], s[n..]);
  }

  lemma {:induction false} EntriesConcat(a: seq<string>, b: seq<string>, rs: seq<ServiceRequest>)
    ensures Entries(a + b, rs) == Entries(a, rs) + Entries(b, rs)
  {
  }

  /** One more request adds one to the sum when its type is already a key, and nothing otherwise. */
  lemma {:induction false} CountSumSnoc(keys: seq<string>, rs: seq<ServiceRequest>, x: ServiceRequest)
    requires forall i, j :: 0 <= i < j < |keys| ==> keys[i] != keys[j]
    ensures CountSum(Entries(keys, rs + [x])) ==
            CountSum(Entries(keys, rs)) + if x.serviceType in keys then 1 else 0
  {
    if keys != [] {
      OccurrencesSnoc(rs, x, keys[0]);
      CountSumSnoc(keys[1..], rs, x);
      if x.serviceType == keys[0] {
        assert x.serviceType !in keys[1..];
      }
    }
  }

  /** `categoryCount`'s values add up to the number of requests. */
  lemma {:induction false} CategoryCountsSum(rs: seq<ServiceRequest>)
    ensures CountSum(Entries(FirstSeen(rs), rs)) == |rs|
    decreases |rs|
  {
    if rs != [] {
      var front, x := rs[..|rs| - 1], rs[|rs| - 1];
      assert rs == front + [x];
      CategoryCountsSum(front);
      FirstSeenSnoc(front, x);
      var keys := FirstSeen(front);
      CountSumSnoc(keys, front, x);
      if x.serviceType !in keys {
        EntriesConcat(keys, [x.serviceType], rs);
        CountSumConcat(Entries(keys, rs), Entries([x.serviceType], rs));
        OccurrencesPositive(front, x.serviceType);
        OccurrencesSnoc(front, x, x.serviceType);
      }
    }
  }

  /** The ranking is a permutation of the entries, largest count first. */
  lemma RankedSpec(rs: seq<ServiceRequest>)
    ensures multiset(Ranked(rs)) == multiset(Entries(FirstSeen(rs), rs))
    ensures Sorted(Ranked(rs), MoreFrequent)
  {
    MoreFrequentIsPreorder();
    StableSortSorted(Entries(FirstSeen(rs), rs), MoreFrequent);
  }

  function HasCount(c: nat): CategoryEntry -> bool {
    (e: CategoryEntry) => e.count == c
  }

  /** Categories with equal counts stay in the order their types first appeared in the requests. */
  lemma RankedKeepsTies(rs: seq<ServiceRequest>, c: nat)
    ensures Filter(Ranked(rs), HasCount(c)) == Filter(Entries(FirstSeen(rs), rs), HasCount(c))
  {
    var entries := Entries(FirstSeen(rs), rs);
    var e := CategoryEntry("", c);
    MoreFrequentIsPreorder();
    StableSortKeepsTies(entries, e, MoreFrequent);
    forall x ensures TiedWith(e, MoreFrequent)(x) == HasCount(c)(x) {
      assert TiedWith(e, MoreFrequent)(x) == (MoreFrequent(x, e) && MoreFrequent(e, x));
    }
    FilterAgree(Ranked(rs), TiedWith(e, MoreFrequent), HasCount(c));
    FilterAgree(entries, TiedWith(e, MoreFrequent), HasCount(c));
  }

  /** Every ranked entry is a category of the requests with its true count. */
  lemma RankedFaithful(rs: seq<ServiceRequest>)
    ensures forall i :: 0 <= i < |Ranked(rs)| ==>
              && Ranked(rs)[i].name in FirstSeen(rs)
              && Ranked(rs)[i].count == Occurrences(rs, Ranked(rs)[i].name)
              && Ranked(rs)[i].count >= 1
  {
    var ranked, keys := Ranked(rs), FirstSeen(rs);
    RankedSpec(rs);
    forall i | 0 <= i < |ranked|
      ensures ranked[i].name in keys && ranked[i].count == Occurrences(rs, ranked[i].name) >= 1
    {
      assert ranked[i] in multiset(Entries(keys, rs));
      var j :| 0 <= j < |keys| && Entries(keys, rs)[j] == ranked[i];
      OccurrencesPositive(rs, keys[j]);
    }
  }

  /** When every category has the same count, the ranking is the order of first appearance. */
  lemma RankedAllTied(rs: seq<ServiceRequest>, c: nat)
    requires forall k :: k in FirstSeen(rs) ==> Occurrences(rs, k) == c
    ensures Ranked(rs) == Entries(FirstSeen(rs), rs)
  {
    var entries := Entries(FirstSeen(rs), rs);
    RankedFaithful(rs);
    RankedKeepsTies(rs, c);
    FilterKeepsAll(Ranked(rs), HasCount(c));
    FilterKeepsAll(entries, HasCount(c));
  }

  lemma {:induction false} FirstSeenOfDistinct(rs: seq<ServiceRequest>)
    requires forall i, j :: 0 <= i < j < |rs| ==> rs[i].serviceType != rs[j].serviceType
    ensures |FirstSeen(rs)| == |rs|
    ensures forall i :: 0 <= i < |rs| ==> FirstSeen(rs)[i] == rs[i].serviceType
    decreases |rs|
  {
    if rs != [] {
      var front, x := rs[..|rs| - 1], rs[|rs| - 1];
      assert rs == front + [x];
      FirstSeenOfDistinct(front);
      FirstSeenSnoc(front, x);
    }
  }

  /**
   * When no two requests share a service type, every category has one request and the ranking lists
   * them in request order.
   */
  lemma RankedOfDistinct(rs: seq<ServiceRequest>)
    requires forall i, j :: 0 <= i < j < |rs| ==> rs[i].serviceType != rs[j].serviceType
    ensures |Ranked(rs)| == |rs|
    ensures forall i :: 0 <= i < |rs| ==> Ranked(rs)[i] == CategoryEntry(rs[i].serviceType, 1)
  {
    FirstSeenOfDistinct(rs);
    OccurrencesOfDistinct(rs);
    RankedAllTied(rs, 1);
  }

  /** At most five entries, exactly five when there are at least five categories, in order. */
  lemma TopCategoriesShape(rs: seq<ServiceRequest>)
    ensures |TopCategories(rs)| == if |FirstSeen(rs)| < 5 then |FirstSeen(rs)| else 5
    ensures TopCategories(rs) <= Ranked(rs)
    ensures forall i, j :: 0 <= i < j < |TopCategories(rs)| ==>
              TopCategories(rs)[i].count >= TopCategories(rs)[j].count
  {
    RankedSpec(rs);
    assert |Ranked(rs)| == |multiset(Ranked(rs))| == |FirstSeen(rs)|;
  }

  /** Each listed category carries the number of requests of its type, at least one. */
  lemma TopCategoriesFaithful(rs: seq<ServiceRequest>)
    ensures forall i :: 0 <= i < |TopCategories(rs)| ==>
              && TopCategories(rs)[i].count == Occurrences(rs, TopCategories(rs)[i].name)
              && TopCategories(rs)[i].count >= 1
    ensures CountSum(TopCategories(rs)) <= |rs|
  {
    RankedFaithful(rs);
    var ranked := Ranked(rs);
    CountSumPrefix(ranked, |TopCategories(rs)|);
    CountSumSorted(Entries(FirstSeen(rs), rs));
    CategoryCountsSum(rs);
  }

  /** In a sorted list, an entry missing from a prefix counts no more than anything in the prefix. */
  lemma PrefixDominates(top: seq<CategoryEntry>, ranked: seq<CategoryEntry>, m: nat)
    requires top <= ranked && Sorted(ranked, MoreFrequent) && m < |ranked|
    requires forall i :: 0 <= i < |top| ==> top[i].name != ranked[m].name
    ensures forall i :: 0 <= i < |top| ==> ranked[m].count <= top[i].count
  {
    assert forall i :: 0 <= i < |top| ==> top[i] == ranked[i];
  }

  /** No category left out of the five has more requests than any category listed. */
  lemma TopCategoriesDominate(rs: seq<ServiceRequest>, k: string)
    requires forall i :: 0 <= i < |TopCategories(rs)| ==> TopCategories(rs)[i].name != k
    ensures forall i :: 0 <= i < |TopCategories(rs)| ==> Occurrences(rs, k) <= TopCategories(rs)[i].count
  {
    var ranked, keys := Ranked(rs), FirstSeen(rs);
    OccurrencesPositive(rs, k);
    if Occurrences(rs, k) > 0 {
      assert k in keys;
      var idx :| 0 <= idx < |keys| && keys[idx] == k;
      var entry := Entries(keys, rs)[idx];
      RankedSpec(rs);
      TopCategoriesShape(rs);
      assert entry in multiset(ranked);
      var m :| 0 <= m < |ranked| && ranked[m] == entry;
      PrefixDominates(TopCategories(rs), ranked, m);
    }
  }

  /**
   * The recommended category is absent exactly when there are no requests; otherwise no category has
   * more requests than it.
   */
  lemma HighestVolumeSpec(rs: seq<ServiceRequest>)
    ensures HighestVolume(rs).None? <==> rs == []
    ensures HighestVolume(rs).Some? ==>
              && HighestVolume(rs).value.count == Occurrences(rs, HighestVolume(rs).value.name)
              && forall k :: Occurrences(rs, k) <= HighestVolume(rs).value.count
  {
    TopCategoriesShape(rs);
    TopCategoriesFaithful(rs);
    if rs != [] {
      assert rs[0].serviceType in FirstSeen(rs);
      var top := TopCategories(rs);
      forall k ensures Occurrences(rs, k) <= top[0].count {
        if i :| 0 <= i < |top| && top[i].name == k {
          assert top[0].count >= top[i].count;
        } else {
          TopCategoriesDominate(rs, k);
        }
      }
    }
  }
  /**
   * The whole breakdown as the views compute it: the counting loop, the entries of the dictionary in
   * key order, the stable sort by count and the first five.
   */
  method RankCategories(rs: seq<ServiceRequest>) returns (top: seq<CategoryEntry>)
    ensures top == TopCategories(rs)
  {
    var keys, counts := CountCategories(rs);
    var entries := seq(|keys|, j requires 0 <= j < |keys| => CategoryEntry(keys[j], counts[keys[j]]));
    assert entries == Entries(FirstSeen(rs), rs);
    var ranked := StableSort(entries, MoreFrequent);
    top := ranked[..if |ranked| < 5 then |ranked| else 5];
  }
}
