/** The inventory page (`Estoque`): the filter over the loaded vehicles and
    the list of brand options. Both are pure expressions over the loaded
    list. */
module Inventory {
  import opened Wrappers
  import opened Text
  import opened Vehicles

  /** The four selections of the filter bar. Brand is "all" or a brand; year
      is "all", "new" or "used"; price is "all", "low", "mid" or "high". Any
      other value of year or price lets nothing through. */
  datatype Filters = Filters(searchTerm: string, brand: string, year: string, price: string)

  const NewFrom: int := 2022
  const MidFrom: real := 50000.0
  const HighFrom: real := 100000.0

  /** Case-insensitive search over name, model and brand. */
  predicate MatchesSearch(v: Vehicle, term: string) {
    var t := Lower(term);
    Contains(Lower(v.name), t) || Contains(Lower(v.model), t) || Contains(Lower(v.brand), t)
  }

  predicate MatchesBrand(v: Vehicle, brand: string) {
    brand == "all" || v.brand == brand
  }

  predicate MatchesYear(v: Vehicle, year: string) {
    || year == "all"
    || (year == "new" && v.year >= NewFrom)
    || (year == "used" && v.year < NewFrom)
  }

  predicate MatchesPrice(v: Vehicle, price: string) {
    || price == "all"
    || (price == "low" && v.price < MidFrom)
    || (price == "mid" && v.price >= MidFrom && v.price < HighFrom)
    || (price == "high" && v.price >= HighFrom)
  }

  /** The four criteria at once. */
  predicate Matches(v: Vehicle, f: Filters) {
    MatchesSearch(v, f.searchTerm) && MatchesBrand(v, f.brand)
    && MatchesYear(v, f.year) && MatchesPrice(v, f.price)
  }

  /** `vehicles.filter(...)`: keeps, in order, the vehicles that match. */
  function Filter(vs: seq<Vehicle>, f: Filters): (r: seq<Vehicle>)
    ensures |r| <= |vs|
    ensures forall v :: v in r ==> v in vs && Matches(v, f)
    ensures forall v :: v in vs && Matches(v, f) ==> v in r
  {
    if vs == [] then []
    else (if Matches(vs[0], f) then [vs[0]] else []) + Filter(vs[1..], f)
  }

  /** `vehicles?.filter(...)`: nothing while the list is not loaded. */
  function FilteredVehicles(loaded: Option<seq<Vehicle>>, f: Filters): (r: Option<seq<Vehicle>>)
    ensures r.Some? <==> loaded.Some?
    ensures r.Some? ==> r.value == Filter(loaded.value, f)
  {
    match loaded
    case None => None
    case Some(vs) => Some(Filter(vs, f))
  }

  /** `sub` is `s` with some elements left out, the rest in their order. */
  ghost predicate IsSubsequence<T>(sub: seq<T>, s: seq<T>)
    decreases |s|
  {
    if sub == [] then true
    else if s == [] then false
    else if sub[0] == s[0] then IsSubsequence(sub[1..], s[1..])
    else IsSubsequence(sub, s[1..])
  }

  lemma {:induction false} FilterIsSubsequence(vs: seq<Vehicle>, f: Filters)
    ensures IsSubsequence(Filter(vs, f), vs)
    decreases |vs|
  {
    if vs != [] {
      FilterIsSubsequence(vs[1..], f);
      var r := Filter(vs, f);
      if Matches(vs[0], f) {
        assert r[0] == vs[0] && r[1..] == Filter(vs[1..], f);
      } else {
        assert r == Filter(vs[1..], f);
        if r != [] {
          assert r[0] in r;
        }
      }
    }
  }

  /** Filtering the filtered list again changes nothing. */
  lemma {:induction false} FilterIdempotent(vs: seq<Vehicle>, f: Filters)
    ensures Filter(Filter(vs, f), f) == Filter(vs, f)
  {
    var r := Filter(vs, f);
    FilterKeepsMatching(r, f);
  }

  /** A list whose every element matches passes through unchanged. */
  lemma {:induction false} FilterKeepsMatching(vs: seq<Vehicle>, f: Filters)
    requires forall v :: v in vs ==> Matches(v, f)
    ensures Filter(vs, f) == vs
    decreases |vs|
  {
    if vs != [] {
      FilterKeepsMatching(vs[1..], f);
      assert vs == [vs[0]] + vs[1..];
    }
  }

  /** The empty search term matches every vehicle; any other term matches
      exactly when its lower-cased form occurs in the lower-cased name,
      model or brand. */
  lemma SearchTerm(v: Vehicle, term: string)
    ensures term == [] ==> MatchesSearch(v, term)
    ensures MatchesSearch(v, term) <==>
      || (exists i :: OccursAt(Lower(v.name), Lower(term), i))
      || (exists i :: OccursAt(Lower(v.model), Lower(term), i))
      || (exists i :: OccursAt(Lower(v.brand), Lower(term), i))
  {
    ContainsIff(Lower(v.name), Lower(term));
    ContainsIff(Lower(v.model), Lower(term));
    ContainsIff(Lower(v.brand), Lower(term));
  }

  /** "all" lets every brand through; any other selection only that brand. */
  lemma BrandSelection(v: Vehicle, brand: string)
    ensures brand == "all" ==> MatchesBrand(v, brand)
    ensures brand != "all" ==> (MatchesBrand(v, brand) <==> v.brand == brand)
  {
  }

  /** Every year is exactly one of new and used; 2022 is new. */
  lemma YearBuckets(v: Vehicle)
    ensures MatchesYear(v, "new") != MatchesYear(v, "used")
    ensures v.year == 2022 ==> MatchesYear(v, "new") && !MatchesYear(v, "used")
  {
  }

  /** Every price is in exactly one of low, mid and high; 50000 is mid and
      not low, 100000 is high and not mid. */
  lemma PriceBuckets(v: Vehicle)
    ensures MatchesPrice(v, "low") || MatchesPrice(v, "mid") || MatchesPrice(v, "high")
    ensures !(MatchesPrice(v, "low") && MatchesPrice(v, "mid"))
    ensures !(MatchesPrice(v, "mid") && MatchesPrice(v, "high"))
    ensures !(MatchesPrice(v, "low") && MatchesPrice(v, "high"))
    ensures v.price == 50000.0 ==> MatchesPrice(v, "mid") && !MatchesPrice(v, "low")
    ensures v.price == 100000.0 ==> MatchesPrice(v, "high") && !MatchesPrice(v, "mid")
  {
  }

  /** The worked example: a Toyota from 2023 at 80000 and a Ford from 2019
      at 40000; brand Toyota, year new, price mid keeps only the Toyota. */
  lemma ToyotaExample(toyota: Vehicle, ford: Vehicle)
    requires toyota.brand == "Toyota" && toyota.year == 2023 && toyota.price == 80000.0
    requires ford.brand == "Ford" && ford.year == 2019 && ford.price == 40000.0
    ensures Filter([toyota, ford], Filters("", "Toyota", "new", "mid")) == [toyota]
  {
    ContainsIff(Lower(toyota.name), Lower(""));
  }

  // ---- brand options: Array.from(new Set(brands)).sort() ----

  function BrandsOf(vs: seq<Vehicle>): (r: seq<string>)
    ensures |r| == |vs| && forall i :: 0 <= i < |vs| ==> r[i] == vs[i].brand
  {
    seq(|vs|, i requires 0 <= i < |vs| => vs[i].brand)
  }

  ghost predicate NoDuplicates(s: seq<string>) {
    forall i, j :: 0 <= i < j < |s| ==> s[i] != s[j]
  }

  /** `new Set(xs)` read back as a list: each value once, at its first
      occurrence. */
  function Distinct(xs: seq<string>): (r: seq<string>)
    ensures forall x :: x in r <==> x in xs
    ensures NoDuplicates(r)
  {
    if xs == [] then []
    else
      var d := Distinct(xs[..|xs| - 1]);
      assert xs == xs[..|xs| - 1] + [xs[|xs| - 1]];
      if xs[|xs| - 1] in d then d else d + [xs[|xs| - 1]]
  }

  ghost predicate Sorted(s: seq<string>) {
    forall i, j :: 0 <= i < j < |s| ==> !Less(s[j], s[i])
  }

  ghost predicate StrictlySorted(s: seq<string>) {
    forall i, j :: 0 <= i < j < |s| ==> Less(s[i], s[j])
  }

  function Insert(x: string, s: seq<string>): seq<string> {
    if s == [] || !Less(s[0], x) then [x] + s else [s[0]] + Insert(x, s[1..])
  }

  /** The default `sort` of a list of strings, as an insertion sort. */
  function Sort(xs: seq<string>): seq<string> {
    if xs == [] then [] else Insert(xs[0], Sort(xs[1..]))
  }

  /** Inserting adds exactly one occurrence of `x`. */
  lemma {:induction false} InsertPermutes(x: string, s: seq<string>)
    ensures multiset(Insert(x, s)) == multiset(s) + multiset{x}
    decreases |s|
  {
    if s != [] && Less(s[0], x) {
      InsertPermutes(x, s[1..]);
      assert s == [s[0]] + s[1..];
    }
  }

  lemma {:induction false} InsertSorted(x: string, s: seq<string>)
    requires Sorted(s)
    ensures Sorted(Insert(x, s))
    decreases |s|
  {
    var r := Insert(x, s);
    if s == [] || !Less(s[0], x) {
      forall i, j | 0 <= i < j < |r| ensures !Less(r[j], r[i]) {
        if i == 0 && Less(r[j], x) {
          LessTotal(s[0], s[j - 1]);
          if Less(s[0], s[j - 1]) {
            LessTransitive(s[0], s[j - 1], x);
          }
        }
      }
    } else {
      InsertSorted(x, s[1..]);
      InsertPermutes(x, s[1..]);
      var t := Insert(x, s[1..]);
      assert r == [s[0]] + t;
      forall k | 0 <= k < |t| ensures !Less(t[k], s[0]) {
        assert t[k] in multiset(t);
        if t[k] == x {
          LessTotal(x, s[0]);
          if Less(x, s[0]) { LessTransitive(s[0], x, s[0]); LessIrreflexive(s[0]); }
        } else {
          assert t[k] in multiset(s[1..]);
          var m :| 0 <= m < |s[1..]| && s[1..][m] == t[k];
          assert s[m + 1] == t[k];
        }
      }
    }
  }

  lemma {:induction false} SortSorted(xs: seq<string>)
    ensures Sorted(Sort(xs))
    ensures multiset(Sort(xs)) == multiset(xs)
    decreases |xs|
  {
    if xs != [] {
      SortSorted(xs[1..]);
      InsertSorted(xs[0], Sort(xs[1..]));
      InsertPermutes(xs[0], Sort(xs[1..]));
      assert xs == [xs[0]] + xs[1..];
    }
  }

  /** The brand options: none while nothing is loaded; otherwise each brand
      present, once, in sorted order. */
  function BrandOptions(loaded: Option<seq<Vehicle>>): seq<string> {
    match loaded
    case None => []
    case Some(vs) => Sort(Distinct(BrandsOf(vs)))
  }

  /** The brand options are strictly sorted (so without duplicates) and are
      exactly the brands of the loaded vehicles. */
  lemma {:induction false} BrandOptionsSpec(vs: seq<Vehicle>)
    ensures StrictlySorted(BrandOptions(Some(vs)))
    ensures NoDuplicates(BrandOptions(Some(vs)))
    ensures forall b :: b in BrandOptions(Some(vs)) <==> exists v :: v in vs && v.brand == b
  {
    var d := Distinct(BrandsOf(vs));
    var r := Sort(d);
    SortSorted(d);
    assert forall b :: b in r <==> b in multiset(r);
    assert forall b :: b in d <==> b in multiset(d);
    forall b ensures b in r <==> exists v :: v in vs && v.brand == b {
      if b in r {
        assert b in BrandsOf(vs);
        var i :| 0 <= i < |vs| && BrandsOf(vs)[i] == b;
        assert vs[i] in vs;
      }
      if exists v :: v in vs && v.brand == b {
        var v :| v in vs && v.brand == b;
        var i :| 0 <= i < |vs| && vs[i] == v;
        assert BrandsOf(vs)[i] == b;
      }
    }
    forall i, j | 0 <= i < j < |r| ensures Less(r[i], r[j]) {
      DistinctAfterSort(d, r, i, j);
      LessTotal(r[i], r[j]);
    }
  }

  lemma DistinctAfterSort(d: seq<string>, r: seq<string>, i: int, j: int)
    requires NoDuplicates(d) && multiset(r) == multiset(d)
    requires 0 <= i < j < |r|
    ensures r[i] != r[j]
  {
    if r[i] == r[j] {
      var x := r[i];
      assert multiset(r)[x] >= 2 by {
        assert r == r[..i] + [x] + r[i + 1..j] + [x] + r[j + 1..];
      }
      CountAtMostOne(d, x);
    }
  }

  lemma {:induction false} CountAtMostOne(d: seq<string>, x: string)
    requires NoDuplicates(d)
    ensures multiset(d)[x] <= 1
    decreases |d|
  {
    if d != [] {
      CountAtMostOne(d[1..], x);
      assert d == [d[0]] + d[1..];
      if d[0] == x {
        assert x !in d[1..] by {
          forall k | 0 <= k < |d[1..]| ensures d[1..][k] != x { assert d[k + 1] != d[0]; }
        }
      }
    }
  }
}
