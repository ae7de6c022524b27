/** A list from which items are drawn with given weights. Weights are real numbers here. */
module WeightedRandom {
  import opened Options

  datatype Entry<T> = Entry(item: Option<T>, weight: real)

  datatype Internal<T> = Internal(entry: Entry<T>, currentTotal: real)

  datatype WeightedList<T> = WeightedList(entries: seq<Internal<T>>, totalWeight: real)

  datatype InputError = EmptyInput | NilItem(index: nat) | InvalidWeight(index: nat)

  predicate WeightOk(w: real) {
    0.0 <= w <= 1.0
  }

  predicate ValidEntry<T>(e: Entry<T>) {
    e.item.Some? && WeightOk(e.weight)
  }

  /** Reports the first entry that is not valid. */
  method ValidateEntries<T>(entries: array<Entry<T>>) returns (err: Option<InputError>)
    ensures err == None ==> entries.Length > 0 && forall i :: 0 <= i < entries.Length ==>
      entries[i].item.Some? && 0.0 <= entries[i].weight <= 1.0
    ensures err == Some(EmptyInput) <==> entries.Length == 0
    ensures err.Some? && err.value != EmptyInput ==>
      var i := err.value.index;
      i < entries.Length && (forall j :: 0 <= j < i ==> ValidEntry(entries[j])) &&
      if err.value.NilItem? then entries[i].item.None?
      else entries[i].item.Some? && (entries[i].weight < 0.0 || entries[i].weight > 1.0)
  {
    if entries.Length == 0 {
      return Some(EmptyInput);
    }
    for index := 0 to entries.Length
      invariant forall i :: 0 <= i < index ==> ValidEntry(entries[i])
    {
      var entry := entries[index];
      if entry.item.None? {
        return Some(NilItem(index));
      }
      if entry.weight < 0.0 || entry.weight > 1.0 {
        return Some(InvalidWeight(index));
      }
    }
    return None;
  }

  // ---- sorting

  predicate Before<T>(less: (T, T) -> bool, a: Entry<T>, b: Entry<T>) {
    a.item.Some? && b.item.Some? && less(a.item.value, b.item.value)
  }

  ghost function Elements<T>(s: seq<T>): set<T> {
    set x | x in s
  }

  /** The comparison is a strict order on the entries, and total on different ones. */
  ghost predicate StrictTotal<T(!new)>(less: (T, T) -> bool, s: set<Entry<T>>) {
    (forall a :: a in s ==> !Before(less, a, a)) &&
    (forall a, b :: a in s && b in s && a != b ==> Before(less, a, b) || Before(less, b, a)) &&
    (forall a, b, c :: a in s && b in s && c in s && Before(less, a, b) && Before(less, b, c) ==> Before(less, a, c))
  }

  /** No later item is less than an earlier one. */
  ghost predicate Ordered<T>(less: (T, T) -> bool, s: seq<Entry<T>>) {
    forall i, j :: 0 <= i < j < |s| && s[i].item.Some? && s[j].item.Some? ==> !less(s[j].item.value, s[i].item.value)
  }

  function Insert<T>(less: (T, T) -> bool, e: Entry<T>, s: seq<Entry<T>>): (r: seq<Entry<T>>)
    ensures multiset(r) == multiset(s) + multiset{e}
    ensures forall x :: x in r ==> x == e || x in s
  {
    if s == [] || !Before(less, s[0], e) then
      [e] + s
    else
      assert s == [s[0]] + s[1..];
      [s[0]] + Insert(less, e, s[1..])
  }

  function Sort<T>(less: (T, T) -> bool, s: seq<Entry<T>>): (r: seq<Entry<T>>)
    ensures multiset(r) == multiset(s)
    ensures forall x :: x in r ==> x in s
  {
    if s == [] then []
    else
      assert s == [s[0]] + s[1..];
      Insert(less, s[0], Sort(less, s[1..]))
  }

  lemma {:induction false} InsertOrdered<T(!new)>(less: (T, T) -> bool, e: Entry<T>, s: seq<Entry<T>>,
        all: set<Entry<T>>)
    requires StrictTotal(less, all) && e in all && (forall x :: x in s ==> x in all) && Ordered(less, s)
    ensures Ordered(less, Insert(less, e, s))
    decreases |s|
  {
    if s == [] {
    } else if !Before(less, s[0], e) {
      forall j | 0 <= j < |s| ensures !Before(less, s[j], e) {
        assert s[j] in all && s[0] in all;
      }
    } else {
      InsertOrdered(less, e, s[1..], all);
      var rest := Insert(less, e, s[1..]);
      forall j | 0 <= j < |rest| ensures !Before(less, rest[j], s[0]) {
        assert rest[j] in rest && s[0] in all;
      }
    }
  }

  lemma {:induction false} SortOrdered<T(!new)>(less: (T, T) -> bool, s: seq<Entry<T>>, all: set<Entry<T>>)
    requires StrictTotal(less, all) && forall x :: x in s ==> x in all
    ensures Ordered(less, Sort(less, s))
    decreases |s|
  {
    if s != [] {
      SortOrdered(less, s[1..], all);
      InsertOrdered(less, s[0], Sort(less, s[1..]), all);
    }
  }

  lemma {:induction false} SameHead<T(!new)>(less: (T, T) -> bool, a: seq<Entry<T>>, b: seq<Entry<T>>,
        all: set<Entry<T>>)
    requires StrictTotal(less, all) && a != [] && b != [] && a[0] in b && b[0] in a && a[0] in all && b[0] in all
    requires Ordered(less, a) && Ordered(less, b)
    ensures a[0] == b[0]
  {
    var i :| 0 <= i < |b| && b[i] == a[0];
    var j :| 0 <= j < |a| && a[j] == b[0];
    assert i > 0 ==> !Before(less, b[i], b[0]);
    assert j > 0 ==> !Before(less, a[j], a[0]);
  }

  /** There is only one ordered arrangement of given entries. */
  lemma {:induction false} OrderedIsUnique<T(!new)>(less: (T, T) -> bool, a: seq<Entry<T>>, b: seq<Entry<T>>,
        all: set<Entry<T>>)
    requires multiset(a) == multiset(b) && StrictTotal(less, all) && forall x :: x in a ==> x in all
    requires Ordered(less, a) && Ordered(less, b)
    ensures a == b
    decreases |a|
  {
    SameMembers(a, b);
    if a != [] {
      SameHead(less, a, b, all);
      TailMultiset(a);
      TailMultiset(b);
      OrderedIsUnique(less, a[1..], b[1..], all);
    }
  }

  lemma {:induction false} SameMembers<T>(a: seq<T>, b: seq<T>)
    requires multiset(a) == multiset(b)
    ensures |a| == |b| && forall x :: x in a <==> x in b
  {
    assert |multiset(a)| == |a| && |multiset(b)| == |b|;
    forall x ensures x in a <==> x in b {
      assert x in a <==> x in multiset(a);
      assert x in b <==> x in multiset(b);
    }
  }

  lemma {:induction false} TailMultiset<T>(a: seq<T>)
    requires a != []
    ensures multiset(a[1..]) == multiset(a) - multiset{a[0]}
  {
    assert a == [a[0]] + a[1..];
  }

  /** The library sort: some arrangement of the entries, the ordered one if the comparison allows it. */
  method SortSlice<T(!new)>(a: array<Entry<T>>, less: (T, T) -> bool)
    modifies a
    ensures multiset(a[..]) == multiset(old(a[..]))
    ensures StrictTotal(less, Elements(old(a[..]))) ==> Ordered(less, a[..])
  {
    ghost var was := a[..];
    var sorted := Sort(less, a[..]);
    SameMembers(sorted, was);
    for i := 0 to a.Length
      invariant forall k :: 0 <= k < i ==> a[k] == sorted[k]
    {
      a[i] := sorted[i];
    }
    assert a[..] == sorted;
    if StrictTotal(less, Elements(was)) { SortOrdered(less, was, Elements(was)); }
  }

  // ---- building

  /** The sum of the weights. */
  function Sum<T>(s: seq<Entry<T>>): real {
    if s == [] then 0.0 else Sum(s[..|s| - 1]) + s[|s| - 1].weight
  }

  lemma {:induction false} SumOfValid<T>(s: seq<Entry<T>>)
    requires forall i :: 0 <= i < |s| ==> ValidEntry(s[i])
    ensures Sum(s) >= 0.0
    ensures forall i :: 0 <= i < |s| ==> s[i].weight <= Sum(s)
    decreases |s|
  {
    if s != [] { SumOfValid(s[..|s| - 1]); }
  }

  /** The entries that can be drawn: those with a positive weight, or all if no weight is positive. */
  function Eligible<T>(s: seq<Entry<T>>, total: real): (r: seq<Entry<T>>)
    ensures forall x :: x in r ==> x in s && (total != 0.0 ==> x.weight != 0.0)
    ensures forall x :: x in s && (total == 0.0 || x.weight != 0.0) ==> x in r
  {
    if s == [] then []
    else
      var front, last := Eligible(s[..|s| - 1], total), s[|s| - 1];
      if total != 0.0 && last.weight == 0.0 then front else front + [last]
  }

  /** The part of the range that belongs to an entry: `equal` is the share when no weight is positive. */
  function Share<T>(e: Entry<T>, total: real, equal: real): real {
    if total == 0.0 then equal else e.weight
  }

  function Start<T>(list: seq<Internal<T>>, j: nat): real
    requires j <= |list|
  {
    if j == 0 then 0.0 else list[j - 1].currentTotal
  }

  /** The interval of an entry begins where the one before it ends, and is as long as its share. */
  ghost predicate Tile<T>(list: seq<Internal<T>>, total: real, equal: real, j: nat)
    requires j < |list|
  {
    list[j].entry.item.Some? && Share(list[j].entry, total, equal) > 0.0 &&
    list[j].currentTotal == Start(list, j) + Share(list[j].entry, total, equal)
  }

  ghost predicate Tiles<T>(list: seq<Internal<T>>, total: real, equal: real) {
    forall j: nat :: j < |list| ==> Tile(list, total, equal, j)
  }

  /** One of `n` equal shares of the range from 0 to 1. */
  function EqualShare(n: nat): (share: real)
    requires n > 0
    ensures share > 0.0 && n as real * share == 1.0
  {
    1.0 / n as real
  }

  /** A list made from these entries, in this order. */
  ghost predicate MadeWith<T>(w: WeightedList<T>, s: seq<Entry<T>>, equal: real) {
    s != [] && w.entries != [] &&
    Tiles(w.entries, Sum(s), equal) && w.totalWeight == Start(w.entries, |w.entries|) &&
    w.totalWeight == (if Sum(s) == 0.0 then 1.0 else Sum(s)) &&
    |w.entries| == |Eligible(s, Sum(s))| &&
    forall j :: 0 <= j < |w.entries| ==> w.entries[j].entry == Eligible(s, Sum(s))[j]
  }

  ghost predicate MadeFrom<T>(w: WeightedList<T>, s: seq<Entry<T>>) {
    s != [] && MadeWith(w, s, EqualShare(|s|))
  }

  /** What `i` equal shares of the range add up to. */
  ghost function EqualShares(i: nat, equal: real): real {
    if i == 0 then 0.0 else EqualShares(i - 1, equal) + equal
  }

  lemma {:induction false} EqualSharesAre(i: nat, equal: real)
    ensures EqualShares(i, equal) == i as real * equal
    decreases i
  {
    if i > 0 {
      EqualSharesAre(i - 1, equal);
      assert i as real * equal == (i - 1) as real * equal + equal;
    }
  }

  /** The state of the building loop after `i` entries. */
  ghost predicate BuiltUpTo<T>(list: seq<Internal<T>>, currentTotal: real, s: seq<Entry<T>>, total: real,
        equal: real, i: nat)
    requires i <= |s|
  {
    Tiles(list, total, equal) && currentTotal == Start(list, |list|) &&
    currentTotal == (if total == 0.0 then EqualShares(i, equal) else Sum(s[..i])) &&
    |list| == |Eligible(s[..i], total)| &&
    forall j :: 0 <= j < |list| ==> list[j].entry == Eligible(s[..i], total)[j]
  }

  lemma {:induction false} TilesAppend<T>(list: seq<Internal<T>>, total: real, equal: real, e: Entry<T>,
        currentTotal: real)
    requires Tiles(list, total, equal) && e.item.Some? && Share(e, total, equal) > 0.0
    requires currentTotal == Start(list, |list|) + Share(e, total, equal)
    ensures Tiles(list + [Internal(e, currentTotal)], total, equal)
  {
    var longer := list + [Internal(e, currentTotal)];
    forall j: nat | j < |longer| ensures Tile(longer, total, equal, j) {
      if j < |list| {
        assert Tile(list, total, equal, j);
        assert Start(longer, j) == Start(list, j);
      }
    }
  }

  lemma {:induction false} PrefixStep<T>(s: seq<Entry<T>>, total: real, i: nat)
    requires i < |s|
    ensures Sum(s[..i + 1]) == Sum(s[..i]) + s[i].weight
    ensures Eligible(s[..i + 1], total) ==
      Eligible(s[..i], total) + if total != 0.0 && s[i].weight == 0.0 then [] else [s[i]]
  {
    assert s[..i + 1][..i] == s[..i];
  }

  lemma {:induction false} BuildStep<T>(list: seq<Internal<T>>, currentTotal: real, s: seq<Entry<T>>, total: real,
        equal: real, i: nat, next: real)
    requires i < |s| && ValidEntry(s[i]) && BuiltUpTo(list, currentTotal, s, total, equal, i)
    requires equal > 0.0 && (total == 0.0 ==> s[i].weight == 0.0)
    requires next == currentTotal + Share(s[i], total, equal)
    ensures
      if total != 0.0 && s[i].weight == 0.0 then BuiltUpTo(list, currentTotal, s, total, equal, i + 1)
      else BuiltUpTo(list + [Internal(s[i], next)], next, s, total, equal, i + 1)
  {
    PrefixStep(s, total, i);
    if !(total != 0.0 && s[i].weight == 0.0) {
      TilesAppend(list, total, equal, s[i], next);
      var longer, eligible := list + [Internal(s[i], next)], Eligible(s[..i], total) + [s[i]];
      assert Start(longer, |longer|) == next;
      assert forall j :: 0 <= j < |longer| ==> longer[j].entry == eligible[j];
    }
  }

  method Build<T>(s: seq<Entry<T>>) returns (w: WeightedList<T>)
    requires s != [] && forall i :: 0 <= i < |s| ==> ValidEntry(s[i])
    ensures MadeFrom(w, s)
  {
    var totalWeight := 0.0;
    for i := 0 to |s|
      invariant totalWeight == Sum(s[..i])
    {
      assert s[..i + 1][..i] == s[..i];
      totalWeight := totalWeight + s[i].weight;
    }
    assert s[..|s|] == s;
    forall i | 0 <= i < |s| && totalWeight == 0.0 ensures s[i].weight == 0.0 {
      SumOfValid(s);
    }
    var equal := EqualShare(|s|);
    var list: seq<Internal<T>> := [];
    var currentTotal := 0.0;
    for i := 0 to |s|
      invariant BuiltUpTo(list, currentTotal, s, totalWeight, equal, i)
    {
      var e := s[i];
      ghost var next := currentTotal + Share(e, totalWeight, equal);
      BuildStep(list, currentTotal, s, totalWeight, equal, i, next);
      if totalWeight == 0.0 {
        currentTotal := currentTotal + equal;
      } else if e.weight == 0.0 {
        continue;
      }
      currentTotal := currentTotal + e.weight;
      assert currentTotal == next;
      list := list + [Internal(e, currentTotal)];
    }
    w := WeightedList(list, currentTotal);
    FullShares(|s|);
    TotalOfList(w, s, equal);
  }

  lemma {:induction false} FullShares(n: nat)
    requires n > 0
    ensures EqualShares(n, EqualShare(n)) == 1.0
  {
    EqualSharesAre(n, EqualShare(n));
  }

  lemma {:induction false} SomeEligible<T>(s: seq<Entry<T>>)
    requires s != []
    ensures Eligible(s, Sum(s)) != []
  {
    if Eligible(s, Sum(s)) == [] {
      forall i | 0 <= i < |s| ensures s[i].weight == 0.0 {
        assert s[i] in s;
      }
      SumOfZeros(s);
    }
  }

  lemma {:induction false} TotalOfList<T>(w: WeightedList<T>, s: seq<Entry<T>>, equal: real)
    requires s != [] && BuiltUpTo(w.entries, w.totalWeight, s, Sum(s), equal, |s|) && EqualShares(|s|, equal) == 1.0
    ensures MadeWith(w, s, equal)
  {
    assert s[..|s|] == s;
    SomeEligible(s);
  }

  /** Validates, sorts the caller's entries in place and builds the list from them. */
  method NewWeightedRandom<T(!new)>(entries: array<Entry<T>>, less: (T, T) -> bool)
    returns (r: Result<WeightedList<T>, InputError>)
    modifies entries
    ensures r.Success? <==> entries.Length > 0 && forall i :: 0 <= i < entries.Length ==>
      old(entries[i]).item.Some? && 0.0 <= old(entries[i]).weight <= 1.0
    ensures r.Failure? ==> entries[..] == old(entries[..])
    ensures r.Success? ==> multiset(entries[..]) == multiset(old(entries[..]))
    ensures r.Success? ==> MadeFrom(r.value, entries[..]) && Drawable(r.value)
    ensures r.Success? && StrictTotal(less, Elements(old(entries[..]))) ==> Ordered(less, entries[..])
  {
    var err := ValidateEntries(entries);
    if err.Some? {
      return Failure(err.value);
    }
    ghost var was := entries[..];
    assert forall e :: e in was ==> ValidEntry(e);
    SortSlice(entries, less);
    SameMembers(entries[..], was);
    forall i | 0 <= i < entries.Length ensures ValidEntry(entries[..][i]) {
      assert entries[..][i] in was;
    }
    var w := Build(entries[..]);
    MadeListIsDrawable(w, entries[..]);
    return Success(w);
  }

  /** The list does not depend on the order of the input: two ordered arrangements of the same entries
      make the same list. */
  lemma {:induction false} InputOrderIsIrrelevant<T(!new)>(
    less: (T, T) -> bool, a: seq<Entry<T>>, b: seq<Entry<T>>, v: WeightedList<T>, w: WeightedList<T>)
    requires multiset(a) == multiset(b) && StrictTotal(less, Elements(a))
    requires Ordered(less, a) && MadeFrom(v, a)
    requires Ordered(less, b) && MadeFrom(w, b)
    ensures v == w
  {
    OrderedIsUnique(less, a, b, Elements(a));
    SameTiles(v.entries, w.entries, Sum(a), EqualShare(|a|), |v.entries|);
    assert v.entries == w.entries;
  }

  lemma {:induction false} SameElements<T(!new)>(a: seq<Entry<T>>, b: seq<Entry<T>>)
    requires multiset(a) == multiset(b)
    ensures Elements(a) == Elements(b)
  {
    SameMembers(a, b);
  }

  /** Building from two arrangements of the same entries: both fail, or both give the same list. */
  method BuildTwice<T(!new)>(a: array<Entry<T>>, b: array<Entry<T>>, less: (T, T) -> bool)
    returns (v: Result<WeightedList<T>, InputError>, w: Result<WeightedList<T>, InputError>)
    requires a != b && multiset(a[..]) == multiset(b[..]) && StrictTotal(less, Elements(a[..]))
    modifies a, b
    ensures v.Success? <==> w.Success?
    ensures v.Success? ==> v == w && a[..] == b[..]
  {
    ghost var givenA, givenB := a[..], b[..];
    SameMembers(givenA, givenB);
    SameElements(givenA, givenB);
    assert forall i :: 0 <= i < |givenA| ==> givenA[i] in givenB;
    assert forall i :: 0 <= i < |givenB| ==> givenB[i] in givenA;
    v := NewWeightedRandom(a, less);
    w := NewWeightedRandom(b, less);
    if v.Success? && w.Success? {
      SameElements(givenA, a[..]);
      OrderedIsUnique(less, a[..], b[..], Elements(a[..]));
      InputOrderIsIrrelevant(less, a[..], b[..], v.value, w.value);
    }
  }

  lemma {:induction false} SameTiles<T>(a: seq<Internal<T>>, b: seq<Internal<T>>, total: real, equal: real, k: nat)
    requires |a| == |b| && k <= |a| && Tiles(a, total, equal) && Tiles(b, total, equal)
    requires forall j :: 0 <= j < |a| ==> a[j].entry == b[j].entry
    ensures forall j :: 0 <= j < k ==> a[j] == b[j]
    decreases k
  {
    if k > 0 {
      SameTiles(a, b, total, equal, k - 1);
      assert Tile(a, total, equal, k - 1) && Tile(b, total, equal, k - 1);
      assert Start(a, k - 1) == Start(b, k - 1);
    }
  }

  // ---- drawing

  /** The entry whose interval contains the draw; draw 0 belongs to the first entry. */
  ghost predicate Selects<T>(w: WeightedList<T>, draw: real, j: int) {
    0 <= j < |w.entries| &&
    (Start(w.entries, j) < draw || (j == 0 && draw == 0.0)) && draw <= w.entries[j].currentTotal
  }

  lemma {:induction false} TotalsGrow<T>(list: seq<Internal<T>>, total: real, equal: real, i: nat, j: nat)
    requires Tiles(list, total, equal) && i <= j <= |list|
    ensures i < j ==> 0.0 <= Start(list, i) < Start(list, j)
    ensures 0.0 <= Start(list, i) <= Start(list, j)
    decreases j
  {
    if j > 0 {
      assert Tile(list, total, equal, j - 1);
      if i < j { TotalsGrow(list, total, equal, i, j - 1); } else { TotalsGrow(list, total, equal, i - 1, j - 1); }
    }
  }

  /** What a draw relies on. */
  ghost predicate Drawable<T>(w: WeightedList<T>) {
    w.entries != [] && w.totalWeight == w.entries[|w.entries| - 1].currentTotal &&
    forall j :: 0 <= j < |w.entries| ==> w.entries[j].entry.item.Some? && w.entries[j].currentTotal > 0.0
  }

  lemma {:induction false} MadeListIsDrawable<T>(w: WeightedList<T>, s: seq<Entry<T>>)
    requires MadeFrom(w, s)
    ensures Drawable(w)
  {
    forall j | 0 <= j < |w.entries| ensures w.entries[j].entry.item.Some? && w.entries[j].currentTotal > 0.0 {
      TotalsGrow(w.entries, Sum(s), EqualShare(|s|), 0, j + 1);
      assert Tile(w.entries, Sum(s), EqualShare(|s|), j);
    }
  }

  /** The loop of the draw: the first entry whose running total reaches the draw. The total of the
      last entry always does, so the fallback to the last entry is never needed. */
  method Scan<T>(w: WeightedList<T>, draw: real) returns (i: int)
    requires Drawable(w) && 0.0 <= draw <= w.totalWeight
    ensures Selects(w, draw, i)
  {
    i := 0;
    while i < |w.entries| && !(w.entries[i].currentTotal >= draw && w.entries[i].currentTotal > 0.0)
      invariant 0 <= i <= |w.entries| && (i > 0 ==> Start(w.entries, i) < draw)
    {
      i := i + 1;
    }
  }

  method Get<T>(w: WeightedList<T>, unit: real) returns (item: T)
    requires Drawable(w) && 0.0 <= unit < 1.0
    ensures exists j :: Selects(w, unit * w.totalWeight, j) && item == w.entries[j].entry.item.value
  {
    var draw := unit * w.totalWeight;
    DrawInRange(unit, w.totalWeight);
    var i := Scan(w, draw);
    item := w.entries[i].entry.item.value;
  }

  lemma {:induction false} DrawInRange(unit: real, total: real)
    requires 0.0 <= unit < 1.0 && total >= 0.0
    ensures 0.0 <= unit * total <= total
  {
    assert unit * total >= 0.0;
    assert (1.0 - unit) * total >= 0.0;
  }

  /** The intervals partition the range of draws: every draw selects exactly one entry. */
  lemma {:induction false} EveryDrawSelectsOne<T>(w: WeightedList<T>, s: seq<Entry<T>>, draw: real)
    requires MadeFrom(w, s) && 0.0 <= draw <= w.totalWeight
    ensures exists j :: Selects(w, draw, j)
    ensures forall i, j :: Selects(w, draw, i) && Selects(w, draw, j) ==> i == j
  {
    var j := FindFirst(w, draw, |w.entries|);
    forall a, b | Selects(w, draw, a) && Selects(w, draw, b) ensures a == b {
      if a < b { EarlierExcludes(w.entries, Sum(s), EqualShare(|s|), a, b); }
      if b < a { EarlierExcludes(w.entries, Sum(s), EqualShare(|s|), b, a); }
    }
  }

  lemma {:induction false} EarlierExcludes<T>(list: seq<Internal<T>>, total: real, equal: real, i: nat, j: nat)
    requires Tiles(list, total, equal) && i < j < |list|
    ensures list[i].currentTotal <= Start(list, j)
  {
    TotalsGrow(list, total, equal, i + 1, j);
  }

  lemma {:induction false} FindFirst<T>(w: WeightedList<T>, draw: real, k: nat) returns (j: nat)
    requires 0 < k <= |w.entries| && 0.0 <= draw <= Start(w.entries, k)
    ensures Selects(w, draw, j)
    decreases k
  {
    if k > 1 && draw <= Start(w.entries, k - 1) {
      j := FindFirst(w, draw, k - 1);
    } else {
      j := k - 1;
    }
  }

  /** Each entry gets an interval as long as its weight, or 1/n if no weight is positive; an entry of
      weight zero gets none unless all weights are zero. */
  lemma {:induction false} IntervalsAreWeights<T>(w: WeightedList<T>, s: seq<Entry<T>>, j: nat)
    requires MadeFrom(w, s) && (forall i :: 0 <= i < |s| ==> ValidEntry(s[i])) && j < |w.entries|
    ensures
      var length := w.entries[j].currentTotal - Start(w.entries, j);
      var e := w.entries[j].entry;
      if forall i :: 0 <= i < |s| ==> s[i].weight == 0.0 then length == 1.0 / |s| as real
      else length == e.weight && e.weight > 0.0
    ensures w.entries[j].entry in s
    ensures forall x :: x in s && x.weight > 0.0 ==> exists i :: 0 <= i < |w.entries| && w.entries[i].entry == x
  {
    SumOfValid(s);
    var eligible := Eligible(s, Sum(s));
    assert eligible[j] in eligible;
    assert Tile(w.entries, Sum(s), EqualShare(|s|), j);
    if forall i :: 0 <= i < |s| ==> s[i].weight == 0.0 { SumOfZeros(s); }
    forall x | x in s && x.weight > 0.0 ensures exists i :: 0 <= i < |w.entries| && w.entries[i].entry == x {
      assert x in eligible;
      var i :| 0 <= i < |eligible| && eligible[i] == x;
      assert w.entries[i].entry == x;
    }
  }

  lemma {:induction false} SumOfZeros<T>(s: seq<Entry<T>>)
    requires forall i :: 0 <= i < |s| ==> s[i].weight == 0.0
    ensures Sum(s) == 0.0
    decreases |s|
  {
    if s != [] { SumOfZeros(s[..|s| - 1]); }
  }
}
