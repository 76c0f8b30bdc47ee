/** Sorting of the all-funds table (src/components/AllFunds.js): the sort
    state held in the `key` / `direction` query parameters, its click cycle,
    the comparator, and the sorted copy of the rows. */
module FundSort {

  import opened JsValues
  import opened FundTable

  /** The `key` and `direction` query parameters, as `searchParams.get`
      returns them (`None` when the parameter is absent). */
  datatype SortConfig = SortConfig(key: Option<string>, direction: Option<string>)

  /** No query parameters: the initial state, and the state a third click
      on the same key returns to. */
  const Cleared := SortConfig(None, None)

  /** A click on column `k` (`handleSort`): ascending first, then
      descending, then the parameters are cleared. */
  function HandleSort(config: SortConfig, k: string): (r: SortConfig)
    ensures config == SortConfig(Some(k), Some("ascending")) ==> r == SortConfig(Some(k), Some("descending"))
    ensures config == SortConfig(Some(k), Some("descending")) ==> r == Cleared
    ensures config.key != Some(k) || config.direction !in {Some("ascending"), Some("descending")} ==>
      r == SortConfig(Some(k), Some("ascending"))
  {
    if config.key == Some(k) && config.direction == Some("ascending") then SortConfig(Some(k), Some("descending"))
    else if config.key == Some(k) && config.direction == Some("descending") then Cleared
    else SortConfig(Some(k), Some("ascending"))
  }

  /** Three clicks on the same column from the cleared state go through
      ascending and descending and come back to the cleared state. */
  lemma ThreeClicksCycle(k: string)
    ensures HandleSort(Cleared, k) == SortConfig(Some(k), Some("ascending"))
    ensures HandleSort(HandleSort(Cleared, k), k) == SortConfig(Some(k), Some("descending"))
    ensures HandleSort(HandleSort(HandleSort(Cleared, k), k), k) == Cleared
  {
  }

  /** A click on a column other than the sorted one starts that column
      ascending, whatever the current direction. */
  lemma ClickOtherColumn(config: SortConfig, k: string)
    requires config.key != Some(k)
    ensures HandleSort(config, k) == SortConfig(Some(k), Some("ascending"))
  {
  }

  /** `direction === 'ascending'`: every other direction, an absent one
      included, sorts as descending. */
  predicate IsAscending(config: SortConfig)
  {
    config.direction == Some("ascending")
  }

  /** A three-way string comparison standing for
      `localeCompare(b, 'tr', {sensitivity: 'base'})`: the collation itself
      is not modelled, only that `a` sorts before `b` exactly when `b`
      sorts after `a`. */
  ghost predicate ThreeWay(c: (string, string) -> int)
  {
    forall x, y :: c(x, y) < 0 <==> c(y, x) > 0
  }

  type Collator = c: (string, string) -> int | ThreeWay(c) witness (x: string, y: string) => 0

  /** `fund[key]` for the row's top-level fields; `Undef` when absent. */
  function TopField(f: Fund, key: string): Value
  {
    if key == "fundCode" then Str(f.fundCode)
    else if key == "longName" then Str(f.longName)
    else if key in f.fields then f.fields[key]
    else Undef
  }

  /** The value a row is sorted by: the return category first, then the
      top-level field, then `null`. */
  function SortValue(row: FundRow, key: string): (v: Value)
    ensures v != Undef
  {
    if DataField(row, key) != Undef then DataField(row, key)
    else if TopField(row.fund, key) != Undef then TopField(row.fund, key)
    else Null
  }

  /** For a row built from a fund, the sort value is the value of the
      fund's last return entry with that description, unless that is
      `undefined`; then the top-level field; then `null`. */
  lemma SortValueOfFund(f: Fund, key: string, i: nat)
    requires i < |f.entries| && f.entries[i].description == key
    requires forall j | i < j < |f.entries| :: f.entries[j].description != key
    ensures f.entries[i].value != Undef ==> SortValue(Normalised(f), key) == f.entries[i].value
    ensures f.entries[i].value == Undef ==>
      SortValue(Normalised(f), key) == if TopField(f, key) != Undef then TopField(f, key) else Null
  {
    ReturnsObjectLastWins(f.entries, i);
  }

  /** A category that none of the fund's entries carries falls through to
      the top-level field, and to `null` when there is none. */
  lemma SortValueWithoutEntry(f: Fund, key: string)
    requires forall e <- f.entries :: e.description != key
    ensures SortValue(Normalised(f), key) == if TopField(f, key) != Undef then TopField(f, key) else Null
  {
    ReturnsObjectKeys(f.entries);
    assert key !in Descriptions(f.entries);
  }

  /** The comparator passed to `sort`. */
  function Compare(a: FundRow, b: FundRow, key: string, ascending: bool, collate: Collator): int
  {
    var va, vb := SortValue(a, key), SortValue(b, key);
    if va.Str? && vb.Str? then
      var comparison := collate(va.s, vb.s);
      if ascending then comparison else -comparison
    else if Less(va, vb) then (if ascending then -1 else 1)
    else if Greater(va, vb) then (if ascending then 1 else -1)
    else 0
  }

  /** Descending is ascending reversed: negated for two strings, the two
      outer branches swapped otherwise. */
  lemma CompareDescending(a: FundRow, b: FundRow, key: string, collate: Collator)
    ensures Compare(a, b, key, false, collate) == -Compare(a, b, key, true, collate)
  {
  }

  /** When the two values are not both strings, the result is -1, 0 or 1,
      and 0 exactly when neither `<` nor `>` holds. */
  lemma CompareNonStrings(a: FundRow, b: FundRow, key: string, ascending: bool, collate: Collator)
    requires !(SortValue(a, key).Str? && SortValue(b, key).Str?)
    ensures Compare(a, b, key, ascending, collate) in {-1, 0, 1}
    ensures Compare(a, b, key, ascending, collate) == 0 <==>
      !Less(SortValue(a, key), SortValue(b, key)) && !Greater(SortValue(a, key), SortValue(b, key))
    ensures Compare(a, b, key, ascending, collate) < 0 <==>
      (if ascending then Less(SortValue(a, key), SortValue(b, key)) else Greater(SortValue(a, key), SortValue(b, key)))
  {
    LessAsymmetric(SortValue(a, key), SortValue(b, key));
  }

  /** `a` sorts before `b` exactly when `b` sorts after `a`. */
  lemma CompareAntisymmetric(a: FundRow, b: FundRow, key: string, ascending: bool, collate: Collator)
    ensures Compare(a, b, key, ascending, collate) < 0 <==> Compare(b, a, key, ascending, collate) > 0
  {
    var va, vb := SortValue(a, key), SortValue(b, key);
    if va.Str? && vb.Str? {
      assert collate(va.s, vb.s) < 0 <==> collate(vb.s, va.s) > 0;
      assert collate(vb.s, va.s) < 0 <==> collate(va.s, vb.s) > 0;
    } else {
      LessAsymmetric(va, vb);
    }
  }

  /** Each row sorts no later than the next. */
  predicate AdjacentOrdered(s: seq<FundRow>, key: string, ascending: bool, collate: Collator)
  {
    forall i | 0 <= i < |s| - 1 :: Compare(s[i], s[i + 1], key, ascending, collate) <= 0
  }

  /** Each row in `s[lo..hi]` sorts no later than the next. */
  predicate OrderedRange(s: seq<FundRow>, lo: nat, hi: nat, key: string, ascending: bool, collate: Collator)
    requires lo <= hi <= |s|
  {
    forall k | lo <= k < hi - 1 :: Compare(s[k], s[k + 1], key, ascending, collate) <= 0
  }

  /** Stable insertion sort of `a` with the comparator. */
  method SortInPlace(a: array<FundRow>, key: string, ascending: bool, collate: Collator)
    modifies a
    ensures multiset(a[..]) == old(multiset(a[..]))
    ensures AdjacentOrdered(a[..], key, ascending, collate)
  {
    for i := 0 to a.Length
      invariant multiset(a[..]) == old(multiset(a[..]))
      invariant OrderedRange(a[..], 0, i, key, ascending, collate)
    {
      InsertLast(a, i, key, ascending, collate);
    }
  }

  /** Moves `a[i]` down into the ordered prefix `a[..i]`, swapping it with
      its predecessor only while the predecessor sorts strictly after it. */
  method InsertLast(a: array<FundRow>, i: nat, key: string, ascending: bool, collate: Collator)
    requires i < a.Length
    requires OrderedRange(a[..], 0, i, key, ascending, collate)
    modifies a
    ensures multiset(a[..]) == old(multiset(a[..]))
    ensures OrderedRange(a[..], 0, i + 1, key, ascending, collate)
  {
    var j := i;
    while j > 0 && Compare(a[j - 1], a[j], key, ascending, collate) > 0
      invariant 0 <= j <= i
      invariant multiset(a[..]) == old(multiset(a[..]))
      invariant OrderedRange(a[..], 0, j, key, ascending, collate)
      invariant OrderedRange(a[..], j, i + 1, key, ascending, collate)
      invariant 0 < j < i ==> Compare(a[j - 1], a[j + 1], key, ascending, collate) <= 0
    {
      ghost var s := a[..];
      SwapKeepsOrder(s, i, j, key, ascending, collate);
      a[j - 1], a[j] := a[j], a[j - 1];
      assert a[..] == s[j - 1 := s[j]][j := s[j - 1]];
      j := j - 1;
    }
    JoinOrdered(a[..], i, j, key, ascending, collate);
  }

  /** One step of the insertion: swapping the inserted row with a
      predecessor that sorts after it keeps both ordered parts ordered. */
  lemma SwapKeepsOrder(s: seq<FundRow>, i: nat, j: nat, key: string, ascending: bool, collate: Collator)
    requires 0 < j <= i < |s|
    requires OrderedRange(s, 0, j, key, ascending, collate)
    requires OrderedRange(s, j, i + 1, key, ascending, collate)
    requires j < i ==> Compare(s[j - 1], s[j + 1], key, ascending, collate) <= 0
    requires Compare(s[j - 1], s[j], key, ascending, collate) > 0
    ensures var t := s[j - 1 := s[j]][j := s[j - 1]];
      && multiset(t) == multiset(s)
      && OrderedRange(t, 0, j - 1, key, ascending, collate)
      && OrderedRange(t, j - 1, i + 1, key, ascending, collate)
      && (0 < j - 1 < i ==> Compare(t[j - 2], t[j], key, ascending, collate) <= 0)
  {
    var t := s[j - 1 := s[j]][j := s[j - 1]];
    CompareAntisymmetric(s[j], s[j - 1], key, ascending, collate);
    assert Compare(t[j - 1], t[j], key, ascending, collate) <= 0;
    forall k | j - 1 <= k < i ensures Compare(t[k], t[k + 1], key, ascending, collate) <= 0 {
      if k >= j + 1 {
        assert t[k] == s[k] && t[k + 1] == s[k + 1];
      } else if k == j {
        assert t[k] == s[j - 1] && t[k + 1] == s[j + 1];
      }
    }
    forall k | 0 <= k < j - 2 ensures Compare(t[k], t[k + 1], key, ascending, collate) <= 0 {
      assert t[k] == s[k] && t[k + 1] == s[k + 1];
    }
    if 0 < j - 1 < i {
      assert t[j - 2] == s[j - 2] && t[j] == s[j - 1];
    }
  }

  /** When the loop stops, the two ordered parts join into one. */
  lemma JoinOrdered(s: seq<FundRow>, i: nat, j: nat, key: string, ascending: bool, collate: Collator)
    requires j <= i < |s|
    requires OrderedRange(s, 0, j, key, ascending, collate)
    requires OrderedRange(s, j, i + 1, key, ascending, collate)
    requires j > 0 ==> Compare(s[j - 1], s[j], key, ascending, collate) <= 0
    ensures OrderedRange(s, 0, i + 1, key, ascending, collate)
  {
  }

  /** `sortedFunds`: a copy of the rows, sorted when a key is set; with no
      key (absent or empty) the rows stay in API order. */
  method SortedFunds(funds: seq<FundRow>, config: SortConfig, collate: Collator) returns (sorted: seq<FundRow>)
    ensures !Truthy(config.key) ==> sorted == funds
    ensures multiset(sorted) == multiset(funds)
    ensures Truthy(config.key) ==> AdjacentOrdered(sorted, config.key.value, IsAscending(config), collate)
  {
    var sortableItems := new FundRow[|funds|](i requires 0 <= i < |funds| => funds[i]);
    assert sortableItems[..] == funds;
    if Truthy(config.key) {
      SortInPlace(sortableItems, config.key.value, IsAscending(config), collate);
    }
    sorted := sortableItems[..];
  }

  /** When every row has a number under `key`, adjacent order is a full
      order: each row sorts no later than every row after it. */
  lemma {:induction false} NumericOrderIsGlobal(s: seq<FundRow>, key: string, ascending: bool, collate: Collator, i: nat, j: nat)
    requires forall r <- s :: SortValue(r, key).Num?
    requires AdjacentOrdered(s, key, ascending, collate)
    requires i <= j < |s|
    ensures Compare(s[i], s[j], key, ascending, collate) <= 0
    decreases j - i
  {
    if i < j {
      NumericOrderIsGlobal(s, key, ascending, collate, i + 1, j);
      assert s[i] in s && s[i + 1] in s && s[j] in s;
      assert Compare(s[i], s[i + 1], key, ascending, collate) <= 0;
    }
  }

  /** A collation that is transitive as well gives a full order on a
      column of strings (the fund code and the long name): each row sorts
      no later than every row after it. */
  lemma {:induction false} StringOrderIsGlobal(s: seq<FundRow>, key: string, ascending: bool, collate: Collator, i: nat, j: nat)
    requires forall x, y, z :: collate(x, y) <= 0 && collate(y, z) <= 0 ==> collate(x, z) <= 0
    requires forall r <- s :: SortValue(r, key).Str?
    requires AdjacentOrdered(s, key, ascending, collate)
    requires i <= j < |s|
    ensures Compare(s[i], s[j], key, ascending, collate) <= 0
    decreases j - i
  {
    if i < j {
      StringOrderIsGlobal(s, key, ascending, collate, i + 1, j);
      assert s[i] in s && s[i + 1] in s && s[j] in s;
      assert Compare(s[i], s[i + 1], key, ascending, collate) <= 0;
      var x, y, z := SortValue(s[i], key).s, SortValue(s[i + 1], key).s, SortValue(s[j], key).s;
      if !ascending {
        assert collate(y, x) <= 0 && collate(z, y) <= 0;
      }
    }
  }
}
