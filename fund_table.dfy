/** The all-funds table's data side (src/components/AllFunds.js): each fund's
    `returns` list (field `entries` here) folded into a `returnsData` object, and the list of return
    headers taken from the first fund with the daily return moved first. */
module FundTable {

  import opened JsValues
  import opened Text

  /** One return category of a fund: a label such as "Günlük Getiri" and
      its (nullable) percentage. */
  datatype ReturnEntry = ReturnEntry(description: string, value: Amount)

  /** A fund as delivered by `GET /api/funds`: its code and long name, its
      other scalar top-level fields (`fundId`, `fund_desc`, ...), and its
      return entries in delivery order. */
  datatype Fund = Fund(fundCode: string, longName: string, fields: map<string, Value>, entries: seq<ReturnEntry>)

  /** A plain JavaScript object with string keys: `Object.keys` lists the
      keys in the order they were first assigned. */
  datatype JsObject = JsObject(keys: seq<string>, vals: map<string, Amount>)

  /** A fund together with its `returnsData` object (`{...fund, returnsData}`). */
  datatype FundRow = FundRow(fund: Fund, returnsData: JsObject)

  const EmptyObject := JsObject([], map[])

  /** `row.returnsData[key]`; `Undef` when the row has no such key. */
  function DataField(row: FundRow, key: string): Amount
  {
    if key in row.returnsData.vals then row.returnsData.vals[key] else Undef
  }

  /** The daily-return label that the table always shows first. */
  const DailyReturn := "Günlük Getiri"

  predicate Distinct(s: seq<string>)
  {
    forall i, j | 0 <= i < j < |s| :: s[i] != s[j]
  }

  /** The key list and the value map of an object describe the same keys,
      each listed once. */
  ghost predicate WellFormed(o: JsObject)
  {
    Distinct(o.keys) && forall k :: k in o.vals <==> k in o.keys
  }

  /** `o[k] = v`: a new key is added at the end of the key order, an
      existing key keeps its place and gets the new value. */
  function Put(o: JsObject, k: string, v: Amount): JsObject
  {
    JsObject(if k in o.vals then o.keys else o.keys + [k], o.vals[k := v])
  }

  /** The `returnsData` object that `returns.reduce(..., {})` builds:
      the fold of `Put` over the entries from first to last. */
  function ReturnsObject(rs: seq<ReturnEntry>): JsObject
  {
    if rs == [] then EmptyObject
    else
      var last := rs[|rs| - 1];
      Put(ReturnsObject(rs[..|rs| - 1]), last.description, last.value)
  }

  function Descriptions(rs: seq<ReturnEntry>): (ds: seq<string>)
    ensures |ds| == |rs|
    ensures forall i | 0 <= i < |rs| :: ds[i] == rs[i].description
  {
    if rs == [] then [] else Descriptions(rs[..|rs| - 1]) + [rs[|rs| - 1].description]
  }

  /** The row the table works on for fund `f`. */
  function Normalised(f: Fund): FundRow
  {
    FundRow(f, ReturnsObject(f.entries))
  }

  lemma DescriptionsPrefix(rs: seq<ReturnEntry>, n: nat)
    requires n <= |rs|
    ensures Descriptions(rs[..n]) == Descriptions(rs)[..n]
  {
  }

  /** The keys are listed in the order of their first occurrence in `ds`. */
  predicate KeyOrder(keys: seq<string>, ds: seq<string>)
  {
    forall a, b | 0 <= a < b < |keys| :: IndexOf(ds, keys[a]) < IndexOf(ds, keys[b])
  }

  /** The object built from the entries is well formed, its keys are
      exactly the descriptions, and they are listed in the order of their
      first occurrence. */
  lemma ReturnsObjectKeys(rs: seq<ReturnEntry>)
    ensures WellFormed(ReturnsObject(rs))
    ensures forall k :: k in ReturnsObject(rs).vals <==> k in Descriptions(rs)
    ensures forall a, b | 0 <= a < b < |ReturnsObject(rs).keys| ::
      IndexOf(Descriptions(rs), ReturnsObject(rs).keys[a]) < IndexOf(Descriptions(rs), ReturnsObject(rs).keys[b])
  {
    ReturnsObjectShape(rs);
    ReturnsObjectOrder(rs);
  }

  lemma {:induction false} ReturnsObjectShape(rs: seq<ReturnEntry>)
    ensures WellFormed(ReturnsObject(rs))
    ensures forall k :: k in ReturnsObject(rs).vals <==> k in Descriptions(rs)
  {
    if rs != [] {
      var n := |rs| - 1;
      ReturnsObjectShape(rs[..n]);
      DescriptionsPrefix(rs, n);
      assert Descriptions(rs) == Descriptions(rs[..n]) + [rs[n].description];
    }
  }

  lemma {:induction false} ReturnsObjectOrder(rs: seq<ReturnEntry>)
    ensures KeyOrder(ReturnsObject(rs).keys, Descriptions(rs))
  {
    if rs != [] {
      var n := |rs| - 1;
      ReturnsObjectOrder(rs[..n]);
      ReturnsObjectShape(rs[..n]);
      assert Descriptions(rs) == Descriptions(rs[..n]) + [rs[n].description];
      PutKeepsOrder(ReturnsObject(rs[..n]), Descriptions(rs[..n]), rs[n].description, rs[n].value);
    }
  }

  /** Assigning one more property keeps the keys in first-occurrence
      order of the descriptions extended by its name. */
  lemma PutKeepsOrder(prev: JsObject, ds': seq<string>, d: string, v: Amount)
    requires WellFormed(prev)
    requires forall k :: k in prev.vals <==> k in ds'
    requires KeyOrder(prev.keys, ds')
    ensures KeyOrder(Put(prev, d, v).keys, ds' + [d])
  {
    forall k | k in ds' ensures IndexOf(ds' + [d], k) == IndexOf(ds', k) {
      IndexOfExtend(ds', d, k);
    }
    if d !in prev.vals {
      IndexOfLast(ds', d);
      NewKeyOrder(prev.keys, ds', d);
    } else {
      assert forall k <- prev.keys :: k in ds';
      assert Put(prev, d, v).keys == prev.keys;
    }
  }

  lemma NewKeyOrder(keys: seq<string>, ds': seq<string>, d: string)
    requires forall k <- keys :: k in ds' && IndexOf(ds' + [d], k) == IndexOf(ds', k)
    requires IndexOf(ds' + [d], d) == |ds'|
    requires KeyOrder(keys, ds')
    ensures KeyOrder(keys + [d], ds' + [d])
  {
    var o, ds := keys + [d], ds' + [d];
    forall a, b | 0 <= a < b < |o| ensures IndexOf(ds, o[a]) < IndexOf(ds, o[b]) {
      assert o[a] == keys[a] && o[a] in keys;
      if b < |keys| {
        assert o[b] == keys[b] && o[b] in keys;
      }
    }
  }

  lemma IndexOfExtend(xs: seq<string>, y: string, k: string)
    requires k in xs
    ensures IndexOf(xs + [y], k) == IndexOf(xs, k)
  {
    if xs[0] != k {
      assert (xs + [y])[1..] == xs[1..] + [y];
      IndexOfExtend(xs[1..], y, k);
    }
  }

  lemma IndexOfLast(xs: seq<string>, y: string)
    requires y !in xs
    ensures IndexOf(xs + [y], y) == |xs|
  {
    if xs != [] {
      assert (xs + [y])[1..] == xs[1..] + [y];
      IndexOfLast(xs[1..], y);
    }
  }

  /** Last write wins: a description is mapped to the value of its last
      entry. */
  lemma {:induction false} ReturnsObjectLastWins(rs: seq<ReturnEntry>, i: nat)
    requires i < |rs|
    requires forall j | i < j < |rs| :: rs[j].description != rs[i].description
    ensures rs[i].description in ReturnsObject(rs).vals
    ensures ReturnsObject(rs).vals[rs[i].description] == rs[i].value
  {
    var n := |rs| - 1;
    if i < n {
      ReturnsObjectLastWins(rs[..n], i);
    }
  }

  /** Folds a fund's return entries into its `returnsData` object, one
      property assignment per entry. */
  method NormaliseReturns(rs: seq<ReturnEntry>) returns (o: JsObject)
    ensures o == ReturnsObject(rs)
    ensures WellFormed(o)
    ensures forall k :: k in o.vals <==> k in Descriptions(rs)
    ensures forall i | 0 <= i < |rs| && (forall j | i < j < |rs| :: rs[j].description != rs[i].description) ::
      o.vals[rs[i].description] == rs[i].value
  {
    var keys: seq<string>, vals: map<string, Amount> := [], map[];
    for i := 0 to |rs|
      invariant JsObject(keys, vals) == ReturnsObject(rs[..i])
    {
      assert rs[..i + 1][..i] == rs[..i];
      var entry := rs[i];
      if entry.description !in vals {
        keys := keys + [entry.description];
      }
      vals := vals[entry.description := entry.value];
    }
    assert rs[..|rs|] == rs;
    o := JsObject(keys, vals);
    ReturnsObjectKeys(rs);
    forall i | 0 <= i < |rs| && (forall j | i < j < |rs| :: rs[j].description != rs[i].description)
      ensures o.vals[rs[i].description] == rs[i].value
    {
      ReturnsObjectLastWins(rs, i);
    }
  }

  /** `{...fund, returnsData: returnsMap}`: the fund is kept as it is. */
  method NormaliseFund(f: Fund) returns (row: FundRow)
    ensures row == Normalised(f)
    ensures row.fund == f
  {
    var returnsMap := NormaliseReturns(f.entries);
    row := FundRow(f, returnsMap);
  }

  /** `response.data.map(...)`: one row per fund, in API order. */
  method ProcessFunds(funds: seq<Fund>) returns (rows: seq<FundRow>)
    ensures |rows| == |funds|
    ensures forall i | 0 <= i < |funds| :: rows[i] == Normalised(funds[i])
  {
    rows := [];
    for i := 0 to |funds|
      invariant |rows| == i
      invariant forall k | 0 <= k < i :: rows[k] == Normalised(funds[k])
    {
      var row := NormaliseFund(funds[i]);
      rows := rows + [row];
    }
  }

  /** The keys the headers are taken from: the first fund's only. */
  function FirstRowKeys(rows: seq<FundRow>): seq<string>
  {
    if |rows| > 0 then rows[0].returnsData.keys else []
  }

  /** The return headers of the table: the first row's keys, with
      "Günlük Getiri" spliced out of its place and put in front. */
  method ReturnHeaders(rows: seq<FundRow>) returns (headers: seq<string>)
    ensures var h0 := FirstRowKeys(rows);
      && |headers| == |h0|
      && multiset(headers) == multiset(h0)
      && (DailyReturn !in h0 ==> headers == h0)
      && (DailyReturn in h0 ==>
            && headers[0] == DailyReturn
            && var i := IndexOf(h0, DailyReturn); headers[1..] == h0[..i] + h0[i + 1..])
      && (Distinct(h0) ==> Distinct(headers))
      && (Distinct(h0) && DailyReturn in h0 ==> forall i | 0 < i < |headers| :: headers[i] != DailyReturn)
  {
    headers := FirstRowKeys(rows);
    ghost var h0 := headers;
    if DailyReturn in headers {
      var index := IndexOf(headers, DailyReturn);
      if index > -1 {
        headers := headers[..index] + headers[index + 1..];
      }
      headers := [DailyReturn] + headers;
      MovedToFront(h0, index);
    }
  }

  /** Taking the element at `i` out and putting it in front keeps the
      length, the elements and their distinctness. */
  lemma MovedToFront(h: seq<string>, i: nat)
    requires i < |h|
    ensures var r := [h[i]] + (h[..i] + h[i + 1..]);
      && |r| == |h| && multiset(r) == multiset(h)
      && (Distinct(h) ==> Distinct(r))
  {
    MovedToFrontMultiset(h, i);
    if Distinct(h) {
      MovedToFrontDistinct(h, i);
    }
  }

  lemma MovedToFrontMultiset(h: seq<string>, i: nat)
    requires i < |h|
    ensures multiset([h[i]] + (h[..i] + h[i + 1..])) == multiset(h)
  {
    assert h == h[..i] + [h[i]] + h[i + 1..];
  }

  lemma MovedToFrontDistinct(h: seq<string>, i: nat)
    requires i < |h| && Distinct(h)
    ensures Distinct([h[i]] + (h[..i] + h[i + 1..]))
  {
    var r := [h[i]] + (h[..i] + h[i + 1..]);
    forall a, b | 0 <= a < b < |r| ensures r[a] != r[b] {
      var x := if a == 0 then i else if a - 1 < i then a - 1 else a;
      var y := if b - 1 < i then b - 1 else b;
      assert r[a] == h[x] && r[b] == h[y] && x != y;
    }
  }

  /** The text colour of a value cell. */
  datatype Colour = Green | Red | Grey

  /** `value > 0` gives green, else `value < 0` gives red, else grey. */
  function ValueColour(v: Value): Colour
  {
    if Greater(v, Num(0.0)) then Green
    else if Less(v, Num(0.0)) then Red
    else Grey
  }

  /** Green exactly for positive numbers, red exactly for negative ones;
      zero, `null`, `undefined`, NaN and text are grey. */
  lemma ValueColourSign(v: Value)
    ensures ValueColour(v) == Green <==> v.Num? && v.n > 0.0
    ensures ValueColour(v) == Red <==> v.Num? && v.n < 0.0
    ensures ValueColour(v) == Grey <==> !v.Num? || v.n == 0.0
  {
  }
}
