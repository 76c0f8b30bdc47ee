/** String operations used by both views: `split` and `join` on a
    one-character separator, `replace` of the first occurrence of a
    character, and the `name=value&...` query strings that `URLSearchParams`
    builds and reads. */
module Text {

  import opened JsValues

  /** `s.split(d)` for a one-character separator: the pieces between the
      occurrences of `d`; the empty string gives one empty piece. */
  function Split(s: string, d: char): (r: seq<string>)
    ensures |r| >= 1
    ensures forall p <- r :: d !in p
  {
    if s == [] then [[]]
    else if s[0] == d then [[]] + Split(s[1..], d)
    else
      var rest := Split(s[1..], d);
      [[s[0]] + rest[0]] + rest[1..]
  }

  /** `xs.join(d)` for a one-character separator; `[].join(d)` is "". */
  function Join(xs: seq<string>, d: char): string
  {
    if xs == [] then []
    else if |xs| == 1 then xs[0]
    else xs[0] + [d] + Join(xs[1..], d)
  }

  /** A piece with no separator in it is not split. */
  lemma {:induction false} SplitNoSeparator(x: string, d: char)
    requires d !in x
    ensures Split(x, d) == [x]
  {
    if x != [] {
      SplitNoSeparator(x[1..], d);
      assert [x[0]] + x[1..] == x;
    }
  }

  /** Splitting `x + d + rest` yields `x` and then the pieces of `rest`. */
  lemma {:induction false} SplitPrefix(x: string, d: char, rest: string)
    requires d !in x
    ensures Split(x + [d] + rest, d) == [x] + Split(rest, d)
  {
    if x == [] {
      assert x + [d] + rest == [d] + rest;
      assert ([d] + rest)[1..] == rest;
    } else {
      assert (x + [d] + rest)[1..] == x[1..] + [d] + rest;
      SplitPrefix(x[1..], d, rest);
      assert [x[0]] + x[1..] == x;
    }
  }

  /** `split` undoes `join` when no piece contains the separator. */
  lemma {:induction false} SplitJoin(xs: seq<string>, d: char)
    requires |xs| >= 1
    requires forall x <- xs :: d !in x
    ensures Split(Join(xs, d), d) == xs
  {
    if |xs| == 1 {
      SplitNoSeparator(xs[0], d);
    } else {
      assert xs[1] in xs;
      SplitJoin(xs[1..], d);
      SplitPrefix(xs[0], d, Join(xs[1..], d));
      assert xs == [xs[0]] + xs[1..];
    }
  }

  /** `s.replace(c, c')` with a one-character pattern: only the first
      occurrence is replaced. */
  function ReplaceFirst(s: string, c: char, c': char): (r: string)
    ensures |r| == |s|
    ensures c !in s ==> r == s
  {
    if s == [] then []
    else if s[0] == c then [c'] + s[1..]
    else [s[0]] + ReplaceFirst(s[1..], c, c')
  }

  /** Of `a + c + b` with no `c` in `a`, exactly that `c` is replaced. */
  lemma {:induction false} ReplaceFirstAt(a: string, b: string, c: char, c': char)
    requires c !in a
    ensures ReplaceFirst(a + [c] + b, c, c') == a + [c'] + b
  {
    if a != [] {
      assert (a + [c] + b)[1..] == a[1..] + [c] + b;
      ReplaceFirstAt(a[1..], b, c, c');
      assert [a[0]] + (a[1..] + [c'] + b) == a + [c'] + b;
    }
  }

  /** The first index of `x` in `xs`, or -1: `indexOf`. */
  function IndexOf<T(==)>(xs: seq<T>, x: T): (i: int)
    ensures -1 <= i < |xs|
    ensures i == -1 <==> x !in xs
    ensures 0 <= i ==> xs[i] == x && x !in xs[..i]
  {
    if xs == [] then -1
    else if xs[0] == x then 0
    else
      var j := IndexOf(xs[1..], x);
      if j == -1 then -1
      else
        assert xs[..j + 1] == [xs[0]] + xs[1..][..j];
        j + 1
  }

  /** One `name=value` pair of a query string. */
  datatype Param = Param(name: string, value: string)

  /** `URLSearchParams.toString()`, without percent-encoding. */
  function QueryString(ps: seq<Param>): string
  {
    Join(PairTexts(ps), '&')
  }

  function PairTexts(ps: seq<Param>): (r: seq<string>)
    ensures |r| == |ps|
    ensures forall i | 0 <= i < |ps| :: r[i] == ps[i].name + "=" + ps[i].value
  {
    if ps == [] then [] else [ps[0].name + "=" + ps[0].value] + PairTexts(ps[1..])
  }

  /** Reads one `name=value` piece: the name runs up to the first `=`; a
      piece without `=` has the empty value. */
  function ParsePair(piece: string): Param
  {
    var i := IndexOf(piece, '=');
    if i == -1 then Param(piece, "") else Param(piece[..i], piece[i + 1..])
  }

  /** `new URLSearchParams(q)`: the `&`-separated pieces, empty pieces
      skipped. */
  function ParseQuery(q: string): seq<Param>
  {
    ParsePieces(Split(q, '&'))
  }

  function ParsePieces(pieces: seq<string>): seq<Param>
  {
    if pieces == [] then []
    else if pieces[0] == "" then ParsePieces(pieces[1..])
    else [ParsePair(pieces[0])] + ParsePieces(pieces[1..])
  }

  /** `searchParams.get(name)`: the value of the first pair with that name. */
  function Get(ps: seq<Param>, name: string): (r: Option<string>)
    ensures r.None? <==> forall p <- ps :: p.name != name
  {
    if ps == [] then None
    else if ps[0].name == name then Some(ps[0].value)
    else Get(ps[1..], name)
  }

  /** A pair that survives a round trip through a query string: a name
      that is not empty and neither part holding `&` or `=`. */
  predicate PlainParam(p: Param)
  {
    p.name != "" && '&' !in p.name && '=' !in p.name && '&' !in p.value && '=' !in p.value
  }

  lemma ParsePairText(p: Param)
    requires PlainParam(p)
    ensures ParsePair(p.name + "=" + p.value) == p
  {
    var t := p.name + "=" + p.value;
    assert t[|p.name|] == '=';
    assert t[..|p.name|] == p.name;
    assert t[|p.name| + 1..] == p.value;
    assert '=' !in t[..|p.name|];
    var i := IndexOf(t, '=');
    assert i == |p.name|;
  }

  lemma {:induction false} ParsePiecesOfPairs(ps: seq<Param>)
    requires forall p <- ps :: PlainParam(p)
    ensures ParsePieces(PairTexts(ps)) == ps
  {
    if ps != [] {
      assert ps[0] in ps;
      ParsePairText(ps[0]);
      assert PairTexts(ps)[1..] == PairTexts(ps[1..]);
      ParsePiecesOfPairs(ps[1..]);
      assert ps == [ps[0]] + ps[1..];
    }
  }

  /** Reading back the query string of plain pairs gives the same pairs, in
      the same order. */
  lemma QueryRoundTrip(ps: seq<Param>)
    requires forall p <- ps :: PlainParam(p)
    ensures ParseQuery(QueryString(ps)) == ps
  {
    if ps != [] {
      var texts := PairTexts(ps);
      forall t <- texts ensures '&' !in t {
        var i :| 0 <= i < |texts| && texts[i] == t;
        assert ps[i] in ps;
      }
      SplitJoin(texts, '&');
      ParsePiecesOfPairs(ps);
    }
  }
}
