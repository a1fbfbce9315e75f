/** The signature of a basket: the string under which keys are held and carts are compared. */
module BasketSignature {
  import opened Decimals

  datatype Line = Line(sku: string, quantity: int)

  // ---------------------------------------------------------------- printing

  function Print(line: Line): string
    requires line.quantity > 0
  {
    line.sku + ":" + Decimal(line.quantity)
  }

  lemma ColonInRest(a: string, x: string, b: string, y: string)
    requires a + ":" + x == b + ":" + y && |a| < |b|
    ensures ':' in x
  {
    assert (b + ":" + y)[|b|] == ':' && (a + ":" + x)[|b|] == x[|b| - |a| - 1];
  }

  lemma LastColon(a: string, x: string, b: string, y: string)
    requires a + ":" + x == b + ":" + y && ':' !in x && ':' !in y
    ensures a == b && x == y
  {
    if |a| < |b| {
      ColonInRest(a, x, b, y);
    } else if |b| < |a| {
      ColonInRest(b, y, a, x);
    } else {
      assert a == (a + ":" + x)[..|a|] == b;
      assert x == (a + ":" + x)[|a| + 1..] == y;
    }
  }

  /** A SKU may itself contain colons: the quantity is what follows the last one. */
  lemma {:induction false} PrintIsInjective(a: Line, b: Line)
    requires a.quantity > 0 && b.quantity > 0 && Print(a) == Print(b)
    ensures a == b
  {
    LastColon(a.sku, Decimal(a.quantity), b.sku, Decimal(b.quantity));
    DecimalReadsBack(a.quantity);
    DecimalReadsBack(b.quantity);
  }

  // ---------------------------------------------------------------- sorting

  predicate LessEq(a: string, b: string) {
    a == [] || (b != [] && (a[0] < b[0] || (a[0] == b[0] && LessEq(a[1..], b[1..]))))
  }

  lemma {:induction false} LessEqTotal(a: string, b: string)
    ensures LessEq(a, b) || LessEq(b, a)
    ensures LessEq(a, b) && LessEq(b, a) ==> a == b
  {
    if a != [] && b != [] && a[0] == b[0] {
      LessEqTotal(a[1..], b[1..]);
      assert a == [a[0]] + a[1..] && b == [b[0]] + b[1..];
    }
  }

  lemma {:induction false} LessEqTransitive(a: string, b: string, c: string)
    requires LessEq(a, b) && LessEq(b, c)
    ensures LessEq(a, c)
  {
    if a != [] && a[0] == b[0] == c[0] {
      LessEqTransitive(a[1..], b[1..], c[1..]);
    }
  }

  predicate Sorted(xs: seq<string>) {
    forall i, j :: 0 <= i < j < |xs| ==> LessEq(xs[i], xs[j])
  }

  function Insert(x: string, xs: seq<string>): (r: seq<string>)
    ensures multiset(r) == multiset(xs) + multiset{x}
  {
    if xs == [] || LessEq(x, xs[0]) then assert [x] + xs == [x] + xs; [x] + xs
    else
      assert xs == [xs[0]] + xs[1..];
      [xs[0]] + Insert(x, xs[1..])
  }

  function Sort(xs: seq<string>): (r: seq<string>)
    ensures multiset(r) == multiset(xs)
  {
    if xs == [] then []
    else
      assert xs == [xs[0]] + xs[1..];
      Insert(xs[0], Sort(xs[1..]))
  }

  lemma {:induction false} InsertSorted(x: string, xs: seq<string>)
    requires Sorted(xs)
    ensures Sorted(Insert(x, xs))
  {
    if xs == [] {
    } else if LessEq(x, xs[0]) {
      forall j | 0 <= j < |xs| ensures LessEq(x, xs[j]) {
        if j > 0 {
          LessEqTransitive(x, xs[0], xs[j]);
        }
      }
    } else {
      LessEqTotal(x, xs[0]);
      InsertSorted(x, xs[1..]);
      var rest := Insert(x, xs[1..]);
      forall j | 0 <= j < |rest| ensures LessEq(xs[0], rest[j]) {
        assert rest[j] in multiset(rest);
        assert rest[j] == x || rest[j] in xs[1..];
      }
    }
  }

  lemma {:induction false} SortSorted(xs: seq<string>)
    ensures Sorted(Sort(xs))
  {
    if xs != [] {
      SortSorted(xs[1..]);
      InsertSorted(xs[0], Sort(xs[1..]));
    }
  }

  lemma {:induction false} SortedHeads(xs: seq<string>, ys: seq<string>)
    requires Sorted(xs) && Sorted(ys) && multiset(xs) == multiset(ys) && xs != []
    ensures ys != [] && xs[0] == ys[0]
  {
    assert xs[0] in multiset(ys);
    assert ys[0] in multiset(xs);
    var i :| 0 <= i < |ys| && ys[i] == xs[0];
    var j :| 0 <= j < |xs| && xs[j] == ys[0];
    LessEqTotal(xs[0], ys[0]);
    LessEqTotal(xs[0], xs[0]);
  }

  /** Sorting is canonical: it does not matter which algorithm sorts. */
  lemma {:induction false} SortedIsUnique(xs: seq<string>, ys: seq<string>)
    requires Sorted(xs) && Sorted(ys) && multiset(xs) == multiset(ys)
    ensures xs == ys
  {
    if xs == [] {
      assert |multiset(ys)| == 0;
    } else {
      SortedHeads(xs, ys);
      assert xs == [xs[0]] + xs[1..] && ys == [ys[0]] + ys[1..];
      assert multiset(xs[1..]) == multiset(xs) - multiset{xs[0]};
      assert multiset(ys[1..]) == multiset(ys) - multiset{ys[0]};
      SortedIsUnique(xs[1..], ys[1..]);
    }
  }

  // ---------------------------------------------------------------- joining

  function Join(parts: seq<string>): string {
    if parts == [] then ""
    else if |parts| == 1 then parts[0]
    else parts[0] + "|" + Join(parts[1..])
  }

  lemma BarInHead(a: string, x: string, b: string, y: string)
    requires a + "|" + x == b + "|" + y && |a| < |b|
    ensures '|' in b
  {
    assert (a + "|" + x)[|a|] == '|' && (b + "|" + y)[|a|] == b[|a|];
  }

  lemma FirstBar(a: string, x: string, b: string, y: string)
    requires a + "|" + x == b + "|" + y && '|' !in a && '|' !in b
    ensures a == b && x == y
  {
    if |a| < |b| {
      BarInHead(a, x, b, y);
    } else if |b| < |a| {
      BarInHead(b, y, a, x);
    } else {
      assert a == (a + "|" + x)[..|a|] == b;
      assert x == (a + "|" + x)[|a| + 1..] == y;
    }
  }

  lemma BarIsThere(b: string, y: string)
    ensures '|' in b + "|" + y
  {
    assert (b + "|" + y)[|b|] == '|';
  }

  predicate Parts(xs: seq<string>) { forall i :: 0 <= i < |xs| ==> xs[i] != "" && '|' !in xs[i] }

  lemma JoinIsEmptyOnlyForNone(xs: seq<string>)
    requires Parts(xs) && Join(xs) == ""
    ensures xs == []
  {
    if |xs| > 1 {
      BarIsThere(xs[0], Join(xs[1..]));
    }
  }

  lemma {:induction false} JoinIsInjective(xs: seq<string>, ys: seq<string>)
    requires Parts(xs) && Parts(ys) && Join(xs) == Join(ys)
    ensures xs == ys
  {
    if xs == [] {
      JoinIsEmptyOnlyForNone(ys);
    } else if ys == [] {
      JoinIsEmptyOnlyForNone(xs);
    } else if |xs| == 1 && |ys| == 1 {
      assert xs == [xs[0]] && ys == [ys[0]];
    } else if |xs| == 1 {
      BarIsThere(ys[0], Join(ys[1..]));
    } else if |ys| == 1 {
      BarIsThere(xs[0], Join(xs[1..]));
    } else {
      FirstBar(xs[0], Join(xs[1..]), ys[0], Join(ys[1..]));
      JoinIsInjective(xs[1..], ys[1..]);
      assert xs == [xs[0]] + xs[1..] && ys == [ys[0]] + ys[1..];
    }
  }

  // ---------------------------------------------------------------- the signature

  function Positive(request: seq<Line>): (r: seq<Line>)
    ensures forall l <- r :: l.quantity > 0 && l in request
    ensures forall l <- request :: l.quantity > 0 ==> l in r
  {
    if request == [] then []
    else
      var rest := Positive(request[..|request| - 1]);
      if request[|request| - 1].quantity > 0 then rest + [request[|request| - 1]] else rest
  }

  function Printed(lines: seq<Line>): (r: seq<string>)
    requires forall l <- lines :: l.quantity > 0
    ensures |r| == |lines| && forall i :: 0 <= i < |lines| ==> r[i] == Print(lines[i])
  {
    seq(|lines|, i requires 0 <= i < |lines| => Print(lines[i]))
  }

  function Signature(request: seq<Line>): string {
    Join(Sort(Printed(Positive(request))))
  }

  /** No SKU contains the separator. */
  predicate BarFree(request: seq<Line>) { forall l <- request :: '|' !in l.sku }

  lemma {:induction false} PrintedCounts(lines: seq<Line>, line: Line)
    requires line.quantity > 0 && forall l <- lines :: l.quantity > 0
    ensures multiset(Printed(lines))[Print(line)] == multiset(lines)[line]
  {
    if lines != [] {
      var rest, last := lines[..|lines| - 1], lines[|lines| - 1];
      PrintedCounts(rest, line);
      assert lines == rest + [last];
      assert Printed(lines) == Printed(rest) + [Print(last)];
      if Print(last) == Print(line) {
        PrintIsInjective(last, line);
      }
    }
  }

  lemma {:induction false} PrintedAgrees(xs: seq<Line>, ys: seq<Line>)
    requires (forall l <- xs :: l.quantity > 0) && (forall l <- ys :: l.quantity > 0)
    ensures multiset(Printed(xs)) == multiset(Printed(ys)) <==> multiset(xs) == multiset(ys)
  {
    if multiset(xs) == multiset(ys) {
      forall t ensures multiset(Printed(xs))[t] == multiset(Printed(ys))[t] {
        if t in Printed(xs) || t in Printed(ys) {
          var l :| (l in xs || l in ys) && Print(l) == t;
          PrintedCounts(xs, l);
          PrintedCounts(ys, l);
        } else {
          assert t !in multiset(Printed(xs)) && t !in multiset(Printed(ys));
        }
      }
    }
    if multiset(Printed(xs)) == multiset(Printed(ys)) {
      forall l ensures multiset(xs)[l] == multiset(ys)[l] {
        if l.quantity > 0 {
          PrintedCounts(xs, l);
          PrintedCounts(ys, l);
        } else {
          assert l !in multiset(xs) && l !in multiset(ys);
        }
      }
    }
  }

  /** The signature depends only on which lines there are, not on their order. */
  lemma {:induction false} SignatureIsCanonical(a: seq<Line>, b: seq<Line>)
    requires multiset(Positive(a)) == multiset(Positive(b))
    ensures Signature(a) == Signature(b)
  {
    PrintedAgrees(Positive(a), Positive(b));
    SortSorted(Printed(Positive(a)));
    SortSorted(Printed(Positive(b)));
    SortedIsUnique(Sort(Printed(Positive(a))), Sort(Printed(Positive(b))));
  }

  lemma {:induction false} PrintedIsBarFree(lines: seq<Line>, part: string)
    requires BarFree(lines) && (forall l <- lines :: l.quantity > 0) && part in Printed(lines)
    ensures part != "" && '|' !in part
  {
    var i :| 0 <= i < |lines| && Printed(lines)[i] == part;
    assert part == lines[i].sku + ":" + Decimal(lines[i].quantity);
  }

  lemma {:induction false} SortHasNoOther(xs: seq<string>, x: string)
    requires x in Sort(xs)
    ensures x in xs
  {
    assert x in multiset(Sort(xs)) && x in multiset(xs);
  }

  lemma {:induction false} PartsAreBarFree(request: seq<Line>)
    requires BarFree(request)
    ensures Parts(Sort(Printed(Positive(request))))
  {
    var sorted := Sort(Printed(Positive(request)));
    forall j | 0 <= j < |sorted| ensures sorted[j] != "" && '|' !in sorted[j] {
      SortHasNoOther(Printed(Positive(request)), sorted[j]);
      PrintedIsBarFree(Positive(request), sorted[j]);
    }
  }

  /** Two requests have the same signature exactly when they ask for the same lines. */
  lemma {:induction false} SignatureIsExact(a: seq<Line>, b: seq<Line>)
    requires BarFree(a) && BarFree(b)
    ensures Signature(a) == Signature(b) <==> multiset(Positive(a)) == multiset(Positive(b))
  {
    if Signature(a) == Signature(b) {
      PartsAreBarFree(a);
      PartsAreBarFree(b);
      JoinIsInjective(Sort(Printed(Positive(a))), Sort(Printed(Positive(b))));
      PrintedAgrees(Positive(a), Positive(b));
    } else if multiset(Positive(a)) == multiset(Positive(b)) {
      SignatureIsCanonical(a, b);
    }
  }

  lemma {:induction false} SignatureOfOne(a: Line)
    requires a.quantity > 0
    ensures Positive([a]) == [a] && Signature([a]) == Print(a)
  {
    assert [a][..0] == [];
    assert Printed([a]) == [Print(a)];
    assert [Print(a)][1..] == [];
  }

  lemma {:induction false} SortedPair(x: string, y: string)
    requires LessEq(x, y)
    ensures Sort([x, y]) == [x, y] && Join([x, y]) == x + "|" + y
  {
    SortSorted([x, y]);
    SortedIsUnique(Sort([x, y]), [x, y]);
    assert [x, y][1..] == [y];
  }

  lemma {:induction false} PrintedPair(a: Line, b: Line)
    requires a.quantity > 0 && b.quantity > 0
    ensures Positive([a, b]) == [a, b] && Printed([a, b]) == [Print(a), Print(b)]
  {
    assert [a, b][..1] == [a] && [a][..0] == [];
    assert Positive([a]) == [a];
    assert Positive([a, b]) == [a] + [b] == [a, b];
  }

  lemma {:induction false} SignatureOfTwo(a: Line, b: Line)
    requires a.quantity > 0 && b.quantity > 0 && LessEq(Print(a), Print(b))
    ensures Positive([a, b]) == [a, b] && Signature([a, b]) == Print(a) + "|" + Print(b)
  {
    PrintedPair(a, b);
    SortedPair(Print(a), Print(b));
  }

  /** The line that looks like two when its SKU is allowed a separator. */
  function Disguised(x: Line, y: Line): Line
    requires x.quantity > 0
  {
    Line(Print(x) + "|" + y.sku, y.quantity)
  }

  lemma {:induction false} DisguisedPrintsAlike(x: Line, y: Line)
    requires x.quantity > 0 && y.quantity > 0
    ensures Print(Disguised(x, y)) == Print(x) + "|" + Print(y)
  {
  }

  /** A separator inside a SKU makes different baskets look the same: any two lines, in the order
      in which they sort, and the one line that carries the first in its SKU. */
  lemma {:induction false} BarInSkuCollides(x: Line, y: Line)
    requires x.quantity > 0 && y.quantity > 0 && LessEq(Print(x), Print(y))
    ensures Signature([x, y]) == Signature([Disguised(x, y)])
            && multiset(Positive([x, y])) != multiset(Positive([Disguised(x, y)]))
  {
    var both := Disguised(x, y);
    SignatureOfTwo(x, y);
    SignatureOfOne(both);
    DisguisedPrintsAlike(x, y);
    assert |multiset([x, y])| == 2 && |multiset([both])| == 1;
  }
}
