/** The live sale cart and its footer (subtotal, tax, total). */
module Receipt {
  import opened Seqs
  import opened Money
  import opened Optional
  import opened Entities

  /** One cart line `{_id, name, count, price}`, the price in cents. */
  datatype Line = Line(id: Id, name: string, count: nat, price: nat)

  /** The cart the component starts with. */
  const MockProducts: seq<Line> := [
    Line("2314124124131232214", "Chai Tea Latte", 1, 1245),
    Line("2314123412413654121", "Milk Latte", 1, 845),
    Line("2986753412413654121", "Dark Roast", 2, 445)
  ]

  /** The component's fixed tax setting: 12%, shown. */
  const MockTax: TaxSetting := TaxSetting(1200, true)

  /** The amount column of one line: count times unit price. */
  function Amount(l: Line): (a: nat)
    ensures a == 0 <==> l.count == 0 || l.price == 0
    ensures l.count >= 1 ==> a >= l.price
  {
    l.count * l.price
  }

  /** The sum of the line amounts (`calcSubtotal`'s `reduce`): no line's amount
      exceeds it, and it is zero for an empty cart. */
  function Subtotal(lines: seq<Line>): (s: nat)
    ensures lines == [] ==> s == 0
    ensures forall i :: 0 <= i < |lines| ==> Amount(lines[i]) <= s
  {
    if lines == [] then 0 else Amount(lines[0]) + Subtotal(lines[1..])
  }

  /** The sum of the unit prices: what one more of each line would add. */
  function UnitTotal(lines: seq<Line>): nat
  {
    if lines == [] then 0 else lines[0].price + UnitTotal(lines[1..])
  }

  /** The subtotal of a concatenation is the sum of the two subtotals. */
  lemma {:induction false} SubtotalAppend(a: seq<Line>, b: seq<Line>)
    ensures Subtotal(a + b) == Subtotal(a) + Subtotal(b)
  {
    if a == [] {
      assert a + b == b;
    } else {
      assert (a + b)[1..] == a[1..] + b;
      SubtotalAppend(a[1..], b);
    }
  }

  /** The subtotal adds up `count * price` over all lines, whatever their order:
      removing line `i` takes away exactly its amount. */
  lemma {:induction false} SubtotalWithout(lines: seq<Line>, i: nat)
    requires i < |lines|
    ensures Subtotal(lines) == Subtotal(lines[..i] + lines[i + 1..]) + Amount(lines[i])
  {
    assert lines == lines[..i] + ([lines[i]] + lines[i + 1..]);
    SubtotalAppend(lines[..i], [lines[i]] + lines[i + 1..]);
    SubtotalAppend(lines[..i], lines[i + 1..]);
  }

  /** The tax row: the rate applied to the (two-decimal) subtotal, rounded to cents. */
  function CalcTax(lines: seq<Line>, rate: nat): (r: nat)
    ensures r * Scale <= rate * Subtotal(lines) + HalfCent < r * Scale + Scale
    ensures rate == 0 || Subtotal(lines) == 0 ==> r == 0
  {
    RoundToCents(rate * Subtotal(lines))
  }

  /** The total row: rounded subtotal plus rounded tax. Because the subtotal is in
      whole cents, this is also the exact total `subtotal * (1 + rate)` rounded once. */
  function CalcTotal(lines: seq<Line>, rate: nat): (r: nat)
    ensures r == RoundToCents(Subtotal(lines) * (Scale + rate))
    ensures r >= Subtotal(lines)
  {
    var s := Subtotal(lines);
    assert s * (Scale + rate) == s * Scale + rate * s;
    RoundAddWholeCents(s, rate * s);
    s + CalcTax(lines, rate)
  }

  /** The rows of the receipt footer: subtotal and tax only when tax is enabled. */
  datatype Footer = Footer(subtotalRow: Option<nat>, taxRow: Option<nat>, totalRow: nat)

  function FooterOf(lines: seq<Line>, tax: TaxSetting): (f: Footer)
    ensures f.subtotalRow.Some? <==> tax.enable
    ensures f.taxRow.Some? <==> tax.enable
    ensures f.subtotalRow.Some? ==> f.subtotalRow.value == Subtotal(lines)
    ensures f.taxRow.Some? ==> f.taxRow.value == CalcTax(lines, tax.rate)
    ensures f.totalRow == Subtotal(lines) + CalcTax(lines, tax.rate)
  {
    Footer(
      if tax.enable then Some(Subtotal(lines)) else None,
      if tax.enable then Some(CalcTax(lines, tax.rate)) else None,
      CalcTotal(lines, tax.rate))
  }

  /** The `enable` flag only hides rows: the total includes the tax either way. */
  lemma TotalIgnoresEnable(lines: seq<Line>, rate: nat)
    ensures FooterOf(lines, TaxSetting(rate, true)).totalRow == FooterOf(lines, TaxSetting(rate, false)).totalRow
    ensures rate * Subtotal(lines) >= HalfCent ==>
      FooterOf(lines, TaxSetting(rate, false)).totalRow > Subtotal(lines)
  {
  }

  /** The footer of the initial cart: 29.80, 3.58 and 33.38. */
  lemma MockFooter()
    ensures Subtotal(MockProducts) == 2980
    ensures CalcTax(MockProducts, MockTax.rate) == 358
    ensures FooterOf(MockProducts, MockTax) == Footer(Some(2980), Some(358), 3338)
  {
    assert Subtotal(MockProducts[2..]) == 890;
    assert Subtotal(MockProducts[1..]) == 845 + 890;
  }

  // ---------------------------------------------------------------- deleteProduct

  /** The cart after `deleteProduct(pid)`: the lines whose id is not `pid`. */
  function WithoutLine(lines: seq<Line>, pid: Id): (r: seq<Line>)
    ensures |r| <= |lines|
    ensures forall l :: l in r ==> l in lines && l.id != pid
  {
    Filter(lines, (l: Line) => l.id != pid)
  }

  /** The lines with id `pid`. */
  function LinesWithId(lines: seq<Line>, pid: Id): seq<Line>
  {
    Filter(lines, (l: Line) => l.id == pid)
  }

  /** `deleteProduct(pid)` keeps exactly the other lines, in their order; an absent
      id changes nothing; deleting twice is deleting once. */
  lemma DeleteLineSpec(lines: seq<Line>, pid: Id, rest: seq<Line>)
    ensures forall l :: l in WithoutLine(lines, pid) <==> l in lines && l.id != pid
    ensures WithoutLine(lines + rest, pid) == WithoutLine(lines, pid) + WithoutLine(rest, pid)
    ensures (forall i :: 0 <= i < |lines| ==> lines[i].id != pid) ==> WithoutLine(lines, pid) == lines
    ensures WithoutLine(WithoutLine(lines, pid), pid) == WithoutLine(lines, pid)
  {
    forall l ensures l in WithoutLine(lines, pid) <==> l in lines && l.id != pid {
      FilterMembership(lines, (l: Line) => l.id != pid, l);
    }
    FilterAppend(lines, rest, (l: Line) => l.id != pid);
    if forall i :: 0 <= i < |lines| ==> lines[i].id != pid {
      FilterAllKept(lines, (l: Line) => l.id != pid);
    }
    FilterIdempotent(lines, (l: Line) => l.id != pid);
  }

  /** Deleting a product takes exactly its lines' amounts off the subtotal. */
  lemma {:induction false} DeleteLowersSubtotal(lines: seq<Line>, pid: Id)
    ensures Subtotal(WithoutLine(lines, pid)) + Subtotal(LinesWithId(lines, pid)) == Subtotal(lines)
  {
    if lines != [] {
      DeleteLowersSubtotal(lines[1..], pid);
    }
  }

  // ---------------------------------------------------------------- addRemoveProduct

  /** `+1` for any action other than `'remove'`, which is `-1`. */
  function Base(action: string): (b: int)
    ensures b == -1 <==> action == "remove"
    ensures b == 1 || b == -1
  {
    if action == "remove" then -1 else 1
  }

  /** What the `map` callback does to one line: only a matching line's count
      changes, by `base`, and never below 1. */
  function StepLine(l: Line, base: int, pid: Id): (r: Line)
    ensures r.id == l.id && r.name == l.name && r.price == l.price
    ensures l.id != pid ==> r == l
    ensures l.id == pid && l.count + base >= 1 ==> r.count == l.count + base
    ensures l.id == pid && l.count + base < 1 ==> r == l
  {
    if l.id == pid then
      if l.count + base < 1 then l else l.(count := l.count + base)
    else l
  }

  /** The cart after `addRemoveProduct(action, pid)`: the same lines in the same
      order, with the same ids, names and prices. */
  function StepAll(lines: seq<Line>, action: string, pid: Id): (r: seq<Line>)
    ensures |r| == |lines|
    ensures forall i :: 0 <= i < |lines| ==>
      r[i].id == lines[i].id && r[i].name == lines[i].name && r[i].price == lines[i].price
  {
    MapSeqEverywhere(lines, (l: Line) => StepLine(l, Base(action), pid));
    MapSeq(lines, (l: Line) => StepLine(l, Base(action), pid))
  }

  /** Any action but `'remove'` adds one to every line with id `pid` and leaves
      every other line, the length and the order as they were. */
  lemma AddIncrements(lines: seq<Line>, action: string, pid: Id)
    requires action != "remove"
    ensures |StepAll(lines, action, pid)| == |lines|
    ensures forall i :: 0 <= i < |lines| ==>
      StepAll(lines, action, pid)[i] ==
        if lines[i].id == pid then lines[i].(count := lines[i].count + 1) else lines[i]
  {
    MapSeqEverywhere(lines, (l: Line) => StepLine(l, Base(action), pid));
  }

  /** `'remove'` takes one off every line with id `pid` whose count is at least 2;
      a line at count 1 stays as it is and is not removed. */
  lemma RemoveDecrements(lines: seq<Line>, pid: Id)
    ensures |StepAll(lines, "remove", pid)| == |lines|
    ensures forall i :: 0 <= i < |lines| ==>
      StepAll(lines, "remove", pid)[i] ==
        if lines[i].id == pid && lines[i].count >= 2 then lines[i].(count := lines[i].count - 1)
        else lines[i]
  {
    MapSeqEverywhere(lines, (l: Line) => StepLine(l, Base("remove"), pid));
  }

  predicate CountsPositive(lines: seq<Line>)
  {
    forall i :: 0 <= i < |lines| ==> lines[i].count >= 1
  }

  /** The quantity floor: every count stays at least 1. */
  lemma StepKeepsCountsPositive(lines: seq<Line>, action: string, pid: Id)
    requires CountsPositive(lines)
    ensures CountsPositive(StepAll(lines, action, pid))
  {
    MapSeqEverywhere(lines, (l: Line) => StepLine(l, Base(action), pid));
  }

  /** Adding one raises the subtotal by the unit prices of the matching lines. */
  lemma {:induction false} AddRaisesSubtotal(lines: seq<Line>, pid: Id)
    ensures Subtotal(StepAll(lines, "add", pid)) == Subtotal(lines) + UnitTotal(LinesWithId(lines, pid))
  {
    if lines != [] {
      AddRaisesSubtotal(lines[1..], pid);
      var l := lines[0];
      if l.id == pid {
        assert Amount(l.(count := l.count + 1)) == Amount(l) + l.price;
      }
    }
  }

  /** The live cart of the sale screen. `addRemoveProduct` changes the counts of
      the existing line objects inside its `map` and then stores the result, so
      here it updates `products` position by position. */
  class Cart {
    var products: seq<Line>
    const tax: TaxSetting

    constructor ()
      ensures products == MockProducts && tax == MockTax
    {
      products := MockProducts;
      tax := MockTax;
    }

    method DeleteProduct(pid: Id)
      modifies this
      ensures products == WithoutLine(old(products), pid)
    {
      products := WithoutLine(products, pid);
    }

    method AddRemoveProduct(action: string, pid: Id)
      modifies this
      ensures products == StepAll(old(products), action, pid)
    {
      var base := 1;
      if action == "remove" {
        base := -1;
      }
      ghost var before := products;
      var i := 0;
      while i < |products|
        invariant 0 <= i <= |products| == |before|
        invariant forall k :: 0 <= k < i ==> products[k] == StepLine(before[k], base, pid)
        invariant forall k :: i <= k < |products| ==> products[k] == before[k]
      {
        if products[i].id == pid {
          if products[i].count + base >= 1 {
            products := products[i := products[i].(count := products[i].count + base)];
          }
        }
        i := i + 1;
      }
      MapSeqUnique(before, (l: Line) => StepLine(l, Base(action), pid), products);
    }
  }
}
