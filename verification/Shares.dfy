/** Which model ran the largest share of some money, and when naming the model of the single costliest
    item says so. */
module Shares {
  /** Money that one request, or one lane, cost. */
  datatype Item = Item(model: string, usd: real)

  function Spent(items: seq<Item>): real {
    if items == [] then 0.0 else Spent(items[..|items| - 1]) + items[|items| - 1].usd
  }

  /** The money a model ran. */
  function ShareOf(items: seq<Item>, model: string): real {
    if items == [] then 0.0
    else
      var last := items[|items| - 1];
      ShareOf(items[..|items| - 1], model) + if last.model == model then last.usd else 0.0
  }

  /** The first of the costliest items. */
  function Leader(items: seq<Item>): (i: nat)
    requires items != []
    ensures i < |items|
  {
    var n := |items| - 1;
    if n == 0 then 0
    else
      var h := Leader(items[..n]);
      if items[n].usd > items[h].usd then n else h
  }

  lemma {:induction false} LeaderIs(items: seq<Item>)
    requires items != []
    ensures forall k :: 0 <= k < |items| ==> items[k].usd <= items[Leader(items)].usd
    ensures forall k :: 0 <= k < Leader(items) ==> items[k].usd < items[Leader(items)].usd
  {
    if |items| > 1 {
      LeaderIs(items[..|items| - 1]);
    }
  }

  /** No model ran more. */
  predicate RunsLargestShare(items: seq<Item>, model: string) {
    forall i :: 0 <= i < |items| ==> ShareOf(items, items[i].model) <= ShareOf(items, model)
  }

  predicate NoneNegative(items: seq<Item>) {
    forall i :: 0 <= i < |items| ==> items[i].usd >= 0.0
  }

  lemma NothingIsSpent()
    ensures Spent([]) == 0.0
  {
  }

  lemma SpentAppend(items: seq<Item>, x: Item)
    ensures Spent(items + [x]) == Spent(items) + x.usd
  {
    assert (items + [x])[..|items|] == items;
  }

  lemma {:induction false} ShareIsWithin(items: seq<Item>, model: string)
    requires NoneNegative(items)
    ensures 0.0 <= ShareOf(items, model) <= Spent(items)
  {
    if items != [] {
      ShareIsWithin(items[..|items| - 1], model);
    }
  }

  lemma {:induction false} SharesOfTwo(items: seq<Item>, a: string, b: string)
    requires NoneNegative(items) && a != b
    ensures ShareOf(items, a) + ShareOf(items, b) <= Spent(items)
  {
    if items != [] {
      SharesOfTwo(items[..|items| - 1], a, b);
    }
  }

  lemma {:induction false} ItemIsWithinShare(items: seq<Item>, i: nat)
    requires NoneNegative(items) && i < |items|
    ensures items[i].usd <= ShareOf(items, items[i].model)
  {
    var n := |items| - 1;
    if i < n {
      ItemIsWithinShare(items[..n], i);
    } else {
      ShareIsWithin(items[..n], items[i].model);
    }
  }

  /** Where the costliest item is at least half of the money, its model ran the largest share. */
  lemma HalfLeads(items: seq<Item>)
    requires NoneNegative(items) && items != [] && 2.0 * items[Leader(items)].usd >= Spent(items)
    ensures RunsLargestShare(items, items[Leader(items)].model)
  {
    var lead := items[Leader(items)].model;
    ItemIsWithinShare(items, Leader(items));
    forall i | 0 <= i < |items|
      ensures ShareOf(items, items[i].model) <= ShareOf(items, lead)
    {
      if items[i].model != lead {
        SharesOfTwo(items, items[i].model, lead);
      }
    }
  }

  /** And where there is one model. */
  lemma OneModelLeads(items: seq<Item>)
    requires items != [] && forall i :: 0 <= i < |items| ==> items[i].model == items[0].model
    ensures RunsLargestShare(items, items[Leader(items)].model)
  {
  }

  lemma ShareAppend(items: seq<Item>, x: Item, model: string)
    ensures ShareOf(items + [x], model) == ShareOf(items, model) + if x.model == model then x.usd else 0.0
    ensures ShareOf([], model) == 0.0
  {
    assert (items + [x])[..|items|] == items;
  }

  /** One item of three dollars against two of two: the costliest is of one model, the money of the
      other. */
  lemma CostliestAgainstMost()
    ensures var items := [Item("a", 3.0), Item("b", 2.0), Item("b", 2.0)];
            && items[Leader(items)].model == "a"
            && ShareOf(items, "a") == 3.0 && ShareOf(items, "b") == 4.0
            && !RunsLargestShare(items, "a") && RunsLargestShare(items, "b")
  {
    var items := [Item("a", 3.0), Item("b", 2.0), Item("b", 2.0)];
    forall m: string
      ensures ShareOf(items, m) == (if m == "a" then 3.0 else 0.0) + (if m == "b" then 4.0 else 0.0)
    {
      ShareAppend([], Item("a", 3.0), m);
      ShareAppend([Item("a", 3.0)], Item("b", 2.0), m);
      ShareAppend([Item("a", 3.0), Item("b", 2.0)], Item("b", 2.0), m);
      assert [] + [Item("a", 3.0)] == [Item("a", 3.0)];
      assert [Item("a", 3.0)] + [Item("b", 2.0)] == [Item("a", 3.0), Item("b", 2.0)];
      assert [Item("a", 3.0), Item("b", 2.0)] + [Item("b", 2.0)] == items;
    }
    LeaderIs(items);
    var l := Leader(items);
    assert items[0].usd <= items[l].usd;
    assert ShareOf(items, items[1].model) == 4.0;
  }

  // ----- How much of the money is enough

  /** One item of one model, and the rest of a dollar in equal parts of another. */
  function OneAgainst(top: real, n: nat, part: real): seq<Item> {
    if n == 0 then [Item("a", top)] else OneAgainst(top, n - 1, part) + [Item("b", part)]
  }

  lemma {:induction false} OneAgainstShares(top: real, n: nat, part: real)
    ensures var items := OneAgainst(top, n, part);
            && Spent(items) == top + n as real * part
            && ShareOf(items, "a") == top && ShareOf(items, "b") == n as real * part
  {
    hide Spent, ShareOf;
    if n == 0 {
      NothingIsSpent();
      ShareAppend([], Item("a", top), "a");
      ShareAppend([], Item("a", top), "b");
      SpentAppend([], Item("a", top));
      assert [] + [Item("a", top)] == OneAgainst(top, n, part);
    } else {
      OneAgainstShares(top, n - 1, part);
      var front := OneAgainst(top, n - 1, part);
      ShareAppend(front, Item("b", part), "a");
      ShareAppend(front, Item("b", part), "b");
      SpentAppend(front, Item("b", part));
      assert n as real * part == (n - 1) as real * part + part;
    }
  }

  lemma {:induction false} OneAgainstItems(top: real, n: nat, part: real)
    ensures var items := OneAgainst(top, n, part);
            && |items| == n + 1 && items[0] == Item("a", top)
            && (forall i :: 0 < i <= n ==> items[i] == Item("b", part))
  {
    if n > 0 {
      OneAgainstItems(top, n - 1, part);
    }
  }

  lemma OneAgainstLeads(top: real, n: nat, part: real)
    requires 0.0 <= part <= top
    ensures var items := OneAgainst(top, n, part); items != [] && NoneNegative(items) && Leader(items) == 0
  {
    hide Leader, OneAgainst;
    OneAgainstItems(top, n, part);
    LeaderIs(OneAgainst(top, n, part));
  }

  lemma Grows(x: real, y: real, c: real)
    requires x <= y && c >= 0.0
    ensures x * c <= y * c
  {
    assert (y - x) * c >= 0.0;
  }

  lemma Cancels(x: real, y: real, c: real)
    requires x * c <= y * c && c > 0.0
    ensures x <= y
  {
    assert (x - y) * c <= 0.0;
  }

  lemma PartsFit(top: real, q: real, m: real, part: real)
    requires 0.0 < top && q <= m && 0.0 < m && q * top == part * m
    ensures part <= top
  {
    Grows(q, m, top);
    assert part * m <= top * m;
    Cancels(part, top, m);
  }

  /** The rest of a dollar in parts that are no larger than what was taken. */
  lemma Parts(top: real) returns (n: nat, part: real)
    requires 0.0 < top <= 1.0
    ensures n > 0 && n as real * part == 1.0 - top && 0.0 <= part <= top
  {
    var q := (1.0 - top) / top;
    assert q * top == 1.0 - top;
    assert q >= 0.0;
    n := q.Floor + 1;
    part := (1.0 - top) / n as real;
    assert part * n as real == 1.0 - top;
    PartsFit(top, q, n as real, part);
  }

  /** Going by what part of a dollar the costliest item is, its model is sure to have run the largest
      share exactly from a half on. */
  lemma HalfIsExact(top: real)
    requires 0.0 < top <= 1.0
    ensures (forall items: seq<Item> ::
               items != [] && NoneNegative(items) && Spent(items) == 1.0 && items[Leader(items)].usd == top ==>
                 RunsLargestShare(items, items[Leader(items)].model))
       <==> top >= 0.5
  {
    hide Spent, ShareOf, Leader, OneAgainst;
    if top >= 0.5 {
      forall items: seq<Item> |
        items != [] && NoneNegative(items) && Spent(items) == 1.0 && items[Leader(items)].usd == top
        ensures RunsLargestShare(items, items[Leader(items)].model)
      {
        HalfLeads(items);
      }
    } else {
      var n, part := Parts(top);
      var items := OneAgainst(top, n, part);
      OneAgainstShares(top, n, part);
      OneAgainstItems(top, n, part);
      OneAgainstLeads(top, n, part);
      assert ShareOf(items, items[1].model) > ShareOf(items, items[0].model);
    }
  }
}
