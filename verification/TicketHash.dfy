/**
 The identity of a printed ticket: a canonical form that does not depend on the order of the lines.
 SHA-256 over the canonical JSON is taken as injective, so the canonical form stands for the hash.
 */
module TicketHash {
  import opened Domain

  datatype PrintableTicket = PrintableTicket(orderId: Id, restaurantId: Id, tableNumber: string, items: seq<Line>)

  datatype HashedLine = HashedLine(productId: Id, quantity: int, unitPriceCents: int)

  datatype Hash = Hash(orderId: Id, tableNumber: string, lines: seq<HashedLine>)

  // The place of a line in a stable sort by product: behind every line that is not greater.
  function Insert(sorted: seq<Line>, line: Line): (inserted: seq<Line>)
    ensures multiset(inserted) == multiset(sorted) + multiset{line}
  {
    if sorted == [] then [line]
    else
      var init, last := sorted[..|sorted| - 1], sorted[|sorted| - 1];
      assert sorted == init + [last];
      if last.productId <= line.productId then sorted + [line] else Insert(init, line) + [last]
  }

  function Sort(items: seq<Line>): (sorted: seq<Line>)
    ensures multiset(sorted) == multiset(items)
  {
    if items == [] then []
    else
      assert items == items[..|items| - 1] + [items[|items| - 1]];
      Insert(Sort(items[..|items| - 1]), items[|items| - 1])
  }

  function Hashed(items: seq<Line>): (lines: seq<HashedLine>)
    ensures |lines| == |items|
    ensures forall i :: 0 <= i < |items| ==>
      lines[i] == HashedLine(items[i].productId, items[i].quantity, items[i].unitPriceCents)
  {
    seq(|items|, i requires 0 <= i < |items| => HashedLine(items[i].productId, items[i].quantity, items[i].unitPriceCents))
  }

  function HashOf(ticket: PrintableTicket): Hash {
    Hash(ticket.orderId, ticket.tableNumber, Hashed(Sort(ticket.items)))
  }

  predicate Ascending(items: seq<Line>) {
    forall i, j :: 0 <= i < j < |items| ==> items[i].productId <= items[j].productId
  }

  predicate DistinctProducts(items: seq<Line>) {
    forall i, j :: 0 <= i < j < |items| ==> items[i].productId != items[j].productId
  }

  lemma InsertedAreBelow(sorted: seq<Line>, line: Line, bound: Id)
    requires forall i :: 0 <= i < |sorted| ==> sorted[i].productId <= bound
    requires line.productId <= bound
    ensures forall i :: 0 <= i < |Insert(sorted, line)| ==> Insert(sorted, line)[i].productId <= bound
  {
    var inserted := Insert(sorted, line);
    forall i | 0 <= i < |inserted| ensures inserted[i].productId <= bound {
      assert inserted[i] in multiset(inserted);
      Among(sorted, inserted[i]);
    }
  }

  lemma Appended(items: seq<Line>, last: Line)
    requires Ascending(items) && forall i :: 0 <= i < |items| ==> items[i].productId <= last.productId
    ensures Ascending(items + [last])
  {
  }

  lemma {:induction false} InsertKeepsAscending(sorted: seq<Line>, line: Line)
    requires Ascending(sorted)
    ensures Ascending(Insert(sorted, line))
  {
    if sorted != [] {
      var init, last := sorted[..|sorted| - 1], sorted[|sorted| - 1];
      if last.productId > line.productId {
        InsertKeepsAscending(init, line);
        InsertedAreBelow(init, line, last.productId);
        Appended(Insert(init, line), last);
      }
    }
  }

  lemma {:induction false} SortAscends(items: seq<Line>)
    ensures Ascending(Sort(items))
  {
    if items != [] {
      SortAscends(items[..|items| - 1]);
      InsertKeepsAscending(Sort(items[..|items| - 1]), items[|items| - 1]);
    }
  }

  lemma Among(items: seq<Line>, line: Line)
    ensures line in items <==> line in multiset(items)
  {
  }

  lemma LastIsGreatest(items: seq<Line>, line: Line)
    requires Ascending(items) && line in items
    ensures line.productId <= items[|items| - 1].productId
  {
  }

  lemma SameLast(a: seq<Line>, b: seq<Line>)
    requires Ascending(a) && Ascending(b) && DistinctProducts(a) && multiset(a) == multiset(b) && a != [] && b != []
    ensures a[|a| - 1] == b[|b| - 1]
  {
    var x, y := a[|a| - 1], b[|b| - 1];
    Among(a, y);
    Among(b, y);
    Among(a, x);
    Among(b, x);
    LastIsGreatest(a, y);
    LastIsGreatest(b, x);
    var k :| 0 <= k < |a| && a[k] == y;
  }

  lemma WithoutLast(items: seq<Line>)
    requires items != []
    ensures multiset(items[..|items| - 1]) == multiset(items) - multiset{items[|items| - 1]}
  {
    assert items == items[..|items| - 1] + [items[|items| - 1]];
  }

  lemma SameLength(a: seq<Line>, b: seq<Line>)
    requires multiset(a) == multiset(b)
    ensures |a| == |b|
  {
    assert |a| == |multiset(a)| == |multiset(b)| == |b|;
  }

  lemma Shorter(items: seq<Line>)
    requires items != []
    ensures Ascending(items) ==> Ascending(items[..|items| - 1])
    ensures DistinctProducts(items) ==> DistinctProducts(items[..|items| - 1])
  {
  }

  // Two ascending lists of the same lines, each product once, are the same list.
  lemma {:induction false} SameSorted(a: seq<Line>, b: seq<Line>)
    requires Ascending(a) && Ascending(b) && DistinctProducts(a) && multiset(a) == multiset(b)
    ensures a == b
  {
    SameLength(a, b);
    if a != [] {
      SameLast(a, b);
      WithoutLast(a);
      WithoutLast(b);
      var a', b' := a[..|a| - 1], b[..|b| - 1];
      Shorter(a);
      Shorter(b);
      hide Ascending, DistinctProducts;
      SameSorted(a', b');
      assert a == a' + [a[|a| - 1]] && b == b' + [b[|b| - 1]];
    }
  }

  lemma {:induction false} DistinctStays(a: seq<Line>, b: seq<Line>)
    requires DistinctProducts(a) && multiset(a) == multiset(b)
    ensures DistinctProducts(b)
  {
    forall i, j | 0 <= i < j < |b| ensures b[i].productId != b[j].productId {
      if b[i] == b[j] {
        TwiceIn(b, i, j);
        OnceIn(a, b[i]);
      } else {
        assert b[i] in multiset(a) && b[j] in multiset(a);
        var k :| 0 <= k < |a| && a[k] == b[i];
        var l :| 0 <= l < |a| && a[l] == b[j];
      }
    }
  }

  lemma TwiceIn(b: seq<Line>, i: nat, j: nat)
    requires i < j < |b| && b[i] == b[j]
    ensures multiset(b)[b[i]] >= 2
  {
    assert b == b[..j] + [b[j]] + b[j + 1..];
    assert b[..j] == b[..i] + [b[i]] + b[i + 1..j];
  }

  lemma {:induction false} OnceIn(a: seq<Line>, line: Line)
    requires DistinctProducts(a)
    ensures multiset(a)[line] <= 1
  {
    if a != [] {
      var init, last := a[..|a| - 1], a[|a| - 1];
      assert a == init + [last];
      OnceIn(init, line);
      if last == line {
        assert line !in init;
        assert line !in multiset(init);
      }
    }
  }

  /** The two call sites agree: the lines of an order hash the same in whatever order they come back. */
  lemma HashIgnoresLineOrder(a: PrintableTicket, b: PrintableTicket)
    requires a.orderId == b.orderId && a.tableNumber == b.tableNumber
    requires DistinctProducts(a.items) && multiset(a.items) == multiset(b.items)
    ensures HashOf(a) == HashOf(b)
  {
    SortAscends(a.items);
    SortAscends(b.items);
    DistinctStays(a.items, Sort(a.items));
    SameSorted(Sort(a.items), Sort(b.items));
  }

  /* ---- what the hash says ---- */

  // A line as the hash sees it, and back.
  function HashedLineOf(line: Line): HashedLine {
    HashedLine(line.productId, line.quantity, line.unitPriceCents)
  }

  function Nameless(items: seq<Line>): (lines: seq<Line>)
    ensures |lines| == |items|
    ensures forall i :: 0 <= i < |items| ==> lines[i] == items[i].(name := "")
  {
    seq(|items|, i requires 0 <= i < |items| => items[i].(name := ""))
  }

  lemma HashedAppend(items: seq<Line>, line: Line)
    ensures Hashed(items + [line]) == Hashed(items) + [HashedLineOf(line)]
    ensures Nameless(items + [line]) == Nameless(items) + [line.(name := "")]
  {
  }

  lemma {:induction false} InsertKeepsHashed(sorted: seq<Line>, line: Line)
    ensures multiset(Hashed(Insert(sorted, line))) == multiset(Hashed(sorted)) + multiset{HashedLineOf(line)}
    ensures Nameless(Insert(sorted, line)) == Insert(Nameless(sorted), line.(name := ""))
  {
    if sorted == [] {
      assert Insert(sorted, line) == [] + [line];
      HashedAppend([], line);
      assert Hashed([]) == [] && Nameless([]) == [];
    } else {
      var init, last := sorted[..|sorted| - 1], sorted[|sorted| - 1];
      assert sorted == init + [last];
      HashedAppend(init, last);
      if last.productId <= line.productId {
        HashedAppend(sorted, line);
      } else {
        InsertKeepsHashed(init, line);
        HashedAppend(Insert(init, line), last);
        assert Nameless(sorted)[..|sorted| - 1] == Nameless(init);
      }
    }
  }

  lemma {:induction false} SortKeepsHashed(items: seq<Line>)
    ensures multiset(Hashed(Sort(items))) == multiset(Hashed(items))
    ensures Nameless(Sort(items)) == Sort(Nameless(items))
  {
    if items == [] {
      assert Sort(items) == [] && Nameless([]) == [];
    } else {
      var init, last := items[..|items| - 1], items[|items| - 1];
      assert items == init + [last];
      SortKeepsHashed(init);
      InsertKeepsHashed(Sort(init), last);
      HashedAppend(init, last);
      assert Nameless(items)[..|items| - 1] == Nameless(init);
    }
  }

  lemma {:induction false} SameHashedSameNameless(a: seq<Line>, b: seq<Line>)
    requires multiset(Hashed(a)) == multiset(Hashed(b))
    ensures multiset(Nameless(a)) == multiset(Nameless(b))
    decreases |a|
  {
    assert |multiset(Hashed(a))| == |a| && |multiset(Hashed(b))| == |b|;
    if a != [] {
      var init, last := a[..|a| - 1], a[|a| - 1];
      assert Hashed(a)[|a| - 1] == HashedLineOf(last) && HashedLineOf(last) in multiset(Hashed(a));
      assert HashedLineOf(last) in multiset(Hashed(b));
      var j :| 0 <= j < |b| && Hashed(b)[j] == HashedLineOf(last);
      var rest := b[..j] + b[j + 1..];
      Without(b, j);
      Without(a, |a| - 1);
      assert init + a[|a| - 1 + 1..] == init;
      assert HashedLineOf(b[j]) == HashedLineOf(last) && b[j].(name := "") == last.(name := "");
      Cancels(multiset(Hashed(init)), multiset(Hashed(rest)), HashedLineOf(last));
      SameHashedSameNameless(init, rest);
    }
  }

  lemma Cancels<T>(a: multiset<T>, b: multiset<T>, x: T)
    requires a + multiset{x} == b + multiset{x}
    ensures a == b
  {
    assert a == (a + multiset{x}) - multiset{x};
    assert b == (b + multiset{x}) - multiset{x};
  }

  lemma OneFewer<T>(items: seq<T>, j: nat)
    requires j < |items|
    ensures multiset(items) == multiset(items[..j] + items[j + 1..]) + multiset{items[j]}
  {
    assert items == items[..j] + [items[j]] + items[j + 1..];
  }

  lemma Without(items: seq<Line>, j: nat)
    requires j < |items|
    ensures var rest := items[..j] + items[j + 1..];
      && multiset(Hashed(items)) == multiset(Hashed(rest)) + multiset{HashedLineOf(items[j])}
      && multiset(Nameless(items)) == multiset(Nameless(rest)) + multiset{items[j].(name := "")}
  {
    var rest := items[..j] + items[j + 1..];
    assert Hashed(rest) == Hashed(items)[..j] + Hashed(items)[j + 1..];
    assert Nameless(rest) == Nameless(items)[..j] + Nameless(items)[j + 1..];
    OneFewer(Hashed(items), j);
    OneFewer(Nameless(items), j);
  }

  lemma HashIgnoresNames(ticket: PrintableTicket)
    ensures HashOf(ticket.(items := Nameless(ticket.items))) == HashOf(ticket)
  {
    SortKeepsHashed(ticket.items);
    assert Hashed(Nameless(Sort(ticket.items))) == Hashed(Sort(ticket.items));
  }

  // The same order and table, and the same lines as often, as far as they are hashed.
  predicate SameTicket(a: PrintableTicket, b: PrintableTicket) {
    a.orderId == b.orderId && a.tableNumber == b.tableNumber && multiset(Hashed(a.items)) == multiset(Hashed(b.items))
  }

  /**
   Tickets that hash the same are for the same order and table and carry the same lines as often, in any
   order; and, with at most one line a product, the other way round.
   */
  lemma HashTellsTicketsApart(a: PrintableTicket, b: PrintableTicket)
    ensures HashOf(a) == HashOf(b) ==> SameTicket(a, b)
    ensures DistinctProducts(a.items) ==> (HashOf(a) == HashOf(b) <==> SameTicket(a, b))
  {
    SortKeepsHashed(a.items);
    SortKeepsHashed(b.items);
    if DistinctProducts(a.items) && SameTicket(a, b) {
      SameHashedSameNameless(a.items, b.items);
      HashIgnoresNames(a);
      HashIgnoresNames(b);
      HashIgnoresLineOrder(a.(items := Nameless(a.items)), b.(items := Nameless(b.items)));
    }
  }
}
