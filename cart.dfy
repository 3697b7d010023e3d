/**
 * The customer's cart (frontend/src/apps/customer/pages/CustomerDashboard.js):
 * a list of lines keyed by medicine id, the operations that rebuild it, its
 * totals, and checkout, which groups the lines by pharmacy and posts one order
 * per pharmacy, one after another, clearing the cart only when every post
 * succeeded.
 */
module Cart {
  import opened Wrappers
  import opened Backend

  datatype Medicine = Medicine(id: string, name: string, price: real)

  datatype PharmacyInfo = PharmacyInfo(id: string, businessName: string)

  /** One hit of the medicine search, as the search endpoint returns it. */
  datatype SearchResult = SearchResult(
    medicine: Medicine, pharmacy: PharmacyInfo, distanceKm: real, estimatedTime: int)

  /** A cart line: the search hit it was created from, plus a quantity. */
  datatype Line = Line(
    medicine: Medicine, pharmacy: PharmacyInfo, distanceKm: real, estimatedTime: int, quantity: int)

  // ---------------------------------------------------------------------
  // The cart invariant

  predicate Contains(cart: seq<Line>, id: string)
  {
    exists i :: 0 <= i < |cart| && cart[i].medicine.id == id
  }

  predicate UniqueIds(cart: seq<Line>)
  {
    forall i, j :: 0 <= i < j < |cart| ==> cart[i].medicine.id != cart[j].medicine.id
  }

  /** No two lines share a medicine id and every quantity is at least 1. */
  predicate WellFormed(cart: seq<Line>)
  {
    UniqueIds(cart) && forall i :: 0 <= i < |cart| ==> cart[i].quantity >= 1
  }

  // ---------------------------------------------------------------------
  // addToCart, removeFromCart, updateQuantity

  function NewLine(r: SearchResult): Line
  {
    Line(r.medicine, r.pharmacy, r.distanceKm, r.estimatedTime, 1)
  }

  /** Every line with that id gets one more unit. */
  function Incremented(cart: seq<Line>, id: string): (r: seq<Line>)
    ensures |r| == |cart|
  {
    seq(|cart|, i requires 0 <= i < |cart| =>
      if cart[i].medicine.id == id then cart[i].(quantity := cart[i].quantity + 1) else cart[i])
  }

  /** The cart after addToCart(r). */
  function Added(cart: seq<Line>, r: SearchResult): (c: seq<Line>)
    ensures |c| == if Contains(cart, r.medicine.id) then |cart| else |cart| + 1
  {
    if Contains(cart, r.medicine.id) then Incremented(cart, r.medicine.id)
    else cart + [NewLine(r)]
  }

  /** The cart after removeFromCart(id): the lines with other ids, in order. */
  function Removed(cart: seq<Line>, id: string): (r: seq<Line>)
    ensures |r| <= |cart|
    ensures forall i :: 0 <= i < |r| ==> r[i].medicine.id != id
  {
    if cart == [] then []
    else
      var init := cart[..|cart| - 1];
      var last := cart[|cart| - 1];
      assert cart == init + [last];
      if last.medicine.id == id then Removed(init, id) else Removed(init, id) + [last]
  }

  /** The cart after updateQuantity(id, n): a quantity below 1 removes the line. */
  function WithQuantity(cart: seq<Line>, id: string, n: int): (r: seq<Line>)
    ensures n < 1 ==> r == Removed(cart, id)
    ensures n >= 1 ==> |r| == |cart|
  {
    if n < 1 then Removed(cart, id)
    else
      seq(|cart|, i requires 0 <= i < |cart| =>
        if cart[i].medicine.id == id then cart[i].(quantity := n) else cart[i])
  }

  // ---------------------------------------------------------------------
  // Totals

  function LineTotal(l: Line): real
  {
    l.medicine.price * l.quantity as real
  }

  /** getTotalAmount: the running sum of price times quantity, from the left. */
  function TotalAmount(cart: seq<Line>): real
  {
    if cart == [] then 0.0 else TotalAmount(cart[..|cart| - 1]) + LineTotal(cart[|cart| - 1])
  }

  /** The "Total Items" figure of the cart summary: the sum of the quantities. */
  function ItemCount(cart: seq<Line>): int
  {
    if cart == [] then 0 else ItemCount(cart[..|cart| - 1]) + cart[|cart| - 1].quantity
  }

  lemma {:induction false} TotalAppend(a: seq<Line>, b: seq<Line>)
    ensures TotalAmount(a + b) == TotalAmount(a) + TotalAmount(b)
    ensures ItemCount(a + b) == ItemCount(a) + ItemCount(b)
  {
    if b == [] {
      assert a + b == a;
    } else {
      assert (a + b)[..|a + b| - 1] == a + b[..|b| - 1];
      TotalAppend(a, b[..|b| - 1]);
    }
  }

  /** Changing one line moves the totals by the difference of that line alone. */
  lemma {:induction false} TotalPointUpdate(c: seq<Line>, d: seq<Line>, k: nat)
    requires |c| == |d| && k < |c|
    requires forall j :: 0 <= j < |c| && j != k ==> d[j] == c[j]
    ensures TotalAmount(d) == TotalAmount(c) - LineTotal(c[k]) + LineTotal(d[k])
    ensures ItemCount(d) == ItemCount(c) - c[k].quantity + d[k].quantity
  {
    var n := |c|;
    if k == n - 1 {
      assert c[..n - 1] == d[..n - 1];
    } else {
      TotalPointUpdate(c[..n - 1], d[..n - 1], k);
    }
  }

  /** In a cart with unique ids, two different lines have different ids. */
  lemma DistinctIds(cart: seq<Line>, j: nat, k: nat)
    requires UniqueIds(cart) && j < |cart| && k < |cart| && j != k
    ensures cart[j].medicine.id != cart[k].medicine.id
  {
    if k < j {
      assert cart[k].medicine.id != cart[j].medicine.id;
    }
  }

  /**
   * Adding a medicine already at index k adds one to that line's quantity
   * (keeping the line's own medicine data); every other line, the length and
   * the order stay; the item count grows by one and the total by that line's
   * price.
   */
  lemma AddExisting(cart: seq<Line>, r: SearchResult, k: nat)
    requires UniqueIds(cart) && k < |cart| && cart[k].medicine.id == r.medicine.id
    ensures |Added(cart, r)| == |cart|
    ensures Added(cart, r)[k] == cart[k].(quantity := cart[k].quantity + 1)
    ensures forall j :: 0 <= j < |cart| && j != k ==> Added(cart, r)[j] == cart[j]
    ensures ItemCount(Added(cart, r)) == ItemCount(cart) + 1
    ensures TotalAmount(Added(cart, r)) == TotalAmount(cart) + cart[k].medicine.price
  {
    var c := Added(cart, r);
    forall j | 0 <= j < |cart| && j != k ensures c[j] == cart[j] {
      DistinctIds(cart, j, k);
    }
    TotalPointUpdate(cart, c, k);
    UnitMore(cart[k]);
  }

  /** One more unit of a line costs one more unit price. */
  lemma UnitMore(l: Line)
    ensures LineTotal(l.(quantity := l.quantity + 1)) == LineTotal(l) + l.medicine.price
  {
    var p, q := l.medicine.price, l.quantity as real;
    assert (l.quantity + 1) as real == q + 1.0;
    assert p * (q + 1.0) == p * q + p;
  }

  /** Adding a medicine not in the cart appends one line with quantity 1. */
  lemma AddNew(cart: seq<Line>, r: SearchResult)
    requires !Contains(cart, r.medicine.id)
    ensures Added(cart, r) == cart + [Line(r.medicine, r.pharmacy, r.distanceKm, r.estimatedTime, 1)]
    ensures ItemCount(Added(cart, r)) == ItemCount(cart) + 1
    ensures TotalAmount(Added(cart, r)) == TotalAmount(cart) + r.medicine.price
  {
    TotalAppend(cart, [NewLine(r)]);
    assert [NewLine(r)][..0] == [];
  }

  /** Adding the same search hit n times to an empty cart gives one line of quantity n. */
  function AddTimes(cart: seq<Line>, r: SearchResult, n: nat): seq<Line>
  {
    if n == 0 then cart else Added(AddTimes(cart, r, n - 1), r)
  }

  lemma {:induction false} AddRepeatedly(r: SearchResult, n: nat)
    requires n >= 1
    ensures AddTimes([], r, n) == [NewLine(r).(quantity := n)]
  {
    if n == 1 {
      assert !Contains([], r.medicine.id);
    } else {
      AddRepeatedly(r, n - 1);
      var c := AddTimes([], r, n - 1);
      assert c[0].medicine.id == r.medicine.id;
      assert Contains(c, r.medicine.id);
      assert Incremented(c, r.medicine.id) == [NewLine(r).(quantity := n)];
    }
  }

  /** Removing the id of line k, which no other line has, leaves the other lines, in order. */
  lemma {:induction false} RemoveAtShape(cart: seq<Line>, k: nat)
    requires k < |cart|
    requires forall j :: 0 <= j < |cart| && j != k ==> cart[j].medicine.id != cart[k].medicine.id
    ensures Removed(cart, cart[k].medicine.id) == cart[..k] + cart[k + 1..]
  {
    var id := cart[k].medicine.id;
    var n := |cart|;
    var init, last := cart[..n - 1], cart[n - 1];
    assert cart == init + [last];
    if k == n - 1 {
      assert !Contains(init, id) by {
        forall j | 0 <= j < |init| ensures init[j].medicine.id != id {
          assert init[j] == cart[j];
        }
      }
      RemoveAbsent(init, id);
      assert cart[..k] + cart[k + 1..] == init;
    } else {
      assert init[k] == cart[k];
      assert forall j :: 0 <= j < |init| && j != k ==> init[j].medicine.id != id by {
        forall j | 0 <= j < |init| && j != k ensures init[j].medicine.id != id {
          assert init[j] == cart[j];
        }
      }
      RemoveAtShape(init, k);
      assert last.medicine.id != id;
      assert Removed(cart, id) == Removed(init, id) + [last];
      assert init[..k] + init[k + 1..] + [last] == cart[..k] + cart[k + 1..];
    }
  }

  /** Dropping a line from between two parts lowers the totals by that line. */
  lemma DropTotals(front: seq<Line>, l: Line, back: seq<Line>)
    ensures TotalAmount(front + [l] + back) == TotalAmount(front + back) + LineTotal(l)
    ensures ItemCount(front + [l] + back) == ItemCount(front + back) + l.quantity
  {
    TotalAppend(front + [l], back);
    TotalAppend(front, [l]);
    TotalAppend(front, back);
    SingleLine(l);
  }

  lemma SingleLine(l: Line)
    ensures TotalAmount([l]) == LineTotal(l) && ItemCount([l]) == l.quantity
  {
    assert [l][..0] == [];
  }

  /**
   * Removing the id of line k, which no other line has, leaves the other
   * lines in order; the totals drop by that line.
   */
  lemma RemoveAt(cart: seq<Line>, k: nat)
    requires k < |cart|
    requires forall j :: 0 <= j < |cart| && j != k ==> cart[j].medicine.id != cart[k].medicine.id
    ensures Removed(cart, cart[k].medicine.id) == cart[..k] + cart[k + 1..]
    ensures TotalAmount(Removed(cart, cart[k].medicine.id)) == TotalAmount(cart) - LineTotal(cart[k])
    ensures ItemCount(Removed(cart, cart[k].medicine.id)) == ItemCount(cart) - cart[k].quantity
  {
    var front, l, back := cart[..k], cart[k], cart[k + 1..];
    RemoveAtShape(cart, k);
    assert cart == front + [l] + back;
    DropTotals(front, l, back);
  }


  /** Removing an id that is not in the cart changes nothing. */
  lemma {:induction false} RemoveAbsent(cart: seq<Line>, id: string)
    requires !Contains(cart, id)
    ensures Removed(cart, id) == cart
  {
    if cart != [] {
      var init := cart[..|cart| - 1];
      assert !Contains(init, id) by {
        forall j | 0 <= j < |init| ensures init[j].medicine.id != id {
          assert cart[j] == init[j];
        }
      }
      RemoveAbsent(init, id);
      assert cart[|cart| - 1].medicine.id != id;
    }
  }

  /** Removal keeps each remaining line as often as the cart has it, or less. */
  lemma {:induction false} RemovedSubMultiset(cart: seq<Line>, id: string)
    ensures multiset(Removed(cart, id)) <= multiset(cart)
  {
    if cart != [] {
      var init, last := cart[..|cart| - 1], cart[|cart| - 1];
      RemovedSubMultiset(init, id);
      assert cart == init + [last];
    }
  }

  /** Every line of a removal result comes from the cart. */
  lemma RemovedFrom(cart: seq<Line>, id: string, i: nat)
    requires i < |Removed(cart, id)|
    ensures exists j :: 0 <= j < |cart| && cart[j] == Removed(cart, id)[i]
  {
    var l := Removed(cart, id)[i];
    RemovedSubMultiset(cart, id);
    assert l in multiset(Removed(cart, id));
    assert l in multiset(cart);
  }

  /** removeFromCart keeps the cart invariant. */
  lemma {:induction false} RemovedWellFormed(cart: seq<Line>, id: string)
    requires WellFormed(cart)
    ensures WellFormed(Removed(cart, id))
  {
    if cart != [] {
      var init := cart[..|cart| - 1];
      var last := cart[|cart| - 1];
      var rest := Removed(init, id);
      RemovedWellFormed(init, id);
      if last.medicine.id != id {
        forall i | 0 <= i < |rest| ensures rest[i].medicine.id != last.medicine.id {
          RemovedFrom(init, id, i);
          var j :| 0 <= j < |init| && init[j] == rest[i];
          DistinctIds(cart, j, |cart| - 1);
        }
        assert Removed(cart, id) == rest + [last];
      }
    }
  }

  /** addToCart keeps the cart invariant. */
  lemma AddedWellFormed(cart: seq<Line>, r: SearchResult)
    requires WellFormed(cart)
    ensures WellFormed(Added(cart, r))
  {
    var c := Added(cart, r);
    if Contains(cart, r.medicine.id) {
      assert UniqueIds(c) by {
        forall i, j | 0 <= i < j < |c| ensures c[i].medicine.id != c[j].medicine.id {
          assert c[i].medicine.id == cart[i].medicine.id;
          assert c[j].medicine.id == cart[j].medicine.id;
        }
      }
      forall i | 0 <= i < |c| ensures c[i].quantity >= 1 {
        assert cart[i].quantity >= 1;
      }
    } else {
      assert c == cart + [NewLine(r)];
      assert UniqueIds(c) by {
        forall i, j | 0 <= i < j < |c| ensures c[i].medicine.id != c[j].medicine.id {
          if j < |cart| {
            DistinctIds(cart, i, j);
          }
        }
      }
    }
  }

  /** updateQuantity keeps the cart invariant. */
  lemma WithQuantityWellFormed(cart: seq<Line>, id: string, n: int)
    requires WellFormed(cart)
    ensures WellFormed(WithQuantity(cart, id, n))
  {
    if n < 1 {
      RemovedWellFormed(cart, id);
    } else {
      var c := WithQuantity(cart, id, n);
      assert UniqueIds(c) by {
        forall i, j | 0 <= i < j < |c| ensures c[i].medicine.id != c[j].medicine.id {
          assert c[i].medicine.id == cart[i].medicine.id;
          assert c[j].medicine.id == cart[j].medicine.id;
        }
      }
      forall i | 0 <= i < |c| ensures c[i].quantity >= 1 {
        assert cart[i].quantity >= 1;
      }
    }
  }

  /** addToCart, removeFromCart and updateQuantity all keep the cart invariant. */
  lemma InvariantKept(cart: seq<Line>, r: SearchResult, id: string, n: int)
    requires WellFormed(cart)
    ensures WellFormed(Added(cart, r))
    ensures WellFormed(Removed(cart, id))
    ensures WellFormed(WithQuantity(cart, id, n))
  {
    AddedWellFormed(cart, r);
    RemovedWellFormed(cart, id);
    WithQuantityWellFormed(cart, id, n);
  }

  /**
   * Setting line k's quantity to n >= 1 changes that quantity alone;
   * setting it below 1 is removing the line.
   */
  lemma SetQuantityAt(cart: seq<Line>, k: nat, n: int)
    requires UniqueIds(cart) && k < |cart|
    ensures n < 1 ==> WithQuantity(cart, cart[k].medicine.id, n) == cart[..k] + cart[k + 1..]
    ensures n >= 1 ==> WithQuantity(cart, cart[k].medicine.id, n)[k] == cart[k].(quantity := n)
    ensures n >= 1 ==> forall j :: 0 <= j < |cart| && j != k ==> WithQuantity(cart, cart[k].medicine.id, n)[j] == cart[j]
    ensures n >= 1 ==> ItemCount(WithQuantity(cart, cart[k].medicine.id, n)) == ItemCount(cart) - cart[k].quantity + n
  {
    var id := cart[k].medicine.id;
    if n < 1 {
      forall j | 0 <= j < |cart| && j != k ensures cart[j].medicine.id != id {
        DistinctIds(cart, j, k);
      }
      RemoveAt(cart, k);
    } else {
      var c := WithQuantity(cart, id, n);
      forall j | 0 <= j < |cart| && j != k ensures c[j] == cart[j] {
        DistinctIds(cart, j, k);
      }
      TotalPointUpdate(cart, c, k);
    }
  }

  // ---------------------------------------------------------------------
  // Grouping by pharmacy

  /** The pharmacy ids of the cart, each once, in order of first appearance. */
  function PharmacyIds(cart: seq<Line>): (ks: seq<string>)
    ensures forall i, j :: 0 <= i < j < |ks| ==> ks[i] != ks[j]
    ensures cart != [] ==> ks != []
  {
    if cart == [] then []
    else
      var ks := PharmacyIds(cart[..|cart| - 1]);
      var p := cart[|cart| - 1].pharmacy.id;
      if p in ks then ks else ks + [p]
  }

  /** Appending a line lists its pharmacy at the end unless it is listed already. */
  lemma PharmacyIdsSnoc(c: seq<Line>, l: Line)
    ensures PharmacyIds(c + [l]) ==
      if l.pharmacy.id in PharmacyIds(c) then PharmacyIds(c) else PharmacyIds(c) + [l.pharmacy.id]
  {
    assert (c + [l])[..|c + [l]| - 1] == c;
  }

  /** The pharmacy of every line is listed. */
  lemma {:induction false} PharmacyIdsCover(cart: seq<Line>, i: nat)
    requires i < |cart|
    ensures cart[i].pharmacy.id in PharmacyIds(cart)
  {
    var init := cart[..|cart| - 1];
    if i < |init| {
      PharmacyIdsCover(init, i);
      assert cart[i] == init[i];
    }
  }

  /** Every listed pharmacy owns some line of the cart. */
  lemma {:induction false} PharmacyIdsListed(cart: seq<Line>, p: string)
    requires p in PharmacyIds(cart)
    ensures exists i :: 0 <= i < |cart| && cart[i].pharmacy.id == p
  {
    var init := cart[..|cart| - 1];
    if p in PharmacyIds(init) {
      PharmacyIdsListed(init, p);
      var i :| 0 <= i < |init| && init[i].pharmacy.id == p;
      assert cart[i] == init[i];
    }
  }

  /** The lines of one pharmacy, in cart order. */
  function LinesOf(cart: seq<Line>, p: string): (g: seq<Line>)
    ensures |g| <= |cart|
  {
    if cart == [] then []
    else
      LinesOf(cart[..|cart| - 1], p) +
      (if cart[|cart| - 1].pharmacy.id == p then [cart[|cart| - 1]] else [])
  }

  /**
   * Each group holds exactly the cart's lines of its pharmacy, each as often
   * as the cart does; a line of another pharmacy is in no group.
   */
  lemma {:induction false} LinesOfCount(cart: seq<Line>, p: string, l: Line)
    ensures multiset(LinesOf(cart, p))[l] == if l.pharmacy.id == p then multiset(cart)[l] else 0
  {
    if cart != [] {
      var init := cart[..|cart| - 1];
      LinesOfCount(init, p, l);
      assert cart == init + [cart[|cart| - 1]];
    }
  }

  /** Two different pharmacies' groups share no line. */
  lemma GroupsDisjoint(cart: seq<Line>, p: string, q: string)
    requires p != q
    ensures multiset(LinesOf(cart, p)) !! multiset(LinesOf(cart, q))
  {
    forall l ensures multiset(LinesOf(cart, p))[l] == 0 || multiset(LinesOf(cart, q))[l] == 0 {
      LinesOfCount(cart, p, l);
      LinesOfCount(cart, q, l);
    }
  }

  /** A pharmacy that owns no line has an empty group. */
  lemma {:induction false} LinesOfAbsent(cart: seq<Line>, p: string)
    requires p !in PharmacyIds(cart)
    ensures LinesOf(cart, p) == []
  {
    if cart != [] {
      LinesOfAbsent(cart[..|cart| - 1], p);
    }
  }

  /** The union of the groups of the pharmacies ks. */
  function Grouped(cart: seq<Line>, ks: seq<string>): multiset<Line>
  {
    if ks == [] then multiset{}
    else Grouped(cart, ks[..|ks| - 1]) + multiset(LinesOf(cart, ks[|ks| - 1]))
  }

  /** The sum of the totals of the groups of the pharmacies ks. */
  function GroupTotal(cart: seq<Line>, ks: seq<string>): real
  {
    if ks == [] then 0.0
    else GroupTotal(cart, ks[..|ks| - 1]) + TotalAmount(LinesOf(cart, ks[|ks| - 1]))
  }

  /** The prefix up to i + 1 is the prefix up to i followed by element i. */
  lemma PrefixSnoc(s: seq<Line>, i: nat)
    requires i < |s|
    ensures s[..i + 1] == s[..i] + [s[i]]
  {
  }

  /** Appending a line extends its own pharmacy's group by it and leaves the others. */
  lemma LinesOfSnoc(c: seq<Line>, l: Line, p: string)
    ensures LinesOf(c + [l], p) == LinesOf(c, p) + (if l.pharmacy.id == p then [l] else [])
  {
    assert (c + [l])[..|c + [l]| - 1] == c;
  }

  /**
   * Over distinct pharmacies ks, the groups together hold a line as often as
   * the cart does when its pharmacy is among ks, and not at all otherwise.
   */
  lemma {:induction false} GroupedCount(cart: seq<Line>, ks: seq<string>, x: Line)
    requires forall i, j :: 0 <= i < j < |ks| ==> ks[i] != ks[j]
    ensures Grouped(cart, ks)[x] == if x.pharmacy.id in ks then multiset(cart)[x] else 0
  {
    if ks != [] {
      var init, k := ks[..|ks| - 1], ks[|ks| - 1];
      assert ks == init + [k];
      GroupedCount(cart, init, x);
      LinesOfCount(cart, k, x);
      if x.pharmacy.id == k {
        assert x.pharmacy.id !in init;
      }
    }
  }

  /** Appending a line adds its total to its own pharmacy's group total only. */
  lemma {:induction false} GroupTotalExtend(c: seq<Line>, l: Line, ks: seq<string>)
    requires forall i, j :: 0 <= i < j < |ks| ==> ks[i] != ks[j]
    ensures GroupTotal(c + [l], ks) == GroupTotal(c, ks) + (if l.pharmacy.id in ks then LineTotal(l) else 0.0)
  {
    if ks != [] {
      var init := ks[..|ks| - 1];
      var k := ks[|ks| - 1];
      GroupTotalExtend(c, l, init);
      assert (c + [l])[..|c + [l]| - 1] == c;
      var g := LinesOf(c, k);
      if l.pharmacy.id == k {
        assert LinesOf(c + [l], k) == g + [l];
        assert (g + [l])[..|g|] == g;
        assert l.pharmacy.id !in init;
      } else {
        assert LinesOf(c + [l], k) == g;
      }
    }
  }

  /**
   * The groups partition the cart: their union, counted with multiplicity,
   * is the cart.
   */
  lemma GroupsCoverCart(cart: seq<Line>)
    ensures Grouped(cart, PharmacyIds(cart)) == multiset(cart)
  {
    var ks := PharmacyIds(cart);
    forall x ensures Grouped(cart, ks)[x] == multiset(cart)[x] {
      GroupedCount(cart, ks, x);
      if x in cart {
        var i :| 0 <= i < |cart| && cart[i] == x;
        PharmacyIdsCover(cart, i);
      }
    }
  }

  /** The groups' totals add up to the cart's total. */
  lemma {:induction false} GroupTotalsAddUp(cart: seq<Line>)
    ensures GroupTotal(cart, PharmacyIds(cart)) == TotalAmount(cart)
  {
    if cart != [] {
      var init, l := cart[..|cart| - 1], cart[|cart| - 1];
      var p := l.pharmacy.id;
      var ks := PharmacyIds(init);
      assert cart == init + [l];
      GroupTotalsAddUp(init);
      GroupTotalExtend(init, l, ks);
      assert TotalAmount(cart) == TotalAmount(init) + LineTotal(l);
      if p in ks {
        assert GroupTotal(cart, ks) == GroupTotal(init, ks) + LineTotal(l);
      } else {
        assert GroupTotal(cart, ks) == GroupTotal(init, ks) + 0.0;
        LinesOfAbsent(init, p);
        assert (ks + [p])[..|ks|] == ks;
        assert LinesOf(cart, p) == [l];
        assert [l][..0] == [];
        calc {
          GroupTotal(cart, PharmacyIds(cart));
          GroupTotal(cart, ks + [p]);
          GroupTotal(cart, ks) + TotalAmount([l]);
          GroupTotal(init, ks) + LineTotal(l);
        }
      }
    }
  }

  /**
   * The itemsByPharmacy dictionary after the first i lines: its keys in
   * insertion order are the pharmacies of those lines, and each key maps to
   * its pharmacy's lines among them.
   */
  ghost predicate Grouping(cart: seq<Line>, i: nat, keys: seq<string>, groups: map<string, seq<Line>>)
  {
    && i <= |cart|
    && keys == PharmacyIds(cart[..i])
    && (forall k :: k in groups <==> k in keys)
    && (forall k :: k in groups ==> groups[k] == LinesOf(cart[..i], k))
  }

  /** One step of the grouping loop: line i is pushed onto its pharmacy's list, created if missing. */
  lemma GroupStep(cart: seq<Line>, i: nat, keys: seq<string>, groups: map<string, seq<Line>>)
    requires i < |cart| && Grouping(cart, i, keys, groups)
    ensures var p := cart[i].pharmacy.id;
            var g := if p in groups then groups else groups[p := []];
            Grouping(cart, i + 1, if p in groups then keys else keys + [p], g[p := g[p] + [cart[i]]])
  {
    var p, item := cart[i].pharmacy.id, cart[i];
    var keys' := if p in groups then keys else keys + [p];
    var g := if p in groups then groups else groups[p := []];
    var g' := g[p := g[p] + [item]];
    var done, next := cart[..i], cart[..i + 1];
    assert next == done + [item] by {
      PrefixSnoc(cart, i);
    }
    assert keys' == PharmacyIds(next) by {
      PharmacyIdsSnoc(done, item);
    }
    assert forall k :: k in g' <==> k in keys';
    assert forall k :: k in g' ==> g'[k] == LinesOf(next, k) by {
      if p !in groups {
        LinesOfAbsent(done, p);
      }
      forall k | k in g' ensures g'[k] == LinesOf(next, k) {
        LinesOfSnoc(done, item, k);
      }
    }
  }

  /** After the whole cart, the dictionary holds exactly the groups of the cart. */
  lemma GroupingComplete(cart: seq<Line>, keys: seq<string>, groups: map<string, seq<Line>>)
    requires Grouping(cart, |cart|, keys, groups)
    ensures keys == PharmacyIds(cart)
    ensures forall k :: k in groups <==> k in keys
    ensures forall k :: k in groups ==> groups[k] == LinesOf(cart, k)
  {
    assert cart[..|cart|] == cart;
  }

  // ---------------------------------------------------------------------
  // Order payloads

  /** The posted items of a group: id, name, quantity and price of each line. */
  function ToItems(lines: seq<Line>): (items: seq<Item>)
    ensures |items| == |lines|
  {
    seq(|lines|, i requires 0 <= i < |lines| =>
      Item(lines[i].medicine.id, lines[i].medicine.name, lines[i].quantity, lines[i].medicine.price))
  }

  /** What the server will charge for a group is what the cart shows for it. */
  lemma {:induction false} ItemsTotal(lines: seq<Line>)
    ensures OrderTotal(ToItems(lines)) == TotalAmount(lines)
  {
    if lines != [] {
      var init := lines[..|lines| - 1];
      ItemsTotal(init);
      assert ToItems(lines)[..|lines| - 1] == ToItems(init);
    }
  }

  /** The order posted for one pharmacy's group: always cash on delivery. */
  function RequestFor(p: string, group: seq<Line>, lat: real, lng: real): OrderRequest
  {
    OrderRequest(p, ToItems(group), Location(lat, lng, "Current Location"), CashOnDelivery, "")
  }

  function RequestsFor(cart: seq<Line>, ks: seq<string>, lat: real, lng: real): (rs: seq<OrderRequest>)
    ensures |rs| == |ks|
  {
    seq(|ks|, i requires 0 <= i < |ks| => RequestFor(ks[i], LinesOf(cart, ks[i]), lat, lng))
  }

  /** The orders checkout posts, one per pharmacy, in order of first appearance. */
  function Requests(cart: seq<Line>, lat: real, lng: real): seq<OrderRequest>
  {
    RequestsFor(cart, PharmacyIds(cart), lat, lng)
  }

  function RequestsTotal(rs: seq<OrderRequest>): real
  {
    if rs == [] then 0.0 else RequestsTotal(rs[..|rs| - 1]) + OrderTotal(rs[|rs| - 1].items)
  }

  lemma {:induction false} RequestsForTotal(cart: seq<Line>, ks: seq<string>, lat: real, lng: real)
    ensures RequestsTotal(RequestsFor(cart, ks, lat, lng)) == GroupTotal(cart, ks)
  {
    if ks != [] {
      var init := ks[..|ks| - 1];
      RequestsForTotal(cart, init, lat, lng);
      assert RequestsFor(cart, ks, lat, lng)[..|ks| - 1] == RequestsFor(cart, init, lat, lng);
      ItemsTotal(LinesOf(cart, ks[|ks| - 1]));
    }
  }

  /** Built from a dictionary holding each key's group, the requests are those of the cart. */
  lemma RequestsFromGroups(
    cart: seq<Line>, keys: seq<string>, groups: map<string, seq<Line>>, lat: real, lng: real)
    requires forall k :: k in groups <==> k in keys
    requires forall k :: k in groups ==> groups[k] == LinesOf(cart, k)
    ensures seq(|keys|, i requires 0 <= i < |keys| => RequestFor(keys[i], groups[keys[i]], lat, lng))
            == RequestsFor(cart, keys, lat, lng)
  {
  }

  /** The totals the server computes for the posted orders add up to the cart's total. */
  lemma CheckoutTotalsAddUp(cart: seq<Line>, lat: real, lng: real)
    ensures RequestsTotal(Requests(cart, lat, lng)) == TotalAmount(cart)
  {
    RequestsForTotal(cart, PharmacyIds(cart), lat, lng);
    GroupTotalsAddUp(cart);
  }

  // ---------------------------------------------------------------------
  // The cart state of the dashboard

  datatype CheckoutOutcome = NothingToOrder | Placed | Failed(detail: string)

  class CartSession {
    var lines: seq<Line>

    /** The cart invariant: one line per medicine, each of at least one unit. */
    ghost predicate Valid()
      reads this
    {
      WellFormed(lines)
    }

    constructor ()
      ensures Valid()
      ensures lines == []
    {
      lines := [];
    }

    method AddToCart(r: SearchResult)
      requires Valid()
      modifies this
      ensures Valid()
      ensures lines == Added(old(lines), r)
    {
      AddedWellFormed(lines, r);
      lines := Added(lines, r);
    }

    method RemoveFromCart(id: string)
      requires Valid()
      modifies this
      ensures Valid()
      ensures lines == Removed(old(lines), id)
    {
      RemovedWellFormed(lines, id);
      lines := Removed(lines, id);
    }

    method UpdateQuantity(id: string, n: int)
      requires Valid()
      modifies this
      ensures Valid()
      ensures lines == WithQuantity(old(lines), id, n)
    {
      WithQuantityWellFormed(lines, id, n);
      lines := WithQuantity(lines, id, n);
    }

    /**
     * The itemsByPharmacy dictionary of handleCheckout, filled line by line:
     * its keys in insertion order, and for each key its lines in cart order.
     */
    method GroupByPharmacy() returns (keys: seq<string>, groups: map<string, seq<Line>>)
      ensures keys == PharmacyIds(lines)
      ensures forall k :: k in groups <==> k in keys
      ensures forall k :: k in groups ==> groups[k] == LinesOf(lines, k)
    {
      var cart := lines;
      keys, groups := [], map[];
      var i := 0;
      while i < |cart|
        invariant 0 <= i <= |cart|
        invariant Grouping(cart, i, keys, groups)
      {
        var item := cart[i];
        var p := item.pharmacy.id;
        GroupStep(cart, i, keys, groups);
        if p !in groups {
          groups := groups[p := []];
          keys := keys + [p];
        }
        groups := groups[p := groups[p] + [item]];
        i := i + 1;
      }
      GroupingComplete(cart, keys, groups);
    }

    /**
     * The loop of sequential posts: `respond(i, request)` is the server's
     * answer to the i-th post. Posting stops at the first failure, whose
     * detail is returned.
     */
    method PostInOrder(requests: seq<OrderRequest>, respond: (nat, OrderRequest) -> Result<(), string>)
      returns (posted: seq<OrderRequest>, failure: Option<string>)
      ensures posted <= requests
      ensures forall i :: 0 <= i < |posted| - 1 ==> respond(i, posted[i]).Ok?
      ensures failure.None? <==> posted == requests && forall i :: 0 <= i < |posted| ==> respond(i, posted[i]).Ok?
      ensures failure.Some? ==>
        |posted| > 0 && respond(|posted| - 1, posted[|posted| - 1]) == Err(failure.value)
    {
      posted := [];
      var i := 0;
      while i < |requests|
        invariant 0 <= i <= |requests|
        invariant posted == requests[..i]
        invariant forall j :: 0 <= j < i ==> respond(j, posted[j]).Ok?
      {
        var answer := respond(i, requests[i]);
        posted := posted + [requests[i]];
        if answer.Err? {
          assert !respond(i, posted[i]).Ok?;
          return posted, Some(answer.error);
        }
        i := i + 1;
      }
      assert posted == requests;
      failure := None;
    }

    /**
     * handleCheckout: nothing for an empty cart; otherwise the orders of the
     * groups are posted in order, and the cart is cleared only when every
     * post succeeded.
     */
    method HandleCheckout(lat: real, lng: real, respond: (nat, OrderRequest) -> Result<(), string>)
      returns (posted: seq<OrderRequest>, outcome: CheckoutOutcome)
      requires Valid()
      modifies this
      ensures Valid()
      ensures outcome == NothingToOrder <==> old(lines) == []
      ensures posted <= Requests(old(lines), lat, lng)
      ensures forall i :: 0 <= i < |posted| - 1 ==> respond(i, posted[i]).Ok?
      ensures outcome.Placed? <==>
        (old(lines) != [] && posted == Requests(old(lines), lat, lng) &&
         forall i :: 0 <= i < |posted| ==> respond(i, posted[i]).Ok?)
      ensures outcome.Failed? ==>
        |posted| > 0 && respond(|posted| - 1, posted[|posted| - 1]) == Err(outcome.detail)
      ensures outcome.Placed? ==> lines == []
      ensures !outcome.Placed? ==> lines == old(lines)
    {
      if |lines| == 0 {
        return [], NothingToOrder;
      }
      var keys, groups := GroupByPharmacy();
      var requests := seq(|keys|, i requires 0 <= i < |keys| => RequestFor(keys[i], groups[keys[i]], lat, lng));
      RequestsFromGroups(lines, keys, groups, lat, lng);
      var failure;
      posted, failure := PostInOrder(requests, respond);
      if failure.Some? {
        return posted, Failed(failure.value);
      }
      lines := [];
      outcome := Placed;
    }
  }
}
