/** The server-side cart (backend/routes/cart.js): the four handlers that change
    a user's cart and the one that reads it. The cart collection is a class
    holding one line list per user; each handler is a method whose new state is
    given by a pure function on the old line list, and the handlers' promises are
    proved about those functions. */
module CartRoutes {
  import opened Wrappers
  import opened CartSchema
  import opened Lists
  import opened ObjectIds

  // ------------------------------------------------------------------ line lists

  /** The product ids present in a line list. */
  function Ids(items: seq<Line>): set<Id> {
    set i | 0 <= i < |items| :: items[i].productId
  }

  lemma IdsConcat(a: seq<Line>, b: seq<Line>)
    ensures Ids(a + b) == Ids(a) + Ids(b)
  {
    var c := a + b;
    forall x | x in Ids(c) ensures x in Ids(a) + Ids(b) {
      var i :| 0 <= i < |c| && c[i].productId == x;
      if i < |a| { assert c[i] == a[i]; } else { assert c[i] == b[i - |a|]; }
    }
    forall x | x in Ids(a) + Ids(b) ensures x in Ids(c) {
      if x in Ids(a) {
        var i :| 0 <= i < |a| && a[i].productId == x;
        assert c[i] == a[i];
      } else {
        var i :| 0 <= i < |b| && b[i].productId == x;
        assert c[|a| + i] == b[i];
      }
    }
  }

  /** `Ids` of a non-empty list: its head's product and those of its tail. */
  lemma IdsCons(items: seq<Line>)
    requires items != []
    ensures Ids(items) == {items[0].productId} + Ids(items[1..])
  {
    assert items == [items[0]] + items[1..];
    IdsConcat([items[0]], items[1..]);
    IdsSingleton(items[0]);
  }

  lemma IdsSingleton(l: Line)
    ensures Ids([l]) == {l.productId}
  {
    assert [l][0] == l;
  }

  /** No product appears on two lines. */
  predicate Distinct(items: seq<Line>) {
    forall i, j :: 0 <= i < j < |items| ==> items[i].productId != items[j].productId
  }

  /** The total quantity of a product over all lines. */
  function QuantityOf(items: seq<Line>, pid: Id): int
    decreases |items|
  {
    if items == [] then 0
    else (if items[0].productId == pid then items[0].quantity else 0) + QuantityOf(items[1..], pid)
  }

  lemma {:induction false} QuantityOfConcat(a: seq<Line>, b: seq<Line>, pid: Id)
    ensures QuantityOf(a + b, pid) == QuantityOf(a, pid) + QuantityOf(b, pid)
    decreases |a|
  {
    if a == [] {
      assert a + b == b;
    } else {
      assert (a + b)[1..] == a[1..] + b;
      QuantityOfConcat(a[1..], b, pid);
    }
  }

  lemma {:induction false} QuantityOfAbsent(items: seq<Line>, pid: Id)
    requires pid !in Ids(items)
    ensures QuantityOf(items, pid) == 0
    decreases |items|
  {
    if items != [] {
      assert items[0].productId in Ids(items);
      assert Ids(items[1..]) <= Ids(items) by {
        forall x | x in Ids(items[1..]) ensures x in Ids(items) {
          var i :| 0 <= i < |items[1..]| && items[1..][i].productId == x;
          assert items[i + 1].productId == x;
        }
      }
      QuantityOfAbsent(items[1..], pid);
    }
  }

  /** Splitting a list around position `k`. */
  lemma QuantityAround(items: seq<Line>, k: nat, pid: Id)
    requires k < |items|
    ensures QuantityOf(items, pid) ==
      QuantityOf(items[..k], pid) + QuantityOf([items[k]], pid) + QuantityOf(items[k + 1..], pid)
  {
    assert items == items[..k] + [items[k]] + items[k + 1..];
    QuantityOfConcat(items[..k] + [items[k]], items[k + 1..], pid);
    QuantityOfConcat(items[..k], [items[k]], pid);
  }

  /** `items.findIndex(item => item.productId.toString() === pid)`. */
  function IndexOf(items: seq<Line>, pid: Id): (k: int)
    ensures -1 <= k < |items|
    ensures k >= 0 ==> items[k].productId == pid
    ensures k >= 0 ==> forall j :: 0 <= j < k ==> items[j].productId != pid
    ensures k == -1 <==> pid !in Ids(items)
    decreases |items|
  {
    if items == [] then -1
    else if items[0].productId == pid then 0
    else
      var k := IndexOf(items[1..], pid);
      IdsCons(items);
      if k == -1 then -1 else k + 1
  }

  /** Under distinctness a product's quantity is that of its one line. */
  lemma QuantityOfDistinct(items: seq<Line>, k: nat)
    requires k < |items|
    ensures Distinct(items) ==> QuantityOf(items, items[k].productId) == items[k].quantity
  {
    if !Distinct(items) { return; }
    var pid := items[k].productId;
    QuantityAround(items, k, pid);
    assert pid !in Ids(items[..k]);
    assert pid !in Ids(items[k + 1..]);
    QuantityOfAbsent(items[..k], pid);
    QuantityOfAbsent(items[k + 1..], pid);
  }

  /** The quantity change when line `k` is replaced by `l`. */
  lemma QuantityOfReplace(items: seq<Line>, k: nat, l: Line, pid: Id)
    requires k < |items|
    ensures QuantityOf(items[k := l], pid) ==
      QuantityOf(items, pid) - QuantityOf([items[k]], pid) + QuantityOf([l], pid)
  {
    var r := items[k := l];
    QuantityAround(items, k, pid);
    QuantityAround(r, k, pid);
    assert r[..k] == items[..k] && r[k + 1..] == items[k + 1..];
  }

  // ------------------------------------------------------------------ one line list

  /** POST's change to the line list: raise the first matching line, or append one. */
  function AddItems(items: seq<Line>, pid: Id, quantity: int): (r: seq<Line>)
    ensures Ids(r) == Ids(items) + {pid}
    ensures QuantityOf(r, pid) == QuantityOf(items, pid) + quantity
    ensures forall p :: p != pid ==> QuantityOf(r, p) == QuantityOf(items, p)
    ensures pid in Ids(items) ==> |r| == |items|
    ensures pid !in Ids(items) ==> r == items + [Line(pid, quantity)]
    ensures forall i :: 0 <= i < |items| && items[i].productId != pid ==> r[i] == items[i]
    ensures Distinct(items) ==> Distinct(r)
  {
    var k := IndexOf(items, pid);
    if k >= 0 then
      var r := items[k := Line(pid, items[k].quantity + quantity)];
      assert Ids(r) == Ids(items) by {
        assert forall i :: 0 <= i < |r| ==> r[i].productId == items[i].productId;
      }
      forall p ensures QuantityOf(r, p) == QuantityOf(items, p) + (if p == pid then quantity else 0) {
        QuantityOfReplace(items, k, Line(pid, items[k].quantity + quantity), p);
      }
      r
    else
      var r := items + [Line(pid, quantity)];
      IdsConcat(items, [Line(pid, quantity)]);
      IdsSingleton(Line(pid, quantity));
      assert forall i :: 0 <= i < |items| ==> items[i].productId in Ids(items);
      forall p ensures QuantityOf(r, p) == QuantityOf(items, p) + (if p == pid then quantity else 0) {
        QuantityOfConcat(items, [Line(pid, quantity)], p);
      }
      r
  }

  /** POST's change to the line list as the source writes it: `findIndex`
      compares each stored id, printed in lowercase, with the raw `productId`,
      while `push` stores the cast id. */
  function AddItemsAsWritten(items: seq<Line>, pid: Id, quantity: int): (r: seq<Line>)
    ensures IndexOf(items, pid) == -1 ==> r == items + [Line(Cast(pid), quantity)]
    ensures IndexOf(items, pid) >= 0 ==> |r| == |items| && Ids(r) == Ids(items)
  {
    var k := IndexOf(items, pid);
    if k >= 0 then
      var r := items[k := Line(items[k].productId, items[k].quantity + quantity)];
      assert forall i :: 0 <= i < |r| ==> r[i].productId == items[i].productId;
      r
    else items + [Line(Cast(pid), quantity)]
  }

  /** On a canonical id the source's step and the corrected one agree. */
  lemma AsWrittenAgreesOnCanonical(items: seq<Line>, pid: Id, quantity: int)
    requires IsCanonicalId(pid)
    ensures AddItemsAsWritten(items, pid, quantity) == AddItems(items, pid, quantity)
  {
    CastCanonical(pid);
  }

  /** As written, an id in uppercase digits of a product already in the cart
      pushes a second line for it; the corrected step raises the existing line. */
  lemma UpperIdDuplicatesLine()
    ensures AddItemsAsWritten([Line(SampleA, 1)], SampleAUpper, 1) == [Line(SampleA, 1), Line(SampleA, 1)]
    ensures !Distinct([Line(SampleA, 1), Line(SampleA, 1)])
    ensures AddItems([Line(SampleA, 1)], Cast(SampleAUpper), 1) == [Line(SampleA, 2)]
  {
    UpperSampleCast();
    var dup := [Line(SampleA, 1), Line(SampleA, 1)];
    assert dup[0].productId == dup[1].productId;
    assert IndexOf([Line(SampleA, 1)], SampleAUpper) == -1;
    assert IndexOf([Line(SampleA, 1)], SampleA) == 0;
    assert [Line(SampleA, 1)][0 := Line(SampleA, 1 + 1)] == [Line(SampleA, 2)];
  }

  /** PUT and DELETE compare the raw parameter with the stored ids too, so an id
      in uppercase digits finds no line: the update answers 404 and the remove
      keeps the cart. */
  lemma UpperIdMissesCartLine()
    ensures UpdateCart(Some([Line(SampleA, 1)]), SampleAUpper, Num(3)) == Err(NotFound("Product not in cart"))
    ensures RemoveFromCart(Some([Line(SampleA, 1)]), SampleAUpper) == Ok([Line(SampleA, 1)])
  {
    UpperSampleCast();
    assert SampleAUpper !in Ids([Line(SampleA, 1)]);
  }

  lemma QuantityOfSplice(items: seq<Line>, k: nat, pid: Id)
    requires k < |items|
    ensures QuantityOf(Splice(items, k), pid) == QuantityOf(items, pid) - QuantityOf([items[k]], pid)
  {
    QuantityAround(items, k, pid);
    QuantityOfConcat(items[..k], items[k + 1..], pid);
  }

  /** Splicing out a line of a list without duplicates keeps it without duplicates
      and drops that line's product. */
  lemma SpliceDistinct(items: seq<Line>, k: nat)
    requires k < |items|
    ensures Distinct(items) ==>
      Distinct(Splice(items, k)) && items[k].productId !in Ids(Splice(items, k))
  {
    var r := Splice(items, k);
    if Distinct(items) {
      forall i, j | 0 <= i < j < |r| ensures r[i].productId != r[j].productId {
        var i' := if i < k then i else i + 1;
        var j' := if j < k then j else j + 1;
        assert r[i] == items[i'] && r[j] == items[j'];
      }
      forall i | 0 <= i < |r| ensures r[i].productId != items[k].productId {
        var i' := if i < k then i else i + 1;
        assert r[i] == items[i'];
      }
    }
  }

  /** The filter itself, element by element. */
  function Filtered(items: seq<Line>, pid: Id): seq<Line>
    decreases |items|
  {
    if items == [] then []
    else (if items[0].productId == pid then [] else [items[0]]) + Filtered(items[1..], pid)
  }

  /** A line in front of a duplicate-free list whose product it does not repeat. */
  lemma DistinctCons(l: Line, rest: seq<Line>)
    requires Distinct(rest) && l.productId !in Ids(rest)
    ensures Distinct([l] + rest)
  {
    var r := [l] + rest;
    forall i, j | 0 <= i < j < |r| ensures r[i].productId != r[j].productId {
      assert r[j] == rest[j - 1];
      if i > 0 {
        assert r[i] == rest[i - 1];
      }
    }
  }

  lemma DistinctTail(items: seq<Line>)
    requires items != [] && Distinct(items)
    ensures Distinct(items[1..]) && items[0].productId !in Ids(items[1..])
  {
    var tail := items[1..];
    forall i | 0 <= i < |tail| ensures tail[i] == items[i + 1] && tail[i].productId != items[0].productId {
    }
  }

  lemma {:induction false} FilteredShape(items: seq<Line>, pid: Id)
    ensures Ids(Filtered(items, pid)) == Ids(items) - {pid}
    ensures |Filtered(items, pid)| <= |items|
    ensures forall i :: 0 <= i < |Filtered(items, pid)| ==> Filtered(items, pid)[i] in items
    ensures Distinct(items) ==> Distinct(Filtered(items, pid))
    decreases |items|
  {
    if items != [] {
      var tail := items[1..];
      var rest := Filtered(tail, pid);
      FilteredShape(tail, pid);
      IdsCons(items);
      assert forall x :: x in tail ==> x in items;
      if Distinct(items) {
        DistinctTail(items);
      }
      if items[0].productId != pid {
        var r := [items[0]] + rest;
        assert r[1..] == rest;
        IdsCons(r);
        if Distinct(items) {
          DistinctCons(items[0], rest);
        }
        forall i | 0 <= i < |r| ensures r[i] in items {
          if i > 0 { assert r[i] == rest[i - 1]; }
        }
      } else {
        assert Filtered(items, pid) == rest;
      }
    }
  }

  lemma {:induction false} FilteredQuantity(items: seq<Line>, pid: Id, p: Id)
    ensures QuantityOf(Filtered(items, pid), p) == if p == pid then 0 else QuantityOf(items, p)
    decreases |items|
  {
    if items != [] {
      var head := if items[0].productId == pid then [] else [items[0]];
      FilteredQuantity(items[1..], pid, p);
      QuantityOfConcat(head, Filtered(items[1..], pid), p);
      assert items == [items[0]] + items[1..];
      QuantityOfConcat([items[0]], items[1..], p);
      if items[0].productId != pid {
        assert QuantityOf(head, p) == QuantityOf([items[0]], p);
      }
    }
  }

  lemma {:induction false} FilteredUnchanged(items: seq<Line>, pid: Id)
    ensures pid !in Ids(items) ==> Filtered(items, pid) == items
    decreases |items|
  {
    if items != [] && pid !in Ids(items) {
      IdsCons(items);
      FilteredUnchanged(items[1..], pid);
      assert [items[0]] + items[1..] == items;
    }
  }

  /** `items.filter(item => item.productId.toString() !== pid)`. */
  function RemoveAll(items: seq<Line>, pid: Id): (r: seq<Line>)
    ensures Ids(r) == Ids(items) - {pid}
    ensures QuantityOf(r, pid) == 0
    ensures forall p :: p != pid ==> QuantityOf(r, p) == QuantityOf(items, p)
    ensures pid !in Ids(items) ==> r == items
    ensures ValidItems(items) ==> ValidItems(r)
    ensures Distinct(items) ==> Distinct(r)
    ensures |r| <= |items|
  {
    FilteredShape(items, pid);
    forall p ensures QuantityOf(Filtered(items, pid), p) == if p == pid then 0 else QuantityOf(items, p) {
      FilteredQuantity(items, pid, p);
    }
    FilteredUnchanged(items, pid);
    Filtered(items, pid)
  }

  /** The filter works line by line: a line of the product goes, any other stays. */
  lemma RemoveAllSingle(l: Line, pid: Id)
    ensures RemoveAll([l], pid) == if l.productId == pid then [] else [l]
  {
    assert [l][0] == l && [l][1..] == [];
    assert Filtered([l], pid) == (if l.productId == pid then [] else [l]) + Filtered([], pid);
  }

  /** The filter distributes over concatenation, so the remaining lines keep their order. */
  lemma {:induction false} RemoveAllConcat(a: seq<Line>, b: seq<Line>, pid: Id)
    ensures RemoveAll(a + b, pid) == RemoveAll(a, pid) + RemoveAll(b, pid)
    decreases |a|
  {
    if a == [] {
      assert a + b == b;
    } else {
      assert (a + b)[0] == a[0] && (a + b)[1..] == a[1..] + b;
      RemoveAllConcat(a[1..], b, pid);
    }
  }

  /** Removing twice removes no more than removing once. */
  lemma RemoveAllIdempotent(items: seq<Line>, pid: Id)
    ensures RemoveAll(RemoveAll(items, pid), pid) == RemoveAll(items, pid)
  {
  }

  /** In a cart without duplicate lines, updating a product's quantity to 0 or less
      (splicing out its line) has the same effect as removing it. */
  lemma SpliceIsRemoveAll(items: seq<Line>, pid: Id)
    requires Distinct(items) && pid in Ids(items)
    ensures Splice(items, IndexOf(items, pid)) == RemoveAll(items, pid)
  {
    SpliceIsFiltered(items, pid);
  }

  lemma {:induction false} SpliceIsFiltered(items: seq<Line>, pid: Id)
    requires Distinct(items) && pid in Ids(items)
    ensures Splice(items, IndexOf(items, pid)) == Filtered(items, pid)
    decreases |items|
  {
    IdsCons(items);
    DistinctTail(items);
    if items[0].productId == pid {
      SpliceHead(items, pid);
    } else {
      SpliceIsFiltered(items[1..], pid);
      SpliceStep(items, pid);
    }
  }

  /** The first line is the product's: splicing it out leaves the tail, which has no other. */
  lemma SpliceHead(items: seq<Line>, pid: Id)
    requires items != [] && items[0].productId == pid && pid !in Ids(items[1..])
    ensures Splice(items, IndexOf(items, pid)) == Filtered(items, pid)
  {
    FilteredUnchanged(items[1..], pid);
    assert Filtered(items, pid) == Filtered(items[1..], pid);
    assert Splice(items, 0) == items[..0] + items[1..];
  }

  /** The first line is another product's: both sides keep it in front of the tail's result. */
  lemma SpliceStep(items: seq<Line>, pid: Id)
    requires items != [] && items[0].productId != pid && pid in Ids(items[1..])
    requires Splice(items[1..], IndexOf(items[1..], pid)) == Filtered(items[1..], pid)
    ensures Splice(items, IndexOf(items, pid)) == Filtered(items, pid)
  {
    var k := IndexOf(items[1..], pid);
    IndexOfCons(items, pid);
    SpliceCons(items, k);
    assert Filtered(items, pid) == [items[0]] + Filtered(items[1..], pid);
  }

  lemma IndexOfCons(items: seq<Line>, pid: Id)
    requires items != [] && items[0].productId != pid && pid in Ids(items[1..])
    ensures IndexOf(items, pid) == IndexOf(items[1..], pid) + 1 && IndexOf(items[1..], pid) >= 0
  {
  }

  lemma SpliceCons(items: seq<Line>, k: nat)
    requires k + 1 < |items|
    ensures Splice(items, k + 1) == [items[0]] + Splice(items[1..], k)
  {
    var tail := items[1..];
    assert items[..k + 1] == [items[0]] + tail[..k];
    assert items[k + 2..] == tail[k + 1..];
  }

  // ------------------------------------------------------------------ handlers on values

  /** The user's stored lines, if the user has a cart. */
  function CartOf(carts: map<Id, seq<Line>>, u: Id): Option<seq<Line>> {
    if u in carts then Some(carts[u]) else None
  }

  /** POST: 500 when the id does not cast to an ObjectId; 404 when the cast id is
      in neither product collection; otherwise the lines after `AddItems` on the
      cast id, or 500 when a quantity falls below 1 at save. Looking the line up by
      the cast id corrects the source's raw comparison (`AddItemsAsWritten`); the
      two agree on every canonical id. */
  function AddToCart(cart: Option<seq<Line>>, pid: Id, quantity: Option<int>, top: set<Id>, newp: set<Id>)
    : (r: Result<seq<Line>>)
    ensures !IsObjectId(pid) ==> r == Err(ServerError)
    ensures IsObjectId(pid) && Cast(pid) !in top && Cast(pid) !in newp ==> r == Err(NotFound("Product not found"))
    ensures r.Ok? ==> IsObjectId(pid) && (Cast(pid) in top || Cast(pid) in newp)
    ensures r.Ok? ==> ValidItems(r.value) && Ids(r.value) == Ids(cart.GetOr([])) + {Cast(pid)}
    ensures r.Ok? ==>
      QuantityOf(r.value, Cast(pid)) == QuantityOf(cart.GetOr([]), Cast(pid)) + quantity.GetOr(DefaultQuantity)
    ensures r.Ok? ==> forall p :: p != Cast(pid) ==> QuantityOf(r.value, p) == QuantityOf(cart.GetOr([]), p)
    ensures Distinct(cart.GetOr([])) && r.Ok? ==> Distinct(r.value)
    ensures r.Err? && IsObjectId(pid) && (Cast(pid) in top || Cast(pid) in newp) ==> r == Err(ServerError)
  {
    if !IsObjectId(pid) then Err(ServerError)
    else if Cast(pid) !in top && Cast(pid) !in newp then Err(NotFound("Product not found"))
    else
      var items := AddItems(cart.GetOr([]), Cast(pid), quantity.GetOr(DefaultQuantity));
      if ValidItems(items) then Ok(items) else Err(ServerError)
  }

  /** On a valid cart of a known product the post succeeds exactly when the id casts
      and the cast product's total stays at least 1; this is what a negative quantity in
      the request body risks. */
  lemma AddToCartSucceedsIff(cart: seq<Line>, pid: Id, quantity: Option<int>, top: set<Id>, newp: set<Id>)
    requires ValidItems(cart) && Distinct(cart) && (Cast(pid) in top || Cast(pid) in newp)
    ensures AddToCart(Some(cart), pid, quantity, top, newp).Ok? <==>
      IsObjectId(pid) && QuantityOf(cart, Cast(pid)) + quantity.GetOr(DefaultQuantity) >= MinQuantity
  {
    var c := Cast(pid);
    var q := quantity.GetOr(DefaultQuantity);
    var items := AddItems(cart, c, q);
    var k := IndexOf(items, c);
    QuantityOfDistinct(items, k);
    if c in Ids(cart) {
      QuantityOfDistinct(cart, IndexOf(cart, c));
      forall i | 0 <= i < |items| && i != k ensures items[i].quantity >= MinQuantity {
        assert items[i].productId != c;
        assert items[i] == cart[i];
      }
    } else {
      QuantityOfAbsent(cart, c);
      assert items == cart + [Line(c, q)];
    }
  }

  /** The `quantity` of a PUT body: left out, sent as JSON `null`, or a number. */
  datatype BodyQuantity = Absent | Null | Num(n: int)

  /** The PUT's `quantity <= 0` test: JavaScript compares `null` as 0, so a
      `null` quantity passes it; `undefined` compares as NaN and does not. */
  predicate AtMostZero(q: BodyQuantity) {
    q.Null? || (q.Num? && q.n <= 0)
  }

  /** PUT: 404 without a cart or without the product's line; a quantity of 0 or
      less, or `null`, removes the line; a positive one replaces the line's
      quantity; an absent one is assigned as `undefined` and fails `required` at
      save. */
  function UpdateCart(cart: Option<seq<Line>>, pid: Id, quantity: BodyQuantity): (r: Result<seq<Line>>)
    ensures cart.None? ==> r == Err(NotFound("Cart not found"))
    ensures cart.Some? && pid !in Ids(cart.value) ==> r == Err(NotFound("Product not in cart"))
    ensures cart.Some? && pid in Ids(cart.value) && quantity.Absent? ==> r == Err(ServerError)
    ensures r.Ok? && AtMostZero(quantity) ==> |r.value| == |cart.value| - 1
    ensures r.Ok? && AtMostZero(quantity) && Distinct(cart.value) ==> pid !in Ids(r.value)
    ensures r.Ok? && quantity.Num? && quantity.n > 0 && Distinct(cart.value) ==> QuantityOf(r.value, pid) == quantity.n
    ensures r.Ok? && quantity.Num? && quantity.n > 0 ==> Ids(r.value) == Ids(cart.value)
    ensures r.Ok? ==> cart.Some? && pid in Ids(cart.value)
    // the line is spliced out, or replaced where it stands with the others in place
    ensures r.Ok? && AtMostZero(quantity) ==> r.value == Splice(cart.value, IndexOf(cart.value, pid))
    ensures r.Ok? && quantity.Num? && quantity.n > 0 ==>
      var k := IndexOf(cart.value, pid);
      && |r.value| == |cart.value| && r.value[k] == Line(pid, quantity.n)
      && forall j :: 0 <= j < |r.value| && j != k ==> r.value[j] == cart.value[j]
    ensures r.Ok? && Distinct(cart.value) ==>
      Distinct(r.value) && forall p :: p != pid ==> QuantityOf(r.value, p) == QuantityOf(cart.value, p)
    ensures r.Ok? ==> ValidItems(r.value)
    ensures cart.Some? && ValidItems(cart.value) ==> (r.Ok? <==> pid in Ids(cart.value) && !quantity.Absent?)
  {
    if cart.None? then Err(NotFound("Cart not found"))
    else
      var items := cart.value;
      var k := IndexOf(items, pid);
      if k == -1 then Err(NotFound("Product not in cart"))
      else if quantity.Absent? then Err(ServerError)
      else if AtMostZero(quantity) then
        var r := Splice(items, k);
        SpliceDistinct(items, k);
        (forall p | p != pid ensures QuantityOf(r, p) == QuantityOf(items, p) {
           QuantityOfSplice(items, k, p);
         }
         if ValidItems(r) then Ok(r) else Err(ServerError))
      else
        var r := items[k := Line(items[k].productId, quantity.n)];
        assert Ids(r) == Ids(items) by {
          assert forall i :: 0 <= i < |r| ==> r[i].productId == items[i].productId;
        }
        forall p | p != pid ensures QuantityOf(r, p) == QuantityOf(items, p) {
          QuantityOfReplace(items, k, r[k], p);
        }
        QuantityOfDistinct(r, k);
        if ValidItems(r) then Ok(r) else Err(ServerError)
  }

  /** DELETE one product: 404 without a cart, otherwise every line of the product
      goes (a product not in the cart leaves it as it was). */
  function RemoveFromCart(cart: Option<seq<Line>>, pid: Id): (r: Result<seq<Line>>)
    ensures cart.None? ==> r == Err(NotFound("Cart not found"))
    ensures cart.Some? ==> r.Ok? && pid !in Ids(r.value) && Ids(r.value) == Ids(cart.value) - {pid}
    ensures cart.Some? ==> forall p :: p != pid ==> QuantityOf(r.value, p) == QuantityOf(cart.value, p)
    ensures cart.Some? && pid !in Ids(cart.value) ==> r == Ok(cart.value)
    ensures cart.Some? && ValidItems(cart.value) ==> ValidItems(r.value)
  {
    if cart.None? then Err(NotFound("Cart not found")) else Ok(RemoveAll(cart.value, pid))
  }

  /** Removing a product keeps the other lines in their order. */
  lemma RemoveFromCartKeepsOrder(a: seq<Line>, b: seq<Line>, pid: Id)
    ensures RemoveFromCart(Some(a + b), pid) == Ok(RemoveAll(a, pid) + RemoveAll(b, pid))
  {
    RemoveAllConcat(a, b, pid);
  }

  /** Removing a product is idempotent. */
  lemma RemoveFromCartIdempotent(cart: seq<Line>, pid: Id)
    ensures RemoveFromCart(Some(RemoveFromCart(Some(cart), pid).value), pid) == RemoveFromCart(Some(cart), pid)
  {
    RemoveAllIdempotent(cart, pid);
  }

  /** On a cart without duplicates, an update to 0 or less, or to `null`, is the
      same as a removal. */
  lemma UpdateToZeroIsRemove(cart: seq<Line>, pid: Id, q: BodyQuantity)
    requires Distinct(cart) && ValidItems(cart) && pid in Ids(cart) && AtMostZero(q)
    ensures UpdateCart(Some(cart), pid, q) == RemoveFromCart(Some(cart), pid)
  {
    SpliceIsRemoveAll(cart, pid);
  }

  /** Adding p1 twice (2, then 3) gives one line of 5, and updating it to 0 empties the cart. */
  lemma ScenarioAddAddUpdate(top: set<Id>)
    requires SampleA in top
    ensures AddToCart(None, SampleA, Some(2), top, {}) == Ok([Line(SampleA, 2)])
    ensures AddToCart(Some([Line(SampleA, 2)]), SampleA, Some(3), top, {}) == Ok([Line(SampleA, 5)])
    ensures UpdateCart(Some([Line(SampleA, 5)]), SampleA, Num(0)) == Ok([])
  {
    SampleIdsCast();
    assert AddItems([], SampleA, 2) == [Line(SampleA, 2)];
    assert IndexOf([Line(SampleA, 2)], SampleA) == 0;
    assert [Line(SampleA, 2)][0 := Line(SampleA, 2 + 3)] == [Line(SampleA, 5)];
    assert AddItems([Line(SampleA, 2)], SampleA, 3) == [Line(SampleA, 5)];
    assert IndexOf([Line(SampleA, 5)], SampleA) == 0;
    assert Splice([Line(SampleA, 5)], 0) == [];
  }

  /** A `null` quantity removes the line and the PUT succeeds, while a missing
      one fails at save. */
  lemma NullQuantityRemovesLine()
    ensures UpdateCart(Some([Line(SampleA, 5), Line(SampleB, 1)]), SampleA, Null) == Ok([Line(SampleB, 1)])
    ensures UpdateCart(Some([Line(SampleA, 5), Line(SampleB, 1)]), SampleA, Absent) == Err(ServerError)
  {
    SampleIdsCast();
    assert IndexOf([Line(SampleA, 5), Line(SampleB, 1)], SampleA) == 0;
    assert Splice([Line(SampleA, 5), Line(SampleB, 1)], 0) == [Line(SampleB, 1)];
  }

  // ------------------------------------------------------------------ the collection

  /** POST's update of the loaded line list, in place: `quantity +=` on the
      matching line, or `push` of a new one. */
  method RaiseOrAppend(items0: seq<Line>, pid: Id, q: int) returns (items: seq<Line>)
    ensures items == AddItems(items0, pid, q)
  {
    items := items0;
    var k := IndexOf(items, pid);
    if k > -1 {
      items := items[k := Line(items[k].productId, items[k].quantity + q)];
    } else {
      items := items + [Line(pid, q)];
    }
  }

  class CartStore {
    /** Each user's cart lines, keyed by user id. */
    var carts: map<Id, seq<Line>>

    /** Every stored cart passed the line validator and lists each product once. */
    ghost predicate Valid()
      reads this
    {
      forall u :: u in carts ==> ValidItems(carts[u]) && Distinct(carts[u])
    }

    constructor ()
      ensures Valid() && carts == map[]
    {
      carts := map[];
    }

    /** GET: the populated cart, or an empty one for a user without a cart. */
    method Get(u: Id, top: set<Id>) returns (view: CartView)
      ensures view.userId == u
      ensures u !in carts ==> view.items == []
      ensures u in carts ==> view.items == Hydrate(carts[u], top)
    {
      if u in carts {
        view := CartView(u, Hydrate(carts[u], top));
      } else {
        view := CartView(u, []);
      }
    }

    /** POST: find the product in TopProduct, then NewProduct; load or create the
        cart; raise or append the line; save; answer with the populated cart. */
    method Add(u: Id, pid: Id, quantity: Option<int>, top: set<Id>, newp: set<Id>) returns (r: Result<CartView>)
      requires Valid()
      modifies this
      ensures Valid()
      ensures match AddToCart(CartOf(old(carts), u), pid, quantity, top, newp)
        case Ok(items) => carts == old(carts)[u := items] && r == Ok(CartView(u, Hydrate(items, top)))
        case Err(e) => carts == old(carts) && r == Err(e)
    {
      ghost var outcome := AddToCart(CartOf(carts, u), pid, quantity, top, newp);
      if !IsObjectId(pid) {
        return Err(ServerError);
      }
      if Cast(pid) !in top && Cast(pid) !in newp {
        return Err(NotFound("Product not found"));
      }
      var items := RaiseOrAppend(if u in carts then carts[u] else [], Cast(pid), quantity.GetOr(DefaultQuantity));
      assert CartOf(carts, u).GetOr([]) == if u in carts then carts[u] else [];
      if !ValidItems(items) {
        assert outcome == Err(ServerError);
        return Err(ServerError);
      }
      assert outcome == Ok(items);
      carts := carts[u := items];
      r := Ok(CartView(u, Hydrate(items, top)));
    }

    /** PUT /:productId. */
    method Update(u: Id, pid: Id, quantity: BodyQuantity, top: set<Id>) returns (r: Result<CartView>)
      requires Valid()
      modifies this
      ensures Valid()
      ensures match UpdateCart(CartOf(old(carts), u), pid, quantity)
        case Ok(items) => carts == old(carts)[u := items] && r == Ok(CartView(u, Hydrate(items, top)))
        case Err(e) => carts == old(carts) && r == Err(e)
    {
      if u !in carts {
        return Err(NotFound("Cart not found"));
      }
      var items := carts[u];
      var k := IndexOf(items, pid);
      if k == -1 {
        return Err(NotFound("Product not in cart"));
      }
      if quantity.Absent? {
        return Err(ServerError);
      }
      if AtMostZero(quantity) {
        items := Splice(items, k);
      } else {
        items := items[k := Line(items[k].productId, quantity.n)];
      }
      assert UpdateCart(CartOf(old(carts), u), pid, quantity) == Ok(items);
      carts := carts[u := items];
      r := Ok(CartView(u, Hydrate(items, top)));
    }

    /** DELETE /:productId. */
    method Remove(u: Id, pid: Id, top: set<Id>) returns (r: Result<CartView>)
      requires Valid()
      modifies this
      ensures Valid()
      ensures match RemoveFromCart(CartOf(old(carts), u), pid)
        case Ok(items) => carts == old(carts)[u := items] && r == Ok(CartView(u, Hydrate(items, top)))
        case Err(e) => carts == old(carts) && r == Err(e)
    {
      if u !in carts {
        return Err(NotFound("Cart not found"));
      }
      var items := RemoveAll(carts[u], pid);
      carts := carts[u := items];
      r := Ok(CartView(u, Hydrate(items, top)));
    }

    /** DELETE /: drops the cart whether or not one exists; always answers with no items. */
    method Clear(u: Id) returns (message: string, items: seq<HydratedLine>)
      requires Valid()
      modifies this
      ensures Valid()
      ensures carts == old(carts) - {u}
      ensures message == "Cart cleared" && items == []
    {
      carts := carts - {u};
      message := "Cart cleared";
      items := [];
    }
  }

  /** After clearing, reading the cart gives the empty view. */
  lemma ClearedCartReadsEmpty(carts: map<Id, seq<Line>>, u: Id)
    ensures CartOf(carts - {u}, u).None?
  {
  }
}
