/** The client cart state (frontend/src/context/CartContext.jsx): the badge count,
    the guest branches that keep the cart in the browser's storage, the clear
    action, and the loop that posts a guest cart to the server after login. The
    provider's state is a class; each guest branch replaces `items` by a pure
    function of the old list and writes the same list to storage. */
module CartContext {
  import opened Wrappers
  import opened CartSchema
  import opened CartRoutes
  import opened ObjectIds

  /** A line of the `items` state: one the guest branches built, or one of a server
      reply. A server line's `productId` is the populated product (or null), so it
      never equals a plain id and the guest branches never match it. */
  datatype Item = GuestLine(productId: Id, quantity: int) | ServerLine(line: HydratedLine)

  function QuantityField(i: Item): int {
    match i
    case GuestLine(_, q) => q
    case ServerLine(l) => l.quantity
  }

  /** `i.quantity || 1`: a zero quantity counts as one. */
  function Counted(q: int): (n: int)
    ensures q != 0 ==> n == q
    ensures q == 0 ==> n == 1
  {
    if q == 0 then 1 else q
  }

  /** `cartCount`: the sum of the counted quantities. */
  function CartCount(items: seq<Item>): (n: int)
    ensures (forall i :: 0 <= i < |items| ==> QuantityField(items[i]) >= 0) ==> n >= |items|
    decreases |items|
  {
    if items == [] then 0 else Counted(QuantityField(items[0])) + CartCount(items[1..])
  }

  lemma {:induction false} CartCountConcat(a: seq<Item>, b: seq<Item>)
    ensures CartCount(a + b) == CartCount(a) + CartCount(b)
    decreases |a|
  {
    if a == [] {
      assert a + b == b;
    } else {
      assert (a + b)[1..] == a[1..] + b;
      CartCountConcat(a[1..], b);
    }
  }

  /** The lines of a server reply, as the `items` state holds them. */
  function ServerItems(lines: seq<HydratedLine>): (r: seq<Item>)
    ensures |r| == |lines| && forall i :: 0 <= i < |lines| ==> r[i] == ServerLine(lines[i])
  {
    seq(|lines|, i requires 0 <= i < |lines| => ServerLine(lines[i]))
  }

  /** `i.productId === productId` for a guest branch. */
  predicate Matches(i: Item, pid: Id) {
    i.GuestLine? && i.productId == pid
  }

  /** How many lines match. */
  function MatchCount(items: seq<Item>, pid: Id): nat
    decreases |items|
  {
    if items == [] then 0 else (if Matches(items[0], pid) then 1 else 0) + MatchCount(items[1..], pid)
  }

  // ------------------------------------------------------------------ guest list operations

  /** `prev.map(i => i.productId === pid ? {...i, quantity: i.quantity + q} : i)`. */
  function Bump(items: seq<Item>, pid: Id, q: int): (r: seq<Item>)
    ensures |r| == |items|
    ensures forall i :: 0 <= i < |items| && Matches(items[i], pid) ==>
      r[i] == GuestLine(pid, items[i].quantity + q)
    ensures forall i :: 0 <= i < |items| && !Matches(items[i], pid) ==> r[i] == items[i]
    decreases |items|
  {
    if items == [] then []
    else
      var head := if Matches(items[0], pid) then GuestLine(pid, items[0].quantity + q) else items[0];
      [head] + Bump(items[1..], pid, q)
  }

  /** `items.map(i => i.productId === pid ? {...i, quantity: q} : i)`. */
  function SetQuantity(items: seq<Item>, pid: Id, q: int): (r: seq<Item>)
    ensures |r| == |items|
    ensures forall i :: 0 <= i < |items| && Matches(items[i], pid) ==> r[i] == GuestLine(pid, q)
    ensures forall i :: 0 <= i < |items| && !Matches(items[i], pid) ==> r[i] == items[i]
    decreases |items|
  {
    if items == [] then []
    else [if Matches(items[0], pid) then GuestLine(pid, q) else items[0]] + SetQuantity(items[1..], pid, q)
  }

  /** `items.filter(i => i.productId !== pid)`. */
  function Drop(items: seq<Item>, pid: Id): (r: seq<Item>)
    ensures |r| == |items| - MatchCount(items, pid)
    ensures forall i :: 0 <= i < |r| ==> !Matches(r[i], pid) && r[i] in items
    ensures MatchCount(items, pid) == 0 ==> r == items
    decreases |items|
  {
    if items == [] then []
    else if Matches(items[0], pid) then Drop(items[1..], pid)
    else [items[0]] + Drop(items[1..], pid)
  }

  lemma {:induction false} DropConcat(a: seq<Item>, b: seq<Item>, pid: Id)
    ensures Drop(a + b, pid) == Drop(a, pid) + Drop(b, pid)
    decreases |a|
  {
    if a == [] {
      assert a + b == b;
    } else {
      assert (a + b)[1..] == a[1..] + b;
      assert (a + b)[0] == a[0];
      DropConcat(a[1..], b, pid);
    }
  }

  /** The guest branch of `addToCart`: raise the matching lines, or append a new one. */
  function GuestAdd(items: seq<Item>, pid: Id, q: int): (r: seq<Item>)
    ensures MatchCount(items, pid) > 0 ==> r == Bump(items, pid, q)
    ensures MatchCount(items, pid) == 0 ==> r == items + [GuestLine(pid, q)]
  {
    if MatchCount(items, pid) > 0 then Bump(items, pid, q) else items + [GuestLine(pid, q)]
  }

  /** With one matching line of positive quantity and a non-negative increment,
      guest add raises the badge count by exactly the increment; a new product adds
      its counted quantity. */
  lemma {:induction false} GuestAddCount(items: seq<Item>, pid: Id, q: int)
    requires MatchCount(items, pid) <= 1 && q >= 0
    requires forall i :: 0 <= i < |items| && Matches(items[i], pid) ==> items[i].quantity > 0
    ensures MatchCount(items, pid) == 1 ==> CartCount(GuestAdd(items, pid, q)) == CartCount(items) + q
    ensures MatchCount(items, pid) == 0 ==> CartCount(GuestAdd(items, pid, q)) == CartCount(items) + Counted(q)
    decreases |items|
  {
    if MatchCount(items, pid) == 0 {
      CartCountConcat(items, [GuestLine(pid, q)]);
      assert [GuestLine(pid, q)][1..] == [];
    } else {
      BumpCount(items, pid, q);
    }
  }

  lemma {:induction false} BumpCount(items: seq<Item>, pid: Id, q: int)
    requires MatchCount(items, pid) <= 1 && q >= 0
    requires forall i :: 0 <= i < |items| && Matches(items[i], pid) ==> items[i].quantity > 0
    ensures CartCount(Bump(items, pid, q)) == CartCount(items) + (if MatchCount(items, pid) == 1 then q else 0)
    decreases |items|
  {
    if items != [] {
      var r := Bump(items, pid, q);
      assert r[1..] == Bump(items[1..], pid, q);
      assert forall i :: 0 <= i < |items[1..]| ==> items[1..][i] == items[i + 1];
      BumpCount(items[1..], pid, q);
      if Matches(items[0], pid) {
        assert r[0] == GuestLine(pid, items[0].quantity + q);
      } else {
        assert r[0] == items[0];
      }
    }
  }

  /** Removing after a guest add leaves what removing alone leaves. */
  lemma {:induction false} DropAfterBump(items: seq<Item>, pid: Id, q: int)
    ensures Drop(Bump(items, pid, q), pid) == Drop(items, pid)
    decreases |items|
  {
    if items != [] {
      var r := Bump(items, pid, q);
      assert r[1..] == Bump(items[1..], pid, q);
      DropAfterBump(items[1..], pid, q);
    }
  }

  lemma RemoveUndoesAdd(items: seq<Item>, pid: Id, q: int)
    ensures Drop(GuestAdd(items, pid, q), pid) == Drop(items, pid)
  {
    if MatchCount(items, pid) > 0 {
      DropAfterBump(items, pid, q);
    } else {
      DropConcat(items, [GuestLine(pid, q)], pid);
      assert Drop([GuestLine(pid, q)], pid) == [];
    }
  }

  /** Guest update to 0 keeps the line, and the badge counts it as 1, exactly as if
      the quantity had been set to 1. */
  lemma {:induction false} ZeroQuantityCountsAsOne(items: seq<Item>, pid: Id)
    ensures |SetQuantity(items, pid, 0)| == |items|
    ensures CartCount(SetQuantity(items, pid, 0)) == CartCount(SetQuantity(items, pid, 1))
    decreases |items|
  {
    if items != [] {
      assert SetQuantity(items, pid, 0)[1..] == SetQuantity(items[1..], pid, 0);
      assert SetQuantity(items, pid, 1)[1..] == SetQuantity(items[1..], pid, 1);
      ZeroQuantityCountsAsOne(items[1..], pid);
    }
  }

  // ------------------------------------------------------------------ merge, on values

  /** The guest lines whose post reached the server; `lost` holds the positions whose post threw. */
  function Delivered(guest: seq<Line>, lost: set<nat>): (r: seq<Line>)
    ensures |r| <= |guest|
    ensures lost == {} ==> r == guest
    decreases |guest|
  {
    if guest == [] then []
    else
      var rest := Delivered(guest[..|guest| - 1], lost);
      assert guest == guest[..|guest| - 1] + [guest[|guest| - 1]];
      if |guest| - 1 in lost then rest else rest + [guest[|guest| - 1]]
  }

  /** The server carts after the loop has posted, in order, every guest line not in `lost`. */
  function Replay(carts: map<Id, seq<Line>>, u: Id, guest: seq<Line>, lost: set<nat>, top: set<Id>, newp: set<Id>)
    : (r: map<Id, seq<Line>>)
    ensures forall v :: v != u ==> (v in r <==> v in carts)
    ensures forall v :: v != u && v in r ==> r[v] == carts[v]
    ensures (forall v :: v in carts ==> ValidItems(carts[v]) && Distinct(carts[v])) ==>
      forall v :: v in r ==> ValidItems(r[v]) && Distinct(r[v])
    decreases |guest|
  {
    if guest == [] then carts
    else
      var c := Replay(carts, u, guest[..|guest| - 1], lost, top, newp);
      var l := guest[|guest| - 1];
      if |guest| - 1 in lost then c else Posted(c, u, l, top, newp)
  }

  /** The server carts after one `POST /api/cart` of a guest line. */
  function Posted(c: map<Id, seq<Line>>, u: Id, l: Line, top: set<Id>, newp: set<Id>): map<Id, seq<Line>> {
    match AddToCart(CartOf(c, u), l.productId, Some(l.quantity), top, newp)
    case Ok(items) => c[u := items]
    case Err(_) => c
  }

  lemma QuantityOfNonNegative(items: seq<Line>, pid: Id)
    requires ValidItems(items)
    ensures QuantityOf(items, pid) >= 0
    decreases |items|
  {
    if items != [] {
      assert ValidItems(items[1..]) by {
        assert forall i :: 0 <= i < |items[1..]| ==> items[1..][i] == items[i + 1];
      }
      QuantityOfNonNegative(items[1..], pid);
    }
  }

  /** A guest line the server takes whatever the cart holds: a well-formed id of a
      known product with a quantity of at least 1. */
  predicate Accepted(l: Line, top: set<Id>, newp: set<Id>) {
    l.quantity >= MinQuantity && IsCanonicalId(l.productId) && (l.productId in top || l.productId in newp)
  }

  /** When every guest line is accepted, the
      merged cart holds, for every product, the old quantity plus the quantities of
      the guest lines that reached the server. */
  lemma {:induction false} ReplaySums(
    carts: map<Id, seq<Line>>, u: Id, guest: seq<Line>, lost: set<nat>, top: set<Id>, newp: set<Id>, p: Id)
    requires forall v :: v in carts ==> ValidItems(carts[v]) && Distinct(carts[v])
    requires forall i :: 0 <= i < |guest| ==> Accepted(guest[i], top, newp)
    ensures u in Replay(carts, u, guest, lost, top, newp) || QuantityOf(Delivered(guest, lost), p) == 0
    ensures QuantityOf(CartOf(Replay(carts, u, guest, lost, top, newp), u).GetOr([]), p) ==
      QuantityOf(CartOf(carts, u).GetOr([]), p) + QuantityOf(Delivered(guest, lost), p)
    decreases |guest|
  {
    if guest != [] {
      var init := guest[..|guest| - 1];
      var l := guest[|guest| - 1];
      ReplaySums(carts, u, init, lost, top, newp, p);
      var c := Replay(carts, u, init, lost, top, newp);
      assert guest == init + [l];
      if |guest| - 1 !in lost {
        KnownLineAdded(CartOf(c, u), l, top, newp, p);
        QuantityOfConcat(Delivered(init, lost), [l], p);
      }
    }
  }

  /** One post of an accepted guest line always succeeds and adds that line's quantity. */
  lemma KnownLineAdded(cart: Option<seq<Line>>, l: Line, top: set<Id>, newp: set<Id>, p: Id)
    requires cart.Some? ==> ValidItems(cart.value) && Distinct(cart.value)
    requires Accepted(l, top, newp)
    ensures AddToCart(cart, l.productId, Some(l.quantity), top, newp).Ok?
    ensures QuantityOf(AddToCart(cart, l.productId, Some(l.quantity), top, newp).value, p)
      == QuantityOf(cart.GetOr([]), p) + QuantityOf([l], p)
  {
    var c := cart.GetOr([]);
    CastCanonical(l.productId);
    QuantityOfNonNegative(c, l.productId);
    AddToCartSucceedsIff(c, l.productId, Some(l.quantity), top, newp);
    assert AddToCart(cart, l.productId, Some(l.quantity), top, newp)
        == AddToCart(Some(c), l.productId, Some(l.quantity), top, newp);
  }

  /** Posting one guest list after another is posting their concatenation. */
  lemma {:induction false} ReplayConcat(
    carts: map<Id, seq<Line>>, u: Id, g1: seq<Line>, g2: seq<Line>, top: set<Id>, newp: set<Id>)
    ensures Replay(carts, u, g1 + g2, {}, top, newp) == Replay(Replay(carts, u, g1, {}, top, newp), u, g2, {}, top, newp)
    decreases |g2|
  {
    if g2 == [] {
      assert g1 + g2 == g1;
    } else {
      var init := g2[..|g2| - 1];
      assert (g1 + g2)[..|g1 + g2| - 1] == g1 + init;
      assert (g1 + g2)[|g1 + g2| - 1] == g2[|g2| - 1];
      ReplayConcat(carts, u, g1, init, top, newp);
    }
  }

  /** Merging is commutative in the quantities it leaves: two guest lists merged in
      either order give every product the same total (the line order may differ). */
  lemma MergeQuantitiesCommute(
    carts: map<Id, seq<Line>>, u: Id, g1: seq<Line>, g2: seq<Line>, top: set<Id>, newp: set<Id>, p: Id)
    requires forall v :: v in carts ==> ValidItems(carts[v]) && Distinct(carts[v])
    requires forall i :: 0 <= i < |g1| ==> Accepted(g1[i], top, newp)
    requires forall i :: 0 <= i < |g2| ==> Accepted(g2[i], top, newp)
    ensures QuantityOf(CartOf(Replay(carts, u, g1 + g2, {}, top, newp), u).GetOr([]), p) ==
            QuantityOf(CartOf(Replay(carts, u, g2 + g1, {}, top, newp), u).GetOr([]), p)
  {
    ReplaySums(carts, u, g1 + g2, {}, top, newp, p);
    ReplaySums(carts, u, g2 + g1, {}, top, newp, p);
    QuantityOfConcat(g1, g2, p);
    QuantityOfConcat(g2, g1, p);
  }

  /** A guest line whose id does not cast or names no product is answered with an
      error and leaves the carts as they were, while the lines after it still apply. */
  lemma ReplaySkipsRejected(
    carts: map<Id, seq<Line>>, u: Id, g: seq<Line>, l: Line, h: seq<Line>, top: set<Id>, newp: set<Id>)
    requires !IsObjectId(l.productId) || (Cast(l.productId) !in top && Cast(l.productId) !in newp)
    ensures Replay(carts, u, g + [l], {}, top, newp) == Replay(carts, u, g, {}, top, newp)
    ensures Replay(carts, u, g + [l] + h, {}, top, newp) == Replay(carts, u, g + h, {}, top, newp)
  {
    assert (g + [l])[..|g + [l]| - 1] == g;
    ReplayConcat(carts, u, g + [l], h, top, newp);
    ReplayConcat(carts, u, g, h, top, newp);
  }

  /** Without every line accepted the order of merging matters: a line of -2 is
      refused by an empty cart but lowers a cart that already holds 5, so an
      absent server cart ends at 5 or at 3. */
  lemma MergeOrderMatters(top: set<Id>)
    requires SampleA in top
    ensures QuantityOf(CartOf(Replay(map[], "u", [Line(SampleA, -2)] + [Line(SampleA, 5)], {}, top, {}), "u").GetOr([]), SampleA) == 5
    ensures QuantityOf(CartOf(Replay(map[], "u", [Line(SampleA, 5)] + [Line(SampleA, -2)], {}, top, {}), "u").GetOr([]), SampleA) == 3
  {
    var m0: map<Id, seq<Line>> := map[];
    var l1, l2 := Line(SampleA, -2), Line(SampleA, 5);
    RefusedIntoNoCart(top);
    AddedIntoNoCart(top);
    AddedThenLowered(top);
    ReplayConcat(m0, "u", [l1], [l2], top, {});
    ReplayConcat(m0, "u", [l2], [l1], top, {});
    assert QuantityOf([l2], SampleA) == 5;
    assert QuantityOf([Line(SampleA, 3)], SampleA) == 3;
  }

  /** A post into no cart of a well-formed id of a known product makes a cart of
      one line of the cast id when the quantity is at least 1, and is refused otherwise. */
  lemma PostIntoNoCart(pid: Id, q: int, top: set<Id>, newp: set<Id>)
    requires IsObjectId(pid) && (Cast(pid) in top || Cast(pid) in newp)
    ensures q >= MinQuantity ==> AddToCart(None, pid, Some(q), top, newp) == Ok([Line(Cast(pid), q)])
    ensures q < MinQuantity ==> AddToCart(None, pid, Some(q), top, newp) == Err(ServerError)
  {
    assert AddItems([], Cast(pid), q) == [Line(Cast(pid), q)];
    assert ValidItems([Line(Cast(pid), q)]) <==> q >= MinQuantity;
  }

  /** Into no cart a line of -2 is refused. */
  lemma RefusedIntoNoCart(top: set<Id>)
    requires SampleA in top
    ensures Replay(map[], "u", [Line(SampleA, -2)], {}, top, {}) == map[]
  {
    SampleIdsCast();
    var m0: map<Id, seq<Line>> := map[];
    assert CartOf(m0, "u") == None;
    PostIntoNoCart(SampleA, -2, top, {});
    ReplayOne(m0, "u", Line(SampleA, -2), top, {});
  }

  /** Into no cart a line of 5 makes a cart of that one line. */
  lemma AddedIntoNoCart(top: set<Id>)
    requires SampleA in top
    ensures Replay(map[], "u", [Line(SampleA, 5)], {}, top, {}) == map["u" := [Line(SampleA, 5)]]
  {
    SampleIdsCast();
    var m0: map<Id, seq<Line>> := map[];
    assert CartOf(m0, "u") == None;
    PostIntoNoCart(SampleA, 5, top, {});
    ReplayOne(m0, "u", Line(SampleA, 5), top, {});
  }

  /** A line of 5 followed by -2 leaves a line of 3. */
  lemma AddedThenLowered(top: set<Id>)
    requires SampleA in top
    ensures Replay(map["u" := [Line(SampleA, 5)]], "u", [Line(SampleA, -2)], {}, top, {}) == map["u" := [Line(SampleA, 3)]]
  {
    SampleIdsCast();
    var m1: map<Id, seq<Line>> := map["u" := [Line(SampleA, 5)]];
    assert CartOf(m1, "u") == Some([Line(SampleA, 5)]);
    assert IndexOf([Line(SampleA, 5)], SampleA) == 0;
    assert [Line(SampleA, 5)][0 := Line(SampleA, 5 + -2)] == [Line(SampleA, 3)];
    assert AddItems([Line(SampleA, 5)], SampleA, -2) == [Line(SampleA, 3)];
    ReplayOne(m1, "u", Line(SampleA, -2), top, {});
  }

  /** Guest cart [p1 x1, p2 x2] merged into a server cart [p1 x3] gives [p1 x4, p2 x2]. */
  lemma ScenarioMerge(top: set<Id>)
    requires SampleA in top && SampleB in top
    ensures Replay(map["u" := [Line(SampleA, 3)]], "u", [Line(SampleA, 1), Line(SampleB, 2)], {}, top, {})
         == map["u" := [Line(SampleA, 4), Line(SampleB, 2)]]
  {
    var l1, l2 := Line(SampleA, 1), Line(SampleB, 2);
    assert [l1, l2] == [l1] + [l2];
    ReplayConcat(map["u" := [Line(SampleA, 3)]], "u", [l1], [l2], top, {});
    ScenarioFirstReplay(top);
    ScenarioSecondReplay(top);
  }

  lemma ScenarioFirstReplay(top: set<Id>)
    requires SampleA in top
    ensures Replay(map["u" := [Line(SampleA, 3)]], "u", [Line(SampleA, 1)], {}, top, {}) == map["u" := [Line(SampleA, 4)]]
  {
    var m0 := map["u" := [Line(SampleA, 3)]];
    ReplayOne(m0, "u", Line(SampleA, 1), top, {});
    ScenarioFirstPost(top);
    assert CartOf(m0, "u") == Some([Line(SampleA, 3)]);
  }

  lemma ScenarioSecondReplay(top: set<Id>)
    requires SampleB in top
    ensures Replay(map["u" := [Line(SampleA, 4)]], "u", [Line(SampleB, 2)], {}, top, {})
         == map["u" := [Line(SampleA, 4), Line(SampleB, 2)]]
  {
    var m1 := map["u" := [Line(SampleA, 4)]];
    ReplayOne(m1, "u", Line(SampleB, 2), top, {});
    ScenarioSecondPost(top);
    assert CartOf(m1, "u") == Some([Line(SampleA, 4)]);
  }

  /** Replaying one delivered line is posting it. */
  lemma ReplayOne(carts: map<Id, seq<Line>>, u: Id, l: Line, top: set<Id>, newp: set<Id>)
    ensures Replay(carts, u, [l], {}, top, newp) == Posted(carts, u, l, top, newp)
  {
    assert [l][..0] == [];
  }

  lemma ScenarioFirstPost(top: set<Id>)
    requires SampleA in top
    ensures AddToCart(Some([Line(SampleA, 3)]), SampleA, Some(1), top, {}) == Ok([Line(SampleA, 4)])
  {
    SampleIdsCast();
    assert IndexOf([Line(SampleA, 3)], SampleA) == 0;
    assert [Line(SampleA, 3)][0 := Line(SampleA, 3 + 1)] == [Line(SampleA, 4)];
    assert AddItems([Line(SampleA, 3)], SampleA, 1) == [Line(SampleA, 4)];
  }

  lemma ScenarioSecondPost(top: set<Id>)
    requires SampleB in top
    ensures AddToCart(Some([Line(SampleA, 4)]), SampleB, Some(2), top, {}) == Ok([Line(SampleA, 4), Line(SampleB, 2)])
  {
    SampleIdsCast();
    assert IndexOf([Line(SampleA, 4)], SampleB) == -1;
    assert AddItems([Line(SampleA, 4)], SampleB, 2) == [Line(SampleA, 4), Line(SampleB, 2)];
  }

  /** The loop of `mergeGuestCart`: one `POST /api/cart` per guest line, in order;
      the posts at the positions in `lost` throw and change nothing. */
  method PostAll(server: CartStore, u: Id, guest: seq<Line>, lost: set<nat>, top: set<Id>, newp: set<Id>)
    requires server.Valid()
    modifies server
    ensures server.Valid()
    ensures server.carts == Replay(old(server.carts), u, guest, lost, top, newp)
  {
    var i := 0;
    while i < |guest|
      invariant 0 <= i <= |guest|
      invariant server.Valid()
      invariant server.carts == Replay(old(server.carts), u, guest[..i], lost, top, newp)
    {
      ghost var before := server.carts;
      if i !in lost {
        var _ := server.Add(u, guest[i].productId, Some(guest[i].quantity), top, newp);
        assert server.carts == Posted(before, u, guest[i], top, newp);
      }
      assert guest[..i + 1][..i] == guest[..i];
      assert guest[..i + 1][i] == guest[i];
      assert server.carts == Replay(old(server.carts), u, guest[..i + 1], lost, top, newp);
      i := i + 1;
    }
    assert guest[..i] == guest;
  }

  // ------------------------------------------------------------------ the provider state

  class CartClient {
    /** The logged-in user and whether a token is held (`user && token`). */
    var user: Option<Id>
    var token: bool
    /** The `items` state. */
    var items: seq<Item>
    /** The browser storage entry `guest_cart`; `None` when absent. */
    var stored: Option<seq<Item>>

    predicate LoggedIn()
      reads this
    {
      user.Some? && token
    }

    constructor (user0: Option<Id>, token0: bool, stored0: Option<seq<Item>>)
      ensures user == user0 && token == token0 && stored == stored0 && items == []
    {
      user, token, stored := user0, token0, stored0;
      items := [];
    }

    /** `cartCount`. */
    function Count(): (n: int)
      reads this
      ensures n == CartCount(items)
      ensures (forall i :: 0 <= i < |items| ==> QuantityField(items[i]) >= 0) ==> n >= |items|
    {
      CartCount(items)
    }

    /** `fetchCart`: the server's lines when logged in (`view` is `None` when the
        request throws, which empties the list); otherwise the stored guest cart. */
    method FetchCart(view: Option<seq<HydratedLine>>)
      modifies this
      ensures user == old(user) && token == old(token) && stored == old(stored)
      ensures old(LoggedIn()) ==> items == (if view.Some? then ServerItems(view.value) else [])
      ensures !old(LoggedIn()) ==> items == stored.GetOr([])
    {
      if LoggedIn() {
        items := if view.Some? then ServerItems(view.value) else [];
      } else {
        items := stored.GetOr([]);
      }
    }

    /** `addToCart(product, quantity = 1)`. Logged in, `reply` is the server's
        answer (`None` when the post throws, which leaves the list alone). */
    method AddToCart(pid: Id, quantity: Option<int>, reply: Option<seq<HydratedLine>>)
      modifies this
      ensures user == old(user) && token == old(token)
      ensures old(LoggedIn()) ==> stored == old(stored)
      ensures old(LoggedIn()) ==> items == (if reply.Some? then ServerItems(reply.value) else old(items))
      ensures !old(LoggedIn()) ==> items == GuestAdd(old(items), pid, quantity.GetOr(DefaultQuantity))
      ensures !old(LoggedIn()) ==> stored == Some(items)
    {
      if LoggedIn() {
        if reply.Some? {
          items := ServerItems(reply.value);
        }
      } else {
        var updated := GuestAdd(items, pid, quantity.GetOr(DefaultQuantity));
        stored := Some(updated);
        items := updated;
      }
    }

    /** `updateQty(productId, quantity)`; the guest branch never removes a line. */
    method UpdateQty(pid: Id, quantity: int, reply: Option<seq<HydratedLine>>)
      modifies this
      ensures user == old(user) && token == old(token)
      ensures old(LoggedIn()) ==> stored == old(stored)
      ensures old(LoggedIn()) ==> items == (if reply.Some? then ServerItems(reply.value) else old(items))
      ensures !old(LoggedIn()) ==> items == SetQuantity(old(items), pid, quantity) && |items| == |old(items)|
      ensures !old(LoggedIn()) ==> stored == Some(items)
    {
      if LoggedIn() {
        if reply.Some? {
          items := ServerItems(reply.value);
        }
      } else {
        var updated := SetQuantity(items, pid, quantity);
        items := updated;
        stored := Some(updated);
      }
    }

    /** `remove(productId)`. */
    method Remove(pid: Id, reply: Option<seq<HydratedLine>>)
      modifies this
      ensures user == old(user) && token == old(token)
      ensures old(LoggedIn()) ==> stored == old(stored)
      ensures old(LoggedIn()) ==> items == (if reply.Some? then ServerItems(reply.value) else old(items))
      ensures !old(LoggedIn()) ==> items == Drop(old(items), pid) && stored == Some(items)
    {
      if LoggedIn() {
        if reply.Some? {
          items := ServerItems(reply.value);
        }
      } else {
        var updated := Drop(items, pid);
        items := updated;
        stored := Some(updated);
      }
    }

    /** `clearCart`: always empties the list; removes the stored guest cart only
        when there is no user (a token is not consulted). */
    method ClearCart()
      modifies this
      ensures user == old(user) && token == old(token)
      ensures items == []
      ensures old(user).None? ==> stored.None?
      ensures old(user).Some? ==> stored == old(stored)
    {
      items := [];
      if user.None? {
        stored := None;
      }
    }

    /** `mergeGuestCart(guestItems)`: nothing without a user, a token or guest lines;
        otherwise post each guest line in order (a post that throws, at a position in
        `lost`, is skipped) and refresh from the server (`refreshed` is false when
        that closing fetch throws, which empties the list). The stored guest cart is
        left as it was. */
    method MergeGuestCart(server: CartStore, guest: seq<Line>, top: set<Id>, newp: set<Id>, lost: set<nat>, refreshed: bool)
      requires server.Valid()
      modifies this, server
      ensures server.Valid()
      ensures user == old(user) && token == old(token) && stored == old(stored)
      ensures !old(LoggedIn()) || guest == [] ==> server.carts == old(server.carts) && items == old(items)
      ensures old(LoggedIn()) && guest != [] ==>
        server.carts == Replay(old(server.carts), user.value, guest, lost, top, newp)
        && items == (if refreshed then ServerItems(Hydrate(CartOf(server.carts, user.value).GetOr([]), top)) else [])
    {
      if user.None? || !token || |guest| == 0 {
        return;
      }
      var u := user.value;
      PostAll(server, u, guest, lost, top, newp);
      if refreshed {
        var view := server.Get(u, top);
        items := ServerItems(view.items);
      } else {
        items := [];
      }
    }
  }
}
