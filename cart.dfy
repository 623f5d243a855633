/** The cart engine of the storefront: a cart is the ordered list of line items
    (List<PanierItemViewModel>) that every cart action decodes from the cookie,
    edits in place and saves back.  This module holds the line items, the pure
    specification of each edit, the totals computed at checkout, and the class
    `Panier` that performs the edits on a mutable list. */
module Cart {
  import opened Wrappers
  import opened Int32Math
  import opened DecimalMath

  /** One cart line: the product id, the name and unit price captured when the
      product was added, and a quantity (a C# int, not validated on add). */
  datatype PanierItem = PanierItem(produitId: Int32, nom: string, prix: Decimal, quantite: Int32)

  /** The `Total` of a line: unit price times quantity, exact like C# decimal. */
  function LineTotal(item: PanierItem): real {
    item.prix * item.quantite as real
  }

  /** The set of product ids that occur in the cart. */
  function Ids(items: seq<PanierItem>): set<Int32> {
    set j | 0 <= j < |items| :: items[j].produitId
  }

  /** At most one line per product id. */
  predicate UniqueIds(items: seq<PanierItem>) {
    forall i, j :: 0 <= i < j < |items| ==> items[i].produitId != items[j].produitId
  }

  /** No line has a negative quantity. */
  predicate NoNegative(items: seq<PanierItem>) {
    forall i :: 0 <= i < |items| ==> items[i].quantite >= 0
  }

  /** Every line has a quantity of at least one. */
  predicate AllPositive(items: seq<PanierItem>) {
    forall i :: 0 <= i < |items| ==> items[i].quantite >= 1
  }

  /** `FirstOrDefault(p => p.ProduitId == id)`, as the position of the first
      line with that id, or None when there is none. */
  function FirstIndex(items: seq<PanierItem>, id: Int32): (r: Option<nat>)
    ensures r.Some? ==> r.value < |items| && items[r.value].produitId == id
    ensures r.Some? ==> forall j :: 0 <= j < r.value ==> items[j].produitId != id
    ensures r.None? ==> forall j :: 0 <= j < |items| ==> items[j].produitId != id
  {
    if items == [] then None
    else if items[0].produitId == id then Some(0)
    else match FirstIndex(items[1..], id)
      case None => None
      case Some(k) => Some(k + 1)
  }

  /** `List.Remove(item)` for the item found by `FirstIndex`: the line at
      position `i` disappears and the others keep their order. */
  function RemoveAt(items: seq<PanierItem>, i: nat): (r: seq<PanierItem>)
    requires i < |items|
    ensures |r| == |items| - 1
    ensures forall j :: 0 <= j < i ==> r[j] == items[j]
    ensures forall j :: i <= j < |r| ==> r[j] == items[j + 1]
  {
    items[..i] + items[i + 1..]
  }

  /** The list after `Ajouter(produitId, nom, prix, quantite)`: the first line
      with that id has `quantite` added to its quantity (C# unchecked int
      addition), otherwise a new line is appended. */
  function Added(items: seq<PanierItem>, produitId: Int32, nom: string, prix: Decimal, quantite: Int32): seq<PanierItem> {
    match FirstIndex(items, produitId)
    case Some(i) => items[i := items[i].(quantite := AddWrap(items[i].quantite, quantite))]
    case None => items + [PanierItem(produitId, nom, prix, quantite)]
  }

  /** The list after `Modifier(produitId, nouvelleQuantite)`: nothing happens when
      the id is absent; a quantity of zero or less removes the first line with the
      id; a positive one overwrites that line's quantity. */
  function Modified(items: seq<PanierItem>, produitId: Int32, nouvelleQuantite: Int32): seq<PanierItem> {
    match FirstIndex(items, produitId)
    case None => items
    case Some(i) =>
      if nouvelleQuantite <= 0 then RemoveAt(items, i)
      else items[i := items[i].(quantite := nouvelleQuantite)]
  }

  /** The list after `Supprimer(produitId)`: the first line with that id is
      removed, if there is one. */
  function Removed(items: seq<PanierItem>, produitId: Int32): seq<PanierItem> {
    match FirstIndex(items, produitId)
    case None => items
    case Some(i) => RemoveAt(items, i)
  }

  // ---------------------------------------------------------------------------
  // Lookup and id sets

  /** The lookup finds a line exactly when the id occurs in the cart. */
  lemma FirstIndexFinds(items: seq<PanierItem>, id: Int32)
    ensures FirstIndex(items, id).Some? <==> id in Ids(items)
  {
    if id in Ids(items) {
      var j :| 0 <= j < |items| && items[j].produitId == id;
    }
  }

  /** Two lists with the same ids at the same positions have the same first match. */
  lemma FirstIndexSameIds(a: seq<PanierItem>, b: seq<PanierItem>, id: Int32)
    requires |a| == |b|
    requires forall j :: 0 <= j < |a| ==> a[j].produitId == b[j].produitId
    ensures FirstIndex(a, id) == FirstIndex(b, id)
  {
  }

  lemma SameIdsAfterUpdate(items: seq<PanierItem>, i: nat, x: PanierItem)
    requires i < |items| && x.produitId == items[i].produitId
    ensures Ids(items[i := x]) == Ids(items)
  {
    var r := items[i := x];
    forall id | id in Ids(items) ensures id in Ids(r) {
      var j :| 0 <= j < |items| && items[j].produitId == id;
      assert r[j].produitId == id;
    }
  }

  lemma IdsAppend(items: seq<PanierItem>, x: PanierItem)
    ensures Ids(items + [x]) == Ids(items) + {x.produitId}
  {
    var r := items + [x];
    assert r[|items|].produitId == x.produitId;
    forall id | id in Ids(items) ensures id in Ids(r) {
      var j :| 0 <= j < |items| && items[j].produitId == id;
      assert r[j].produitId == id;
    }
  }

  // ---------------------------------------------------------------------------
  // Ajouter

  /** Adding puts the product's id in the cart and no other id; the cart grows by
      one line exactly when the id was absent. */
  lemma AjouterIds(items: seq<PanierItem>, produitId: Int32, nom: string, prix: Decimal, quantite: Int32)
    ensures Ids(Added(items, produitId, nom, prix, quantite)) == Ids(items) + {produitId}
    ensures |Added(items, produitId, nom, prix, quantite)|
         == if produitId in Ids(items) then |items| else |items| + 1
  {
    FirstIndexFinds(items, produitId);
    match FirstIndex(items, produitId)
    case Some(i) =>
      SameIdsAfterUpdate(items, i, items[i].(quantite := AddWrap(items[i].quantite, quantite)));
    case None =>
      IdsAppend(items, PanierItem(produitId, nom, prix, quantite));
  }

  /** Adding a product already in the cart adds `quantite` to the first line with
      that id and leaves its name, price and position, the other lines and the
      length of the cart unchanged. */
  lemma AjouterMerges(items: seq<PanierItem>, produitId: Int32, nom: string, prix: Decimal, quantite: Int32)
    requires produitId in Ids(items)
    ensures FirstIndex(items, produitId).Some?
    ensures var i := FirstIndex(items, produitId).value;
      var r := Added(items, produitId, nom, prix, quantite);
      && |r| == |items|
      && r[i].produitId == produitId
      && r[i].nom == items[i].nom && r[i].prix == items[i].prix
      && r[i].quantite == AddWrap(items[i].quantite, quantite)
      && forall j :: 0 <= j < |items| && j != i ==> r[j] == items[j]
  {
    FirstIndexFinds(items, produitId);
  }

  /** Adding a product not in the cart appends exactly one line with the given
      id, name, price and quantity; the earlier lines are unchanged. */
  lemma AjouterAppends(items: seq<PanierItem>, produitId: Int32, nom: string, prix: Decimal, quantite: Int32)
    requires produitId !in Ids(items)
    ensures Added(items, produitId, nom, prix, quantite) == items + [PanierItem(produitId, nom, prix, quantite)]
  {
    FirstIndexFinds(items, produitId);
  }

  /** Adding never creates a second line for a product. */
  lemma AjouterKeepsUniqueIds(items: seq<PanierItem>, produitId: Int32, nom: string, prix: Decimal, quantite: Int32)
    requires UniqueIds(items)
    ensures UniqueIds(Added(items, produitId, nom, prix, quantite))
  {
    FirstIndexFinds(items, produitId);
    if produitId !in Ids(items) {
      var r := Added(items, produitId, nom, prix, quantite);
      forall i, j | 0 <= i < j < |r| ensures r[i].produitId != r[j].produitId {
        if j == |items| {
          assert r[i].produitId == items[i].produitId;
        }
      }
    }
  }

  /** Two adds of the same product accumulate into one line: the same as one add
      of the (wrapped) sum of the quantities, with the name and price of the first. */
  lemma {:induction false} AjouterTwiceAccumulates(items: seq<PanierItem>, produitId: Int32,
      nom: string, prix: Decimal, q1: Int32, nom2: string, prix2: Decimal, q2: Int32)
    ensures Added(Added(items, produitId, nom, prix, q1), produitId, nom2, prix2, q2)
         == Added(items, produitId, nom, prix, AddWrap(q1, q2))
  {
    match FirstIndex(items, produitId)
    case Some(i) => AccumulateOnExisting(items, produitId, nom, prix, q1, nom2, prix2, q2, i);
    case None => AccumulateOnAbsent(items, produitId, nom, prix, q1, nom2, prix2, q2);
  }

  lemma AccumulateOnExisting(items: seq<PanierItem>, produitId: Int32,
      nom: string, prix: Decimal, q1: Int32, nom2: string, prix2: Decimal, q2: Int32, i: nat)
    requires FirstIndex(items, produitId) == Some(i)
    ensures Added(Added(items, produitId, nom, prix, q1), produitId, nom2, prix2, q2)
         == Added(items, produitId, nom, prix, AddWrap(q1, q2))
  {
    var a := items[i].quantite;
    var once := items[i := items[i].(quantite := AddWrap(a, q1))];
    var total := AddWrap(a, AddWrap(q1, q2));
    calc {
      Added(Added(items, produitId, nom, prix, q1), produitId, nom2, prix2, q2);
      { MergeAt(items, produitId, nom, prix, q1, i); }
      Added(once, produitId, nom2, prix2, q2);
      { FirstIndexSameIds(items, once, produitId);
        MergeAt(once, produitId, nom2, prix2, q2, i); }
      once[i := once[i].(quantite := AddWrap(once[i].quantite, q2))];
      { AddWrapAssociative(a, q1, q2); }
      items[i := items[i].(quantite := total)];
      { MergeAt(items, produitId, nom, prix, AddWrap(q1, q2), i); }
      Added(items, produitId, nom, prix, AddWrap(q1, q2));
    }
  }

  lemma MergeAt(items: seq<PanierItem>, produitId: Int32, nom: string, prix: Decimal, quantite: Int32, i: nat)
    requires FirstIndex(items, produitId) == Some(i)
    ensures Added(items, produitId, nom, prix, quantite)
         == items[i := items[i].(quantite := AddWrap(items[i].quantite, quantite))]
  {
  }

  lemma AccumulateOnAbsent(items: seq<PanierItem>, produitId: Int32,
      nom: string, prix: Decimal, q1: Int32, nom2: string, prix2: Decimal, q2: Int32)
    requires FirstIndex(items, produitId).None?
    ensures Added(Added(items, produitId, nom, prix, q1), produitId, nom2, prix2, q2)
         == Added(items, produitId, nom, prix, AddWrap(q1, q2))
  {
    var once := items + [PanierItem(produitId, nom, prix, q1)];
    assert Added(items, produitId, nom, prix, q1) == once;
    assert once[|items|].produitId == produitId;
    assert FirstIndex(once, produitId) == Some(|items|);
    assert Added(once, produitId, nom2, prix2, q2)
        == once[|items| := once[|items|].(quantite := AddWrap(q1, q2))];
  }

  /** When the merged quantity does not overflow, an add of positive quantity
      keeps every quantity positive. */
  lemma AjouterKeepsPositive(items: seq<PanierItem>, produitId: Int32, nom: string, prix: Decimal, quantite: Int32)
    requires AllPositive(items) && quantite >= 1
    requires forall j :: 0 <= j < |items| && items[j].produitId == produitId ==> items[j].quantite + quantite <= MaxInt32
    ensures AllPositive(Added(items, produitId, nom, prix, quantite))
  {
  }

  /** Ajouter does not validate the quantity: adding a quantity of zero stores a
      line with quantity zero, so "every quantity is positive" does not survive it. */
  lemma AjouterStoresNonPositive()
    ensures Added([], 7, "X", 10.0, 0) == [PanierItem(7, "X", 10.0, 0)]
    ensures !AllPositive(Added([], 7, "X", 10.0, 0))
  {
    assert Added([], 7, "X", 10.0, 0)[0].quantite == 0;
  }

  // ---------------------------------------------------------------------------
  // Modifier

  /** Modifier and Supprimer on an id that is not in the cart change nothing
      (and the controller then saves nothing). */
  lemma AbsentIdIsNoOp(items: seq<PanierItem>, produitId: Int32, nouvelleQuantite: Int32)
    requires produitId !in Ids(items)
    ensures Modified(items, produitId, nouvelleQuantite) == items
    ensures Removed(items, produitId) == items
  {
    FirstIndexFinds(items, produitId);
  }

  /** Setting a positive quantity overwrites the quantity of the first line with
      the id (it does not add to it); nothing else changes. */
  lemma ModifierOverwrites(items: seq<PanierItem>, produitId: Int32, nouvelleQuantite: Int32)
    requires produitId in Ids(items) && nouvelleQuantite > 0
    ensures FirstIndex(items, produitId).Some?
    ensures var i := FirstIndex(items, produitId).value;
      var r := Modified(items, produitId, nouvelleQuantite);
      && |r| == |items|
      && r[i] == items[i].(quantite := nouvelleQuantite)
      && forall j :: 0 <= j < |items| && j != i ==> r[j] == items[j]
  {
    FirstIndexFinds(items, produitId);
  }

  /** Setting a quantity of zero or less removes the first line with the id and
      keeps the remaining lines in order. */
  lemma ModifierRemoves(items: seq<PanierItem>, produitId: Int32, nouvelleQuantite: Int32)
    requires produitId in Ids(items) && nouvelleQuantite <= 0
    ensures FirstIndex(items, produitId).Some?
    ensures var i := FirstIndex(items, produitId).value;
      Modified(items, produitId, nouvelleQuantite) == items[..i] + items[i + 1..]
    ensures Modified(items, produitId, nouvelleQuantite) == Removed(items, produitId)
  {
    FirstIndexFinds(items, produitId);
  }

  /** Modifier keeps both cart invariants: unique ids and positive quantities. */
  lemma ModifierKeepsInvariants(items: seq<PanierItem>, produitId: Int32, nouvelleQuantite: Int32)
    ensures UniqueIds(items) ==> UniqueIds(Modified(items, produitId, nouvelleQuantite))
    ensures AllPositive(items) ==> AllPositive(Modified(items, produitId, nouvelleQuantite))
  {
    if FirstIndex(items, produitId).Some? && nouvelleQuantite <= 0 {
      RemoveAtKeepsInvariants(items, FirstIndex(items, produitId).value);
    }
  }

  /** Setting the same quantity twice is the same as setting it once, provided
      the ids are unique (a removal must not uncover a second line). */
  lemma ModifierIdempotent(items: seq<PanierItem>, produitId: Int32, nouvelleQuantite: Int32)
    requires UniqueIds(items)
    ensures Modified(Modified(items, produitId, nouvelleQuantite), produitId, nouvelleQuantite)
         == Modified(items, produitId, nouvelleQuantite)
  {
    var once := Modified(items, produitId, nouvelleQuantite);
    match FirstIndex(items, produitId)
    case None =>
    case Some(i) =>
      if nouvelleQuantite <= 0 {
        RemovedIdempotent(items, produitId);
      } else {
        FirstIndexSameIds(items, once, produitId);
      }
  }

  // ---------------------------------------------------------------------------
  // Supprimer

  lemma RemoveAtKeepsInvariants(items: seq<PanierItem>, i: nat)
    requires i < |items|
    ensures UniqueIds(items) ==> UniqueIds(RemoveAt(items, i))
    ensures AllPositive(items) ==> AllPositive(RemoveAt(items, i))
  {
    var r := RemoveAt(items, i);
    if UniqueIds(items) {
      forall a, b | 0 <= a < b < |r| ensures r[a].produitId != r[b].produitId {
        var a' := if a < i then a else a + 1;
        var b' := if b < i then b else b + 1;
        assert r[a] == items[a'] && r[b] == items[b'];
      }
    }
  }

  /** With unique ids, removing a product takes exactly its id out of the cart. */
  lemma SupprimerRemovesId(items: seq<PanierItem>, produitId: Int32)
    requires UniqueIds(items)
    ensures Ids(Removed(items, produitId)) == Ids(items) - {produitId}
    ensures UniqueIds(Removed(items, produitId))
  {
    match FirstIndex(items, produitId)
    case None =>
    case Some(i) =>
      var r := RemoveAt(items, i);
      RemoveAtKeepsInvariants(items, i);
      forall id | id in Ids(r) ensures id in Ids(items) - {produitId} {
        var j :| 0 <= j < |r| && r[j].produitId == id;
        var j' := if j < i then j else j + 1;
        assert r[j] == items[j'];
      }
      forall id | id in Ids(items) - {produitId} ensures id in Ids(r) {
        var j :| 0 <= j < |items| && items[j].produitId == id;
        var j' := if j < i then j else j - 1;
        assert r[j'] == items[j];
      }
  }

  /** Removing the same product twice equals removing it once when ids are unique. */
  lemma RemovedIdempotent(items: seq<PanierItem>, produitId: Int32)
    requires UniqueIds(items)
    ensures Removed(Removed(items, produitId), produitId) == Removed(items, produitId)
  {
    SupprimerRemovesId(items, produitId);
  }

  /** With a duplicated id (a hand-edited cookie), only the first line is touched,
      so a second removal changes the cart again. */
  lemma SupprimerTwiceWithDuplicates()
    ensures var dup := [PanierItem(1, "A", 1.0, 1), PanierItem(1, "A", 1.0, 2)];
      && Removed(dup, 1) == [PanierItem(1, "A", 1.0, 2)]
      && Removed(Removed(dup, 1), 1) == []
  {
    var dup := [PanierItem(1, "A", 1.0, 1), PanierItem(1, "A", 1.0, 2)];
    assert Removed(dup, 1) == [PanierItem(1, "A", 1.0, 2)];
  }

  // ---------------------------------------------------------------------------
  // Totals (Commander)

  /** The number of units in the cart: the sum of the quantities. */
  function Units(items: seq<PanierItem>): int {
    if items == [] then 0 else items[0].quantite + Units(items[1..])
  }

  /** The amount of the cart: the sum of the line totals. */
  function TotalPrix(items: seq<PanierItem>): real {
    if items == [] then 0.0 else LineTotal(items[0]) + TotalPrix(items[1..])
  }

  lemma {:induction false} UnitsConcat(a: seq<PanierItem>, b: seq<PanierItem>)
    ensures Units(a + b) == Units(a) + Units(b)
  {
    if a != [] {
      assert (a + b)[1..] == a[1..] + b;
      UnitsConcat(a[1..], b);
    } else {
      assert a + b == b;
    }
  }

  lemma {:induction false} TotalPrixConcat(a: seq<PanierItem>, b: seq<PanierItem>)
    ensures TotalPrix(a + b) == TotalPrix(a) + TotalPrix(b)
  {
    if a != [] {
      assert (a + b)[1..] == a[1..] + b;
      TotalPrixConcat(a[1..], b);
    } else {
      assert a + b == b;
    }
  }

  lemma SplitAt(items: seq<PanierItem>, i: nat, x: PanierItem)
    requires i < |items|
    ensures items == items[..i] + [items[i]] + items[i + 1..]
    ensures items[i := x] == items[..i] + [x] + items[i + 1..]
  {
  }

  /** Units and amount after replacing one line. */
  lemma TotalsAfterUpdate(items: seq<PanierItem>, i: nat, x: PanierItem)
    requires i < |items|
    ensures Units(items[i := x]) == Units(items) - items[i].quantite + x.quantite
    ensures TotalPrix(items[i := x]) == TotalPrix(items) - LineTotal(items[i]) + LineTotal(x)
  {
    SplitAt(items, i, x);
    var pre, post := items[..i], items[i + 1..];
    UnitsConcat(pre + [items[i]], post);
    UnitsConcat(pre, [items[i]]);
    UnitsConcat(pre + [x], post);
    UnitsConcat(pre, [x]);
    TotalPrixConcat(pre + [items[i]], post);
    TotalPrixConcat(pre, [items[i]]);
    TotalPrixConcat(pre + [x], post);
    TotalPrixConcat(pre, [x]);
  }

  /** Adding `quantite` of a product raises the unit count by exactly `quantite`
      (when the merge does not overflow) and the amount by `quantite` times the
      price of the line it lands on: the price already in the cart for a merge,
      the given price for a new line. */
  lemma AjouterTotals(items: seq<PanierItem>, produitId: Int32, nom: string, prix: Decimal, quantite: Int32)
    requires forall j :: 0 <= j < |items| && items[j].produitId == produitId ==> InRange(items[j].quantite + quantite)
    ensures Units(Added(items, produitId, nom, prix, quantite)) == Units(items) + quantite
    ensures TotalPrix(Added(items, produitId, nom, prix, quantite))
         == TotalPrix(items) + quantite as real * LandingPrice(items, produitId, prix)
  {
    if FirstIndex(items, produitId).Some? {
      AjouterTotalsExisting(items, produitId, nom, prix, quantite);
    } else {
      AjouterTotalsAbsent(items, produitId, nom, prix, quantite);
    }
  }

  /** The unit price of the line an add lands on. */
  function LandingPrice(items: seq<PanierItem>, produitId: Int32, prix: Decimal): real {
    match FirstIndex(items, produitId)
    case Some(i) => items[i].prix
    case None => prix
  }

  lemma AjouterTotalsExisting(items: seq<PanierItem>, produitId: Int32, nom: string, prix: Decimal, quantite: Int32)
    requires FirstIndex(items, produitId).Some?
    requires forall j :: 0 <= j < |items| && items[j].produitId == produitId ==> InRange(items[j].quantite + quantite)
    ensures Units(Added(items, produitId, nom, prix, quantite)) == Units(items) + quantite
    ensures TotalPrix(Added(items, produitId, nom, prix, quantite))
         == TotalPrix(items) + quantite as real * LandingPrice(items, produitId, prix)
  {
    var i := FirstIndex(items, produitId).value;
    var merged := items[i].(quantite := AddWrap(items[i].quantite, quantite));
    MergeAt(items, produitId, nom, prix, quantite, i);
    assert merged.quantite == items[i].quantite + quantite;
    TotalsAfterUpdate(items, i, merged);
    LineTotalShift(items[i], quantite, merged);
  }

  lemma AjouterTotalsAbsent(items: seq<PanierItem>, produitId: Int32, nom: string, prix: Decimal, quantite: Int32)
    requires FirstIndex(items, produitId).None?
    ensures Units(Added(items, produitId, nom, prix, quantite)) == Units(items) + quantite
    ensures TotalPrix(Added(items, produitId, nom, prix, quantite))
         == TotalPrix(items) + quantite as real * LandingPrice(items, produitId, prix)
  {
    var x := PanierItem(produitId, nom, prix, quantite);
    AppendAt(items, produitId, nom, prix, quantite);
    UnitsConcat(items, [x]);
    TotalPrixConcat(items, [x]);
    assert Units([x]) == quantite;
    assert TotalPrix([x]) == LineTotal(x);
  }

  lemma AppendAt(items: seq<PanierItem>, produitId: Int32, nom: string, prix: Decimal, quantite: Int32)
    requires FirstIndex(items, produitId).None?
    ensures Added(items, produitId, nom, prix, quantite) == items + [PanierItem(produitId, nom, prix, quantite)]
  {
  }

  lemma LineTotalShift(item: PanierItem, quantite: int, merged: PanierItem)
    requires merged.prix == item.prix && merged.quantite == item.quantite + quantite
    ensures LineTotal(merged) == LineTotal(item) + quantite as real * item.prix
  {
    calc {
      LineTotal(merged);
      item.prix * (item.quantite + quantite) as real;
      item.prix * (item.quantite as real + quantite as real);
      item.prix * item.quantite as real + item.prix * quantite as real;
    }
  }

  /** The unit count counts units, not lines: with positive quantities it is at
      least the number of lines. */
  lemma {:induction false} UnitsAtLeastLines(items: seq<PanierItem>)
    ensures AllPositive(items) ==> Units(items) >= |items|
  {
    if items != [] {
      UnitsAtLeastLines(items[1..]);
    }
  }

  /** Without negative quantities the unit count is not negative. */
  lemma {:induction false} UnitsNonNegative(items: seq<PanierItem>)
    ensures NoNegative(items) ==> Units(items) >= 0
  {
    if items != [] {
      UnitsNonNegative(items[1..]);
    }
  }

  /** Summing the quantities from left to right, starting at `acc`, some partial
      sum leaves the int range. */
  predicate PartialSumLeaves(items: seq<PanierItem>, acc: int) {
    exists k :: 0 < k <= |items| && !InRange(acc + Units(items[..k]))
  }

  /** The units of a prefix are the first quantity plus the units of the rest of
      the prefix. */
  lemma PrefixUnits(items: seq<PanierItem>, k: nat)
    requires 0 < k <= |items|
    ensures Units(items[..k]) == items[0].quantite + Units(items[1..][..k - 1])
  {
    assert items[..k][1..] == items[1..][..k - 1];
  }

  /** A partial sum leaves the range exactly when the first step does or a
      partial sum of the rest, started after the first step, does. */
  lemma PartialSumsShift(items: seq<PanierItem>, acc: int)
    requires items != []
    ensures PartialSumLeaves(items, acc)
        <==> !InRange(acc + items[0].quantite) || PartialSumLeaves(items[1..], acc + items[0].quantite)
  {
    var next := acc + items[0].quantite;
    PrefixUnits(items, 1);
    if PartialSumLeaves(items, acc) && InRange(next) {
      var k :| 0 < k <= |items| && !InRange(acc + Units(items[..k]));
      PrefixUnits(items, k);
      assert 0 < k - 1 <= |items[1..]| && !InRange(next + Units(items[1..][..k - 1]));
    }
    if PartialSumLeaves(items[1..], next) {
      var k :| 0 < k <= |items[1..]| && !InRange(next + Units(items[1..][..k]));
      PrefixUnits(items, k + 1);
      assert !InRange(acc + Units(items[..k + 1]));
    }
  }

  /** `Enumerable.Sum` over the quantities: a left-to-right sum in checked C# int
      arithmetic, None where a partial sum overflows (OverflowException). */
  function CheckedUnits(items: seq<PanierItem>, acc: Int32): (r: Option<Int32>)
    ensures r.Some? ==> r.value == acc + Units(items)
    ensures r.None? <==> PartialSumLeaves(items, acc)
    ensures NoNegative(items) && acc >= 0 && acc + Units(items) <= MaxInt32 ==> r.Some?
  {
    if items == [] then Some(acc)
    else
      var next := acc + items[0].quantite;
      PartialSumsShift(items, acc);
      UnitsNonNegative(items[1..]);
      if InRange(next) then CheckedUnits(items[1..], next) else None
  }

  // ---------------------------------------------------------------------------
  // The list as a mutable object

  /** The decoded List<PanierItemViewModel> of one request, which the cart actions
      edit in place before it is saved. */
  class Panier {
    var items: seq<PanierItem>

    constructor (items: seq<PanierItem>)
      ensures this.items == items
    {
      this.items := items;
    }

    /** Merge into the first line with the id, or append a new line. */
    method Ajouter(produitId: Int32, nom: string, prix: Decimal, quantite: Int32)
      modifies this
      ensures items == Added(old(items), produitId, nom, prix, quantite)
    {
      var found := FirstIndex(items, produitId);
      match found
      case Some(i) =>
        items := items[i := items[i].(quantite := AddWrap(items[i].quantite, quantite))];
      case None =>
        items := items + [PanierItem(produitId, nom, prix, quantite)];
    }

    /** Overwrite or remove the first line with the id; `found` tells whether
        there was one (the caller saves the cart only then). */
    method Modifier(produitId: Int32, nouvelleQuantite: Int32) returns (found: bool)
      modifies this
      ensures found <==> produitId in Ids(old(items))
      ensures items == Modified(old(items), produitId, nouvelleQuantite)
    {
      FirstIndexFinds(items, produitId);
      var item := FirstIndex(items, produitId);
      found := item.Some?;
      if found {
        var i := item.value;
        if nouvelleQuantite <= 0 {
          items := items[..i] + items[i + 1..];
        } else {
          items := items[i := items[i].(quantite := nouvelleQuantite)];
        }
      }
    }

    /** Remove the first line with the id; `found` tells whether there was one. */
    method Supprimer(produitId: Int32) returns (found: bool)
      modifies this
      ensures found <==> produitId in Ids(old(items))
      ensures items == Removed(old(items), produitId)
    {
      FirstIndexFinds(items, produitId);
      var item := FirstIndex(items, produitId);
      found := item.Some?;
      if found {
        var i := item.value;
        items := items[..i] + items[i + 1..];
      }
    }
  }
}
