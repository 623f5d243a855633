/** The cart actions as requests: each action reads the "Panier" cookie, decodes
    it into a list, edits the list (class `Cart.Panier`), and then saves the
    list back to the cookie, deletes the cookie, or leaves it alone.  The JSON
    library is a pair of functions given to the controller; the cookie is a
    field holding the text the next request will read. */
module CartController {
  import opened Wrappers
  import opened Int32Math
  import opened DecimalMath
  import opened Cart

  /** What `JsonSerializer.Deserialize<List<PanierItemViewModel>>` makes of a
      non-empty text: a list, a null reference (the JSON literal `null`), or an
      exception (malformed text, wrong field types). */
  datatype Deserialized = Parsed(items: seq<PanierItem>) | ParsedNull | Throws

  /** The JSON library, as the pair of functions the cart uses. */
  datatype Json = Json(serialize: seq<PanierItem> -> string, deserialize: string -> Deserialized)

  /** The round-trip law of a JSON library: serializing gives a non-empty text
      that deserializes back to the same list.  Prices are `Decimal`, so the law
      ranges over the lists C# can hold, a countable set. */
  ghost predicate RoundTrips(json: Json) {
    forall items :: json.serialize(items) != "" && json.deserialize(json.serialize(items)) == Parsed(items)
  }

  /** The result of `GetPanierFromCookie`: a list, or the null reference. */
  datatype Loaded = Loaded(items: seq<PanierItem>) | NullList

  /** Decoding the cookie: an absent or empty cookie, or one whose text makes the
      deserializer throw, gives the empty cart; only the literal `null` gives
      the null reference, which the catch does not cover. */
  function GetPanierFromCookie(cookie: Option<string>, json: Json): (r: Loaded)
    ensures cookie.None? || cookie == Some("") ==> r == Loaded([])
    ensures cookie.Some? && cookie.value != "" && json.deserialize(cookie.value).Throws? ==> r == Loaded([])
    ensures r.NullList? <==> cookie.Some? && cookie.value != "" && json.deserialize(cookie.value).ParsedNull?
    ensures cookie.Some? && cookie.value != "" && json.deserialize(cookie.value).Parsed? ==>
              r == Loaded(json.deserialize(cookie.value).items)
  {
    if cookie.None? || cookie.value == "" then Loaded([])
    else match json.deserialize(cookie.value)
      case Parsed(items) => Loaded(items)
      case ParsedNull => NullList
      case Throws => Loaded([])
  }

  /** With a JSON library that round-trips, the cart saved by one request is the
      cart the next request decodes. */
  lemma SavedCartReloads(json: Json, items: seq<PanierItem>)
    requires RoundTrips(json)
    ensures GetPanierFromCookie(Some(json.serialize(items)), json) == Loaded(items)
  {
    assert json.serialize(items) != "" && json.deserialize(json.serialize(items)) == Parsed(items);
  }

  /** Unhandled exceptions a cart action can raise: ArgumentNullException from
      `FirstOrDefault`/`Any` on a null list, OverflowException from the checked
      `Sum` of the quantities. */
  datatype Fault = ArgumentNull | Overflow

  /** The result of an action, as far as the cart is concerned. */
  datatype Outcome =
    | Done                                        // redirected after the edit
    | Commande(total: real, nbArticles: Int32)    // order placed, with its summary
    | PanierVide                                  // Commander refused an empty cart
    | Exception(fault: Fault)                     // the request failed

  /** What `Commander` reports for a decoded cart: an empty cart is refused; an
      order carries the sum of the line totals and the number of units. */
  function Summarize(items: seq<PanierItem>): (r: Outcome)
    ensures r.PanierVide? <==> items == []
    ensures r.Commande? || r.PanierVide? || r == Exception(Overflow)
    ensures r.Commande? ==> r.total == TotalPrix(items) && r.nbArticles == Units(items)
    ensures r == Exception(Overflow) <==> items != [] && PartialSumLeaves(items, 0)
    ensures items != [] && NoNegative(items) && Units(items) <= MaxInt32 ==> r.Commande?
    ensures r.Commande? && AllPositive(items) ==> r.nbArticles >= |items|
  {
    if items == [] then PanierVide
    else match CheckedUnits(items, 0)
      case None => Exception(Overflow)
      case Some(n) =>
        UnitsAtLeastLines(items);
        Commande(TotalPrix(items), n)
  }

  /** A two-line order: 2 x 10.00 + 1 x 5.50. */
  lemma CommanderExample()
    ensures Summarize([PanierItem(1, "A", 10.0, 2), PanierItem(2, "B", 5.5, 1)]) == Commande(25.5, 3)
  {
  }

  /** A cart whose only line has quantity 0, which `Ajouter` stores as given, is
      ordered with no units and a zero amount. */
  lemma ZeroQuantityOrdered()
    ensures Summarize([PanierItem(1, "A", 10.0, 0)]) == Commande(0.0, 0)
  {
  }

  /** Add product 1 twice, set its quantity to 0, add product 2, order: only
      product 2 is ordered. */
  lemma SessionExample()
    ensures var c1 := Added([], 1, "Widget", 9.99, 1);
      var c2 := Added(c1, 1, "Widget", 9.99, 2);
      var c3 := Modified(c2, 1, 0);
      var c4 := Added(c3, 2, "Gadget", 20.0, 1);
      c2 == [PanierItem(1, "Widget", 9.99, 3)] && c3 == [] &&
      Summarize(c4) == Commande(20.0, 1)
  {
    var c1 := Added([], 1, "Widget", 9.99, 1);
    assert c1 == [PanierItem(1, "Widget", 9.99, 1)];
    var c2 := Added(c1, 1, "Widget", 9.99, 2);
    assert c2 == [PanierItem(1, "Widget", 9.99, 3)];
    assert Modified(c2, 1, 0) == [];
  }

  class PanierController {
    /** The "Panier" cookie as the next request will read it; None when absent. */
    var cookie: Option<string>
    /** The JSON library the controller serializes with. */
    const json: Json

    constructor (cookie: Option<string>, json: Json)
      ensures this.cookie == cookie && this.json == json
    {
      this.cookie := cookie;
      this.json := json;
    }

    /** Serialize the list and store it in the cookie. */
    method SavePanierToCookie(items: seq<PanierItem>)
      modifies this
      ensures cookie == Some(json.serialize(items))
    {
      cookie := Some(json.serialize(items));
    }

    /** POST /Panier/Ajouter: merge or append, then always save. */
    method Ajouter(produitId: Int32, nom: string, prix: Decimal, quantite: Int32 := 1) returns (r: Outcome)
      modifies this
      ensures var loaded := GetPanierFromCookie(old(cookie), json);
        if loaded.NullList? then r == Exception(ArgumentNull) && cookie == old(cookie)
        else r == Done && cookie == Some(json.serialize(Added(loaded.items, produitId, nom, prix, quantite)))
      ensures r == Done && RoundTrips(json) ==>
        GetPanierFromCookie(cookie, json)
          == Loaded(Added(GetPanierFromCookie(old(cookie), json).items, produitId, nom, prix, quantite))
    {
      var loaded := GetPanierFromCookie(cookie, json);
      if loaded.NullList? {
        return Exception(ArgumentNull);
      }
      var panier := new Panier(loaded.items);
      panier.Ajouter(produitId, nom, prix, quantite);
      SavePanierToCookie(panier.items);
      if RoundTrips(json) {
        SavedCartReloads(json, panier.items);
      }
      r := Done;
    }

    /** POST /Panier/Modifier: overwrite or remove; save only if the product was
        in the cart. */
    method Modifier(produitId: Int32, nouvelleQuantite: Int32) returns (r: Outcome)
      modifies this
      ensures var loaded := GetPanierFromCookie(old(cookie), json);
        if loaded.NullList? then r == Exception(ArgumentNull) && cookie == old(cookie)
        else if produitId in Ids(loaded.items) then
          r == Done && cookie == Some(json.serialize(Modified(loaded.items, produitId, nouvelleQuantite)))
        else r == Done && cookie == old(cookie)
    {
      var loaded := GetPanierFromCookie(cookie, json);
      if loaded.NullList? {
        return Exception(ArgumentNull);
      }
      var panier := new Panier(loaded.items);
      var found := panier.Modifier(produitId, nouvelleQuantite);
      if found {
        SavePanierToCookie(panier.items);
      }
      r := Done;
    }

    /** POST /Panier/Supprimer: remove; save only if the product was in the cart. */
    method Supprimer(produitId: Int32) returns (r: Outcome)
      modifies this
      ensures var loaded := GetPanierFromCookie(old(cookie), json);
        if loaded.NullList? then r == Exception(ArgumentNull) && cookie == old(cookie)
        else if produitId in Ids(loaded.items) then
          r == Done && cookie == Some(json.serialize(Removed(loaded.items, produitId)))
        else r == Done && cookie == old(cookie)
    {
      var loaded := GetPanierFromCookie(cookie, json);
      if loaded.NullList? {
        return Exception(ArgumentNull);
      }
      var panier := new Panier(loaded.items);
      var found := panier.Supprimer(produitId);
      if found {
        SavePanierToCookie(panier.items);
      }
      r := Done;
    }

    /** POST /Panier/Vider: delete the cookie without reading it. */
    method Vider() returns (r: Outcome)
      modifies this
      ensures r == Done && cookie == None
      ensures GetPanierFromCookie(cookie, json) == Loaded([])
    {
      cookie := None;
      r := Done;
    }

    /** POST /Panier/Commander: refuse an empty cart and leave the cookie alone;
        otherwise compute the summary and delete the cookie. */
    method Commander() returns (r: Outcome)
      modifies this
      ensures var loaded := GetPanierFromCookie(old(cookie), json);
        if loaded.NullList? then r == Exception(ArgumentNull) && cookie == old(cookie)
        else r == Summarize(loaded.items) && cookie == (if r.Commande? then None else old(cookie))
      ensures r.Commande? ==> GetPanierFromCookie(cookie, json) == Loaded([])
    {
      var loaded := GetPanierFromCookie(cookie, json);
      if loaded.NullList? {
        return Exception(ArgumentNull);
      }
      var panier := loaded.items;
      if panier == [] {
        return PanierVide;
      }
      var total := TotalPrix(panier);
      var nbArticles := CheckedUnits(panier, 0);
      if nbArticles.None? {
        return Exception(Overflow);
      }
      cookie := None;
      r := Commande(total, nbArticles.value);
    }
  }
}
