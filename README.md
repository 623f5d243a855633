# Storefront cart and sign-in, modelled in Dafny

This project models the two pieces of logic in a small ASP.NET storefront that
make decisions of their own:

- **The shopping cart** (`PanierController`). A cart is an ordered list of line
  items (`ProduitId`, `Nom`, `Prix`, `Quantite`). It is kept in a cookie named
  "Panier" and re-decoded on every request. Five actions change it. `Ajouter`
  merges into the first line with the same product id or appends a line.
  `Modifier` overwrites a quantity, or removes the line when the new quantity is
  zero or less. `Supprimer` removes a line. `Vider` deletes the cookie.
  `Commander` refuses an empty cart; otherwise it computes the amount and the
  number of units, then deletes the cookie.
- **Sign-in** (`AccountController`). `IsValidUser` checks a fixed table of three
  accounts: the user name is lower-cased and the password must match exactly.
  `Login` then picks where to send the user: a local return URL first, otherwise
  a page chosen by role.

Files and modules:

- `wrappers.dfy`, module `Wrappers`: `Option`, where `None` stands for a C# null.
- `int32.dfy`, module `Int32Math`: the C# `int` range and unchecked (wrapping)
  addition.
- `decimal.dfy`, module `DecimalMath`: the values a C# `decimal` can take.
- `cart.dfy`, module `Cart`: line items, the lookup `FirstIndex`
  (`FirstOrDefault`), the pure specifications `Added`, `Modified`, `Removed`,
  the totals `Units`, `TotalPrix` and the checked sum `CheckedUnits`, and the
  lemmas about them. The class `Panier` is the decoded list of one request; its
  methods edit it in place and are proved against the specifications.
- `cart_controller.dfy`, module `CartController`: the JSON library as a pair of
  functions, the decode fallback `GetPanierFromCookie`, the checkout summary
  `Summarize`, and the class `PanierController`. That class holds the cookie and
  runs each action as a request: decode, edit, then save, delete or leave the
  cookie.
- `account.dfy`, module `Account`: the account table, `IsValidUser`, `Login`
  and the lemmas about them.

Modelling choices:

- C# `decimal` prices are `DecimalMath.Decimal`: reals of magnitude at most
  2^96 - 1 with at most 28 digits after the point. Sums and products of prices
  are exact reals. A line's
  total is `Prix * Quantite`. The view model that defines `Total` is not part of
  this model; the formula comes from the commented-out class at
  Controllers/PanierController.cs:173.
- Quantities and product ids are C# `int` (`Int32`). `Quantite += quantite`
  wraps around in unchecked C#, and `Int32Math.AddWrap` models that.
  `Enumerable.Sum` over the quantities is checked arithmetic: an overflowing
  partial sum throws, and the model reports `Exception(Overflow)`.
- `JsonSerializer.Serialize`/`Deserialize` are fields of a `Json` value given to
  the controller. Deserializing gives a list, a null reference (for the text
  `null`) or an exception. `RoundTrips(json)` states that every cart,
  whose prices are decimals, serializes to a non-empty text that deserializes
  back to the same cart. System.Text.Json round-trips `decimal` values, and
  carts with decimal prices form a countable set, so serializers satisfying
  the law exist. The law is used as a hypothesis, never assumed.
- `string.ToLower` and `Url.IsLocalUrl` are function parameters. `AsciiLower`
  is one concrete lower-casing, used in the examples.
- The list items are values. In the C# code, `itemExist.Quantite += quantite`
  mutates an object that only the freshly decoded list refers to. Replacing the
  item at its position has the same effect.
- `List.Remove(item)` is modelled as removing the position that `FirstIndex`
  found. No earlier element can equal that item, whether equality is by
  reference or by value, because an earlier element would have matched the id
  first.

The code behaves as follows in three places that matter:

- `Ajouter` does not validate `quantite`. A quantity of zero or less is merged
  or stored as given (Controllers/PanierController.cs:21-41), so "every quantity
  is at least 1" holds only for edits made through `Modifier`.
  `Cart.AjouterStoresNonPositive` shows the counterexample. `Commander` still
  orders such a cart (`CartController.ZeroQuantityOrdered`).
- The cart is not guaranteed to have unique ids: a cookie can hold duplicates.
  Lookup touches only the first match, so removal is idempotent only when ids
  are unique (`Cart.RemovedIdempotent`, `Cart.SupprimerTwiceWithDuplicates`).
- Decoding the literal `null` is not caught by the fallback. Every action that
  then reads the list fails with `ArgumentNullException`, and the cookie is not
  changed.

## Model

| member | source | states |
|---|---|---|
| Cart.Added | Controllers/PanierController.cs:26-41 | the list after an add; its properties are stated by AjouterIds, AjouterMerges, AjouterAppends, AjouterTwiceAccumulates and AjouterTotals |
| Cart.Modified | Controllers/PanierController.cs:54-67 | the list after a quantity change; its properties are stated by AbsentIdIsNoOp, ModifierOverwrites, ModifierRemoves, ModifierKeepsInvariants and ModifierIdempotent |
| Cart.Removed | Controllers/PanierController.cs:80-84 | the list after a removal; its properties are stated by AbsentIdIsNoOp, SupprimerRemovesId, RemovedIdempotent and SupprimerTwiceWithDuplicates |
| Cart.LineTotal | Controllers/PanierController.cs:173 | a line's total, price times quantity; AjouterTotals states how an add moves the sum of the totals |
| Cart.Units | Controllers/PanierController.cs:116 | the sum of the quantities; UnitsAtLeastLines, UnitsNonNegative, AjouterTotals and CheckedUnits state its properties |
| Cart.TotalPrix | Controllers/PanierController.cs:115 | the sum of the line totals; AjouterTotals states how an add changes it and Summarize reports it |
| Cart.FirstIndex | Controllers/PanierController.cs:26 | the lookup returns the position of the first line with the id, or none exactly when no line has it |
| Cart.FirstIndexFinds | Controllers/PanierController.cs:54-56 | an item is found exactly when its id occurs in the cart |
| Cart.RemoveAt | Controllers/PanierController.cs:84 | removing the found line shortens the cart by one and keeps the other lines in order |
| Cart.AjouterIds | Controllers/PanierController.cs:26-41 | after an add the ids are the old ids plus the product's id; the cart grows by one line exactly when the id was absent |
| Cart.AjouterMerges | Controllers/PanierController.cs:26-31 | adding a present id adds the quantity (wrapping) to the first matching line and keeps its name, price and position, the other lines and the length |
| Cart.AjouterAppends | Controllers/PanierController.cs:32-41 | adding an absent id appends exactly one line with the given id, name, price and quantity after the unchanged old lines |
| Cart.AjouterKeepsUniqueIds | Controllers/PanierController.cs:26-41 | if ids are unique before an add they are unique after it |
| Cart.AjouterTwiceAccumulates | Controllers/PanierController.cs:26-41 | two adds of one product equal one add of the summed quantity, with the first add's name and price |
| Cart.AjouterKeepsPositive | Controllers/PanierController.cs:30 | a positive add that does not overflow keeps every quantity positive |
| Cart.AjouterStoresNonPositive | Controllers/PanierController.cs:32-41 | adding quantity 0 stores a line with quantity 0: the add does not validate quantities |
| Cart.AjouterTotals | Controllers/PanierController.cs:26-41 | an add without overflow raises the unit count by the quantity and the amount by the quantity times the price of the line it lands on |
| Cart.AbsentIdIsNoOp | Controllers/PanierController.cs:54-56 | changing or removing an absent id leaves the cart unchanged |
| Cart.ModifierOverwrites | Controllers/PanierController.cs:63-66 | a positive new quantity overwrites the first matching line's quantity and changes nothing else |
| Cart.ModifierRemoves | Controllers/PanierController.cs:58-61 | a new quantity of zero or less removes the first matching line, keeps the rest in order, and equals Supprimer |
| Cart.ModifierKeepsInvariants | Controllers/PanierController.cs:58-67 | Modifier preserves unique ids and positive quantities |
| Cart.ModifierIdempotent | Controllers/PanierController.cs:54-67 | with unique ids, setting the same quantity twice equals setting it once |
| Cart.SupprimerRemovesId | Controllers/PanierController.cs:80-84 | with unique ids, removing takes exactly that id out of the cart and keeps ids unique |
| Cart.RemovedIdempotent | Controllers/PanierController.cs:80-84 | with unique ids, removing twice equals removing once |
| Cart.SupprimerTwiceWithDuplicates | Controllers/PanierController.cs:80 | with a duplicated id only the first line is removed, so a second removal changes the cart again |
| Cart.UnitsAtLeastLines | Controllers/PanierController.cs:116 | with positive quantities the unit count is at least the number of lines (units, not lines) |
| Cart.UnitsNonNegative | Controllers/PanierController.cs:116 | without negative quantities the unit count is not negative |
| Cart.PartialSumsShift | Controllers/PanierController.cs:116 | a left-to-right partial sum leaves the int range exactly when the first step does or a later partial sum does |
| Cart.CheckedUnits | Controllers/PanierController.cs:116 | the checked sum fails exactly when some left-to-right partial sum leaves the int range, and otherwise is the exact sum; without negative quantities it succeeds whenever the total is in range |
| Cart.Panier.Ajouter | Controllers/PanierController.cs:25-41 | the in-place edit leaves the list equal to Added of the old list |
| Cart.Panier.Modifier | Controllers/PanierController.cs:54-67 | reports whether the id was present and leaves the list equal to Modified of the old list |
| Cart.Panier.Supprimer | Controllers/PanierController.cs:80-84 | reports whether the id was present and leaves the list equal to Removed of the old list |
| DecimalMath.CentsAreDecimal | Controllers/PanierController.cs:21 | every in-range whole number of cents is a decimal value |
| Int32Math.AddWrap | Controllers/PanierController.cs:30 | the unchecked int sum equals the mathematical sum when in range, and falls below both operands on overflow |
| CartController.GetPanierFromCookie | Controllers/PanierController.cs:127-144 | a cookie that parses to a list decodes to that list; an absent or empty cookie, or one whose deserialization throws, decodes to the empty cart; a null result happens exactly for a deserialized null |
| CartController.SavedCartReloads | Controllers/PanierController.cs:146-148 | with a serializer that round-trips decimal-priced carts, the next request decodes exactly the saved cart |
| CartController.Summarize | Controllers/PanierController.cs:106-116 | an empty cart is refused; otherwise the order carries the sum of price times quantity and the sum of quantities, and fails with an overflow exactly when a partial sum of the quantities leaves the int range; a cart without negative quantities and an in-range total is always ordered |
| CartController.ZeroQuantityOrdered | Controllers/PanierController.cs:106-116 | a cart whose only line has quantity 0 is ordered with no units and a zero amount |
| CartController.CommanderExample | Controllers/PanierController.cs:114-116 | 2 x 10.00 plus 1 x 5.50 gives total 25.50 and 3 units |
| CartController.SessionExample | Controllers/PanierController.cs:21-116 | add, add again, set to 0, add another product, then order: only the last product is ordered |
| CartController.PanierController.SavePanierToCookie | Controllers/PanierController.cs:146-159 | the cookie afterwards holds the serialized list |
| CartController.PanierController.Ajouter | Controllers/PanierController.cs:21-47 | a decodable cart is always saved as Added of the decoded list, which the next request reads back; a null list fails and leaves the cookie alone |
| CartController.PanierController.Modifier | Controllers/PanierController.cs:51-73 | the cookie is rewritten with Modified of the decoded list only when the id was present, otherwise left untouched |
| CartController.PanierController.Supprimer | Controllers/PanierController.cs:77-90 | the cookie is rewritten with Removed of the decoded list only when the id was present, otherwise left untouched |
| CartController.PanierController.Vider | Controllers/PanierController.cs:94-100 | the cookie is deleted, so the next request decodes the empty cart |
| CartController.PanierController.Commander | Controllers/PanierController.cs:104-125 | the result is the summary of the decoded cart; the cookie is deleted exactly when an order was placed, so an empty cart is refused and left untouched |
| Account.IsValidUser | Controllers/AccountController.cs:91-109 | a null name is rejected; acceptance requires the lower-cased name in the table and the exact stored password, and yields the stored role; a rejection has a null role |
| Account.AcceptedExactly | Controllers/AccountController.cs:93-104 | exactly admin/admin123, manager/manager123 and user/user123 are accepted, with roles Admin, Manager and User |
| Account.UsernameCaseInsensitive | Controllers/AccountController.cs:100 | names that lower-case alike get the same answer |
| Account.PasswordExact | Controllers/AccountController.cs:100-101 | at most one password is accepted for a name |
| Account.AsciiLower | Controllers/AccountController.cs:100 | ASCII lower-casing keeps the length, turns each upper-case letter into its lower-case letter, keeps every other character, and leaves no upper-case letter |
| Account.AsciiLowerIdempotent | Controllers/AccountController.cs:100 | lower-casing a lower-cased name changes nothing |
| Account.AsciiLowerEqualIff | Controllers/AccountController.cs:100 | two names lower-case alike exactly when they are equal up to ASCII case |
| Account.AsciiCaseInsensitiveLogin | Controllers/AccountController.cs:100-101 | with ASCII lower-casing, names equal up to ASCII case get the same answer |
| Account.AsciiExamples | Controllers/AccountController.cs:93-108 | "ADMIN" with admin123 signs in as Admin; admin with ADMIN123 and a null name are refused |
| Account.Login | Controllers/AccountController.cs:23-73 | sign-in happens exactly for valid credentials, as the typed name with the table's role; a failure shows the form with the same return URL; a redirect goes only to a usable local URL; only Admin or Manager reach Admin/Index |
| Account.ReturnUrlWins | Controllers/AccountController.cs:53-56 | after a successful login a non-empty local return URL wins over any role |
| Account.RoleLandingPage | Controllers/AccountController.cs:59-66 | without a usable return URL, Admin and Manager go to Admin/Index and every other role to Home/Index |
| Account.LandingPageByAccount | Controllers/AccountController.cs:59-66 | without a usable return URL, admin and manager land on Admin/Index and user on Home/Index |

## Left out

- Cookie transport: cookie options, the 7-day expiry, HttpOnly, SameSite and Secure (Controllers/PanierController.cs:150-159). The cookie is an optional text; `Append` stores a text and `Delete` makes it absent.
- The JSON encoding itself: the serializer is a parameter. A JSON array holding `null` elements, which would make the id lookup throw, is not modelled: decoded lists always hold items. Defaults for missing JSON fields depend on the view model, which is not part of this model.
- `TempData` messages and the culture-dependent `{total:C}` formatting: presentation only.
- `decimal` overflow and rounding: line totals and amounts are exact reals, and `Decimal` admits values with more significant digits than the 96-bit mantissa holds.
- Model binding of the action parameters: `nom` is never null here.
- `Index` (GET /Panier) only decodes and renders, and GET `Login`, `Logout` and `AccessDenied` only render a view or sign out, so none has its own member.
- `HttpContext.SignInAsync`, the claims identity and its 7-day authentication properties: the sign-in is represented by the `Principal` (name and role claims) in the login result.
- Culture-specific lower-casing: `ToLower` is a parameter, so the model holds for any lower-casing function.
- Concurrent requests from one client (last save wins): each action is modelled as one sequential request.
