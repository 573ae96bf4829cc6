/**
 * The buyer's order form: a draft of buyer details plus one cart line per
 * selected product, the guards in front of saving the details and placing
 * the order, and the reset after a placed order. Every handler is a pure
 * function from the current form to the next one; sign-in, the browser
 * storage write and the network request enter as boolean outcomes.
 */
module OrderForm {
  import opened Wrappers
  import opened Text
  import opened Seqs
  import opened Types

  /** A cart line as the form holds it: the client-side price is carried but never trusted. */
  datatype CartLine = CartLine(productId: string, name: string, quantity: int, price: int)

  datatype Form = Form(buyerName: string, buyerContact: string, deliveryAddress: string, items: seq<CartLine>)

  const MinQuantity := 1
  const MaxQuantity := 10
  const PhoneLength := 10

  // ---------------------------------------------------------------- phone

  /** The regular expression `^[0-9]{n}$`, matched one repetition at a time. */
  predicate MatchesDigitRun(s: string, n: nat)
    decreases n
  {
    if n == 0 then s == [] else |s| > 0 && IsDigit(s[0]) && MatchesDigitRun(s[1..], n - 1)
  }

  predicate IsValidPhone(s: string) {
    MatchesDigitRun(s, PhoneLength)
  }

  lemma {:induction false} DigitRunIff(s: string, n: nat)
    ensures MatchesDigitRun(s, n) <==> |s| == n && AllDigits(s)
    decreases n
  {
    if n > 0 && |s| > 0 {
      DigitRunIff(s[1..], n - 1);
      if AllDigits(s) {
        assert AllDigits(s[1..]) by {
          forall i | 0 <= i < |s| - 1 ensures IsDigit(s[1..][i]) {
            assert s[1..][i] == s[i + 1];
          }
        }
      }
      if IsDigit(s[0]) && AllDigits(s[1..]) {
        forall i | 0 <= i < |s| ensures IsDigit(s[i]) {
          if i > 0 {
            assert s[i] == s[1..][i - 1];
          }
        }
      }
    }
  }

  /** A phone number is valid exactly when it is ten characters, all decimal digits. */
  lemma IsValidPhoneIff(s: string)
    ensures IsValidPhone(s) <==> |s| == 10 && AllDigits(s)
  {
    DigitRunIff(s, PhoneLength);
  }

  // ---------------------------------------------------------------- cart

  predicate HasLine(items: seq<CartLine>, id: string) {
    exists i :: 0 <= i < |items| && items[i].productId == id
  }

  function ProductIdOf(l: CartLine): string {
    l.productId
  }

  /** A product appears on at most one line. */
  ghost predicate UniqueIds(items: seq<CartLine>) {
    UniqueBy(items, ProductIdOf)
  }

  ghost predicate QuantitiesInRange(items: seq<CartLine>) {
    forall i :: 0 <= i < |items| ==> MinQuantity <= items[i].quantity <= MaxQuantity
  }

  /** The line a product gets when it is first selected. */
  function NewLine(p: Product): CartLine {
    CartLine(p.id, p.name, 1, p.price)
  }

  /** The filter test that drops the lines of product `id`. */
  function OtherThan(id: string): CartLine -> bool {
    (l: CartLine) => l.productId != id
  }

  function RemoveLines(items: seq<CartLine>, id: string): (r: seq<CartLine>)
    ensures !HasLine(r, id)
    ensures forall i :: 0 <= i < |r| ==> r[i] in items
    ensures forall i :: 0 <= i < |items| && items[i].productId != id ==> items[i] in r
    ensures IsSubsequence(r, items)
    ensures KeepsCopies(r, items, OtherThan(id))
  {
    FilterCopies(items, OtherThan(id));
    var r := Filter(items, OtherThan(id));
    assert forall i :: 0 <= i < |r| ==> OtherThan(id)(r[i]);
    r
  }

  /** Select/Remove button: appends a fresh line for an unselected product, drops the lines of a selected one. */
  function Toggle(items: seq<CartLine>, p: Product): (r: seq<CartLine>)
    ensures !HasLine(items, p.id) ==>
      |r| == |items| + 1 && r[..|items|] == items && r[|items|] == NewLine(p)
    ensures HasLine(items, p.id) ==>
      && !HasLine(r, p.id)
      && (forall i :: 0 <= i < |r| ==> r[i] in items)
      && (forall i :: 0 <= i < |items| && items[i].productId != p.id ==> items[i] in r)
      && IsSubsequence(r, items)
      && KeepsCopies(r, items, OtherThan(p.id))
  {
    if HasLine(items, p.id) then RemoveLines(items, p.id) else items + [NewLine(p)]
  }

  /** Selecting a product and then removing it restores the cart exactly. */
  lemma ToggleTwiceRestores(items: seq<CartLine>, p: Product)
    requires !HasLine(items, p.id)
    ensures Toggle(Toggle(items, p), p) == items
  {
    var once := items + [NewLine(p)];
    assert once[|items|].productId == p.id;
    FilterConcat(items, [NewLine(p)], OtherThan(p.id));
    FilterKeepsAll(items, OtherThan(p.id));
    assert Filter([NewLine(p)], OtherThan(p.id)) == [];
  }

  /** Removing and re-selecting a product moves it to the end with quantity 1. */
  lemma ToggleTwiceResetsLine(items: seq<CartLine>, p: Product)
    requires HasLine(items, p.id)
    ensures Toggle(Toggle(items, p), p) == RemoveLines(items, p.id) + [NewLine(p)]
  {
  }

  lemma ToggleKeepsUniqueIds(items: seq<CartLine>, p: Product)
    requires UniqueIds(items)
    ensures UniqueIds(Toggle(items, p))
  {
    if HasLine(items, p.id) {
      FilterKeepsUnique(items, OtherThan(p.id), ProductIdOf);
    } else {
      var r := items + [NewLine(p)];
      forall i, j | 0 <= i < j < |r|
        ensures ProductIdOf(r[i]) != ProductIdOf(r[j])
      {
        if j == |items| {
          assert r[i] == items[i];
        } else {
          assert r[i] == items[i] && r[j] == items[j];
        }
      }
    }
  }

  lemma ToggleKeepsQuantities(items: seq<CartLine>, p: Product)
    requires QuantitiesInRange(items)
    ensures QuantitiesInRange(Toggle(items, p))
  {
    var r := Toggle(items, p);
    forall i | 0 <= i < |r|
      ensures MinQuantity <= r[i].quantity <= MaxQuantity
    {
      if HasLine(items, p.id) || i < |items| {
        var k :| 0 <= k < |items| && items[k] == r[i];
      }
    }
  }

  /** Quantity input: out-of-range values are ignored; otherwise the product's line gets the new quantity. */
  function SetQuantity(items: seq<CartLine>, id: string, quantity: int): (r: seq<CartLine>)
    ensures quantity < MinQuantity || quantity > MaxQuantity ==> r == items
    ensures |r| == |items|
    ensures forall i :: 0 <= i < |items| ==>
      && r[i].productId == items[i].productId
      && r[i].name == items[i].name
      && r[i].price == items[i].price
      && r[i].quantity == (if items[i].productId == id && MinQuantity <= quantity <= MaxQuantity
                           then quantity else items[i].quantity)
  {
    if quantity < MinQuantity || quantity > MaxQuantity then items
    else seq(|items|, i requires 0 <= i < |items| =>
           (if items[i].productId == id then items[i].(quantity := quantity) else items[i]))
  }

  /** A quantity change never adds, drops or reorders products, and keeps every quantity in range. */
  lemma SetQuantityKeepsInvariants(items: seq<CartLine>, id: string, quantity: int)
    requires QuantitiesInRange(items) && UniqueIds(items)
    ensures QuantitiesInRange(SetQuantity(items, id, quantity))
    ensures UniqueIds(SetQuantity(items, id, quantity))
    ensures forall k :: HasLine(SetQuantity(items, id, quantity), k) <==> HasLine(items, k)
  {
    var r := SetQuantity(items, id, quantity);
    forall k ensures HasLine(r, k) <==> HasLine(items, k) {
      if HasLine(items, k) {
        var i :| 0 <= i < |items| && items[i].productId == k;
        assert r[i].productId == k;
      }
    }
    forall i, j | 0 <= i < j < |r|
      ensures ProductIdOf(r[i]) != ProductIdOf(r[j])
    {
      assert ProductIdOf(r[i]) == ProductIdOf(items[i]) && ProductIdOf(r[j]) == ProductIdOf(items[j]);
    }
  }

  /** The product the form was opened from is added once, with quantity 1, unless it is already in the cart. */
  function AddInitialProduct(items: seq<CartLine>, initial: Option<Product>): (r: seq<CartLine>)
    ensures |items| <= |r| <= |items| + 1 && r[..|items|] == items
    ensures |r| == |items| + 1 <==> initial.Some? && !HasLine(items, initial.value.id)
    ensures |r| == |items| + 1 ==> r[|items|] == NewLine(initial.value)
    ensures initial.Some? ==> HasLine(r, initial.value.id)
  {
    match initial
    case None => items
    case Some(p) =>
      if HasLine(items, p.id) then items
      else
        var r := items + [NewLine(p)];
        assert r[|items|].productId == p.id;
        r
  }

  lemma AddInitialProductIdempotent(items: seq<CartLine>, initial: Option<Product>)
    ensures AddInitialProduct(AddInitialProduct(items, initial), initial) == AddInitialProduct(items, initial)
  {
  }

  /** When a signed-in user has a user name, it replaces the buyer name; nothing else changes. */
  function ApplyUsername(f: Form, isSignedIn: bool, username: Option<string>): (r: Form)
    ensures isSignedIn && username.Some? && username.value != "" ==> r.buyerName == username.value
    ensures !(isSignedIn && username.Some? && username.value != "") ==> r.buyerName == f.buyerName
    ensures r.(buyerName := f.buyerName) == f
  {
    if isSignedIn && username.Some? && username.value != "" then f.(buyerName := username.value) else f
  }

  // ---------------------------------------------------------------- save details

  datatype Profile = Profile(buyerName: string, buyerContact: string, deliveryAddress: string)

  /** Whether the details panel is open for editing, and whether details were ever saved. */
  datatype AddressPanel = AddressPanel(isEditingAddress: bool, hasSavedAddress: bool)

  datatype SaveResult = InvalidDetails | StorageFailed | Saved(profile: Profile)

  datatype SaveStep = SaveStep(result: SaveResult, panel: AddressPanel)

  /** Save/Update Details: needs a contact, an address and a valid phone; the buyer name is not checked. */
  function SaveInfo(f: Form, panel: AddressPanel, storageOk: bool): (r: SaveStep)
    ensures r.result == InvalidDetails <==>
      f.buyerContact == "" || f.deliveryAddress == "" || !IsValidPhone(f.buyerContact)
    ensures r.result.Saved? <==> r.result != InvalidDetails && storageOk
    ensures r.result.Saved? ==>
      && r.result.profile == Profile(f.buyerName, f.buyerContact, f.deliveryAddress)
      && r.panel == AddressPanel(false, true)
    ensures !r.result.Saved? ==> r.panel == panel
  {
    if f.buyerContact == "" || f.deliveryAddress == "" || !IsValidPhone(f.buyerContact) then
      SaveStep(InvalidDetails, panel)
    else if !storageOk then
      SaveStep(StorageFailed, panel)
    else
      SaveStep(Saved(Profile(f.buyerName, f.buyerContact, f.deliveryAddress)), AddressPanel(false, true))
  }

  /** The buyer name plays no part in whether details can be saved. */
  lemma SaveInfoIgnoresBuyerName(f: Form, panel: AddressPanel, storageOk: bool, name: string)
    ensures SaveInfo(f.(buyerName := name), panel, storageOk).result.Saved?
        == SaveInfo(f, panel, storageOk).result.Saved?
  {
  }

  // ---------------------------------------------------------------- submit

  datatype SubmitError = NotSignedIn | MissingBuyerDetails | InvalidContact | NoItems | RequestFailed

  datatype SubmitOutcome = Placed | Refused(error: SubmitError)

  /** What Place Order did: the body it posted, if it got that far, and the form afterwards. */
  datatype SubmitStep = SubmitStep(outcome: SubmitOutcome, posted: Option<Form>, form: Form)

  /**
   * Place Order. The checks run in order: signed in, all three buyer fields
   * non-empty, valid phone, at least one line. Only then is the whole form
   * posted; after a successful post the cart is emptied and the buyer fields stay.
   */
  function Submit(f: Form, isSignedIn: bool, requestOk: bool): (r: SubmitStep)
    ensures r.outcome == Refused(NotSignedIn) <==> !isSignedIn
    ensures r.outcome == Refused(MissingBuyerDetails) <==>
      isSignedIn && (f.buyerName == "" || f.buyerContact == "" || f.deliveryAddress == "")
    ensures r.outcome == Refused(InvalidContact) <==>
      && isSignedIn && f.buyerName != "" && f.buyerContact != "" && f.deliveryAddress != ""
      && !IsValidPhone(f.buyerContact)
    ensures r.outcome == Refused(NoItems) <==>
      && isSignedIn && f.buyerName != "" && f.buyerContact != "" && f.deliveryAddress != ""
      && IsValidPhone(f.buyerContact) && |f.items| == 0
    ensures r.posted.Some? <==>
      && isSignedIn && f.buyerName != "" && f.buyerContact != "" && f.deliveryAddress != ""
      && IsValidPhone(f.buyerContact) && |f.items| > 0
    ensures r.posted.Some? ==> r.posted.value == f
    ensures r.outcome == Placed <==> r.posted.Some? && requestOk
    ensures r.outcome == Refused(RequestFailed) <==> r.posted.Some? && !requestOk
    ensures r.outcome == Placed ==> r.form == f.(items := [])
    ensures r.outcome != Placed ==> r.form == f
  {
    if !isSignedIn then SubmitStep(Refused(NotSignedIn), None, f)
    else if f.buyerName == "" || f.buyerContact == "" || f.deliveryAddress == "" then
      SubmitStep(Refused(MissingBuyerDetails), None, f)
    else if !IsValidPhone(f.buyerContact) then SubmitStep(Refused(InvalidContact), None, f)
    else if |f.items| == 0 then SubmitStep(Refused(NoItems), None, f)
    else if !requestOk then SubmitStep(Refused(RequestFailed), Some(f), f)
    else SubmitStep(Placed, Some(f), Form(f.buyerName, f.buyerContact, f.deliveryAddress, []))
  }

  /** Whatever reaches the server would also have passed the Save Details guard. */
  lemma SubmitPostedPassesSaveGuard(f: Form, isSignedIn: bool, requestOk: bool, panel: AddressPanel)
    requires Submit(f, isSignedIn, requestOk).posted.Some?
    ensures SaveInfo(f, panel, true).result.Saved?
  {
  }

  /** An invalid contact number is refused by both Save Details and Place Order. */
  lemma InvalidPhoneRefusedEverywhere(f: Form, isSignedIn: bool, requestOk: bool, panel: AddressPanel, storageOk: bool)
    requires !IsValidPhone(f.buyerContact)
    ensures SaveInfo(f, panel, storageOk).result == InvalidDetails
    ensures Submit(f, isSignedIn, requestOk).outcome != Placed
    ensures Submit(f, isSignedIn, requestOk).posted.None?
  {
  }

  /** After a placed order, placing again at once is refused for an empty cart, with the buyer details intact. */
  lemma ResubmitAfterPlacedRefused(f: Form, requestOk: bool)
    requires Submit(f, true, true).outcome == Placed
    ensures Submit(Submit(f, true, true).form, true, requestOk).outcome == Refused(NoItems)
  {
  }
}
