/**
 * The admin product list: loading, inline editing of one product's name and
 * price, saving the edit, and deleting a product. The price field holds
 * text; how the source's `parseInt` reads arbitrary text is a parameter.
 */
module ProductsManage {
  import opened Wrappers
  import opened Text
  import opened Seqs
  import opened Types
  import opened Decimal

  /** The inline editor: which product is open and the text in its two fields. */
  datatype Editor = Editor(productId: Option<string>, name: string, price: string)

  const Closed := Editor(None, "", "")

  datatype ManageView = ManageView(
    products: seq<Product>,
    loading: bool,
    loadingError: bool,
    editor: Editor,
    updatingProductId: Option<string>,
    deletingProductId: Option<string>)

  const InitialView := ManageView([], false, false, Closed, None, None)

  /** The PUT body of a save. */
  datatype ProductUpdate = ProductUpdate(id: string, name: string, price: int)

  /** Loading the list: the fetched products, or the load-error flag. */
  function FetchProducts(v: ManageView, fetched: Option<seq<Product>>): (r: ManageView)
    ensures !r.loading
    ensures fetched.Some? ==> r.products == fetched.value && !r.loadingError
    ensures fetched.None? ==> r.products == v.products && r.loadingError
    ensures r.(products := v.products, loadingError := v.loadingError, loading := v.loading) == v
  {
    match fetched
    case Some(ps) => v.(products := ps, loadingError := false, loading := false)
    case None => v.(loadingError := true, loading := false)
  }

  /** Edit: opens the editor on the product with its name and its price as decimal text. */
  function StartEditing(v: ManageView, p: Product): (r: ManageView)
    ensures r.editor.productId == Some(p.id) && r.editor.name == p.name
    ensures ParseDecimal(r.editor.price) == Some(p.price)
    ensures r.(editor := v.editor) == v
  {
    IntToStringRoundTrip(p.price);
    v.(editor := Editor(Some(p.id), p.name, IntToString(p.price)))
  }

  /** Cancel: closes the editor and clears both fields. */
  function CancelEditing(v: ManageView): (r: ManageView)
    ensures r.editor.productId.None? && r.editor.name == "" && r.editor.price == ""
    ensures r.(editor := v.editor) == v
  {
    v.(editor := Closed)
  }

  datatype SaveStep = SaveStep(request: Option<ProductUpdate>, view: ManageView)

  /**
   * Save. A blank name or an unreadable price is refused with no request and
   * no change. Otherwise the trimmed name and the read price are sent; on
   * success the editor closes (and a reload is started), on failure it stays
   * open. The busy marker is cleared either way.
   */
  function SaveEdit(v: ManageView, id: string, parseInt: string -> Option<int>, requestOk: bool): (r: SaveStep)
    ensures r.request.None? <==> Trim(v.editor.name) == "" || parseInt(v.editor.price).None?
    ensures r.request.None? ==> r.view == v
    ensures r.request.Some? ==>
      r.request.value == ProductUpdate(id, Trim(v.editor.name), parseInt(v.editor.price).value)
    ensures r.request.Some? && requestOk ==> r.view.editor == Closed
    ensures r.request.Some? && !requestOk ==> r.view.editor == v.editor
    ensures r.request.Some? ==> r.view.updatingProductId.None? && r.view.products == v.products
    ensures r.view.(editor := v.editor, updatingProductId := v.updatingProductId) == v
  {
    var name := Trim(v.editor.name);
    var price := parseInt(v.editor.price);
    if name == "" || price.None? then SaveStep(None, v)
    else
      var sent := Some(ProductUpdate(id, name, price.value));
      if requestOk then SaveStep(sent, v.(editor := Closed, updatingProductId := None))
      else SaveStep(sent, v.(updatingProductId := None))
  }

  /** A name of only white space is refused however the price reads. */
  lemma BlankNameRefused(v: ManageView, id: string, parseInt: string -> Option<int>, requestOk: bool)
    requires AllSpace(v.editor.name)
    ensures SaveEdit(v, id, parseInt, requestOk) == SaveStep(None, v)
  {
  }

  /**
   * Opening the editor and saving it untouched sends the product's own id,
   * trimmed name and price, provided `parseInt` reads decimal text as written.
   */
  lemma EditThenSaveUnchanged(v: ManageView, p: Product, parseInt: string -> Option<int>, requestOk: bool)
    requires forall s :: ParseDecimal(s).Some? ==> parseInt(s) == ParseDecimal(s)
    requires Trim(p.name) != ""
    ensures SaveEdit(StartEditing(v, p), p.id, parseInt, requestOk).request
         == Some(ProductUpdate(p.id, Trim(p.name), p.price))
  {
  }

  function NotProduct(id: string): Product -> bool {
    (p: Product) => p.id != id
  }

  /**
   * Delete. A declined confirmation does nothing. A successful DELETE removes
   * the products with that id and keeps the rest in order; a failed one keeps
   * the list. The busy marker is cleared either way.
   */
  function DeleteProduct(v: ManageView, id: string, confirmed: bool, requestOk: bool): (r: ManageView)
    ensures !confirmed ==> r == v
    ensures confirmed && requestOk ==>
      && (forall i :: 0 <= i < |r.products| ==> r.products[i] in v.products && r.products[i].id != id)
      && (forall i :: 0 <= i < |v.products| && v.products[i].id != id ==> v.products[i] in r.products)
      && IsSubsequence(r.products, v.products)
      && KeepsCopies(r.products, v.products, NotProduct(id))
    ensures confirmed && !requestOk ==> r.products == v.products
    ensures confirmed ==> r.deletingProductId.None? && r.editor == v.editor
    ensures r.(products := v.products, deletingProductId := v.deletingProductId) == v
  {
    if !confirmed then v
    else if requestOk then
      FilterCopies(v.products, NotProduct(id));
      var kept := Filter(v.products, NotProduct(id));
      assert forall i :: 0 <= i < |kept| ==> NotProduct(id)(kept[i]);
      v.(products := kept, deletingProductId := None)
    else v.(deletingProductId := None)
  }

  /** Deleting an id that is not listed leaves the list as it was. */
  lemma DeleteAbsentKeepsList(v: ManageView, id: string)
    requires forall i :: 0 <= i < |v.products| ==> v.products[i].id != id
    ensures DeleteProduct(v, id, true, true).products == v.products
  {
    FilterKeepsAll(v.products, NotProduct(id));
  }
}
