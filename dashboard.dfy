/** The alternative root of src/components/ProductDashboard.jsx: it lifts the
    selected entry and a counter trigger, and offers logout. It renders the
    editor without a key and passes it no completion callback (the callbacks
    it does pass are props the editor never reads), so the counter never
    moves and a completed submission neither clears the selection nor
    refreshes the list. */
module DashboardModel {
  import opened Common
  import opened SessionModel
  import opened ProductFormModel
  import opened ProductListModel

  class Dashboard {
    var selectedProduct: Option<Product>
    var refreshTrigger: int
    const session: Session
    /** One editor for the dashboard's whole life: it is never re-keyed. */
    const form: ProductForm
    const list: ProductList

    /** The counter is still 0, the editor is rendered with the current
        selection, and the list's refresh effect has not run or ran for 0. */
    ghost predicate Valid()
      reads this, form, list
    {
      && refreshTrigger == 0
      && form.selectedProduct == selectedProduct
      && (list.seenTrigger == None || list.seenTrigger == Some(Counter(0)))
    }

    /** The first render: no selection, the counter 0, an empty editor and a
        list that is loading. */
    constructor (session: Session)
      ensures Valid() && fresh(form) && fresh(list) && this.session == session
      ensures selectedProduct == None
      ensures form.formData == EmptyDraft() && form.errors == map[] && form.fileInput == []
      ensures list.State() == ListState([], true, None) && list.seenTrigger == None
    {
      selectedProduct := None;
      refreshTrigger := 0;
      this.session := session;
      form := new ProductForm(None);
      list := new ProductList();
    }

    /** The list's refresh effect: since the counter never changes, it runs
        once, on mount, and never again. */
    method ListRefreshEffect(reply: ServerReply) returns (fetched: bool)
      requires Valid()
      modifies list
      ensures Valid()
      ensures fetched <==> old(list.seenTrigger) == None
      ensures list.seenTrigger == Some(Counter(0))
      ensures list.State() == if fetched then AfterFetch(old(list.State()), reply) else old(list.State())
    {
      fetched := list.RefreshEffect(Counter(refreshTrigger), reply);
    }

    /** The Edit button of a listed entry: with no key the same editor is
        re-rendered, its effect reseeds the draft when the selection changed,
        and validation errors from before are kept. */
    method Edit(p: Product)
      requires Valid()
      modifies this, form
      ensures Valid() && selectedProduct == Some(p)
      ensures form.formData == if Some(p) != old(selectedProduct) then SeedDraft(Some(p)) else old(form.formData)
      ensures form.errors == old(form.errors) && form.fileInput == old(form.fileInput)
    {
      selectedProduct := Some(p);
      form.ReceiveSelection(selectedProduct);
    }

    /** A submission from the editor, which has no completion callback: on
        success the draft and file input are emptied, the missing callback
        throws and the error is logged; the selection, the counter and the
        list stay as they were in every case. */
    method SubmitForm(isNumber: string -> bool, reply: ServerReply)
      returns (request: Option<Request>, logged: Option<string>)
      requires Valid()
      modifies form
      ensures Valid()
      ensures selectedProduct == old(selectedProduct) && list.State() == old(list.State())
      ensures list.seenTrigger == old(list.seenTrigger)
      ensures request.Some? <==> Accepted(old(form.formData), isNumber)
      ensures request.Some? ==> request.value == SubmitRequest(selectedProduct, Payload(old(form.formData)))
      ensures form.errors == ExpectedErrors(old(form.formData), isNumber)
      ensures
        if request.Some? && Settle(reply, AnySuccess).Resolved? then
          form.formData == EmptyDraft() && form.fileInput == [] && logged == Some(MissingCallbackMessage)
        else
          && form.formData == old(form.formData) && form.fileInput == old(form.fileInput)
          && logged == (if request.Some? then SubmitFailureMessage(Settle(reply, AnySuccess)) else None)
    {
      var notified;
      request, notified, logged := form.HandleSubmit(isNumber, reply, false);
    }

    /** `handleLogout`: the stored token is removed and the session is no
        longer authenticated. */
    method HandleLogout()
      requires Valid()
      modifies session
      ensures Valid()
      ensures session.storedToken == None && !session.isAuthenticated
    {
      session.storedToken := None;
      session.isAuthenticated := false;
    }

    /** The Delete button of a listed entry. */
    method Delete(id: string, confirmed: bool, reply: ServerReply, refetch: ServerReply)
      returns (sent: Option<string>)
      requires Valid()
      modifies list
      ensures Valid()
      ensures sent == if confirmed then Some(ProductsPath + "/" + id) else None
      ensures list.State() == AfterDelete(old(list.State()), confirmed, reply, refetch)
      ensures list.seenTrigger == old(list.seenTrigger)
    {
      var refetched;
      sent, refetched := list.HandleDelete(id, confirmed, reply, refetch);
    }

    /** The Retry button, shown only with the error view. */
    method Retry(reply: ServerReply)
      requires Valid() && Render(list.State()).ErrorView?
      modifies list
      ensures Valid()
      ensures list.State() == AfterFetch(old(list.State()), reply)
      ensures Render(list.State()).ErrorView?
      ensures list.seenTrigger == old(list.seenTrigger)
    {
      list.FetchProducts(reply);
    }
  }
}
