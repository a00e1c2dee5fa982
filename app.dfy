/** The root component of src/App.jsx: it lifts the selected entry and a
    boolean refresh trigger, re-keys the editor by the selected entry's id,
    and on a completed submission flips the trigger and returns the editor to
    create mode. */
module AppModel {
  import opened Common
  import opened ProductFormModel
  import opened ProductListModel

  const CreateKey := "create"
  const EditHeading := "Edit Product"
  const CreateHeading := "Create Product"

  /** `selectedProduct?._id || "create"`: the selected entry's id when it is
      a non-empty string, "create" otherwise. */
  function FormKey(selected: Option<Product>): (k: string)
    ensures selected.Some? && selected.value.id != "" ==> k == selected.value.id
    ensures selected.None? || selected.value.id == "" ==> k == CreateKey
  {
    if selected.Some? && selected.value.id != "" then selected.value.id else CreateKey
  }

  /** Selections with different non-empty ids, or a selection and create
      mode, get different keys, so moving between them mounts a fresh
      editor; the one overlap is an entry whose id is the text "create". */
  lemma KeysSeparateSelections(a: Option<Product>, b: Option<Product>)
    requires a.Some? ==> a.value.id !in {"", CreateKey}
    requires b.Some? ==> b.value.id !in {"", CreateKey}
    ensures FormKey(a) == FormKey(b) <==> (a.None? && b.None?) || (a.Some? && b.Some? && a.value.id == b.value.id)
  {
  }

  function Heading(selected: Option<Product>): (h: string)
    ensures h == EditHeading <==> selected.Some?
    ensures h == CreateHeading <==> selected.None?
  {
    if selected.Some? then EditHeading else CreateHeading
  }

  class App {
    var selectedProduct: Option<Product>
    var refreshTrigger: bool
    /** The key the mounted editor was created with. */
    var formKey: string
    var form: ProductForm
    var list: ProductList

    /** The editor is keyed by and rendered with the current selection, and
        the list's refresh effect has not run or last ran for the current
        trigger. */
    ghost predicate Valid()
      reads this, form, list
    {
      && formKey == FormKey(selectedProduct)
      && form.selectedProduct == selectedProduct
      && (list.seenTrigger == None || list.seenTrigger == Some(Flag(refreshTrigger)))
    }

    /** The first render: no selection, the trigger false, an empty editor
        and a list that is loading. */
    constructor ()
      ensures Valid() && fresh(form) && fresh(list)
      ensures selectedProduct == None && !refreshTrigger
      ensures form.formData == EmptyDraft() && form.errors == map[] && form.fileInput == []
      ensures list.State() == ListState([], true, None) && list.seenTrigger == None
    {
      selectedProduct := None;
      refreshTrigger := false;
      formKey := FormKey(None);
      form := new ProductForm(None);
      list := new ProductList();
    }

    /** The list's refresh effect for the current trigger. Between
        submissions it runs only once, on mount. */
    method ListRefreshEffect(reply: ServerReply) returns (fetched: bool)
      requires Valid()
      modifies list
      ensures Valid()
      ensures fetched <==> old(list.seenTrigger) == None
      ensures list.seenTrigger == Some(Flag(refreshTrigger))
      ensures list.State() == if fetched then AfterFetch(old(list.State()), reply) else old(list.State())
    {
      fetched := list.RefreshEffect(Flag(refreshTrigger), reply);
    }

    /** Rendering the editor for the current selection: a key different
        from the mounted one mounts a fresh editor seeded from the
        selection; the same key re-renders the mounted one, whose effect
        reseeds the draft only if the selection changed. */
    method RenderForm()
      modifies this, form
      ensures formKey == FormKey(selectedProduct) && form.selectedProduct == selectedProduct
      ensures selectedProduct == old(selectedProduct) && refreshTrigger == old(refreshTrigger) && list == old(list)
      ensures FormKey(selectedProduct) != old(formKey) ==>
        && fresh(form)
        && form.formData == SeedDraft(selectedProduct) && form.errors == map[] && form.fileInput == []
      ensures FormKey(selectedProduct) == old(formKey) ==>
        && form == old(form)
        && form.formData == (if selectedProduct != old(form.selectedProduct) then SeedDraft(selectedProduct) else old(form.formData))
        && form.errors == old(form.errors) && form.fileInput == old(form.fileInput)
    {
      var key := FormKey(selectedProduct);
      if key != formKey {
        form := new ProductForm(selectedProduct);
        formKey := key;
      } else {
        form.ReceiveSelection(selectedProduct);
      }
    }

    /** The Edit button of a listed entry. */
    method Edit(p: Product)
      requires Valid()
      modifies this, form
      ensures Valid() && selectedProduct == Some(p)
      ensures refreshTrigger == old(refreshTrigger) && list == old(list)
      ensures FormKey(Some(p)) != old(formKey) ==>
        fresh(form) && form.formData == SeedDraft(Some(p)) && form.errors == map[] && form.fileInput == []
      ensures FormKey(Some(p)) == old(formKey) ==>
        && form == old(form)
        && form.formData == (if Some(p) != old(selectedProduct) then SeedDraft(Some(p)) else old(form.formData))
        && form.errors == old(form.errors) && form.fileInput == old(form.fileInput)
    {
      selectedProduct := Some(p);
      RenderForm();
    }

    /** `handleSubmitSuccess`: the trigger changes value (so two completions
        restore it) and the selection is cleared. */
    method HandleSubmitSuccess()
      modifies this
      ensures refreshTrigger == !old(refreshTrigger) && selectedProduct == None
      ensures formKey == old(formKey) && form == old(form) && list == old(list)
    {
      refreshTrigger := !refreshTrigger;
      selectedProduct := None;
    }

    /** A submission from the editor. When it completes, the trigger flips,
        the selection is cleared, the editor is back in create mode with an
        empty draft and no errors, and the list fetches again; otherwise only
        the editor changed. */
    method SubmitForm(isNumber: string -> bool, reply: ServerReply, refetch: ServerReply)
      returns (request: Option<Request>, logged: Option<string>)
      requires Valid()
      modifies this, form, list
      ensures Valid() && list == old(list)
      ensures request.Some? <==> Accepted(old(form.formData), isNumber)
      ensures request.Some? ==> request.value == SubmitRequest(old(selectedProduct), Payload(old(form.formData)))
      ensures
        var completed := request.Some? && Settle(reply, AnySuccess).Resolved?;
        if completed then
          && refreshTrigger == !old(refreshTrigger) && selectedProduct == None
          && form.formData == EmptyDraft() && form.errors == map[] && form.fileInput == []
          && list.State() == AfterFetch(old(list.State()), refetch)
          && list.seenTrigger == Some(Flag(refreshTrigger))
          && logged == None
        else
          && refreshTrigger == old(refreshTrigger) && selectedProduct == old(selectedProduct)
          && form == old(form) && form.formData == old(form.formData) && form.fileInput == old(form.fileInput)
          && form.errors == ExpectedErrors(old(form.formData), isNumber)
          && list.State() == old(list.State()) && list.seenTrigger == old(list.seenTrigger)
          && logged == (if request.Some? then SubmitFailureMessage(Settle(reply, AnySuccess)) else None)
    {
      var notified;
      request, notified, logged := form.HandleSubmit(isNumber, reply, true);
      if notified {
        ValidIffNoErrors(old(form.formData), isNumber);
        HandleSubmitSuccess();
        RenderForm();
        var fetched := list.RefreshEffect(Flag(refreshTrigger), refetch);
      }
    }

    /** The Delete button of a listed entry; the selection is left as it is
        even when the selected entry is the one deleted. */
    method Delete(id: string, confirmed: bool, reply: ServerReply, refetch: ServerReply)
      returns (sent: Option<string>)
      requires Valid()
      modifies list
      ensures Valid()
      ensures sent == if confirmed then Some(ProductsPath + "/" + id) else None
      ensures list.State() == AfterDelete(old(list.State()), confirmed, reply, refetch)
      ensures list.seenTrigger == old(list.seenTrigger)
    {
      var refetched;
      sent, refetched := list.HandleDelete(id, confirmed, reply, refetch);
    }

    /** The Retry button, shown only with the error view. */
    method Retry(reply: ServerReply)
      requires Valid() && Render(list.State()).ErrorView?
      modifies list
      ensures Valid()
      ensures list.State() == AfterFetch(old(list.State()), reply)
      ensures Render(list.State()).ErrorView?
      ensures list.seenTrigger == old(list.seenTrigger)
    {
      list.FetchProducts(reply);
    }
  }
}
