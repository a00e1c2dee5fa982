/** The product list of src/components/productList.jsx: the fetched entries,
    a loading flag and an error message, the fetch, the confirmed delete, the
    refetch on every change of the refresh trigger, and what is rendered. */
module ProductListModel {
  import opened Common

  /** The refresh trigger prop: the root component passes a flag, the
      dashboard a counter. Only a change of its value matters. */
  datatype Trigger = Flag(on: bool) | Counter(count: int)

  /** The component's three state variables. */
  datatype ListState = ListState(products: seq<Product>, loading: bool, error: Option<string>)

  const LoadFailed := "Failed to load products. Please check server connection."
  const NotFound := "Product not found - it may have already been deleted"
  const DeleteFailed := "Failed to delete product. Please try again."

  /** `error` as the render reads it: a non-empty string is truthy. */
  predicate HasError(s: ListState) {
    s.error.Some? && s.error.value != ""
  }

  /** `response.data.data || []`: the listed entries, or none when the body or
      its `data` field is missing. */
  function ListedProducts(body: Option<Body>): (ps: seq<Product>)
    ensures body.Some? && body.value.data.Some? ==> ps == body.value.data.value
    ensures body.None? || body.value.data.None? ==> ps == []
  {
    match body
    case None => []
    case Some(b) =>
      match b.data
      case Some(ps) => ps
      case None => []
  }

  /** `fetchProducts` from its first setter to its `finally`: a resolved
      request replaces the entries, a rejected one sets the load message and
      keeps the entries; loading ends false either way, and the error is
      never cleared. */
  function AfterFetch(s: ListState, reply: ServerReply): (t: ListState)
    ensures !t.loading
    ensures Settle(reply, AnySuccess).Resolved? ==> t.products == ListedProducts(reply.body) && t.error == s.error
    ensures Settle(reply, AnySuccess).Rejected? ==> t.products == s.products && t.error == Some(LoadFailed)
    ensures HasError(s) ==> HasError(t)
  {
    match Settle(reply, AnySuccess)
    case Resolved(r) => ListState(ListedProducts(r.body), false, s.error)
    case Rejected(_, _) => ListState(s.products, false, Some(LoadFailed))
  }

  /** How a delete click ends, decided by the confirmation and the reply. */
  datatype DeleteOutcome = Declined | Deleted | AlreadyGone | Failed

  function ClassifyDelete(confirmed: bool, reply: ServerReply): DeleteOutcome {
    if !confirmed then Declined
    else
      match reply
      case NetworkError(_) => Failed
      case Reply(status, _) =>
        if status == 200 then Deleted else if status == 404 then AlreadyGone else Failed
  }

  /** The delete request resolves (it was made with the 200-or-404 rule)
      exactly for the two outcomes that refetch. */
  lemma ClassifyMatchesClient(confirmed: bool, reply: ServerReply)
    ensures confirmed && Settle(reply, OkOrNotFound).Resolved? <==> ClassifyDelete(confirmed, reply) in {Deleted, AlreadyGone}
    ensures confirmed && Settle(reply, OkOrNotFound).Resolved? ==>
      (ClassifyDelete(confirmed, reply) == Deleted <==> Settle(reply, OkOrNotFound).response.status == 200)
  {
  }

  /** The state after a delete click. A declined confirmation changes
      nothing; a 200 refetches; a 404 sets the not-found message and then
      refetches; anything else sets the delete message and leaves the entries
      and the loading flag as they were. */
  function AfterDelete(s: ListState, confirmed: bool, reply: ServerReply, refetch: ServerReply): (t: ListState)
    ensures !confirmed ==> t == s
    ensures ClassifyDelete(confirmed, reply) == Failed ==> t == s.(error := Some(DeleteFailed))
    ensures ClassifyDelete(confirmed, reply) == Deleted ==> t == AfterFetch(s, refetch)
    ensures ClassifyDelete(confirmed, reply) == AlreadyGone ==> t == AfterFetch(s.(error := Some(NotFound)), refetch)
    ensures ClassifyDelete(confirmed, reply) in {Deleted, AlreadyGone} ==> !t.loading
    ensures ClassifyDelete(confirmed, reply) == AlreadyGone ==> HasError(t)
    ensures HasError(s) ==> HasError(t)
  {
    match ClassifyDelete(confirmed, reply)
    case Declined => s
    case Deleted => AfterFetch(s, refetch)
    case AlreadyGone => AfterFetch(s.(error := Some(NotFound)), refetch)
    case Failed => s.(error := Some(DeleteFailed))
  }

  /** What the component renders. */
  datatype View = LoadingView | ErrorView(message: string) | ListView(products: seq<Product>)

  /** Loading first, then a truthy error (shown with a Retry button that
      runs the fetch again), then the entries. */
  function Render(s: ListState): (v: View)
    ensures v.LoadingView? <==> s.loading
    ensures v.ErrorView? <==> !s.loading && HasError(s)
    ensures v.ErrorView? ==> v.message == s.error.value
    ensures v.ListView? ==> v.products == s.products
  {
    if s.loading then LoadingView
    else if HasError(s) then ErrorView(s.error.value)
    else ListView(s.products)
  }

  /** A 404 on delete leaves the error view on screen even though the
      refetch ran. */
  lemma NotFoundLeavesBanner(s: ListState, body: Option<Body>, refetch: ServerReply)
    ensures Render(AfterDelete(s, true, Reply(404, body), refetch)).ErrorView?
  {
  }

  /** The user-visible events of a mounted list: a fetch (on mount, on a
      trigger change, or from Retry) and a delete click. */
  datatype ListEvent =
    | Fetch(reply: ServerReply)
    | Delete(confirmed: bool, reply: ServerReply, refetch: ServerReply)

  function Step(s: ListState, e: ListEvent): ListState {
    match e
    case Fetch(reply) => AfterFetch(s, reply)
    case Delete(confirmed, reply, refetch) => AfterDelete(s, confirmed, reply, refetch)
  }

  function Run(s: ListState, events: seq<ListEvent>): ListState
    decreases |events|
  {
    if events == [] then s else Run(Step(s, events[0]), events[1..])
  }

  /** Once an error is shown nothing clears it: after any later fetches,
      retries and deletes there is still an error. */
  lemma {:induction false} ErrorPersists(s: ListState, events: seq<ListEvent>)
    requires HasError(s)
    ensures HasError(Run(s, events))
    decreases |events|
  {
    if events != [] {
      ErrorPersists(Step(s, events[0]), events[1..]);
    }
  }

  /** Once the error view is on screen, the entries are never listed again
      while the component stays mounted. */
  lemma {:induction false} ErrorViewIsFinal(s: ListState, events: seq<ListEvent>)
    requires Render(s).ErrorView?
    ensures Render(Run(s, events)).ErrorView?
    decreases |events|
  {
    if events != [] {
      var t := Step(s, events[0]);
      assert !t.loading && HasError(t);
      ErrorViewIsFinal(t, events[1..]);
    }
  }

  class ProductList {
    var products: seq<Product>
    var loading: bool
    var error: Option<string>
    /** The trigger value the refresh effect last ran for; None before mount. */
    var seenTrigger: Option<Trigger>

    function State(): ListState
      reads this
    {
      ListState(products, loading, error)
    }

    /** The first render: no entries, loading, no error. */
    constructor ()
      ensures State() == ListState([], true, None) && seenTrigger == None
    {
      products, loading, error := [], true, None;
      seenTrigger := None;
    }

    /** `fetchProducts`; it is also what the Retry button runs. */
    method FetchProducts(reply: ServerReply)
      modifies this
      ensures State() == AfterFetch(old(State()), reply)
      ensures seenTrigger == old(seenTrigger)
    {
      loading := true;
      var settled := Settle(reply, AnySuccess);
      if settled.Resolved? {
        products := ListedProducts(settled.response.body);
      } else {
        error := Some(LoadFailed);
      }
      loading := false;
    }

    /** `handleDelete`: the DELETE request is sent only after confirmation;
        `refetched` says whether the list was fetched again. */
    method HandleDelete(id: string, confirmed: bool, reply: ServerReply, refetch: ServerReply)
      returns (sent: Option<string>, refetched: bool)
      modifies this
      ensures sent == if confirmed then Some(ProductsPath + "/" + id) else None
      ensures refetched <==> ClassifyDelete(confirmed, reply) in {Deleted, AlreadyGone}
      ensures State() == AfterDelete(old(State()), confirmed, reply, refetch)
      ensures seenTrigger == old(seenTrigger)
    {
      sent, refetched := None, false;
      if !confirmed {
        return;
      }
      sent := Some(ProductsPath + "/" + id);
      var settled := Settle(reply, OkOrNotFound);
      if settled.Resolved? {
        if settled.response.status == 200 {
          FetchProducts(refetch);
          refetched := true;
        } else if settled.response.status == 404 {
          error := Some(NotFound);
          FetchProducts(refetch);
          refetched := true;
        }
      } else {
        error := Some(DeleteFailed);
      }
    }

    /** The effect keyed on the refresh trigger: it fetches on mount and
        whenever the trigger's value differs from the one it last ran for. */
    method RefreshEffect(trigger: Trigger, reply: ServerReply) returns (fetched: bool)
      modifies this
      ensures fetched <==> old(seenTrigger) != Some(trigger)
      ensures seenTrigger == Some(trigger)
      ensures State() == if fetched then AfterFetch(old(State()), reply) else old(State())
    {
      fetched := seenTrigger != Some(trigger);
      if fetched {
        seenTrigger := Some(trigger);
        FetchProducts(reply);
      }
    }
  }
}
