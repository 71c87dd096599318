/** The category slice of the application store: its state, the lifecycle
    events of the five request thunks plus the reset action, the reducer as a
    transition function, and the store object whose handlers update its
    fields one by one as the reducer's case handlers do. */
module CategorySlice {

  import opened Wrappers
  import opened JsValues
  import opened CategoryList
  import Rejection

  /** The slice's state: the list, the selected category, three status flags
      and the last rejection's payload. */
  datatype State = State(
    categories: seq<Category>,
    category: Option<Category>,
    isLoading: bool,
    isError: bool,
    isSuccess: bool,
    message: JsValue)

  /** `initialState`: empty list, no selection, every flag false, empty message. */
  const InitialState: State := State([], None, false, false, false, Str(""))

  /** The five request thunks. */
  datatype Op = List | Create | GetOne | Delete | Update

  /** The payload of a successful list request: a response envelope. */
  datatype ListResponse = ListResponse(data: seq<Category>)

  /** The payload of a successful delete request: it carries the deleted id. */
  datatype DeleteResponse = DeleteResponse(id: Id)

  /** The actions the slice reacts to. Every thunk's pending (and rejected)
      case is handled alike, so one constructor covers the five of them. */
  datatype Event =
    | Pending(op: Op)
    | ListFulfilled(listed: ListResponse)
    | CreateFulfilled(created: Category)
    | GetOneFulfilled(found: Category)
    | DeleteFulfilled(deleted: DeleteResponse)
    | UpdateFulfilled(updated: Category)
    | Rejected(failed: Op, reason: JsValue)
    | Reset
  {
    /** The event ends a request, successfully or not. */
    predicate Settles()
    {
      !Pending? && !Reset?
    }
  }

  /** The flags every fulfilled handler writes. */
  function Succeeded(s: State): State
  {
    s.(isLoading := false, isError := false, isSuccess := true)
  }

  /** The reducer: the state after handling one event. */
  function Step(s: State, e: Event): (r: State)
    // only list, create, delete and update success, and reset, write the list
    ensures e.Pending? || e.Rejected? || e.GetOneFulfilled? ==> r.categories == s.categories
    // only get-one success and reset write the selection
    ensures !e.GetOneFulfilled? && !e.Reset? ==> r.category == s.category
    // only a rejection and reset write the message
    ensures !e.Rejected? && !e.Reset? ==> r.message == s.message
    // every event that ends a request clears loading and sets exactly one of error and success
    ensures e.Settles() ==> !r.isLoading && r.isError == !r.isSuccess
    // loading is set after exactly the pending events
    ensures r.isLoading <==> e.Pending?
  {
    match e
    case Pending(_) => s.(isLoading := true)
    case ListFulfilled(p) => Succeeded(s).(categories := p.data)
    case CreateFulfilled(c) => Succeeded(s).(categories := s.categories + [c])
    case GetOneFulfilled(c) => Succeeded(s).(category := Some(c))
    case DeleteFulfilled(p) => Succeeded(s).(categories := RemoveById(s.categories, p.id))
    case UpdateFulfilled(u) => Succeeded(s).(categories := ReplaceById(s.categories, u))
    case Rejected(_, reason) =>
      s.(isLoading := false, isError := true, isSuccess := false, message := reason)
    case Reset => InitialState
  }

  /** The state after handling a sequence of events in order. */
  function Run(s: State, es: seq<Event>): State
    decreases |es|
  {
    if es == [] then s else Step(Run(s, es[..|es| - 1]), es[|es| - 1])
  }

  // ------------------------------------------------------- one transition

  /** Reset restores `initialState` whatever the state was. */
  lemma ResetRestoresInitial(s: State)
    ensures Step(s, Reset) == InitialState
    ensures Step(s, Reset).categories == [] && Step(s, Reset).category == None
    ensures !Step(s, Reset).isLoading && !Step(s, Reset).isError && !Step(s, Reset).isSuccess
    ensures Step(s, Reset).message == Str("")
  {
  }

  /** Any pending event raises `isLoading` and touches nothing else: the
      previous error, success, message, list and selection all stay. */
  lemma PendingOnlyRaisesLoading(s: State, op: Op)
    ensures Step(s, Pending(op)).isLoading
    ensures Step(s, Pending(op)) == s.(isLoading := true)
  {
  }

  /** Any rejected event records the failure and its payload, and leaves the
      list and the selection alone. */
  lemma RejectedRecordsReason(s: State, op: Op, reason: JsValue)
    ensures var r := Step(s, Rejected(op, reason));
      && !r.isLoading && r.isError && !r.isSuccess && r.message == reason
      && r.categories == s.categories && r.category == s.category
  {
  }

  /** A rejection produced by a thunk's catch block stores the server's body
      when it is truthy, and the error's message otherwise. */
  lemma ThunkRejectionMessage(s: State, op: Op, err: Rejection.ServiceError)
    ensures var r := Step(s, Rejected(op, Rejection.RejectionValue(err)));
      && r.isError
      && (err.response.Some? && Truthy(err.response.value.data) ==> r.message == err.response.value.data)
      && (err.response.None? || !Truthy(err.response.value.data) ==> r.message == Str(err.message))
  {
    if err.response.None? || !Truthy(err.response.value.data) {
      Rejection.FalsyBodyFallsBackToMessage(err);
    }
  }

  /** After any fulfilled or rejected event the request is over and exactly
      one of error and success is set. */
  lemma SettledFlagsAgree(s: State, e: Event)
    requires e.Settles()
    ensures !Step(s, e).isLoading
    ensures Step(s, e).isError == !Step(s, e).isSuccess
  {
  }

  /** List success replaces the whole list with the response's `data`. */
  lemma ListFulfilledReplacesList(s: State, p: ListResponse)
    ensures var r := Step(s, ListFulfilled(p));
      && r.categories == p.data
      && !r.isLoading && !r.isError && r.isSuccess
      && r.category == s.category && r.message == s.message
  {
  }

  /** Create success appends the payload: one more entry, the old ones first
      in their order, and no check for an id already present. */
  lemma CreateFulfilledAppends(s: State, c: Category)
    ensures var r := Step(s, CreateFulfilled(c));
      && |r.categories| == |s.categories| + 1
      && r.categories[..|s.categories|] == s.categories
      && r.categories[|s.categories|] == c
      && r.isSuccess && !r.isError && !r.isLoading
      && r.category == s.category && r.message == s.message
    ensures HasId(s.categories, c.id) ==> !UniqueIds(Step(s, CreateFulfilled(c)).categories)
  {
    if HasId(s.categories, c.id) {
      AppendDuplicatesPresentId(s.categories, c);
    }
  }

  /** Get-one success selects the payload and leaves list and message alone. */
  lemma GetOneFulfilledSelects(s: State, c: Category)
    ensures var r := Step(s, GetOneFulfilled(c));
      && r.category == Some(c)
      && r.categories == s.categories && r.message == s.message
      && r.isSuccess && !r.isError && !r.isLoading
  {
  }

  /** Delete success drops exactly the entries with the deleted id, keeps the
      others in order, and changes neither selection nor message. */
  lemma DeleteFulfilledRemoves(s: State, p: DeleteResponse)
    ensures var r := Step(s, DeleteFulfilled(p));
      && (forall k :: 0 <= k < |r.categories| ==> r.categories[k].id != p.id)
      && IsSubsequence(r.categories, s.categories)
      && (forall c: Category :: c.id != p.id ==> multiset(r.categories)[c] == multiset(s.categories)[c])
      && (!HasId(s.categories, p.id) ==> r.categories == s.categories)
      && r.category == s.category && r.message == s.message
      && r.isSuccess && !r.isError && !r.isLoading
  {
    var rs := RemoveById(s.categories, p.id);
    assert Step(s, DeleteFulfilled(p)) == Succeeded(s).(categories := rs);
    RemoveByIdIsSubsequence(s.categories, p.id);
    forall c: Category | c.id != p.id
      ensures multiset(rs)[c] == multiset(s.categories)[c]
    {
      RemoveByIdCount(s.categories, p.id, c);
    }
    if !HasId(s.categories, p.id) {
      RemoveByIdNoMatch(s.categories, p.id);
    }
  }

  /** Every event keeps the list's ids unique, except a create whose id is
      already present and a list response whose data repeats an id. */
  lemma StepKeepsUniqueIds(s: State, e: Event)
    requires UniqueIds(s.categories)
    requires e.CreateFulfilled? ==> !HasId(s.categories, e.created.id)
    requires e.ListFulfilled? ==> UniqueIds(e.listed.data)
    ensures UniqueIds(Step(s, e).categories)
  {
    match e
    case CreateFulfilled(c) => AppendFreshIdKeepsUnique(s.categories, c);
    case DeleteFulfilled(p) => RemoveByIdKeepsUnique(s.categories, p.id);
    case UpdateFulfilled(u) => ReplaceByIdKeepsUnique(s.categories, u);
    case _ =>
  }

  /** Delete success handled twice leaves the list as handling it once. */
  lemma DeleteFulfilledIdempotent(s: State, p: DeleteResponse)
    ensures Step(Step(s, DeleteFulfilled(p)), DeleteFulfilled(p)) == Step(s, DeleteFulfilled(p))
  {
    RemoveByIdIdempotent(s.categories, p.id);
  }

  /** Update success replaces, in place, every entry whose id matches the
      payload's; the length and every other entry stay. */
  lemma UpdateFulfilledReplaces(s: State, u: Category)
    ensures var r := Step(s, UpdateFulfilled(u));
      && |r.categories| == |s.categories|
      && (forall k :: 0 <= k < |s.categories| && s.categories[k].id == u.id ==> r.categories[k] == u)
      && (forall k :: 0 <= k < |s.categories| && s.categories[k].id != u.id ==> r.categories[k] == s.categories[k])
      && r.category == s.category && r.message == s.message
      && r.isSuccess && !r.isError && !r.isLoading
  {
  }

  /** Update success handled twice leaves the state as handling it once. */
  lemma UpdateFulfilledIdempotent(s: State, u: Category)
    ensures Step(Step(s, UpdateFulfilled(u)), UpdateFulfilled(u)) == Step(s, UpdateFulfilled(u))
  {
    ReplaceByIdIdempotent(s.categories, u);
  }

  // ---------------------------------------------------- event sequences

  /** Splitting off the last event of a run. */
  lemma RunSnoc(s: State, es: seq<Event>, e: Event)
    ensures Run(s, es + [e]) == Step(Run(s, es), e)
  {
  }

  /** After a reset, whatever came before is forgotten: the run continues as
      from `initialState`. */
  lemma {:induction false} ResetForgetsHistory(s: State, before: seq<Event>, after: seq<Event>)
    ensures Run(s, before + [Reset] + after) == Run(InitialState, after)
  {
    if after == [] {
      assert before + [Reset] + after == before + [Reset];
      RunSnoc(s, before, Reset);
    } else {
      var last := after[|after| - 1];
      var init := after[..|after| - 1];
      ResetForgetsHistory(s, before, init);
      assert before + [Reset] + after == (before + [Reset] + init) + [last];
      assert after == init + [last];
      RunSnoc(s, before + [Reset] + init, last);
      RunSnoc(InitialState, init, last);
    }
  }

  /** What every state reachable from `initialState` satisfies: error and
      success are never both set, and while neither is set nothing has
      settled since the last reset, so list, selection and message are still
      the initial ones. */
  ghost predicate Coherent(s: State)
  {
    && !(s.isError && s.isSuccess)
    && (!s.isError && !s.isSuccess ==>
          s.categories == [] && s.category == None && s.message == Str(""))
  }

  /** Every event keeps the state coherent. */
  lemma StepKeepsCoherent(s: State, e: Event)
    requires Coherent(s)
    ensures Coherent(Step(s, e))
  {
  }

  /** Every run from a coherent state ends in a coherent state. */
  lemma {:induction false} RunKeepsCoherent(s: State, es: seq<Event>)
    requires Coherent(s)
    ensures Coherent(Run(s, es))
  {
    if es != [] {
      RunKeepsCoherent(s, es[..|es| - 1]);
      StepKeepsCoherent(Run(s, es[..|es| - 1]), es[|es| - 1]);
    }
  }

  /** No sequence of events from `initialState` sets error and success together. */
  lemma NeverErrorAndSuccess(es: seq<Event>)
    ensures !(Run(InitialState, es).isError && Run(InitialState, es).isSuccess)
  {
    RunKeepsCoherent(InitialState, es);
  }

  // ---------------------------------------------------- concrete scenarios

  /** List pending then fulfilled with one category: the list is that
      category and the request succeeded. */
  lemma ListScenario(c: Category)
    ensures var r := Run(InitialState, [Pending(List), ListFulfilled(ListResponse([c]))]);
      r.categories == [c] && r.isSuccess && !r.isLoading && !r.isError
  {
  }

  /** Deleting id `a` from `[{id: a}, {id: b}]` leaves `[{id: b}]`. */
  lemma DeleteScenario(s: State, fa: Fields, a: Id, fb: Fields, b: Id)
    requires a != b && s.categories == [Category(a, fa), Category(b, fb)]
    ensures Step(s, DeleteFulfilled(DeleteResponse(a))).categories == [Category(b, fb)]
  {
    var tail := [Category(b, fb)];
    assert s.categories[1..] == tail && tail[1..] == [];
    assert RemoveById(tail, a) == tail + RemoveById([], a);
  }

  // ------------------------------------------------------- the store object

  /** The slice as the store holds it: the case handlers assign its fields
      in place. Each handler is specified by `Step`. */
  class CategoryStore {
    var categories: seq<Category>
    var category: Option<Category>
    var isLoading: bool
    var isError: bool
    var isSuccess: bool
    var message: JsValue

    /** The current value of the fields. */
    function Snapshot(): State
      reads this
    {
      State(categories, category, isLoading, isError, isSuccess, message)
    }

    /** The store starts from `initialState`. */
    constructor ()
      ensures Snapshot() == InitialState
    {
      categories := [];
      category := None;
      isLoading := false;
      isError := false;
      isSuccess := false;
      message := Str("");
    }

    /** `state.isLoading = true`, for the pending case of every thunk. */
    method OnPending(op: Op)
      modifies this
      ensures Snapshot() == Step(old(Snapshot()), Pending(op))
    {
      isLoading := true;
    }

    method OnListFulfilled(payload: ListResponse)
      modifies this
      ensures Snapshot() == Step(old(Snapshot()), ListFulfilled(payload))
    {
      isLoading := false;
      isError := false;
      isSuccess := true;
      categories := payload.data;
    }

    /** `state.categories.push(action.payload)`. */
    method OnCreateFulfilled(payload: Category)
      modifies this
      ensures Snapshot() == Step(old(Snapshot()), CreateFulfilled(payload))
    {
      isLoading := false;
      isError := false;
      isSuccess := true;
      categories := categories + [payload];
    }

    method OnGetOneFulfilled(payload: Category)
      modifies this
      ensures Snapshot() == Step(old(Snapshot()), GetOneFulfilled(payload))
    {
      isLoading := false;
      isError := false;
      isSuccess := true;
      category := Some(payload);
    }

    method OnDeleteFulfilled(payload: DeleteResponse)
      modifies this
      ensures Snapshot() == Step(old(Snapshot()), DeleteFulfilled(payload))
    {
      isLoading := false;
      isError := false;
      isSuccess := true;
      categories := RemoveById(categories, payload.id);
    }

    method OnUpdateFulfilled(payload: Category)
      modifies this
      ensures Snapshot() == Step(old(Snapshot()), UpdateFulfilled(payload))
    {
      isLoading := false;
      isError := false;
      isSuccess := true;
      categories := ReplaceById(categories, payload);
    }

    /** The rejected case of every thunk: the payload becomes the message. */
    method OnRejected(op: Op, payload: JsValue)
      modifies this
      ensures Snapshot() == Step(old(Snapshot()), Rejected(op, payload))
    {
      isLoading := false;
      isError := true;
      isSuccess := false;
      message := payload;
    }

    /** `resetState`: the whole state becomes `initialState`. */
    method OnReset()
      modifies this
      ensures Snapshot() == Step(old(Snapshot()), Reset)
    {
      categories := [];
      category := None;
      isLoading := false;
      isError := false;
      isSuccess := false;
      message := Str("");
    }

    /** Routes an action to its case handler. */
    method Dispatch(e: Event)
      modifies this
      ensures Snapshot() == Step(old(Snapshot()), e)
    {
      match e
      case Pending(op) => OnPending(op);
      case ListFulfilled(p) => OnListFulfilled(p);
      case CreateFulfilled(c) => OnCreateFulfilled(c);
      case GetOneFulfilled(c) => OnGetOneFulfilled(c);
      case DeleteFulfilled(p) => OnDeleteFulfilled(p);
      case UpdateFulfilled(u) => OnUpdateFulfilled(u);
      case Rejected(op, reason) => OnRejected(op, reason);
      case Reset => OnReset();
    }
  }
}
