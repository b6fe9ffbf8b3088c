/**
 * The list-state hooks: each owns a few state cells (the items, a loading flag, the last error,
 * and for golf courses the pagination) that every operation updates in the same order: raise
 * loading, clear the error, take the client's outcome, reconcile the list or record the error,
 * notify, lower loading. The client's outcome is an input (`Success(v)` or `Failure(message)`).
 * Toasts are entries appended to a log; every write to a loading cell is recorded in the ghost
 * `loadingWrites` so that "raised on entry, lowered on every exit" can be stated.
 */
module Hooks {
  import opened Wrappers
  import opened Json
  import Seqs
  import Api

  // ---------------------------------------------------------------- notifications

  datatype Toast = Toast(title: string, description: string, destructive: bool)

  function ErrorToast(description: string): Toast {
    Toast("Error", description, true)
  }

  function SuccessToast(description: string): Toast {
    Toast("Success", description, false)
  }

  /** The resources whose hooks share the list-state pattern. */
  datatype Resource = Tags | Evidence | GolfCourses

  /** The fixed description of a failed list fetch (the error's own message is not shown). */
  function LoadAllFailed(r: Resource): string {
    match r
    case Tags => "Failed to load tags"
    case Evidence => "Failed to load evidence records"
    case GolfCourses => "Failed to load golf courses"
  }

  /** The fixed description of a failed single-item read. */
  function LoadOneFailed(r: Resource): string {
    match r
    case Tags => "Failed to load tag"
    case Evidence => "Failed to load evidence record"
    case GolfCourses => "Failed to load golf course"
  }

  // ---------------------------------------------------------------- list state

  /** The state cells of a list hook, plus the toast log and the history of loading writes. */
  datatype ListState = ListState(items: seq<Value>, loading: bool, error: Option<string>, toasts: seq<Toast>, loadingWrites: seq<bool>)

  const Initial: ListState := ListState([], false, None, [], [])

  /** Loading writes come in raise/lower pairs. */
  ghost predicate Paired(ws: seq<bool>) {
    ws == Pairs(|ws| / 2)
  }

  /** `n` raises, each followed by its lower. */
  ghost function Pairs(n: nat): seq<bool> {
    if n == 0 then [] else Pairs(n - 1) + [true, false]
  }

  /** Between operations: not loading, and every raise has been followed by a lower. */
  ghost predicate Idle(s: ListState) {
    !s.loading && Paired(s.loadingWrites)
  }

  lemma PairedExtend(ws: seq<bool>)
    requires Paired(ws)
    ensures Paired(ws + [true, false])
  {
    assert |ws + [true, false]| / 2 == |ws| / 2 + 1;
  }

  /** `setLoading(true); setError(null)`. */
  function Begin(s: ListState): ListState {
    s.(loading := true, error := None, loadingWrites := s.loadingWrites + [true])
  }

  /** The `finally` block: `setLoading(false)`. */
  function End(s: ListState): ListState {
    s.(loading := false, loadingWrites := s.loadingWrites + [false])
  }

  /** A caught error: `setError(error.message)` and one destructive toast with a fixed text. */
  function Fail(s: ListState, message: string, description: string): ListState {
    s.(error := Some(message), toasts := s.toasts + [ErrorToast(description)])
  }

  /** JavaScript's `===` between a property that may be missing and a value: objects and arrays compare by reference, so a freshly read one never matches. */
  predicate StrictEquals(a: Option<Value>, b: Value) {
    a.Some? && a.value == b && !b.Arr? && !b.Obj?
  }

  /** `tag.id === id`. */
  predicate HasId(tag: Value, id: Value) {
    StrictEquals(Field(tag, "id"), id)
  }

  /** `items.map(tag => tag.id === id ? updated : tag)`. */
  function ReplaceWhereId(items: seq<Value>, id: Value, updated: Value): (r: seq<Value>)
    ensures |r| == |items|
    ensures forall i :: 0 <= i < |items| ==> r[i] == if HasId(items[i], id) then updated else items[i]
  {
    if items == [] then [] else [if HasId(items[0], id) then updated else items[0]] + ReplaceWhereId(items[1..], id, updated)
  }

  /** `items.filter(tag => tag.id !== id)`. */
  function RemoveWhereId(items: seq<Value>, id: Value): seq<Value> {
    Seqs.Filter(items, (tag: Value) => !HasId(tag, id))
  }

  /** The operations of the list hooks; create, update and delete are the tags hook's own. */
  datatype Op = FetchAll | Create | Update(id: Value) | Delete(id: Value) | GetOne

  /** The operations each resource's hook offers. */
  predicate Offers(r: Resource, op: Op) {
    match op
    case FetchAll => r.Tags? || r.Evidence?
    case GetOne => true
    case _ => r.Tags?
  }

  /**
   * The effect of one operation, and what it resolves to (`Success`) or rethrows (`Failure`).
   * A failed fetch resolves to `[]` instead of rethrowing.
   */
  function Apply(r: Resource, s: ListState, op: Op, outcome: Result<Value, string>): (ListState, Result<Value, string>)
    requires Offers(r, op)
  {
    var b := Begin(s);
    match outcome
    case Failure(m) =>
      var failText := match op
        case FetchAll => LoadAllFailed(r)
        case Create => "Failed to create tag"
        case Update(_) => "Failed to update tag"
        case Delete(_) => "Failed to delete tag"
        case GetOne => LoadOneFailed(r);
      (End(Fail(b, m, failText)), if op.FetchAll? then Success(Arr([])) else Failure(m))
    case Success(v) =>
      match op
      case FetchAll => (End(b.(items := ArrayItems(Some(v)))), Success(v))
      case Create => (End(b.(items := b.items + [v], toasts := b.toasts + [SuccessToast("Tag created successfully")])), Success(v))
      case Update(id) => (End(b.(items := ReplaceWhereId(b.items, id, v), toasts := b.toasts + [SuccessToast("Tag updated successfully")])), Success(v))
      case Delete(id) => (End(b.(items := RemoveWhereId(b.items, id), toasts := b.toasts + [SuccessToast("Tag deleted successfully")])), Success(Bool(true)))
      case GetOne => (End(b), Success(v))
  }

  // ---------------------------------------------------------------- properties of the list operations

  /**
   * Every operation raises loading on entry and lowers it on exit, keeps the hook idle between
   * operations, and leaves an error exactly when the client failed, holding the client's message.
   */
  lemma ApplyBracketsLoading(r: Resource, s: ListState, op: Op, outcome: Result<Value, string>)
    requires Offers(r, op) && Idle(s)
    ensures var (t, _) := Apply(r, s, op, outcome);
      && t.loadingWrites == s.loadingWrites + [true, false]
      && Idle(t)
      && (t.error.Some? <==> outcome.Failure?)
      && (outcome.Failure? ==> t.error == Some(outcome.error))
  {
    PairedExtend(s.loadingWrites);
  }

  /** A successful fetch replaces the list by the returned value when it is an array, by `[]` otherwise, and returns the value. */
  lemma FetchSucceeds(r: Resource, s: ListState, v: Value)
    requires r.Tags? || r.Evidence?
    ensures var (t, res) := Apply(r, s, FetchAll, Success(v));
      && t.items == (if v.Arr? then v.items else [])
      && t.toasts == s.toasts && t.error == None && res == Success(v)
  {
  }

  /** A failed fetch keeps the list, records the message, logs one fixed toast, and resolves to `[]` without rethrowing. */
  lemma FetchFailureResolvesEmpty(r: Resource, s: ListState, m: string)
    requires r.Tags? || r.Evidence?
    ensures var (t, res) := Apply(r, s, FetchAll, Failure(m));
      && t.items == s.items && t.error == Some(m)
      && t.toasts == s.toasts + [ErrorToast(LoadAllFailed(r))]
      && res == Success(Arr([]))
  {
  }

  /** Every other failure keeps the list, records the message, logs one fixed toast, and rethrows the same error. */
  lemma FailureRethrows(r: Resource, s: ListState, op: Op, m: string)
    requires Offers(r, op) && !op.FetchAll?
    ensures var (t, res) := Apply(r, s, op, Failure(m));
      && t.items == s.items && t.error == Some(m)
      && |t.toasts| == |s.toasts| + 1 && t.toasts[..|s.toasts|] == s.toasts
      && t.toasts[|s.toasts|].destructive && t.toasts[|s.toasts|].title == "Error"
      && res == Failure(m)
  {
  }

  /** A failure toast never shows the error's own message, whatever it is. */
  lemma FailureToastIgnoresMessage(r: Resource, s: ListState, op: Op, m1: string, m2: string)
    requires Offers(r, op)
    ensures Apply(r, s, op, Failure(m1)).0.toasts == Apply(r, s, op, Failure(m2)).0.toasts
  {
  }

  /** A created tag goes last; every earlier entry stays, in order. */
  lemma CreateAppends(s: ListState, tag: Value)
    ensures var (t, res) := Apply(Tags, s, Create, Success(tag));
      && |t.items| == |s.items| + 1 && t.items[..|s.items|] == s.items && t.items[|s.items|] == tag
      && t.toasts == s.toasts + [SuccessToast("Tag created successfully")]
      && res == Success(tag)
  {
  }

  /** An update replaces exactly the entries whose `id` is the given id; positions and everything else are kept. */
  lemma UpdateReplacesMatching(s: ListState, id: Value, tag: Value)
    ensures var (t, res) := Apply(Tags, s, Update(id), Success(tag));
      && |t.items| == |s.items|
      && (forall i :: 0 <= i < |s.items| && HasId(s.items[i], id) ==> t.items[i] == tag)
      && (forall i :: 0 <= i < |s.items| && !HasId(s.items[i], id) ==> t.items[i] == s.items[i])
      && res == Success(tag)
  {
  }

  /** Applying the same update twice is applying it once. */
  lemma {:induction false} ReplaceWhereIdIdempotent(items: seq<Value>, id: Value, tag: Value)
    requires HasId(tag, id)
    ensures ReplaceWhereId(ReplaceWhereId(items, id, tag), id, tag) == ReplaceWhereId(items, id, tag)
  {
    if items != [] {
      ReplaceWhereIdIdempotent(items[1..], id, tag);
    }
  }

  /** A delete keeps, in order, exactly the entries whose `id` differs, and resolves to true. */
  lemma DeleteRemovesMatching(s: ListState, id: Value, v: Value, x: Value)
    ensures var (t, res) := Apply(Tags, s, Delete(id), Success(v));
      && Seqs.Subsequence(t.items, s.items)
      && (forall i :: 0 <= i < |t.items| ==> !HasId(t.items[i], id))
      && multiset(t.items)[x] == (if HasId(x, id) then 0 else multiset(s.items)[x])
      && res == Success(Bool(true))
  {
    var keep := (tag: Value) => !HasId(tag, id);
    var t := Apply(Tags, s, Delete(id), Success(v)).0;
    assert t.items == Seqs.Filter(s.items, keep);
    Seqs.FilterIsSubsequence(s.items, keep);
    Seqs.FilterMultiset(s.items, keep, x);
  }

  /**
   * Update and delete match on `id`: a list whose entries carry no `id` field (the tags page
   * keys them by `tag_id`) is left exactly as it was.
   */
  lemma {:induction false} NoIdNoChange(items: seq<Value>, id: Value, tag: Value)
    requires forall i :: 0 <= i < |items| ==> Field(items[i], "id").None?
    ensures ReplaceWhereId(items, id, tag) == items
    ensures RemoveWhereId(items, id) == items
  {
    Seqs.FilterAll(items, (t: Value) => !HasId(t, id));
  }

  /** A single read changes no list, notifies only on failure, and passes the client's outcome through. */
  lemma GetPassesThrough(r: Resource, s: ListState, outcome: Result<Value, string>)
    ensures var (t, res) := Apply(r, s, GetOne, outcome);
      && t.items == s.items && res == outcome
      && (outcome.Success? ==> t.toasts == s.toasts)
      && (outcome.Failure? ==> t.toasts == s.toasts + [ErrorToast(LoadOneFailed(r))])
  {
  }

  // ---------------------------------------------------------------- golf-course pagination

  /** The golf-course hook's pagination cell. Fields the server leaves falsy take their defaults. */
  datatype Pagination = Pagination(page: int, limit: int, totalCount: int, totalPages: int)

  const InitialPagination: Pagination := Pagination(1, 20, 0, 0)

  /** `x || d` for a field read as a number. */
  function NumberOr(o: Option<Value>, d: int): (n: int)
    ensures !Present(o) ==> n == d
    ensures Present(o) && o.value.Num? ==> n == o.value.n
    ensures n != 0 || d == 0
  {
    if Present(o) && o.value.Num? then o.value.n else d
  }

  /** The pagination cell set from a response envelope. */
  function PaginationOf(v: Value): (p: Pagination)
    ensures p.page != 0 && p.limit != 0
    ensures Present(Field(v, "page")) && Field(v, "page").value.Num? ==> p.page == Field(v, "page").value.n
    ensures Present(Field(v, "limit")) && Field(v, "limit").value.Num? ==> p.limit == Field(v, "limit").value.n
    ensures Present(Field(v, "total_count")) && Field(v, "total_count").value.Num? ==> p.totalCount == Field(v, "total_count").value.n
    ensures Present(Field(v, "total_pages")) && Field(v, "total_pages").value.Num? ==> p.totalPages == Field(v, "total_pages").value.n
    ensures !Present(Field(v, "page")) ==> p.page == 1
    ensures !Present(Field(v, "limit")) ==> p.limit == 20
    ensures !Present(Field(v, "total_count")) ==> p.totalCount == 0
    ensures !Present(Field(v, "total_pages")) ==> p.totalPages == 0
  {
    Pagination(NumberOr(Field(v, "page"), 1), NumberOr(Field(v, "limit"), 20),
      NumberOr(Field(v, "total_count"), 0), NumberOr(Field(v, "total_pages"), 0))
  }

  /** What a failed golf-course fetch resolves to. */
  const DefaultEnvelope: Value := Obj([("courses", Arr([])), ("total_count", Num(0)), ("page", Num(1)), ("limit", Num(20)), ("total_pages", Num(0))])

  /**
   * `fetchGolfCourses(params)`: replace the list by the envelope's `courses` array and the
   * pagination by its fields; reading a field of a `null` envelope throws, and any error is
   * caught and turned into the default envelope.
   */
  function ApplyFetchCourses(s: ListState, p: Pagination, outcome: Result<Value, string>): (ListState, Pagination, Value) {
    var b := Begin(s);
    var failure := if outcome.Failure? then Some(outcome.error)
      else if outcome.value.Null? then Some(NullRead("courses"))
      else None;
    if failure.Some? then (End(Fail(b, failure.value, LoadAllFailed(GolfCourses))), p, DefaultEnvelope)
    else (End(b.(items := ArrayItems(Field(outcome.value, "courses")))), PaginationOf(outcome.value), outcome.value)
  }

  /** A successful fetch takes the `courses` array (or `[]`) and the pagination fields with defaults 1/20/0/0, and returns the envelope. */
  lemma FetchCoursesSucceeds(s: ListState, p: Pagination, v: Value)
    requires !v.Null?
    ensures var (t, q, res) := ApplyFetchCourses(s, p, Success(v));
      && t.items == ArrayItems(Field(v, "courses")) && t.error == None && t.toasts == s.toasts
      && q == PaginationOf(v)
      && (!Present(Field(v, "page")) ==> q.page == 1)
      && (!Present(Field(v, "limit")) ==> q.limit == 20)
      && (!Present(Field(v, "total_count")) ==> q.totalCount == 0)
      && (!Present(Field(v, "total_pages")) ==> q.totalPages == 0)
      && (Present(Field(v, "page")) && Field(v, "page").value.Num? ==> q.page == Field(v, "page").value.n)
      && (Present(Field(v, "limit")) && Field(v, "limit").value.Num? ==> q.limit == Field(v, "limit").value.n)
      && res == v
  {
  }

  /** A failed fetch keeps list and pagination, records the message, logs the fixed toast, and resolves to the default envelope. */
  lemma FetchCoursesFails(s: ListState, p: Pagination, outcome: Result<Value, string>)
    requires outcome.Failure? || outcome.value.Null?
    ensures var (t, q, res) := ApplyFetchCourses(s, p, outcome);
      && t.items == s.items && q == p
      && t.error == Some(if outcome.Failure? then outcome.error else NullRead("courses"))
      && t.toasts == s.toasts + [ErrorToast("Failed to load golf courses")]
      && res == DefaultEnvelope
  {
  }

  /** The golf-course fetch raises and then lowers the loading flag, whatever the outcome. */
  lemma FetchCoursesWrites(s: ListState, p: Pagination, outcome: Result<Value, string>)
    ensures !ApplyFetchCourses(s, p, outcome).0.loading
    ensures ApplyFetchCourses(s, p, outcome).0.loadingWrites == s.loadingWrites + [true, false]
  {
  }

  /** The golf-course fetch brackets loading like every other operation. */
  lemma FetchCoursesBracketsLoading(s: ListState, p: Pagination, outcome: Result<Value, string>)
    requires Idle(s)
    ensures Idle(ApplyFetchCourses(s, p, outcome).0)
    ensures ApplyFetchCourses(s, p, outcome).0.loadingWrites == s.loadingWrites + [true, false]
  {
    FetchCoursesWrites(s, p, outcome);
    PairedExtend(s.loadingWrites);
  }

  /** The default envelope reads back as the initial pagination and an empty list. */
  lemma DefaultEnvelopeIsInitial()
    ensures PaginationOf(DefaultEnvelope) == InitialPagination
    ensures ArrayItems(Field(DefaultEnvelope, "courses")) == []
  {
    var es := DefaultEnvelope.fields;
    var e4 := [("courses", Arr([])), ("total_count", Num(0)), ("page", Num(1)), ("limit", Num(20))];
    var e3 := [("courses", Arr([])), ("total_count", Num(0)), ("page", Num(1))];
    var e2 := [("courses", Arr([])), ("total_count", Num(0))];
    var e1 := [("courses", Arr([]))];
    assert es[..4] == e4 && e4[..3] == e3 && e3[..2] == e2 && e2[..1] == e1;
    assert Field(DefaultEnvelope, "total_pages") == Some(Num(0));
    assert Field(DefaultEnvelope, "limit") == Some(Num(20));
    assert Field(DefaultEnvelope, "page") == Some(Num(1));
    assert Field(DefaultEnvelope, "total_count") == Some(Num(0));
    assert Field(DefaultEnvelope, "courses") == Some(Arr([]));
  }

  // ---------------------------------------------------------------- the generic request wrapper

  /** The options of `makeRequest`; absent flags default to true. */
  datatype RequestOptions = RequestOptions(showToast: Option<bool>, loadingState: Option<bool>, successMessage: Option<string>)

  /** The cells of the generic hook. */
  datatype ApiState = ApiState(isConnected: bool, isLoading: bool, error: Option<string>, toasts: seq<Toast>, loadingWrites: seq<bool>)

  const InitialApi: ApiState := ApiState(false, false, None, [], [])

  const UnexpectedError: string := "An unexpected error occurred"

  /** The connection check on mount, given what `testConnection()` returned. */
  function ApplyConnection(s: ApiState, c: Api.Connection): ApiState {
    s.(isConnected := c.status == "connected", error := if c.status != "connected" then Some(c.message) else s.error)
  }

  /** The mount check reports connected exactly for a healthy API, and records the failure message otherwise. */
  lemma ConnectionCheck(s: ApiState, healthy: bool)
    ensures ApplyConnection(s, Api.TestConnection(healthy)).isConnected == healthy
    ensures ApplyConnection(s, Api.TestConnection(healthy)).error == if healthy then s.error else Some(Api.UnhealthyMessage)
  {
  }

  /** `makeRequest(apiCall, options)` with the call's outcome: the new state and what it resolves to or rethrows. */
  function ApplyMakeRequest(s: ApiState, opts: RequestOptions, outcome: Result<Value, string>): (ApiState, Result<Value, string>) {
    var showToast := Api.OrDefault(opts.showToast, true);
    var loadingState := Api.OrDefault(opts.loadingState, true);
    var b := if loadingState then s.(isLoading := true, loadingWrites := s.loadingWrites + [true]) else s;
    var c := b.(error := None);
    var d := match outcome
      case Success(_) =>
        if showToast && opts.successMessage.Some? && opts.successMessage.value != ""
        then c.(toasts := c.toasts + [SuccessToast(opts.successMessage.value)]) else c
      case Failure(m) =>
        var e := c.(error := Some(m));
        if showToast then e.(toasts := e.toasts + [ErrorToast(if m != "" then m else UnexpectedError)]) else e;
    (if loadingState then d.(isLoading := false, loadingWrites := d.loadingWrites + [false]) else d, outcome)
  }

  /**
   * `makeRequest` toggles loading only when `loadingState` holds, always passes the outcome
   * through (rethrowing a failure), and records the message of a failure.
   */
  lemma MakeRequestLoading(s: ApiState, opts: RequestOptions, outcome: Result<Value, string>)
    requires !s.isLoading && Paired(s.loadingWrites)
    ensures var (t, res) := ApplyMakeRequest(s, opts, outcome);
      && !t.isLoading && Paired(t.loadingWrites) && res == outcome
      && t.loadingWrites == (if Api.OrDefault(opts.loadingState, true) then s.loadingWrites + [true, false] else s.loadingWrites)
      && t.error == (if outcome.Failure? then Some(outcome.error) else None)
  {
    PairedExtend(s.loadingWrites);
  }

  /** A success toast is logged exactly when toasts are on and a success message is given. */
  lemma MakeRequestSuccessToast(s: ApiState, opts: RequestOptions, v: Value)
    ensures var t := ApplyMakeRequest(s, opts, Success(v)).0;
      && (t.toasts != s.toasts <==> Api.OrDefault(opts.showToast, true) && opts.successMessage.Some? && opts.successMessage.value != "")
      && (t.toasts != s.toasts ==> t.toasts == s.toasts + [SuccessToast(opts.successMessage.value)])
  {
  }

  /** A failure toast is logged exactly when toasts are on, with the message or the generic text for an empty one. */
  lemma MakeRequestFailureToast(s: ApiState, opts: RequestOptions, m: string)
    ensures var t := ApplyMakeRequest(s, opts, Failure(m)).0;
      && (t.toasts != s.toasts <==> Api.OrDefault(opts.showToast, true))
      && (t.toasts != s.toasts ==> t.toasts == s.toasts + [ErrorToast(if m == "" then UnexpectedError else m)])
  {
  }

  // ---------------------------------------------------------------- the hooks as objects

  /** `useTags()`. */
  class TagsHook {
    var tags: seq<Value>
    var loading: bool
    var error: Option<string>
    var toasts: seq<Toast>
    ghost var loadingWrites: seq<bool>

    ghost function State(): ListState
      reads this
    {
      ListState(tags, loading, error, toasts, loadingWrites)
    }

    ghost predicate Valid()
      reads this
    {
      Idle(State())
    }

    /** Mounting the hook: the empty initial state, then `fetchTags()`. */
    constructor(outcome: Result<Value, string>)
      ensures Valid()
      ensures State() == Apply(Tags, Initial, FetchAll, outcome).0
    {
      tags := [];
      loading := false;
      error := None;
      toasts := [];
      loadingWrites := [];
      new;
      var _ := Run(FetchAll, outcome);
    }

    method SetLoading(b: bool)
      modifies this
      ensures State() == old(State()).(loading := b, loadingWrites := old(loadingWrites) + [b])
    {
      loading := b;
      loadingWrites := loadingWrites + [b];
    }

    /** One operation, step by step. */
    method Run(op: Op, outcome: Result<Value, string>) returns (res: Result<Value, string>)
      requires Valid()
      modifies this
      ensures Valid()
      ensures (State(), res) == Apply(Tags, old(State()), op, outcome)
    {
      ghost var s0 := State();
      ApplyBracketsLoading(Tags, s0, op, outcome);
      SetLoading(true);
      error := None;
      match outcome {
        case Success(v) =>
          match op {
            case FetchAll =>
              tags := ArrayItems(Some(v));
              res := Success(v);
            case Create =>
              tags := tags + [v];
              toasts := toasts + [SuccessToast("Tag created successfully")];
              res := Success(v);
            case Update(id) =>
              tags := ReplaceWhereId(tags, id, v);
              toasts := toasts + [SuccessToast("Tag updated successfully")];
              res := Success(v);
            case Delete(id) =>
              tags := RemoveWhereId(tags, id);
              toasts := toasts + [SuccessToast("Tag deleted successfully")];
              res := Success(Bool(true));
            case GetOne =>
              res := Success(v);
          }
        case Failure(m) =>
          error := Some(m);
          var text := match op
            case FetchAll => LoadAllFailed(Tags)
            case Create => "Failed to create tag"
            case Update(_) => "Failed to update tag"
            case Delete(_) => "Failed to delete tag"
            case GetOne => LoadOneFailed(Tags);
          toasts := toasts + [ErrorToast(text)];
          res := if op.FetchAll? then Success(Arr([])) else Failure(m);
      }
      SetLoading(false);
    }

    /** `fetchTags()` (also `refreshTags()`): never rethrows. */
    method FetchTags(outcome: Result<Value, string>) returns (data: Value)
      requires Valid()
      modifies this
      ensures Valid()
      ensures (State(), Success(data)) == Apply(Tags, old(State()), FetchAll, outcome)
    {
      var res := Run(FetchAll, outcome);
      data := res.value;
    }

    method CreateTag(outcome: Result<Value, string>) returns (res: Result<Value, string>)
      requires Valid()
      modifies this
      ensures Valid()
      ensures (State(), res) == Apply(Tags, old(State()), Create, outcome)
    {
      res := Run(Create, outcome);
    }

    method UpdateTag(id: Value, outcome: Result<Value, string>) returns (res: Result<Value, string>)
      requires Valid()
      modifies this
      ensures Valid()
      ensures (State(), res) == Apply(Tags, old(State()), Update(id), outcome)
    {
      res := Run(Update(id), outcome);
    }

    method DeleteTag(id: Value, outcome: Result<Value, string>) returns (res: Result<Value, string>)
      requires Valid()
      modifies this
      ensures Valid()
      ensures (State(), res) == Apply(Tags, old(State()), Delete(id), outcome)
    {
      res := Run(Delete(id), outcome);
    }

    method GetTag(outcome: Result<Value, string>) returns (res: Result<Value, string>)
      requires Valid()
      modifies this
      ensures Valid()
      ensures (State(), res) == Apply(Tags, old(State()), GetOne, outcome)
    {
      res := Run(GetOne, outcome);
    }
  }

  /** `useEvidence()`. */
  class EvidenceHook {
    var evidence: seq<Value>
    var loading: bool
    var error: Option<string>
    var toasts: seq<Toast>
    ghost var loadingWrites: seq<bool>

    ghost function State(): ListState
      reads this
    {
      ListState(evidence, loading, error, toasts, loadingWrites)
    }

    ghost predicate Valid()
      reads this
    {
      Idle(State())
    }

    /** Mounting the hook: the empty initial state, then `fetchEvidence()`. */
    constructor(outcome: Result<Value, string>)
      ensures Valid()
      ensures State() == Apply(Evidence, Initial, FetchAll, outcome).0
    {
      evidence := [];
      loading := false;
      error := None;
      toasts := [];
      loadingWrites := [];
      new;
      var _ := FetchEvidence(outcome);
    }

    method SetLoading(b: bool)
      modifies this
      ensures State() == old(State()).(loading := b, loadingWrites := old(loadingWrites) + [b])
    {
      loading := b;
      loadingWrites := loadingWrites + [b];
    }

    /** `fetchEvidence()` (also `refreshEvidence()`): never rethrows. */
    method FetchEvidence(outcome: Result<Value, string>) returns (data: Value)
      requires Valid()
      modifies this
      ensures Valid()
      ensures (State(), Success(data)) == Apply(Evidence, old(State()), FetchAll, outcome)
    {
      ApplyBracketsLoading(Evidence, State(), FetchAll, outcome);
      SetLoading(true);
      error := None;
      match outcome {
        case Success(v) =>
          evidence := ArrayItems(Some(v));
          data := v;
        case Failure(m) =>
          error := Some(m);
          toasts := toasts + [ErrorToast(LoadAllFailed(Evidence))];
          data := Arr([]);
      }
      SetLoading(false);
    }

    method GetEvidence(outcome: Result<Value, string>) returns (res: Result<Value, string>)
      requires Valid()
      modifies this
      ensures Valid()
      ensures (State(), res) == Apply(Evidence, old(State()), GetOne, outcome)
    {
      ApplyBracketsLoading(Evidence, State(), GetOne, outcome);
      SetLoading(true);
      error := None;
      if outcome.Failure? {
        error := Some(outcome.error);
        toasts := toasts + [ErrorToast(LoadOneFailed(Evidence))];
      }
      res := outcome;
      SetLoading(false);
    }
  }

  /** `useGolfCourses()`: no fetch on mount; the page issues the first one. */
  class GolfCoursesHook {
    var golfCourses: seq<Value>
    var loading: bool
    var error: Option<string>
    var pagination: Pagination
    var toasts: seq<Toast>
    ghost var loadingWrites: seq<bool>

    ghost function State(): ListState
      reads this
    {
      ListState(golfCourses, loading, error, toasts, loadingWrites)
    }

    ghost predicate Valid()
      reads this
    {
      Idle(State())
    }

    constructor()
      ensures Valid()
      ensures State() == Initial && pagination == InitialPagination
    {
      golfCourses := [];
      loading := false;
      error := None;
      pagination := InitialPagination;
      toasts := [];
      loadingWrites := [];
    }

    method SetLoading(b: bool)
      modifies this
      ensures State() == old(State()).(loading := b, loadingWrites := old(loadingWrites) + [b])
      ensures pagination == old(pagination)
    {
      loading := b;
      loadingWrites := loadingWrites + [b];
    }

    /** `fetchGolfCourses(params)` with the client's outcome for those parameters: never rethrows. */
    method FetchGolfCourses(outcome: Result<Value, string>) returns (response: Value)
      requires Valid()
      modifies this
      ensures Valid()
      ensures (State(), pagination, response) == ApplyFetchCourses(old(State()), old(pagination), outcome)
    {
      FetchCoursesBracketsLoading(State(), pagination, outcome);
      SetLoading(true);
      error := None;
      var failure: Option<string> := None;
      if outcome.Failure? {
        failure := Some(outcome.error);
      } else if outcome.value.Null? {
        // `response.courses` on a null envelope throws inside the try block
        failure := Some(NullRead("courses"));
      } else {
        golfCourses := ArrayItems(Field(outcome.value, "courses"));
        pagination := PaginationOf(outcome.value);
        response := outcome.value;
      }
      if failure.Some? {
        error := failure;
        toasts := toasts + [ErrorToast(LoadAllFailed(GolfCourses))];
        response := DefaultEnvelope;
      }
      SetLoading(false);
    }

    method GetGolfCourse(outcome: Result<Value, string>) returns (res: Result<Value, string>)
      requires Valid()
      modifies this
      ensures Valid()
      ensures (State(), res) == Apply(GolfCourses, old(State()), GetOne, outcome)
      ensures pagination == old(pagination)
    {
      ApplyBracketsLoading(GolfCourses, State(), GetOne, outcome);
      SetLoading(true);
      error := None;
      if outcome.Failure? {
        error := Some(outcome.error);
        toasts := toasts + [ErrorToast(LoadOneFailed(GolfCourses))];
      }
      res := outcome;
      SetLoading(false);
    }
  }

  /** `useApi()`: the connection flag and the generic request wrapper. */
  class ApiHook {
    var isConnected: bool
    var isLoading: bool
    var error: Option<string>
    var toasts: seq<Toast>
    ghost var loadingWrites: seq<bool>

    ghost function State(): ApiState
      reads this
    {
      ApiState(isConnected, isLoading, error, toasts, loadingWrites)
    }

    ghost predicate Valid()
      reads this
    {
      !isLoading && Paired(loadingWrites)
    }

    constructor()
      ensures Valid() && State() == InitialApi
    {
      isConnected := false;
      isLoading := false;
      error := None;
      toasts := [];
      loadingWrites := [];
    }

    /** The mount effect's connection check, given what `testConnection()` returned. */
    method CheckConnection(c: Api.Connection)
      requires Valid()
      modifies this
      ensures Valid()
      ensures State() == ApplyConnection(old(State()), c)
    {
      isConnected := c.status == "connected";
      if c.status != "connected" {
        error := Some(c.message);
      }
    }

    /** `makeRequest(apiCall, options)`, given the outcome of `apiCall()`. */
    method MakeRequest(opts: RequestOptions, outcome: Result<Value, string>) returns (res: Result<Value, string>)
      requires Valid()
      modifies this
      ensures Valid()
      ensures (State(), res) == ApplyMakeRequest(old(State()), opts, outcome)
    {
      MakeRequestLoading(State(), opts, outcome);
      var showToast := Api.OrDefault(opts.showToast, true);
      var loadingState := Api.OrDefault(opts.loadingState, true);
      if loadingState {
        isLoading := true;
        loadingWrites := loadingWrites + [true];
      }
      error := None;
      match outcome {
        case Success(_) =>
          if showToast && opts.successMessage.Some? && opts.successMessage.value != "" {
            toasts := toasts + [SuccessToast(opts.successMessage.value)];
          }
        case Failure(m) =>
          error := Some(m);
          if showToast {
            toasts := toasts + [ErrorToast(if m != "" then m else UnexpectedError)];
          }
      }
      res := outcome;
      if loadingState {
        isLoading := false;
        loadingWrites := loadingWrites + [false];
      }
    }
  }
}
