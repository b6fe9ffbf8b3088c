/**
 * The server-side golf-course table: the pagination controls (enablement, click targets, the
 * range label and the page indicator), the mapping of a sort selection to the API's field and
 * order, and the search debounce, which is a small machine over keystrokes, the timer firing
 * and unmounting. Time is abstract: `TimerFired` is the 300 ms timeout elapsing.
 */
module DataTable {
  import opened Wrappers
  import Hooks

  type Pagination = Hooks.Pagination

  // ---------------------------------------------------------------- pagination controls

  /** `pagination?.page || 1`. */
  function PageOr(p: Option<Pagination>): (n: int)
    ensures n != 0
  {
    if p.Some? && p.value.page != 0 then p.value.page else 1
  }

  /** `pagination?.limit || 20`. */
  function LimitOr(p: Option<Pagination>): (n: int)
    ensures n != 0
  {
    if p.Some? && p.value.limit != 0 then p.value.limit else 20
  }

  /** `pagination?.total_count || 0`. */
  function TotalCountOr(p: Option<Pagination>): int {
    if p.Some? then p.value.totalCount else 0
  }

  /** `pagination?.total_pages || 1`. */
  function TotalPagesOr(p: Option<Pagination>): (n: int)
    ensures n != 0
  {
    if p.Some? && p.value.totalPages != 0 then p.value.totalPages else 1
  }

  datatype Button = First | Previous | Next | Last | Refresh

  /** The `disabled` flag of each button; Refresh is disabled while loading. */
  predicate Disabled(p: Option<Pagination>, loading: bool, b: Button) {
    match b
    case First => p.None? || p.value.page <= 1
    case Previous => p.None? || p.value.page <= 1
    case Next => p.None? || p.value.page >= p.value.totalPages
    case Last => p.None? || p.value.page >= p.value.totalPages
    case Refresh => loading
  }

  /** The page a pagination button asks for. */
  function Target(p: Option<Pagination>, b: Button): int
    requires !b.Refresh?
  {
    match b
    case First => 1
    case Previous => if PageOr(p) - 1 > 1 then PageOr(p) - 1 else 1
    case Next => PageOr(p) + 1
    case Last => TotalPagesOr(p)
  }

  /** First/Previous and Next/Last are enabled exactly when there is an earlier, respectively a later, page. */
  lemma EnabledIff(p: Option<Pagination>, loading: bool)
    ensures !Disabled(p, loading, First) <==> p.Some? && p.value.page > 1
    ensures !Disabled(p, loading, Previous) <==> p.Some? && p.value.page > 1
    ensures !Disabled(p, loading, Next) <==> p.Some? && p.value.page < p.value.totalPages
    ensures !Disabled(p, loading, Last) <==> p.Some? && p.value.page < p.value.totalPages
  {
  }

  /** With no pages at all, Next is disabled on page 1. */
  lemma NoPagesNoNext(limit: int, totalCount: int, loading: bool)
    ensures Disabled(Some(Hooks.Pagination(1, limit, totalCount, 0)), loading, Next)
  {
  }

  /**
   * An enabled pagination button on a page of 1 or more leads to a page of 1 or more; Next and
   * Last, and every button while the page is within the page count, stay within the page count.
   */
  lemma EnabledTargetInRange(p: Option<Pagination>, loading: bool, b: Button)
    requires p.Some? && p.value.page >= 1
    requires !b.Refresh? && !Disabled(p, loading, b)
    ensures 1 <= Target(p, b)
    ensures (b.Next? || b.Last? || p.value.page <= p.value.totalPages) ==> Target(p, b) <= p.value.totalPages
    ensures b.First? ==> Target(p, b) == 1
    ensures b.Previous? ==> Target(p, b) == p.value.page - 1
    ensures b.Next? ==> Target(p, b) == p.value.page + 1
    ensures b.Last? ==> Target(p, b) == p.value.totalPages
  {
    match b
    case First =>
    case Previous =>
    case Next =>
    case Last =>
  }

  /** The numbers of "Showing X to Y of Z course(s)". */
  datatype Range = Range(start: int, end: int, total: int)

  function RangeLabel(p: Option<Pagination>): (r: Range)
    ensures r.start == (PageOr(p) - 1) * LimitOr(p) + 1
    ensures r.end <= PageOr(p) * LimitOr(p) && r.end <= r.total
    ensures r.end == PageOr(p) * LimitOr(p) || r.end == r.total
    ensures r.total == TotalCountOr(p)
  {
    var upper := PageOr(p) * LimitOr(p);
    var total := TotalCountOr(p);
    Range((PageOr(p) - 1) * LimitOr(p) + 1, if upper < total then upper else total, total)
  }

  /** On a page that holds at least one course, the label names between 1 and `limit` courses, all within the total. */
  lemma RangeLabelBounds(p: Pagination)
    requires p.page >= 1 && p.limit >= 1
    requires (p.page - 1) * p.limit < p.totalCount
    ensures var r := RangeLabel(Some(p));
      && 1 <= r.start <= r.end <= r.total
      && r.end - r.start + 1 <= p.limit
  {
    var r := RangeLabel(Some(p));
    assert p.page * p.limit == (p.page - 1) * p.limit + p.limit;
    assert (p.page - 1) * p.limit >= 0;
  }

  /** Consecutive pages show adjacent ranges: page n+1 starts right after page n ends. */
  lemma RangeLabelsAdjacent(p: Pagination)
    requires p.page >= 1 && p.limit >= 1 && p.page * p.limit <= p.totalCount
    ensures RangeLabel(Some(p.(page := p.page + 1))).start == RangeLabel(Some(p)).end + 1
  {
    assert (p.page + 1 - 1) * p.limit == p.page * p.limit;
  }

  /** "Page X of Y": `page || 1` of `total_pages || 1`. */
  function PageIndicator(p: Option<Pagination>): (r: (int, int))
    ensures r.0 != 0 && r.1 != 0
    ensures p.Some? && p.value.page != 0 ==> r.0 == p.value.page
    ensures p.Some? && p.value.totalPages != 0 ==> r.1 == p.value.totalPages
  {
    (PageOr(p), TotalPagesOr(p))
  }

  // ---------------------------------------------------------------- sorting

  /** One entry of the table's sorting state. */
  datatype SortEntry = SortEntry(id: string, desc: bool)

  /** The field and order sent for a sorting state: the first entry's, or `name`/`ASC` when cleared. */
  function SortRequest(sorting: seq<SortEntry>): (r: (string, string))
    ensures sorting != [] ==> r.0 == sorting[0].id
    ensures sorting == [] ==> r == ("name", "ASC")
    ensures r.1 == "DESC" <==> sorting != [] && sorting[0].desc
    ensures r.1 == "ASC" || r.1 == "DESC"
  {
    if sorting != [] then (sorting[0].id, if sorting[0].desc then "DESC" else "ASC") else ("name", "ASC")
  }

  // ---------------------------------------------------------------- the controller

  /**
   * The parent's `onSearchChange` prop. A prop is a closure over the parent's state when it
   * rendered; it is identified here by the sort field, sort order and page size it captured.
   */
  datatype SearchHandler = SearchHandler(sortField: string, sortOrder: string, limit: int)

  /** A scheduled timeout: the value it will report and the handler it closed over when it was scheduled. */
  datatype Scheduled = Scheduled(value: string, handler: SearchHandler)

  /** The callbacks the table invokes on its parent page; a search is reported through a particular handler. */
  datatype Callback = PaginationChanged(page: int) | SortingChanged(field: string, order: string) | SearchChanged(term: string, handler: SearchHandler) | Refreshed

  /** The table's own state: its sorting, the search box, the pending debounce, and whether it is mounted. */
  datatype TableState = TableState(sorting: seq<SortEntry>, searchValue: string, pending: Option<Scheduled>, mounted: bool)

  const InitialTable: TableState := TableState([], "", None, true)

  /** What can happen to a table. */
  datatype Event = Typed(value: string) | TimerFired | SortingSet(sorting: seq<SortEntry>) | Pressed(button: Button) | Unmounted

  /** The props the table is rendered with. */
  datatype Props = Props(pagination: Option<Pagination>, loading: bool, onSearch: SearchHandler)

  /** One event: the new state and the callbacks it invokes. An unmounted table reacts to nothing. */
  function Step(props: Props, s: TableState, e: Event): (TableState, seq<Callback>) {
    if !s.mounted then (s, [])
    else match e
      case Typed(v) => (s.(searchValue := v, pending := Some(Scheduled(v, props.onSearch))), [])
      case TimerFired =>
        if s.pending.Some? then (s.(pending := None), [SearchChanged(s.pending.value.value, s.pending.value.handler)]) else (s, [])
      case SortingSet(sorting) =>
        (s.(sorting := sorting), [SortingChanged(SortRequest(sorting).0, SortRequest(sorting).1)])
      case Pressed(b) =>
        if Disabled(props.pagination, props.loading, b) then (s, [])
        else if b.Refresh? then (s, [Refreshed])
        else (s, [PaginationChanged(Target(props.pagination, b))])
      case Unmounted => (s.(pending := None, mounted := false), [])
  }

  /** A sequence of events in turn. */
  function Run(props: Props, s: TableState, es: seq<Event>): (TableState, seq<Callback>)
    decreases |es|
  {
    if es == [] then (s, [])
    else
      var first := Step(props, s, es[0]);
      var rest := Run(props, first.0, es[1..]);
      (rest.0, first.1 + rest.1)
  }

  lemma {:induction false} RunAppend(props: Props, s: TableState, a: seq<Event>, b: seq<Event>)
    ensures Run(props, s, a + b).0 == Run(props, Run(props, s, a).0, b).0
    ensures Run(props, s, a + b).1 == Run(props, s, a).1 + Run(props, Run(props, s, a).0, b).1
    decreases |a|
  {
    if a == [] {
      assert a + b == b;
    } else {
      var first := Step(props, s, a[0]);
      assert (a + b)[0] == a[0];
      assert (a + b)[1..] == a[1..] + b;
      assert Run(props, s, a + b) == (Run(props, first.0, a[1..] + b).0, first.1 + Run(props, first.0, a[1..] + b).1);
      assert Run(props, s, a) == (Run(props, first.0, a[1..]).0, first.1 + Run(props, first.0, a[1..]).1);
      RunAppend(props, first.0, a[1..], b);
    }
  }

  /** A burst of keystrokes. */
  function Keystrokes(values: seq<string>): (es: seq<Event>)
    ensures |es| == |values|
    ensures forall i :: 0 <= i < |values| ==> es[i] == Typed(values[i])
  {
    if values == [] then [] else [Typed(values[0])] + Keystrokes(values[1..])
  }

  /** Typing cancels any pending report and schedules one with the latest value; nothing is reported yet. */
  lemma {:induction false} KeystrokesSchedule(props: Props, s: TableState, values: seq<string>)
    requires s.mounted && values != []
    ensures Run(props, s, Keystrokes(values)).0 == s.(searchValue := values[|values| - 1], pending := Some(Scheduled(values[|values| - 1], props.onSearch)))
    ensures Run(props, s, Keystrokes(values)).1 == []
    decreases |values|
  {
    var t := s.(searchValue := values[0], pending := Some(Scheduled(values[0], props.onSearch)));
    if |values| > 1 {
      assert Keystrokes(values)[1..] == Keystrokes(values[1..]);
      KeystrokesSchedule(props, t, values[1..]);
    }
  }

  /** After a burst of keystrokes and the timeout, exactly one search is reported, carrying the last value. */
  lemma DebounceReportsLast(props: Props, s: TableState, values: seq<string>)
    requires s.mounted && values != []
    ensures Run(props, s, Keystrokes(values) + [TimerFired]).1 == [SearchChanged(values[|values| - 1], props.onSearch)]
  {
    KeystrokesSchedule(props, s, values);
    RunAppend(props, s, Keystrokes(values), [TimerFired]);
  }

  /**
   * The timeout calls the handler of the render in which the key was typed: when the parent
   * re-renders with another handler before the timer fires, the report still goes through the old one.
   */
  lemma TimerCallsCapturedHandler(typedUnder: Props, firedUnder: Props, s: TableState, v: string)
    requires s.mounted
    ensures Step(firedUnder, Step(typedUnder, s, Typed(v)).0, TimerFired).1 == [SearchChanged(v, typedUnder.onSearch)]
  {
  }

  /** Sorting changes and button presses leave a scheduled search, and its handler, in place. */
  lemma {:induction false} PendingSurvives(props: Props, s: TableState, es: seq<Event>)
    requires forall i :: 0 <= i < |es| ==> es[i].SortingSet? || es[i].Pressed?
    ensures Run(props, s, es).0.pending == s.pending
    ensures Run(props, s, es).0.mounted == s.mounted
    decreases |es|
  {
    if es != [] {
      PendingSurvives(props, Step(props, s, es[0]).0, es[1..]);
    }
  }

  /** No search report arises without a keystroke: the number of reports of a run with no keystroke and no pending report is zero. */
  lemma {:induction false} NoKeystrokeNoSearch(props: Props, s: TableState, es: seq<Event>)
    requires s.pending.None?
    requires forall i :: 0 <= i < |es| ==> !es[i].Typed?
    ensures forall i :: 0 <= i < |Run(props, s, es).1| ==> !Run(props, s, es).1[i].SearchChanged?
    decreases |es|
  {
    if es != [] {
      NoKeystrokeNoSearch(props, Step(props, s, es[0]).0, es[1..]);
    }
  }

  /** Once unmounted, nothing more is reported — in particular no pending search fires. */
  lemma {:induction false} UnmountedSilent(props: Props, s: TableState, es: seq<Event>)
    requires !s.mounted
    ensures Run(props, s, es).0 == s && Run(props, s, es).1 == []
    decreases |es|
  {
    if es != [] {
      UnmountedSilent(props, s, es[1..]);
    }
  }

  /** Unmounting cancels a pending search: whatever happens afterwards, it is never reported. */
  lemma UnmountCancels(props: Props, s: TableState, es: seq<Event>)
    ensures Run(props, s, [Unmounted] + es).1 == []
  {
    var t := Step(props, s, Unmounted).0;
    assert !t.mounted;
    UnmountedSilent(props, t, es);
    assert ([Unmounted] + es)[1..] == es;
  }

  /** Events never schedule more than one report: at most one search is pending, and it is the box's current value. */
  ghost predicate Consistent(s: TableState) {
    s.pending.Some? ==> s.pending.value.value == s.searchValue
  }

  lemma StepConsistent(props: Props, s: TableState, e: Event)
    requires Consistent(s)
    ensures Consistent(Step(props, s, e).0)
    ensures e.TimerFired? && s.mounted && s.pending.Some? ==> Step(props, s, e).1 == [SearchChanged(s.searchValue, s.pending.value.handler)]
  {
  }

  /** A sort change reports the first entry's field and order, or `name`/`ASC` when the sorting is cleared. */
  lemma SortingReported(props: Props, s: TableState, sorting: seq<SortEntry>)
    requires s.mounted
    ensures Step(props, s, SortingSet(sorting)).0 == s.(sorting := sorting)
    ensures Step(props, s, SortingSet(sorting)).1 ==
      if sorting == [] then [SortingChanged("name", "ASC")]
      else [SortingChanged(sorting[0].id, if sorting[0].desc then "DESC" else "ASC")]
  {
  }

  /**
   * A press changes no table state; a disabled button reports nothing, an enabled Refresh
   * reports a refresh, and an enabled pagination button reports its target, which on a page of
   * 1 or more is a page of 1 or more and, for Next and Last, at most the page count.
   */
  lemma PressedReports(props: Props, s: TableState, b: Button)
    requires s.mounted
    ensures Step(props, s, Pressed(b)).0 == s
    ensures Disabled(props.pagination, props.loading, b) ==> Step(props, s, Pressed(b)).1 == []
    ensures !Disabled(props.pagination, props.loading, b) && b.Refresh? ==> Step(props, s, Pressed(b)).1 == [Refreshed]
    ensures !Disabled(props.pagination, props.loading, b) && !b.Refresh? ==>
      Step(props, s, Pressed(b)).1 == [PaginationChanged(Target(props.pagination, b))]
    ensures !Disabled(props.pagination, props.loading, b) && !b.Refresh? && props.pagination.value.page >= 1 ==>
      1 <= Step(props, s, Pressed(b)).1[0].page
    ensures !Disabled(props.pagination, props.loading, b) && (b.Next? || b.Last?) && props.pagination.value.page >= 1 ==>
      Step(props, s, Pressed(b)).1[0].page <= props.pagination.value.totalPages
  {
    if !Disabled(props.pagination, props.loading, b) && !b.Refresh? && props.pagination.value.page >= 1 {
      EnabledTargetInRange(props.pagination, props.loading, b);
    }
  }

  /** The table as an object whose handlers update its state and log the callbacks it invokes. */
  class Table {
    var sorting: seq<SortEntry>
    var searchValue: string
    var pending: Option<Scheduled>
    var mounted: bool
    var emitted: seq<Callback>

    function State(): TableState
      reads this
    {
      TableState(sorting, searchValue, pending, mounted)
    }

    constructor()
      ensures State() == InitialTable && emitted == []
    {
      sorting := [];
      searchValue := "";
      pending := None;
      mounted := true;
      emitted := [];
    }

    /** Handles one event in place. */
    method Handle(props: Props, e: Event)
      modifies this
      ensures State() == Step(props, old(State()), e).0
      ensures emitted == old(emitted) + Step(props, old(State()), e).1
    {
      if !mounted {
        return;
      }
      match e {
        case Typed(v) =>
          searchValue := v;
          // clearing the previous timeout and scheduling a new one
          pending := Some(Scheduled(v, props.onSearch));
        case TimerFired =>
          if pending.Some? {
            emitted := emitted + [SearchChanged(pending.value.value, pending.value.handler)];
            pending := None;
          }
        case SortingSet(newSorting) =>
          sorting := newSorting;
          emitted := emitted + [SortingChanged(SortRequest(newSorting).0, SortRequest(newSorting).1)];
        case Pressed(b) =>
          if !Disabled(props.pagination, props.loading, b) {
            if b.Refresh? {
              emitted := emitted + [Refreshed];
            } else {
              emitted := emitted + [PaginationChanged(Target(props.pagination, b))];
            }
          }
        case Unmounted =>
          pending := None;
          mounted := false;
      }
    }

    /** Handles a sequence of events in order. */
    method HandleAll(props: Props, es: seq<Event>)
      modifies this
      ensures State() == Run(props, old(State()), es).0
      ensures emitted == old(emitted) + Run(props, old(State()), es).1
    {
      ghost var s0 := State();
      ghost var log0 := emitted;
      var i := 0;
      while i < |es|
        invariant 0 <= i <= |es|
        invariant State() == Run(props, s0, es[..i]).0
        invariant emitted == log0 + Run(props, s0, es[..i]).1
      {
        RunAppend(props, s0, es[..i], [es[i]]);
        assert es[..i + 1] == es[..i] + [es[i]];
        Handle(props, es[i]);
        i := i + 1;
      }
      assert es[..i] == es;
    }
  }
}
