/**
 * What the tags and evidence pages share: the client-side search over a record's text fields
 * (with the TypeErrors a badly typed field throws), the status filter, the choice of list view,
 * and the status-badge class strings.
 */
module Screens {
  import opened Wrappers
  import opened Text
  import opened Json

  /** The TypeError messages of reading a property of `undefined` and of calling a missing method. */
  function UndefinedRead(key: string): string {
    "Cannot read properties of undefined (reading '" + key + "')"
  }

  function NotAFunction(expr: string): string {
    expr + " is not a function"
  }

  /** `x.toLowerCase().includes(term.toLowerCase())` for a field that must be a string; `expr` names the field in the error. */
  function RequiredMatch(o: Option<Value>, expr: string, term: string): (r: Result<bool, string>)
    ensures r.Success? <==> o.Some? && o.value.Str?
    ensures r.Success? ==> r.value == Contains(ToLower(o.value.s), ToLower(term))
  {
    if o.None? then Failure(UndefinedRead("toLowerCase"))
    else match o.value
      case Null => Failure(NullRead("toLowerCase"))
      case Str(s) => Success(Contains(ToLower(s), ToLower(term)))
      case _ => Failure(NotAFunction(expr + ".toLowerCase"))
  }

  /** `x?.toLowerCase().includes(...)` for an optional field: a missing or null field does not match. */
  function OptionalMatch(o: Option<Value>, expr: string, term: string): (r: Result<bool, string>)
    ensures (o.None? || o.value.Null?) ==> r == Success(false)
    ensures o.Some? && !o.value.Null? ==> r == RequiredMatch(o, expr, term)
  {
    if o.None? || o.value.Null? then Success(false) else RequiredMatch(o, expr, term)
  }

  /** `a || b`: `b` is only evaluated (and can only throw) when `a` is false. */
  function OrElse(a: Result<bool, string>, b: Result<bool, string>): (r: Result<bool, string>)
    ensures a.Failure? ==> r == a
    ensures a == Success(true) ==> r == a
    ensures a == Success(false) ==> r == b
  {
    if a.Failure? || a.value then a else b
  }

  /** A field that the search may read: absent, `null`, or a string. */
  predicate Searchable(o: Option<Value>) {
    o.None? || o.value.Null? || o.value.Str?
  }

  /** The text of a searchable field, lower-cased, contains the lower-cased term. */
  predicate Hit(o: Option<Value>, term: string) {
    o.Some? && o.value.Str? && Contains(ToLower(o.value.s), ToLower(term))
  }

  /** An optional searchable field matches exactly when it is a string containing the term. */
  lemma OptionalMatchHit(o: Option<Value>, expr: string, term: string)
    requires Searchable(o)
    ensures OptionalMatch(o, expr, term) == Success(Hit(o, term))
  {
  }

  /** Every string contains the empty string, so an empty search term matches any string field. */
  lemma EmptyTermHits(s: string)
    ensures Hit(Some(Str(s)), "")
  {
    assert ToLower("") == "";
  }

  /** The search ignores case: searching for a term and for its lower-cased form hit the same fields. */
  lemma HitIgnoresCase(o: Option<Value>, term: string)
    ensures Hit(o, term) == Hit(o, ToLower(term))
  {
    ToLowerIdempotent(term);
  }

  /** Both matches lower-case the term themselves, so lower-casing it first changes nothing, errors included. */
  lemma MatchIgnoresCase(o: Option<Value>, expr: string, term: string)
    ensures RequiredMatch(o, expr, term) == RequiredMatch(o, expr, ToLower(term))
    ensures OptionalMatch(o, expr, term) == OptionalMatch(o, expr, ToLower(term))
  {
    ToLowerIdempotent(term);
  }

  /** `filterStatus === "all" || record.status === filterStatus`. */
  predicate StatusAccepts(filterStatus: string, status: Option<Value>) {
    filterStatus == "all" || (status.Some? && status.value == Str(filterStatus))
  }

  /** The body of a list card. */
  datatype ListView = Spinner | ErrorPanel(message: string) | Empty(hint: bool) | Rows(items: seq<Value>)

  /**
   * loading → spinner; a truthy error → the error panel; nothing left after filtering → the
   * empty state, with the "adjust your criteria" hint when a search or status filter is active;
   * otherwise the rows.
   */
  function ListViewOf(loading: bool, error: Option<string>, filtered: seq<Value>, searchTerm: string, filterStatus: string): (v: ListView)
    ensures v.Spinner? <==> loading
    ensures v.ErrorPanel? <==> !loading && error.Some? && error.value != ""
    ensures v.Empty? ==> filtered == [] && (v.hint <==> searchTerm != "" || filterStatus != "all")
    ensures v.Rows? ==> v.items == filtered && filtered != []
  {
    if loading then Spinner
    else if error.Some? && error.value != "" then ErrorPanel(error.value)
    else if filtered == [] then Empty(searchTerm != "" || filterStatus != "all")
    else Rows(filtered)
  }

  const BadgeBase: string := "inline-flex items-center px-2.5 py-0.5 rounded-full text-xs font-medium"

  /** `${baseClasses} bg-<color>-100 text-<color>-800`. */
  function Badge(color: string): (classes: string)
    ensures BadgeBase <= classes
  {
    BadgeBase + " bg-" + color + "-100 text-" + color + "-800"
  }

  /** Different colours give different class strings, so each status keeps its own badge. */
  lemma BadgeInjective(c1: string, c2: string)
    requires Badge(c1) == Badge(c2)
    ensures c1 == c2
  {
    var n := |BadgeBase + " bg-"|;
    // 14 characters surround the two copies of the colour
    assert |Badge(c1)| == n + 2 * |c1| + 14 && |Badge(c2)| == n + 2 * |c2| + 14;
    assert Badge(c1)[n..n + |c1|] == c1;
    assert Badge(c2)[n..n + |c2|] == c2;
  }
}
