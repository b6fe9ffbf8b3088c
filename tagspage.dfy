/**
 * The tags page: the client-side tag search and status filter, the status badges, the id
 * fallbacks, and the print dialog with its golf-course picker, quantity parsing, form schema,
 * and the state it resets when closed.
 */
module TagsPage {
  import opened Wrappers
  import opened Text
  import opened Json
  import Seqs
  import Api
  import Hooks
  import Screens
  import Columns
  import opened Records

  // ---------------------------------------------------------------- search and filter

  /** The search callback for one tag: its id, owner name, owner email or batch golf-course name contains the term. */
  function TagSearch(tag: Value, term: string): Result<bool, string> {
    if tag.Null? then Failure(NullRead("tag_id"))
    else
      Screens.OrElse(
        Screens.OrElse(
          Screens.OrElse(
            Screens.RequiredMatch(Field(tag, "tag_id"), "tag.tag_id", term),
            Screens.OptionalMatch(Chain(Field(tag, "owner_info"), ["name"]), "tag.owner_info?.name?", term)),
          Screens.OptionalMatch(Chain(Field(tag, "owner_info"), ["email"]), "tag.owner_info?.email?", term)),
        Screens.OptionalMatch(Chain(Field(tag, "batch"), ["golf_course", "name"]), "tag.batch?.golf_course?.name?", term))
  }

  /** The filter callback: the search matches and the status filter accepts the tag. */
  function TagTest(tag: Value, term: string, filterStatus: string): Result<bool, string> {
    match TagSearch(tag, term)
    case Failure(e) => Failure(e)
    case Success(hit) => Success(hit && Screens.StatusAccepts(filterStatus, Field(tag, "status")))
  }

  /** `(tags || []).filter(...)`: the hook's list is always an array, so `|| []` changes nothing. */
  function FilteredTags(tags: seq<Value>, term: string, filterStatus: string): Result<seq<Value>, string> {
    Seqs.FilterOrThrow(tags, (t: Value) => TagTest(t, term, filterStatus))
  }

  /** A tag the search can read without throwing: an object with a string `tag_id` and searchable optional fields. */
  predicate WellFormedTag(tag: Value) {
    && tag.Obj?
    && Field(tag, "tag_id").Some? && Field(tag, "tag_id").value.Str?
    && Screens.Searchable(Chain(Field(tag, "owner_info"), ["name"]))
    && Screens.Searchable(Chain(Field(tag, "owner_info"), ["email"]))
    && Screens.Searchable(Chain(Field(tag, "batch"), ["golf_course", "name"]))
  }

  /** The reference filter: which tags are kept. */
  predicate Keep(tag: Value, term: string, filterStatus: string) {
    && (|| Screens.Hit(Field(tag, "tag_id"), term)
        || Screens.Hit(Chain(Field(tag, "owner_info"), ["name"]), term)
        || Screens.Hit(Chain(Field(tag, "owner_info"), ["email"]), term)
        || Screens.Hit(Chain(Field(tag, "batch"), ["golf_course", "name"]), term))
    && Screens.StatusAccepts(filterStatus, Field(tag, "status"))
  }

  lemma TagTestWellFormed(tag: Value, term: string, filterStatus: string)
    requires WellFormedTag(tag)
    ensures TagTest(tag, term, filterStatus) == Success(Keep(tag, term, filterStatus))
  {
    Screens.OptionalMatchHit(Chain(Field(tag, "owner_info"), ["name"]), "tag.owner_info?.name?", term);
    Screens.OptionalMatchHit(Chain(Field(tag, "owner_info"), ["email"]), "tag.owner_info?.email?", term);
    Screens.OptionalMatchHit(Chain(Field(tag, "batch"), ["golf_course", "name"]), "tag.batch?.golf_course?.name?", term);
  }

  /** On well-formed tags the page's filter is the reference filter. */
  lemma FilteredTagsIsFilter(tags: seq<Value>, term: string, filterStatus: string)
    requires forall i :: 0 <= i < |tags| ==> WellFormedTag(tags[i])
    ensures FilteredTags(tags, term, filterStatus) == Success(Seqs.Filter(tags, (t: Value) => Keep(t, term, filterStatus)))
  {
    var f := (t: Value) => TagTest(t, term, filterStatus);
    forall i | 0 <= i < |tags|
      ensures f(tags[i]) == Success(Keep(tags[i], term, filterStatus))
    {
      TagTestWellFormed(tags[i], term, filterStatus);
    }
    Seqs.FilterOrThrowAgrees(tags, f, (t: Value) => Keep(t, term, filterStatus));
  }

  /**
   * The filtered tags are an order-preserving sub-list of the tags holding every tag that
   * matches the search and passes the status filter, and no other.
   */
  lemma FilteredTagsExact(tags: seq<Value>, term: string, filterStatus: string, x: Value)
    requires forall i :: 0 <= i < |tags| ==> WellFormedTag(tags[i])
    ensures var r := FilteredTags(tags, term, filterStatus);
      && r.Success?
      && Seqs.Subsequence(r.value, tags)
      && multiset(r.value)[x] == (if Keep(x, term, filterStatus) then multiset(tags)[x] else 0)
  {
    FilteredTagsIsFilter(tags, term, filterStatus);
    Seqs.FilterIsSubsequence(tags, (t: Value) => Keep(t, term, filterStatus));
    Seqs.FilterMultiset(tags, (t: Value) => Keep(t, term, filterStatus), x);
  }

  /** With no search term and the "all" filter every tag is shown. */
  lemma NoCriteriaShowsAll(tags: seq<Value>)
    requires forall i :: 0 <= i < |tags| ==> WellFormedTag(tags[i])
    ensures FilteredTags(tags, "", "all") == Success(tags)
  {
    FilteredTagsIsFilter(tags, "", "all");
    forall i | 0 <= i < |tags|
      ensures Keep(tags[i], "", "all")
    {
      Screens.EmptyTermHits(Field(tags[i], "tag_id").value.s);
    }
    Seqs.FilterAll(tags, (t: Value) => Keep(t, "", "all"));
  }

  /** A status other than "all" keeps only tags whose status is exactly that string. */
  lemma StatusFilterExact(tags: seq<Value>, term: string, filterStatus: string)
    requires filterStatus != "all"
    requires FilteredTags(tags, term, filterStatus).Success?
    ensures var r := FilteredTags(tags, term, filterStatus).value;
      forall i :: 0 <= i < |r| ==> Field(r[i], "status") == Some(Str(filterStatus))
  {
    FilterKeepsPassing(tags, term, filterStatus);
  }

  lemma {:induction false} FilterKeepsPassing(tags: seq<Value>, term: string, filterStatus: string)
    requires FilteredTags(tags, term, filterStatus).Success?
    ensures var r := FilteredTags(tags, term, filterStatus).value;
      forall i :: 0 <= i < |r| ==> Screens.StatusAccepts(filterStatus, Field(r[i], "status"))
  {
    if tags != [] {
      FilterKeepsPassing(tags[1..], term, filterStatus);
    }
  }

  /** The search ignores the case of the term. */
  lemma SearchIgnoresCase(tags: seq<Value>, term: string, filterStatus: string)
    ensures FilteredTags(tags, term, filterStatus) == FilteredTags(tags, ToLower(term), filterStatus)
  {
    forall i | 0 <= i < |tags|
      ensures TagTest(tags[i], term, filterStatus) == TagTest(tags[i], ToLower(term), filterStatus)
    {
      TagTestIgnoresCase(tags[i], term, filterStatus);
    }
    Seqs.FilterOrThrowCongruent(tags, (t: Value) => TagTest(t, term, filterStatus), (t: Value) => TagTest(t, ToLower(term), filterStatus));
  }

  lemma TagTestIgnoresCase(tag: Value, term: string, filterStatus: string)
    ensures TagTest(tag, term, filterStatus) == TagTest(tag, ToLower(term), filterStatus)
  {
    Screens.MatchIgnoresCase(Field(tag, "tag_id"), "tag.tag_id", term);
    Screens.MatchIgnoresCase(Chain(Field(tag, "owner_info"), ["name"]), "tag.owner_info?.name?", term);
    Screens.MatchIgnoresCase(Chain(Field(tag, "owner_info"), ["email"]), "tag.owner_info?.email?", term);
    Screens.MatchIgnoresCase(Chain(Field(tag, "batch"), ["golf_course", "name"]), "tag.batch?.golf_course?.name?", term);
  }

  /** A tag the search cannot read makes the whole filter (and the page's render) throw. */
  lemma MalformedTagThrows(tags: seq<Value>, term: string, filterStatus: string, i: nat)
    requires i < |tags| && (tags[i].Null? || Field(tags[i], "tag_id").None?)
    ensures FilteredTags(tags, term, filterStatus).Failure?
  {
    Seqs.FilterOrThrowFails(tags, (t: Value) => TagTest(t, term, filterStatus));
  }

  // ---------------------------------------------------------------- display helpers

  /** `getStatusBadge(status)`. */
  function StatusBadge(status: Option<Value>): (classes: string)
    ensures Screens.BadgeBase <= classes
  {
    if status == Some(Str("registered")) then Screens.Badge("green")
    else if status == Some(Str("unregistered")) then Screens.Badge("yellow")
    else if status == Some(Str("lost")) then Screens.Badge("red")
    else if status == Some(Str("found")) then Screens.Badge("blue")
    else Screens.Badge("gray")
  }

  /** Each known status has its own colour; everything else is gray. */
  lemma StatusBadgeColours(status: Option<Value>)
    ensures StatusBadge(Some(Str("registered"))) == Screens.Badge("green")
    ensures StatusBadge(Some(Str("unregistered"))) == Screens.Badge("yellow")
    ensures StatusBadge(Some(Str("lost"))) == Screens.Badge("red")
    ensures StatusBadge(Some(Str("found"))) == Screens.Badge("blue")
    ensures StatusBadge(status) == Screens.Badge("gray") <==>
      status !in {Some(Str("registered")), Some(Str("unregistered")), Some(Str("lost")), Some(Str("found"))}
  {
    if StatusBadge(status) == Screens.Badge("gray") {
      if status == Some(Str("registered")) { Screens.BadgeInjective("green", "gray"); }
      if status == Some(Str("unregistered")) { Screens.BadgeInjective("yellow", "gray"); }
      if status == Some(Str("lost")) { Screens.BadgeInjective("red", "gray"); }
      if status == Some(Str("found")) { Screens.BadgeInjective("blue", "gray"); }
    }
  }

  /** `getBatchId(batch)` and `getGolfCourseId(golfCourse)`: `x?.id?.id?.String || "N/A"`. */
  function DisplayId(x: Option<Value>): (r: Value)
    ensures Present(Chain(x, ["id", "id", "String"])) ==> r == Chain(x, ["id", "id", "String"]).value
    ensures !Present(Chain(x, ["id", "id", "String"])) ==> r == Str("N/A")
  {
    Or(Chain(x, ["id", "id", "String"]), Str("N/A"))
  }

  /** A record whose id nests a non-empty string shows it; a missing record shows "N/A". */
  lemma DisplayIdNested(s: string)
    requires s != ""
    ensures DisplayId(Some(Nest(["id", "id", "String"], Str(s)))) == Str(s)
    ensures DisplayId(None) == Str("N/A") && DisplayId(Some(Null)) == Str("N/A")
  {
    ChainNest(["id", "id", "String"], Str(s));
  }

  // ---------------------------------------------------------------- the print form

  /** The form values handed to `printTags`. */
  datatype PrintForm = PrintForm(quantity: int, golfCourse: string)

  const DefaultForm: PrintForm := PrintForm(1, "")

  /** The schema: a quantity from 1 to 100 and a non-empty golf course. */
  predicate PrintFormValid(f: PrintForm) {
    1 <= f.quantity <= 100 && |f.golfCourse| >= 1
  }

  /** The default form is rejected until a golf course is chosen, although the field is labelled optional. */
  lemma DefaultFormNeedsCourse(course: string)
    ensures !PrintFormValid(DefaultForm)
    ensures course != "" ==> PrintFormValid(DefaultForm.(golfCourse := course))
  {
  }

  /** The quantity input's `parseInt(value) || 1`: NaN and 0 become 1. */
  function ParseQuantity(input: string): (q: int)
    ensures q != 0
    ensures ParseInt(input).None? ==> q == 1
  {
    var n := ParseInt(input);
    if n.Some? && n.value != 0 then n.value else 1
  }

  /** Every non-zero quantity typed in is read back as is; "0" and non-numeric input give 1. */
  lemma ParseQuantityRoundTrip(n: int)
    ensures n != 0 ==> ParseQuantity(IntToString(n)) == n
    ensures ParseQuantity("0") == 1 && ParseQuantity("") == 1 && ParseQuantity("abc") == 1
  {
    ParseIntRoundTrip(n);
    assert DigitPrefix("abc") == [];
    assert DigitPrefix("0") == "0";
  }

  /** Typing a quantity from 1 to 100 with a chosen course gives a form the schema accepts. */
  lemma TypedQuantityAccepted(n: int, course: string)
    requires 1 <= n <= 100 && course != ""
    ensures PrintFormValid(PrintForm(ParseQuantity(IntToString(n)), course))
  {
    ParseQuantityRoundTrip(n);
  }

  // ---------------------------------------------------------------- the golf-course picker

  /** The picker's filter callback: `course.name.toLowerCase().includes(search.toLowerCase())`. */
  function CourseNameTest(course: Value, search: string): Result<bool, string> {
    if course.Null? then Failure(NullRead("name")) else Screens.RequiredMatch(Field(course, "name"), "course.name", search)
  }

  function FilteredGolfCourses(courses: seq<Value>, search: string): Result<seq<Value>, string> {
    Seqs.FilterOrThrow(courses, (c: Value) => CourseNameTest(c, search))
  }

  predicate HasStringName(course: Value) {
    Field(course, "name").Some? && Field(course, "name").value.Str?
  }

  /** With named courses the picker shows, in order, exactly the courses whose name contains the search text. */
  lemma FilteredGolfCoursesIsFilter(courses: seq<Value>, search: string)
    requires forall i :: 0 <= i < |courses| ==> HasStringName(courses[i])
    ensures FilteredGolfCourses(courses, search) == Success(Seqs.Filter(courses, (c: Value) => Screens.Hit(Field(c, "name"), search)))
  {
    var f := (c: Value) => CourseNameTest(c, search);
    forall i | 0 <= i < |courses|
      ensures f(courses[i]) == Success(Screens.Hit(Field(courses[i], "name"), search))
    {
    }
    Seqs.FilterOrThrowAgrees(courses, f, (c: Value) => Screens.Hit(Field(c, "name"), search));
  }

  /** The picker's filter throws exactly when some course has no string `name`, so the search cannot lower-case it. */
  lemma FilteredGolfCoursesThrows(courses: seq<Value>, search: string)
    ensures FilteredGolfCourses(courses, search).Failure? <==> exists i :: 0 <= i < |courses| && !HasStringName(courses[i])
  {
    var f := (c: Value) => CourseNameTest(c, search);
    Seqs.FilterOrThrowFails(courses, f);
    forall i | 0 <= i < |courses|
      ensures f(courses[i]).Failure? <==> !HasStringName(courses[i])
    {
    }
  }

  /** The key a picked course writes into the form: `(id?.id?.String || id || name).toString()`. */
  function CourseKey(course: Value): string
    requires HasStringName(course)
  {
    var nested := Columns.IdString(course);
    var flat := Field(course, "id");
    if Present(nested) then ToJsString(nested.value)
    else if Present(flat) then ToJsString(flat.value)
    else Field(course, "name").value.s
  }

  /** The nested id string wins over the plain id, which wins over the name. */
  lemma CourseKeyPrefers(course: Value)
    requires HasStringName(course)
    ensures Present(Columns.IdString(course)) ==> CourseKey(course) == ToJsString(Columns.IdString(course).value)
    ensures !Present(Columns.IdString(course)) && Present(Field(course, "id")) ==> CourseKey(course) == ToJsString(Field(course, "id").value)
    ensures !Present(Columns.IdString(course)) && !Present(Field(course, "id")) ==> CourseKey(course) == Field(course, "name").value.s
  {
  }

  /** A course with a nested id string picks that string; a course with a plain string id picks that id. */
  lemma CourseKeyForms(s: string, name: string)
    requires s != ""
    ensures CourseKey(Obj([("id", Nest(["id", "String"], Str(s))), ("name", Str(name))])) == s
    ensures CourseKey(Obj([("id", Str(s)), ("name", Str(name))])) == s
  {
    var c1 := Obj([("id", Nest(["id", "String"], Str(s))), ("name", Str(name))]);
    assert c1.fields[..1] == [("id", Nest(["id", "String"], Str(s)))];
    assert c1.fields[1].0 != "id";
    assert Lookup(c1.fields[..1], "id") == Some(Nest(["id", "String"], Str(s)));
    assert Field(c1, "id") == Some(Nest(["id", "String"], Str(s)));
    assert Field(c1, "name") == Some(Str(name));
    ChainNest(["id", "String"], Str(s));
    var c2 := Obj([("id", Str(s)), ("name", Str(name))]);
    assert c2.fields[..1] == [("id", Str(s))];
    assert c2.fields[1].0 != "id";
    assert Lookup(c2.fields[..1], "id") == Some(Str(s));
    assert Field(c2, "id") == Some(Str(s));
    assert Field(c2, "name") == Some(Str(name));
  }

  /** The request the picker issues: page 1 of 10, with the search text when one is typed. */
  function PickerRequest(search: Option<string>): Api.ListParams {
    Api.ListParams(Some(1), Some(10), None, None, search)
  }

  const PrintFailed: string := "Failed to print tags. Please try again."

  // ---------------------------------------------------------------- the page

  /** The page's state cells, with its two hooks and its own toast log. */
  class Page {
    const tagsHook: Hooks.TagsHook
    const coursesHook: Hooks.GolfCoursesHook
    var searchTerm: string
    var filterStatus: string
    var showPrintDialog: bool
    var printLoading: bool
    var downloadUrl: Option<Value>
    var golfCourseSearch: string
    var showGolfCourseDropdown: bool
    var form: PrintForm
    var toasts: seq<Hooks.Toast>
    /** The golf-course fetches issued, in order. */
    var courseRequests: seq<Api.ListParams>
    /** The values sent to `printTags`, in order. */
    var printRequests: seq<PrintForm>
    ghost var printLoadingWrites: seq<bool>

    ghost predicate Valid()
      reads this, tagsHook, coursesHook
    {
      HooksValid() && !printLoading
    }

    /** Both hooks are settled; this reads nothing of the page's own state. */
    ghost predicate HooksValid()
      reads tagsHook, coursesHook
    {
      tagsHook.Valid() && coursesHook.Valid()
    }

    /** Mounting: the tags hook fetches the tags; the golf-course hook starts empty. */
    constructor(tagsOutcome: Result<Value, string>)
      ensures Valid() && fresh(tagsHook) && fresh(coursesHook)
      ensures tagsHook.State() == Hooks.Apply(Hooks.Tags, Hooks.Initial, Hooks.FetchAll, tagsOutcome).0
      ensures coursesHook.State() == Hooks.Initial && coursesHook.pagination == Hooks.InitialPagination
      ensures searchTerm == "" && filterStatus == "all" && !showPrintDialog && downloadUrl.None?
      ensures golfCourseSearch == "" && !showGolfCourseDropdown
      ensures form == DefaultForm && courseRequests == [] && printRequests == [] && toasts == []
    {
      tagsHook := new Hooks.TagsHook(tagsOutcome);
      coursesHook := new Hooks.GolfCoursesHook();
      searchTerm := "";
      filterStatus := "all";
      showPrintDialog := false;
      printLoading := false;
      downloadUrl := None;
      golfCourseSearch := "";
      showGolfCourseDropdown := false;
      form := DefaultForm;
      toasts := [];
      courseRequests := [];
      printRequests := [];
      printLoadingWrites := [];
    }

    /**
     * `handleDialogClose(open)`: opening the dialog loads the first ten golf courses (the
     * effect on `showPrintDialog`); closing it resets the form, the download link, the print
     * flag, the picker text and the dropdown.
     */
    method HandleDialogOpenChange(open: bool, coursesOutcome: Result<Value, string>)
      requires Valid()
      modifies this, coursesHook
      ensures Valid()
      ensures showPrintDialog == open
      ensures !open ==> form == DefaultForm && downloadUrl.None? && !printLoading && golfCourseSearch == "" && !showGolfCourseDropdown
      ensures !open ==> printLoadingWrites == old(printLoadingWrites) + [false]
      ensures open ==> unchanged(this`form, this`downloadUrl, this`golfCourseSearch, this`showGolfCourseDropdown, this`printLoadingWrites)
      ensures open && !old(showPrintDialog) ==>
        && courseRequests == old(courseRequests) + [PickerRequest(None)]
        && coursesHook.State() == Hooks.ApplyFetchCourses(old(coursesHook.State()), old(coursesHook.pagination), coursesOutcome).0
        && coursesHook.pagination == Hooks.ApplyFetchCourses(old(coursesHook.State()), old(coursesHook.pagination), coursesOutcome).1
      ensures !(open && !old(showPrintDialog)) ==> courseRequests == old(courseRequests) && unchanged(coursesHook)
      ensures unchanged(this`toasts, this`printRequests, this`searchTerm, this`filterStatus)
    {
      var opening := open && !showPrintDialog;
      showPrintDialog := open;
      if !open {
        ResetDialog();
      }
      if opening {
        courseRequests := courseRequests + [PickerRequest(None)];
        var _ := coursesHook.FetchGolfCourses(coursesOutcome);
      }
    }

    /** The reset done on closing the dialog: the form, the download link, the print flag, the picker text and the dropdown. */
    method ResetDialog()
      requires HooksValid()
      modifies this
      ensures HooksValid() && !printLoading
      ensures form == DefaultForm && downloadUrl.None? && golfCourseSearch == "" && !showGolfCourseDropdown
      ensures printLoadingWrites == old(printLoadingWrites) + [false]
      ensures unchanged(this`showPrintDialog, this`courseRequests, this`toasts, this`printRequests, this`searchTerm, this`filterStatus)
    {
      form := DefaultForm;
      downloadUrl := None;
      printLoading := false;
      printLoadingWrites := printLoadingWrites + [false];
      golfCourseSearch := "";
      showGolfCourseDropdown := false;
    }

    /**
     * `handlePrintTags(values)`, given what `printTags` produced and what the refresh of the
     * tags it starts produces: the print flag is raised on entry and lowered on every exit.
     */
    method HandlePrintTags(values: PrintForm, printOutcome: Result<Value, string>, refreshOutcome: Result<Value, string>)
      requires Valid()
      modifies this, tagsHook
      ensures Valid()
      ensures printLoadingWrites == old(printLoadingWrites) + [true, false]
      ensures printRequests == old(printRequests) + [values]
      ensures printOutcome.Success? && !printOutcome.value.Null? ==>
        && downloadUrl == Field(printOutcome.value, "file_url") && toasts == old(toasts)
        && tagsHook.State() == Hooks.Apply(Hooks.Tags, old(tagsHook.State()), Hooks.FetchAll, refreshOutcome).0
      ensures printOutcome.Failure? || printOutcome.value.Null? ==>
        && downloadUrl == old(downloadUrl) && toasts == old(toasts) + [Hooks.ErrorToast(PrintFailed)]
        && unchanged(tagsHook)
      ensures unchanged(this`showPrintDialog, this`form, this`courseRequests)
      ensures unchanged(this`searchTerm, this`filterStatus, this`golfCourseSearch, this`showGolfCourseDropdown)
    {
      printLoading := true;
      printLoadingWrites := printLoadingWrites + [true];
      printRequests := printRequests + [values];
      if printOutcome.Success? && !printOutcome.value.Null? {
        downloadUrl := Field(printOutcome.value, "file_url");
        var _ := tagsHook.FetchTags(refreshOutcome);
      } else {
        // a rejected request, or `response.file_url` on a null response, lands in the catch block
        toasts := toasts + [Hooks.ErrorToast(PrintFailed)];
      }
      printLoading := false;
      printLoadingWrites := printLoadingWrites + [false];
    }

    /**
     * Submitting the form: `printTags` is only called with values the schema accepts, and a
     * valid form runs `handlePrintTags` on those values.
     */
    method Submit(printOutcome: Result<Value, string>, refreshOutcome: Result<Value, string>)
      requires Valid()
      modifies this, tagsHook
      ensures Valid()
      ensures PrintFormValid(old(form)) ==>
        && printRequests == old(printRequests) + [old(form)]
        && printLoadingWrites == old(printLoadingWrites) + [true, false]
      ensures PrintFormValid(old(form)) && printOutcome.Success? && !printOutcome.value.Null? ==>
        && downloadUrl == Field(printOutcome.value, "file_url") && toasts == old(toasts)
        && tagsHook.State() == Hooks.Apply(Hooks.Tags, old(tagsHook.State()), Hooks.FetchAll, refreshOutcome).0
      ensures PrintFormValid(old(form)) && (printOutcome.Failure? || printOutcome.value.Null?) ==>
        && downloadUrl == old(downloadUrl) && toasts == old(toasts) + [Hooks.ErrorToast(PrintFailed)]
        && unchanged(tagsHook)
      ensures !PrintFormValid(old(form)) ==> printRequests == old(printRequests) && unchanged(this, tagsHook)
      ensures forall i :: |old(printRequests)| <= i < |printRequests| ==> PrintFormValid(printRequests[i])
      ensures unchanged(this`showPrintDialog, this`form, this`courseRequests)
      ensures unchanged(this`searchTerm, this`filterStatus, this`golfCourseSearch, this`showGolfCourseDropdown)
    {
      if PrintFormValid(form) {
        HandlePrintTags(form, printOutcome, refreshOutcome);
      }
    }

    /** The quantity input's `onChange`: the typed text, read by `parseInt(value) || 1`. */
    method SetQuantity(input: string)
      requires Valid()
      modifies this
      ensures Valid()
      ensures form == old(form).(quantity := ParseQuantity(input))
      ensures unchanged(this`showPrintDialog, this`downloadUrl, this`courseRequests, this`printRequests, this`toasts)
      ensures unchanged(this`searchTerm, this`filterStatus, this`golfCourseSearch, this`showGolfCourseDropdown)
    {
      form := form.(quantity := ParseQuantity(input));
    }

    /** Typing in the picker: shows the dropdown and searches the first ten matching courses. */
    method HandleGolfCourseSearch(term: string, coursesOutcome: Result<Value, string>)
      requires Valid()
      modifies this, coursesHook
      ensures Valid()
      ensures golfCourseSearch == term && showGolfCourseDropdown
      ensures courseRequests == old(courseRequests) + [PickerRequest(Some(term))]
      ensures coursesHook.State() == Hooks.ApplyFetchCourses(old(coursesHook.State()), old(coursesHook.pagination), coursesOutcome).0
      ensures coursesHook.pagination == Hooks.ApplyFetchCourses(old(coursesHook.State()), old(coursesHook.pagination), coursesOutcome).1
      ensures unchanged(this`form, this`toasts, this`printRequests)
      ensures unchanged(this`searchTerm, this`filterStatus, this`showPrintDialog, this`downloadUrl)
    {
      golfCourseSearch := term;
      showGolfCourseDropdown := true;
      courseRequests := courseRequests + [PickerRequest(Some(term))];
      var _ := coursesHook.FetchGolfCourses(coursesOutcome);
    }

    /** Focusing the picker: shows the dropdown, and loads the first ten courses only when none are loaded. */
    method HandleGolfCourseInputFocus(coursesOutcome: Result<Value, string>)
      requires Valid()
      modifies this, coursesHook
      ensures Valid()
      ensures showGolfCourseDropdown
      ensures old(|coursesHook.golfCourses|) == 0 ==>
        && courseRequests == old(courseRequests) + [PickerRequest(None)]
        && coursesHook.State() == Hooks.ApplyFetchCourses(old(coursesHook.State()), old(coursesHook.pagination), coursesOutcome).0
        && coursesHook.pagination == Hooks.ApplyFetchCourses(old(coursesHook.State()), old(coursesHook.pagination), coursesOutcome).1
      ensures old(|coursesHook.golfCourses|) != 0 ==> courseRequests == old(courseRequests) && unchanged(coursesHook)
      ensures unchanged(this`golfCourseSearch, this`form, this`toasts, this`printRequests)
      ensures unchanged(this`searchTerm, this`filterStatus, this`showPrintDialog, this`downloadUrl)
    {
      showGolfCourseDropdown := true;
      if |coursesHook.golfCourses| == 0 {
        courseRequests := courseRequests + [PickerRequest(None)];
        var _ := coursesHook.FetchGolfCourses(coursesOutcome);
      }
    }

    /** Picking a course from the dropdown (only courses with a string name are listed). */
    method SelectGolfCourse(course: Value)
      requires Valid() && HasStringName(course)
      modifies this
      ensures Valid()
      ensures form.quantity == old(form.quantity) && form.golfCourse == CourseKey(course)
      ensures golfCourseSearch == Field(course, "name").value.s && !showGolfCourseDropdown
      ensures unchanged(this`courseRequests, this`printRequests, this`toasts)
      ensures unchanged(this`searchTerm, this`filterStatus, this`showPrintDialog, this`downloadUrl)
    {
      form := PrintForm(form.quantity, CourseKey(course));
      golfCourseSearch := Field(course, "name").value.s;
      showGolfCourseDropdown := false;
    }

    /**
     * The dropdown is rendered when it is open and the picker's filter keeps some course
     * (when the filter throws, the whole render throws; see `View`).
     */
    function DropdownShown(): bool
      reads this, coursesHook
    {
      var filtered := FilteredGolfCourses(coursesHook.golfCourses, golfCourseSearch);
      showGolfCourseDropdown && filtered.Success? && |filtered.value| > 0
    }

    /**
     * The tag list card, or the error the render throws: the picker's filter runs first, then
     * the tag filter.
     */
    function View(): Result<Screens.ListView, string>
      reads this, tagsHook, coursesHook
    {
      match FilteredGolfCourses(coursesHook.golfCourses, golfCourseSearch)
      case Failure(e) => Failure(e)
      case Success(_) =>
        match FilteredTags(tagsHook.tags, searchTerm, filterStatus)
        case Failure(e) => Failure(e)
        case Success(filtered) => Success(Screens.ListViewOf(tagsHook.loading, tagsHook.error, filtered, searchTerm, filterStatus))
    }
  }

  /** The render throws exactly when a loaded golf course has no string name, or the tag filter throws. */
  lemma ViewThrows(p: Page)
    ensures p.View().Failure? <==>
      || (exists i :: 0 <= i < |p.coursesHook.golfCourses| && !HasStringName(p.coursesHook.golfCourses[i]))
      || FilteredTags(p.tagsHook.tags, p.searchTerm, p.filterStatus).Failure?
  {
    FilteredGolfCoursesThrows(p.coursesHook.golfCourses, p.golfCourseSearch);
  }

  /** The dropdown lists a course only when every loaded course has a string name. */
  lemma DropdownNeedsNamedCourses(p: Page)
    requires p.DropdownShown()
    ensures p.showGolfCourseDropdown
    ensures forall i :: 0 <= i < |p.coursesHook.golfCourses| ==> HasStringName(p.coursesHook.golfCourses[i])
  {
    FilteredGolfCoursesThrows(p.coursesHook.golfCourses, p.golfCourseSearch);
  }

  /** Picking a course makes the form acceptable for any quantity from 1 to 100 whose parsed value was typed. */
  lemma PickedCourseCompletesForm(course: Value, quantity: int)
    requires HasStringName(course) && 1 <= quantity <= 100
    requires Present(Columns.IdString(course)) && Columns.IdString(course).value.Str?
    ensures PrintFormValid(PrintForm(quantity, CourseKey(course)))
  {
  }
}
