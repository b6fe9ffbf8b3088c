/**
 * The evidence page: the client-side search and status filter, the status badges, the list of
 * distinct statuses the page computes (the filter dropdown itself offers a fixed list), the
 * viewer and map links, the file and claim buttons of the detail modal, and the handlers that
 * open the modals.
 */
module EvidencePage {
  import opened Wrappers
  import opened Text
  import opened Json
  import Seqs
  import Hooks
  import Screens

  // ---------------------------------------------------------------- search and filter

  /** The search callback: the record's id, golf-course name or status contains the term (the id and status must be strings). */
  function EvidenceSearch(record: Value, term: string): Result<bool, string> {
    if record.Null? then Failure(NullRead("id"))
    else
      Screens.OrElse(
        Screens.OrElse(
          Screens.RequiredMatch(Field(record, "id"), "record.id", term),
          Screens.OptionalMatch(Chain(Field(record, "golf_course"), ["name"]), "record.golf_course?.name?", term)),
        Screens.RequiredMatch(Field(record, "status"), "record.status", term))
  }

  function EvidenceTest(record: Value, term: string, filterStatus: string): Result<bool, string> {
    match EvidenceSearch(record, term)
    case Failure(e) => Failure(e)
    case Success(hit) => Success(hit && Screens.StatusAccepts(filterStatus, Field(record, "status")))
  }

  function FilteredEvidence(records: seq<Value>, term: string, filterStatus: string): Result<seq<Value>, string> {
    Seqs.FilterOrThrow(records, (r: Value) => EvidenceTest(r, term, filterStatus))
  }

  /** A record the search can read: string `id` and `status`, and a searchable golf-course name. */
  predicate WellFormedRecord(record: Value) {
    && record.Obj?
    && Field(record, "id").Some? && Field(record, "id").value.Str?
    && Field(record, "status").Some? && Field(record, "status").value.Str?
    && Screens.Searchable(Chain(Field(record, "golf_course"), ["name"]))
  }

  /** The reference filter. */
  predicate Keep(record: Value, term: string, filterStatus: string) {
    && (|| Screens.Hit(Field(record, "id"), term)
        || Screens.Hit(Chain(Field(record, "golf_course"), ["name"]), term)
        || Screens.Hit(Field(record, "status"), term))
    && Screens.StatusAccepts(filterStatus, Field(record, "status"))
  }

  lemma EvidenceTestWellFormed(record: Value, term: string, filterStatus: string)
    requires WellFormedRecord(record)
    ensures EvidenceTest(record, term, filterStatus) == Success(Keep(record, term, filterStatus))
  {
    Screens.OptionalMatchHit(Chain(Field(record, "golf_course"), ["name"]), "record.golf_course?.name?", term);
  }

  /** On well-formed records the page's filter is the reference filter. */
  lemma FilteredEvidenceIsFilter(records: seq<Value>, term: string, filterStatus: string)
    requires forall i :: 0 <= i < |records| ==> WellFormedRecord(records[i])
    ensures FilteredEvidence(records, term, filterStatus) == Success(Seqs.Filter(records, (r: Value) => Keep(r, term, filterStatus)))
  {
    var f := (r: Value) => EvidenceTest(r, term, filterStatus);
    forall i | 0 <= i < |records|
      ensures f(records[i]) == Success(Keep(records[i], term, filterStatus))
    {
      EvidenceTestWellFormed(records[i], term, filterStatus);
    }
    Seqs.FilterOrThrowAgrees(records, f, (r: Value) => Keep(r, term, filterStatus));
  }

  /** The filtered records are an order-preserving sub-list holding every matching record and no other. */
  lemma FilteredEvidenceExact(records: seq<Value>, term: string, filterStatus: string, x: Value)
    requires forall i :: 0 <= i < |records| ==> WellFormedRecord(records[i])
    ensures var r := FilteredEvidence(records, term, filterStatus);
      && r.Success?
      && Seqs.Subsequence(r.value, records)
      && multiset(r.value)[x] == (if Keep(x, term, filterStatus) then multiset(records)[x] else 0)
  {
    FilteredEvidenceIsFilter(records, term, filterStatus);
    Seqs.FilterIsSubsequence(records, (r: Value) => Keep(r, term, filterStatus));
    Seqs.FilterMultiset(records, (r: Value) => Keep(r, term, filterStatus), x);
  }

  /** With no search term and the "all" filter every record is shown. */
  lemma NoCriteriaShowsAll(records: seq<Value>)
    requires forall i :: 0 <= i < |records| ==> WellFormedRecord(records[i])
    ensures FilteredEvidence(records, "", "all") == Success(records)
  {
    FilteredEvidenceIsFilter(records, "", "all");
    forall i | 0 <= i < |records|
      ensures Keep(records[i], "", "all")
    {
      Screens.EmptyTermHits(Field(records[i], "id").value.s);
    }
    Seqs.FilterAll(records, (r: Value) => Keep(r, "", "all"));
  }

  /** Typing a record's status into the search box, with the filter set to that status, keeps the record. */
  lemma StatusAsSearchTermFinds(record: Value)
    requires WellFormedRecord(record)
    ensures var status := Field(record, "status").value.s;
      Keep(record, status, status) && Keep(record, status, "all")
  {
    var status := Field(record, "status").value.s;
    ContainsIffOccurs(ToLower(status), ToLower(status));
    assert ToLower(status) <= ToLower(status)[0..];
  }

  /** The search ignores the case of the term. */
  lemma SearchIgnoresCase(records: seq<Value>, term: string, filterStatus: string)
    ensures FilteredEvidence(records, term, filterStatus) == FilteredEvidence(records, ToLower(term), filterStatus)
  {
    forall i | 0 <= i < |records|
      ensures EvidenceTest(records[i], term, filterStatus) == EvidenceTest(records[i], ToLower(term), filterStatus)
    {
      EvidenceTestIgnoresCase(records[i], term, filterStatus);
    }
    Seqs.FilterOrThrowCongruent(records, (r: Value) => EvidenceTest(r, term, filterStatus), (r: Value) => EvidenceTest(r, ToLower(term), filterStatus));
  }

  lemma EvidenceTestIgnoresCase(record: Value, term: string, filterStatus: string)
    ensures EvidenceTest(record, term, filterStatus) == EvidenceTest(record, ToLower(term), filterStatus)
  {
    Screens.MatchIgnoresCase(Field(record, "id"), "record.id", term);
    Screens.MatchIgnoresCase(Chain(Field(record, "golf_course"), ["name"]), "record.golf_course?.name?", term);
    Screens.MatchIgnoresCase(Field(record, "status"), "record.status", term);
  }

  /** A record with a matching id is kept without its status being read as a string; one whose id does not match and whose status is missing throws. */
  lemma StatusReadOnlyWhenNeeded(record: Value, term: string)
    requires record.Obj? && Field(record, "id").Some? && Field(record, "id").value.Str?
    requires Field(record, "status").None?
    ensures Screens.Hit(Field(record, "id"), term) ==> EvidenceTest(record, term, "all") == Success(true)
    ensures !Screens.Hit(Field(record, "id"), term) && Chain(Field(record, "golf_course"), ["name"]).None? ==>
      EvidenceTest(record, term, "all") == Failure(Screens.UndefinedRead("toLowerCase"))
  {
  }

  // ---------------------------------------------------------------- badges and the status list

  /** `getStatusBadge(status)`. */
  function StatusBadge(status: Option<Value>): (classes: string)
    ensures Screens.BadgeBase <= classes
  {
    if status == Some(Str("created")) then Screens.Badge("blue")
    else if status == Some(Str("prize_claimed")) then Screens.Badge("green")
    else if status == Some(Str("files_verified")) then Screens.Badge("purple")
    else Screens.Badge("gray")
  }

  /** Each known status has its own colour; everything else is gray. */
  lemma StatusBadgeColours(status: Option<Value>)
    ensures StatusBadge(Some(Str("created"))) == Screens.Badge("blue")
    ensures StatusBadge(Some(Str("prize_claimed"))) == Screens.Badge("green")
    ensures StatusBadge(Some(Str("files_verified"))) == Screens.Badge("purple")
    ensures StatusBadge(status) == Screens.Badge("gray") <==>
      status !in {Some(Str("created")), Some(Str("prize_claimed")), Some(Str("files_verified"))}
  {
    if StatusBadge(status) == Screens.Badge("gray") {
      if status == Some(Str("created")) { Screens.BadgeInjective("blue", "gray"); }
      if status == Some(Str("prize_claimed")) { Screens.BadgeInjective("green", "gray"); }
      if status == Some(Str("files_verified")) { Screens.BadgeInjective("purple", "gray"); }
    }
  }

  /** `evidence.map((record) => record.status)`: `None` stands for an undefined status; a null record throws. */
  function Statuses(records: seq<Value>): (r: Result<seq<Option<Value>>, string>)
    ensures r.Failure? <==> exists i :: 0 <= i < |records| && records[i].Null?
    ensures r.Success? ==> |r.value| == |records| && forall i :: 0 <= i < |records| ==> r.value[i] == Field(records[i], "status")
  {
    if records == [] then Success([])
    else if records[0].Null? then Failure(NullRead("status"))
    else match Statuses(records[1..])
      case Failure(e) => Failure(e)
      case Success(rest) =>
        assert forall i :: 1 <= i < |records| ==> records[i] == records[1..][i - 1];
        Success([Field(records[0], "status")] + rest)
  }

  /** `[...new Set(statuses)]`. */
  function UniqueStatuses(records: seq<Value>): Result<seq<Option<Value>>, string> {
    match Statuses(records)
    case Failure(e) => Failure(e)
    case Success(s) => Success(Seqs.Dedup(s))
  }

  /** The status list holds each record's status once, and only those, in order of first occurrence. */
  lemma UniqueStatusesExact(records: seq<Value>)
    requires forall i :: 0 <= i < |records| ==> !records[i].Null?
    ensures var u := UniqueStatuses(records);
      && u.Success?
      && Seqs.Distinct(u.value)
      && (forall i :: 0 <= i < |records| ==> Field(records[i], "status") in u.value)
      && (forall j :: 0 <= j < |u.value| ==> exists i :: 0 <= i < |records| && Field(records[i], "status") == u.value[j])
      && (forall i, j :: 0 <= i < j < |u.value| ==>
            Seqs.FirstIndex(Statuses(records).value, u.value[i]) < Seqs.FirstIndex(Statuses(records).value, u.value[j]))
  {
    var s := Statuses(records).value;
    Seqs.DedupDistinct(s);
    Seqs.DedupFirstOccurrenceOrder(s);
    var u := Seqs.Dedup(s);
    forall j | 0 <= j < |u|
      ensures exists i :: 0 <= i < |records| && Field(records[i], "status") == u[j]
    {
      var i := Seqs.FirstIndex(s, u[j]);
      assert Field(records[i], "status") == u[j];
    }
  }

  // ---------------------------------------------------------------- links and buttons

  const ViewerPrefix: string := "https://hole-in-one-appdesign.s3.eu-west-1.amazonaws.com/index.html?evidenceId="

  /** `handleOpenViewer(record.id)`: the id is interpolated after the fixed viewer address. */
  function ViewerUrl(id: Value): (url: string)
    ensures ViewerPrefix <= url
  {
    ViewerPrefix + ToJsString(id)
  }

  /** The viewer reads the record id back from the address. */
  function EvidenceIdOf(url: string): Option<string> {
    if ViewerPrefix <= url then Some(url[|ViewerPrefix|..]) else None
  }

  lemma ViewerUrlRoundTrip(id: string)
    ensures EvidenceIdOf(ViewerUrl(Str(id))) == Some(id)
  {
    assert ViewerUrl(Str(id))[|ViewerPrefix|..] == id;
  }

  /** Distinct string ids open distinct viewer addresses. */
  lemma ViewerUrlInjective(a: string, b: string)
    requires ViewerUrl(Str(a)) == ViewerUrl(Str(b))
    ensures a == b
  {
    ViewerUrlRoundTrip(a);
    ViewerUrlRoundTrip(b);
  }

  /** `handleLocationClick(location)`: the map link opened, if any. */
  function MapLink(location: Option<Value>): (link: Option<string>)
    ensures link.Some? <==>
      Present(location) && Present(Field(location.value, "latitude")) && Present(Field(location.value, "longitude"))
  {
    if Present(location) && Present(Field(location.value, "latitude")) && Present(Field(location.value, "longitude"))
    then Some("https://www.google.com/maps?q=" + ToJsString(Field(location.value, "latitude").value) + "," + ToJsString(Field(location.value, "longitude").value))
    else None
  }

  /** A zero coordinate is falsy, so a location on the equator or the prime meridian opens no map. */
  lemma ZeroCoordinateOpensNothing(lat: int, lon: int)
    ensures lat == 0 || lon == 0 ==> MapLink(Some(Obj([("latitude", Num(lat)), ("longitude", Num(lon))]))).None?
    ensures MapLink(None).None? && MapLink(Some(Null)).None?
  {
    var loc := Obj([("latitude", Num(lat)), ("longitude", Num(lon))]);
    assert loc.fields[..1] == [("latitude", Num(lat))];
    assert loc.fields[1].0 != "latitude";
    assert Records.Lookup(loc.fields[..1], "latitude") == Some(Num(lat));
    assert Field(loc, "latitude") == Some(Num(lat));
    assert Field(loc, "longitude") == Some(Num(lon));
  }

  /** `coordinate.toFixed(6)`: only a number has the method; the digits it prints are not modelled. */
  function ToFixed(coordinate: Option<Value>, expr: string): (r: Result<int, string>)
    ensures r.Success? <==> coordinate.Some? && coordinate.value.Num?
  {
    if coordinate.None? then Failure(Screens.UndefinedRead("toFixed"))
    else match coordinate.value
      case Null => Failure(NullRead("toFixed"))
      case Num(n) => Success(n)
      case _ => Failure(Screens.NotAFunction(expr + ".toFixed"))
  }

  predicate NumericCoordinates(location: Value) {
    && Field(location, "latitude").Some? && Field(location, "latitude").value.Num?
    && Field(location, "longitude").Some? && Field(location, "longitude").value.Num?
  }

  /**
   * `formatLocation(location)`: a falsy location prints "N/A" (`None`); any other location
   * prints its latitude and then its longitude with `toFixed(6)`, which throws unless both are
   * numbers.
   */
  function FormatLocation(location: Option<Value>): (r: Result<Option<(int, int)>, string>)
    ensures r == Success(None) <==> !Present(location)
    ensures r.Failure? <==> Present(location) && !NumericCoordinates(location.value)
    ensures r.Success? && r.value.Some? ==>
      r.value.value == (Field(location.value, "latitude").value.n, Field(location.value, "longitude").value.n)
  {
    if !Present(location) then Success(None)
    else match ToFixed(Field(location.value, "latitude"), "location.latitude")
      case Failure(e) => Failure(e)
      case Success(lat) =>
        match ToFixed(Field(location.value, "longitude"), "location.longitude")
        case Failure(e) => Failure(e)
        case Success(lon) => Success(Some((lat, lon)))
  }

  /** An empty location object, or one with string coordinates, makes `formatLocation` throw. */
  lemma FormatLocationThrows(lat: string, lon: string)
    ensures FormatLocation(Some(Obj([]))) == Failure(Screens.UndefinedRead("toFixed"))
    ensures FormatLocation(Some(Obj([("latitude", Str(lat)), ("longitude", Str(lon))]))) ==
      Failure(Screens.NotAFunction("location.latitude.toFixed"))
  {
    var loc := Obj([("latitude", Str(lat)), ("longitude", Str(lon))]);
    assert loc.fields[..1] == [("latitude", Str(lat))];
    assert loc.fields[1].0 != "latitude";
    assert Records.Lookup(loc.fields[..1], "latitude") == Some(Str(lat));
    assert Field(loc, "latitude") == Some(Str(lat));
    assert "location.latitude" + ".toFixed" == "location.latitude.toFixed";
  }

  /** The table rows, in order: each row's formatted `location_start`, or the first row's throw. */
  function RenderRows(records: seq<Value>): Result<seq<Option<(int, int)>>, string> {
    if records == [] then Success([])
    else match FormatLocation(Field(records[0], "location_start"))
      case Failure(e) => Failure(e)
      case Success(cell) =>
        match RenderRows(records[1..])
        case Failure(e) => Failure(e)
        case Success(rest) => Success([cell] + rest)
  }

  /** The rows render exactly when no record has a truthy `location_start` without numeric coordinates, one cell per record. */
  lemma {:induction false} RenderRowsExact(records: seq<Value>)
    ensures RenderRows(records).Failure? <==>
      exists i :: 0 <= i < |records| && FormatLocation(Field(records[i], "location_start")).Failure?
    ensures RenderRows(records).Success? ==>
      && |RenderRows(records).value| == |records|
      && forall i :: 0 <= i < |records| ==> RenderRows(records).value[i] == FormatLocation(Field(records[i], "location_start")).value
  {
    if records != [] {
      RenderRowsExact(records[1..]);
      var r := RenderRows(records);
      if r.Failure? && FormatLocation(Field(records[0], "location_start")).Success? {
        var i :| 0 <= i < |records[1..]| && FormatLocation(Field(records[1..][i], "location_start")).Failure?;
        assert records[i + 1] == records[1..][i];
      }
      if !r.Failure? {
        forall i | 1 <= i < |records|
          ensures FormatLocation(Field(records[i], "location_start")).Success?
        {
          assert records[i] == records[1..][i - 1];
        }
      }
      if r.Success? {
        forall i | 0 <= i < |records|
          ensures r.value[i] == FormatLocation(Field(records[i], "location_start")).value
        {
          if i > 0 {
            assert records[i] == records[1..][i - 1];
          }
        }
      }
    }
  }

  /** The four file buttons of the detail modal. */
  datatype FileKind = Video | Picture | Sensors | Gpx

  function UrlKey(k: FileKind): string {
    match k
    case Video => "video_url"
    case Picture => "picture_url"
    case Sensors => "sensors_url"
    case Gpx => "gpx_url"
  }

  const FileKinds: seq<FileKind> := [Video, Picture, Sensors, Gpx]

  lemma EveryKindListed()
    ensures forall k: FileKind :: k in FileKinds
  {
    forall k: FileKind
      ensures k in FileKinds
    {
      var i := Rank(k);
      assert FileKinds[i] == k;
    }
  }

  /** The buttons for `kinds`, each with the address it opens. */
  function ButtonsFor(files: Value, kinds: seq<FileKind>): seq<(FileKind, Value)> {
    if kinds == [] then []
    else
      var url := Field(files, UrlKey(kinds[0]));
      (if Present(url) then [(kinds[0], url.value)] else []) + ButtonsFor(files, kinds[1..])
  }

  /** There is a button of kind `k` opening `u` exactly when `k` is listed and its url field is the truthy `u`. */
  lemma {:induction false} ButtonsForExact(files: Value, kinds: seq<FileKind>)
    ensures forall k, u :: (k, u) in ButtonsFor(files, kinds) <==> k in kinds && Field(files, UrlKey(k)) == Some(u) && Truthy(u)
  {
    if kinds != [] {
      ButtonsForExact(files, kinds[1..]);
      var url := Field(files, UrlKey(kinds[0]));
      var head: seq<(FileKind, Value)> := if Present(url) then [(kinds[0], url.value)] else [];
      assert ButtonsFor(files, kinds) == head + ButtonsFor(files, kinds[1..]);
      assert forall k :: k in kinds <==> k == kinds[0] || k in kinds[1..];
    }
  }

  /** The file section is rendered only when `files` is truthy, and then one button per truthy address. */
  function FileButtons(evidence: Value): (r: seq<(FileKind, Value)>)
    ensures forall k, u :: (k, u) in r <==>
      Present(Field(evidence, "files")) && Field(Field(evidence, "files").value, UrlKey(k)) == Some(u) && Truthy(u)
  {
    var files := Field(evidence, "files");
    if Present(files) then
      ButtonsForExact(files.value, FileKinds);
      EveryKindListed();
      ButtonsFor(files.value, FileKinds)
    else []
  }

  /** The files section lists at most one button per kind, in the order video, picture, sensors, GPX. */
  lemma FileButtonsOrder(evidence: Value)
    ensures |FileButtons(evidence)| <= 4
    ensures forall i, j :: 0 <= i < j < |FileButtons(evidence)| ==> Rank(FileButtons(evidence)[i].0) < Rank(FileButtons(evidence)[j].0)
  {
    var files := Field(evidence, "files");
    if Present(files) {
      ButtonsForLength(files.value, FileKinds);
      ButtonsForOrder(files.value, FileKinds);
    }
  }

  function Rank(k: FileKind): nat {
    match k
    case Video => 0
    case Picture => 1
    case Sensors => 2
    case Gpx => 3
  }

  /** At most one button per listed kind. */
  lemma {:induction false} ButtonsForLength(files: Value, kinds: seq<FileKind>)
    ensures |ButtonsFor(files, kinds)| <= |kinds|
  {
    if kinds != [] {
      ButtonsForLength(files, kinds[1..]);
      var url := Field(files, UrlKey(kinds[0]));
      var head: seq<(FileKind, Value)> := if Present(url) then [(kinds[0], url.value)] else [];
      assert ButtonsFor(files, kinds) == head + ButtonsFor(files, kinds[1..]);
    }
  }

  /** Kinds all ranked at least `lo` give buttons all ranked at least `lo`. */
  lemma {:induction false} ButtonsForRanksAbove(files: Value, kinds: seq<FileKind>, lo: nat)
    requires forall i :: 0 <= i < |kinds| ==> lo <= Rank(kinds[i])
    ensures forall i :: 0 <= i < |ButtonsFor(files, kinds)| ==> lo <= Rank(ButtonsFor(files, kinds)[i].0)
  {
    if kinds != [] {
      ButtonsForRanksAbove(files, kinds[1..], lo);
      var url := Field(files, UrlKey(kinds[0]));
      var head: seq<(FileKind, Value)> := if Present(url) then [(kinds[0], url.value)] else [];
      assert ButtonsFor(files, kinds) == head + ButtonsFor(files, kinds[1..]);
    }
  }

  /** Kinds listed in increasing rank give buttons in increasing rank. */
  lemma {:induction false} ButtonsForOrder(files: Value, kinds: seq<FileKind>)
    requires forall i, j :: 0 <= i < j < |kinds| ==> Rank(kinds[i]) < Rank(kinds[j])
    ensures forall i, j :: 0 <= i < j < |ButtonsFor(files, kinds)| ==>
      Rank(ButtonsFor(files, kinds)[i].0) < Rank(ButtonsFor(files, kinds)[j].0)
  {
    if kinds != [] {
      ButtonsForOrder(files, kinds[1..]);
      ButtonsForRanksAbove(files, kinds[1..], Rank(kinds[0]) + 1);
      var rest := ButtonsFor(files, kinds[1..]);
      var url := Field(files, UrlKey(kinds[0]));
      var head: seq<(FileKind, Value)> := if Present(url) then [(kinds[0], url.value)] else [];
      assert ButtonsFor(files, kinds) == head + rest;
      PrependLowerRank(head, rest, kinds[0]);
    }
  }

  /** Putting at most one button of kind `k` before buttons of higher rank keeps the ranks increasing. */
  lemma PrependLowerRank(head: seq<(FileKind, Value)>, rest: seq<(FileKind, Value)>, k: FileKind)
    requires |head| <= 1 && forall i :: 0 <= i < |head| ==> head[i].0 == k
    requires forall i :: 0 <= i < |rest| ==> Rank(k) < Rank(rest[i].0)
    requires forall i, j :: 0 <= i < j < |rest| ==> Rank(rest[i].0) < Rank(rest[j].0)
    ensures forall i, j :: 0 <= i < j < |head + rest| ==> Rank((head + rest)[i].0) < Rank((head + rest)[j].0)
  {
  }

  /** The Claim Prize button: shown, with its address, only when `claim_prize` and `claim_url` are both truthy. */
  function ClaimButton(evidence: Value): (r: Option<Value>)
    ensures r.Some? <==> Present(Field(evidence, "claim_prize")) && Present(Field(evidence, "claim_url"))
    ensures r.Some? ==> Field(evidence, "claim_url") == Some(r.value)
  {
    if Present(Field(evidence, "claim_prize")) && Present(Field(evidence, "claim_url"))
    then Field(evidence, "claim_url")
    else None
  }

  // ---------------------------------------------------------------- the page

  class Page {
    const hook: Hooks.EvidenceHook
    var searchTerm: string
    var filterStatus: string
    var selectedEvidence: Option<Value>
    var showDetailModal: bool
    var selectedGolfCourse: Option<Value>
    var showGolfCourseModal: bool

    ghost predicate Valid()
      reads this, hook
    {
      hook.Valid()
    }

    /** Mounting: the hook fetches the records; no modal is open. */
    constructor(outcome: Result<Value, string>)
      ensures Valid() && fresh(hook)
      ensures hook.State() == Hooks.Apply(Hooks.Evidence, Hooks.Initial, Hooks.FetchAll, outcome).0
      ensures searchTerm == "" && filterStatus == "all"
      ensures selectedEvidence.None? && !showDetailModal && selectedGolfCourse.None? && !showGolfCourseModal
    {
      hook := new Hooks.EvidenceHook(outcome);
      searchTerm := "";
      filterStatus := "all";
      selectedEvidence := None;
      showDetailModal := false;
      selectedGolfCourse := None;
      showGolfCourseModal := false;
    }

    /** `handleViewDetails(id)`: a loaded record opens the detail modal; a failure is swallowed after the hook's toast. */
    method HandleViewDetails(outcome: Result<Value, string>)
      requires Valid()
      modifies this, hook
      ensures Valid()
      ensures (hook.State(), outcome) == Hooks.Apply(Hooks.Evidence, old(hook.State()), Hooks.GetOne, outcome)
      ensures outcome.Success? ==> selectedEvidence == Some(outcome.value) && showDetailModal
      ensures outcome.Failure? ==> selectedEvidence == old(selectedEvidence) && showDetailModal == old(showDetailModal)
      ensures searchTerm == old(searchTerm) && filterStatus == old(filterStatus)
      ensures selectedGolfCourse == old(selectedGolfCourse) && showGolfCourseModal == old(showGolfCourseModal)
    {
      var res := hook.GetEvidence(outcome);
      if res.Success? {
        selectedEvidence := Some(res.value);
        showDetailModal := true;
      }
    }

    /** `handleGolfCourseClick(golfCourse)`: opens the golf-course modal on the row's course. */
    method HandleGolfCourseClick(golfCourse: Value)
      requires Valid()
      modifies this
      ensures Valid()
      ensures selectedGolfCourse == Some(golfCourse) && showGolfCourseModal
      ensures selectedEvidence == old(selectedEvidence) && showDetailModal == old(showDetailModal)
      ensures searchTerm == old(searchTerm) && filterStatus == old(filterStatus)
    {
      selectedGolfCourse := Some(golfCourse);
      showGolfCourseModal := true;
    }

    /** The evidence card, or the error the render throws: the filter's, or a row's `formatLocation`. */
    function View(): Result<Screens.ListView, string>
      reads this, hook
    {
      match FilteredEvidence(hook.evidence, searchTerm, filterStatus)
      case Failure(e) => Failure(e)
      case Success(filtered) =>
        var card := Screens.ListViewOf(hook.loading, hook.error, filtered, searchTerm, filterStatus);
        if card.Rows? && RenderRows(card.items).Failure? then Failure(RenderRows(card.items).error)
        else Success(card)
    }
  }

  /** The golf-course link of a row is rendered only when the record's golf course has a truthy name. */
  function GolfCourseLink(record: Value): (r: Option<Value>)
    ensures r.Some? <==> Present(Chain(Field(record, "golf_course"), ["name"]))
    ensures r.Some? ==> Field(record, "golf_course") == Some(r.value)
  {
    var name := Chain(Field(record, "golf_course"), ["name"]);
    if Present(name) then
      assert Field(record, "golf_course").Some?;
      Field(record, "golf_course")
    else None
  }

  /**
   * The render throws exactly when the filter throws, or the rows are shown and some shown
   * record has a truthy `location_start` whose latitude or longitude is not a number.
   */
  lemma ViewThrows(p: Page)
    ensures p.View().Failure? <==>
      || FilteredEvidence(p.hook.evidence, p.searchTerm, p.filterStatus).Failure?
      || (var card := Screens.ListViewOf(p.hook.loading, p.hook.error, FilteredEvidence(p.hook.evidence, p.searchTerm, p.filterStatus).value, p.searchTerm, p.filterStatus);
          && card.Rows?
          && exists i :: 0 <= i < |card.items| && Present(Field(card.items[i], "location_start")) && !NumericCoordinates(Field(card.items[i], "location_start").value))
  {
    var filtered := FilteredEvidence(p.hook.evidence, p.searchTerm, p.filterStatus);
    if filtered.Success? {
      var card := Screens.ListViewOf(p.hook.loading, p.hook.error, filtered.value, p.searchTerm, p.filterStatus);
      if card.Rows? {
        RenderRowsExact(card.items);
      }
    }
  }
}
