/**
 * The cells of the golf-course table: each derives what it shows from one course record with
 * `||` and `?.` fallbacks. A course is a JSON value that is not `null` (reading a property of a
 * `null` row throws while rendering).
 */
module Columns {
  import opened Wrappers
  import opened Text
  import opened Json
  import Records
  import DataTable

  /** The record's `id.id.String`, read with optional chaining. */
  function IdString(course: Value): Option<Value> {
    Chain(Field(course, "id"), ["id", "String"])
  }

  /** The Course ID cell: `id?.id?.String || "N/A"`. */
  function CourseIdCell(course: Value): (r: Value)
    requires !course.Null?
    ensures Present(IdString(course)) ==> r == IdString(course).value
    ensures !Present(IdString(course)) ==> r == Str("N/A")
  {
    Or(IdString(course), Str("N/A"))
  }

  /** A course whose id nests a non-empty `String` shows that string; a course without an id shows "N/A". */
  lemma CourseIdOfNestedId(name: Value, s: string)
    ensures s != "" ==> CourseIdCell(Obj([("id", Nest(["id", "String"], Str(s))), ("name", name)])) == Str(s)
    ensures CourseIdCell(Obj([("name", name)])) == Str("N/A")
  {
    var course := Obj([("id", Nest(["id", "String"], Str(s))), ("name", name)]);
    assert course.fields[..1] == [("id", Nest(["id", "String"], Str(s)))];
    assert course.fields[1].0 != "id";
    assert Records.Lookup(course.fields[..1], "id") == Some(Nest(["id", "String"], Str(s)));
    assert Field(course, "id") == Some(Nest(["id", "String"], Str(s)));
    ChainNest(["id", "String"], Str(s));
  }

  /** `row.getValue("properties") || {}`. */
  function Properties(course: Value): Value {
    Or(Field(course, "properties"), Obj([]))
  }

  /** A property of the course with the text fallback: `properties[key] || "N/A"`. */
  function PropertyOrNA(course: Value, key: string): (r: Value)
    requires !course.Null?
    ensures Present(Field(Properties(course), key)) ==> r == Field(Properties(course), key).value
    ensures !Present(Field(Properties(course), key)) ==> r == Str("N/A")
  {
    Or(Field(Properties(course), key), Str("N/A"))
  }

  /** The holes count. */
  function HolesCell(course: Value): Value
    requires !course.Null?
  {
    PropertyOrNA(course, "golf:course:holes")
  }

  /** The par value with its fallback. */
  function Par(course: Value): Value
    requires !course.Null?
  {
    PropertyOrNA(course, "golf:course:par")
  }

  /** The Par line is rendered only when the par value is not the fallback (`par !== "N/A"`). */
  predicate ParShown(course: Value)
    requires !course.Null?
  {
    Par(course) != Str("N/A")
  }

  /** The Par line shows exactly for a truthy par other than the string "N/A", and then shows that par. */
  lemma ParShownIff(course: Value)
    requires !course.Null?
    ensures ParShown(course) <==> Present(Field(Properties(course), "golf:course:par")) && Field(Properties(course), "golf:course:par").value != Str("N/A")
    ensures ParShown(course) ==> Par(course) == Field(Properties(course), "golf:course:par").value
  {
  }

  /**
   * `pois.length` for `pois = points_of_interest || []`: arrays and strings have a length, an
   * object has whatever numeric `length` field it carries, and other values have none. A
   * negative `length` is read as none, which labels the same as it does in the table.
   */
  function PoiCount(course: Value): (n: Option<nat>)
    requires !course.Null?
    ensures !Present(Field(course, "points_of_interest")) ==> n == Some(0)
    ensures var pois := Field(course, "points_of_interest");
      Present(pois) && pois.value.Arr? ==> n == Some(|pois.value.items|)
    ensures var pois := Field(course, "points_of_interest");
      Present(pois) && pois.value.Obj? && Field(pois.value, "length").Some? && Field(pois.value, "length").value.Num? ==>
        n == if Field(pois.value, "length").value.n >= 0 then Some(Field(pois.value, "length").value.n as nat) else None
  {
    var pois := Or(Field(course, "points_of_interest"), Arr([]));
    if pois.Arr? then Some(|pois.items|)
    else if pois.Str? then Some(|pois.s|)
    else if pois.Obj? && Field(pois, "length").Some? && Field(pois, "length").value.Num? && Field(pois, "length").value.n >= 0 then
      Some(Field(pois, "length").value.n as nat)
    else None
  }

  /** The POI label for a count (a missing length compares as not greater than zero). */
  function PoiLabel(n: Option<nat>): string {
    if n.Some? && n.value > 0 then NatToString(n.value) + " POI" + (if n.value > 1 then "s" else "") else "None"
  }

  /** "None" for no POIs, "1 POI" for one, "n POIs" for more. */
  lemma PoiLabelPlural(n: nat)
    ensures PoiLabel(Some(0)) == "None" && PoiLabel(None) == "None"
    ensures PoiLabel(Some(1)) == "1 POI"
    ensures n > 1 ==> PoiLabel(Some(n)) == NatToString(n) + " POIs"
    ensures n > 0 ==> ParseInt(PoiLabel(Some(n))) == Some(n)
  {
    if n > 0 {
      var digits := NatToString(n);
      var text := PoiLabel(Some(n));
      assert text == digits + (" POI" + (if n > 1 then "s" else ""));
      DigitPrefixMaximal(digits, " POI" + (if n > 1 then "s" else ""));
      DigitPrefixOfDigits(digits);
      NatToStringRoundTrip(n);
      assert text[0] != '-' && text[0] != '+';
    }
  }

  /** The digit prefix of digits followed by a non-digit is those digits. */
  lemma {:induction false} DigitPrefixMaximal(digits: string, rest: string)
    requires AllDigits(digits)
    requires rest != [] && !IsDigit(rest[0])
    ensures DigitPrefix(digits + rest) == digits
  {
    if digits == [] {
      assert digits + rest == rest;
    } else {
      assert (digits + rest)[1..] == digits[1..] + rest;
      DigitPrefixMaximal(digits[1..], rest);
    }
  }

  /** The Operator cell: `(properties || {}).operator || "N/A"`. */
  function OperatorCell(course: Value): Value
    requires !course.Null?
  {
    PropertyOrNA(course, "operator")
  }

  /** The Website cell: a link to the website when it is truthy, otherwise the text "None" (`None` here). */
  function WebsiteLink(course: Value): (link: Option<Value>)
    requires !course.Null?
    ensures link.Some? <==> Present(Field(Properties(course), "website"))
    ensures link.Some? ==> link == Field(Properties(course), "website")
  {
    var website := Field(Properties(course), "website");
    if Present(website) then website else None
  }

  /** A course without `properties` shows "N/A" for holes and operator, no Par line and no website link. */
  lemma MissingPropertiesFallBack(course: Value)
    requires course.Obj? && Field(course, "properties").None?
    ensures HolesCell(course) == Str("N/A") && OperatorCell(course) == Str("N/A")
    ensures !ParShown(course) && WebsiteLink(course).None?
  {
  }

  /** What "Copy course ID" copies: `id?.id?.String || name`. */
  function CopyId(course: Value): (r: Option<Value>)
    requires !course.Null?
    ensures Present(IdString(course)) ==> r == IdString(course)
    ensures !Present(IdString(course)) ==> r == Field(course, "name")
  {
    if Present(IdString(course)) then IdString(course) else Field(course, "name")
  }

  /** Copy-ID agrees with the Course ID cell whenever the cell shows a real id, and copies the name otherwise. */
  lemma CopyIdMatchesCell(course: Value)
    requires !course.Null?
    ensures CourseIdCell(course) != Str("N/A") ==> CopyId(course) == Some(CourseIdCell(course))
    ensures !Present(IdString(course)) ==> CopyId(course) == Field(course, "name")
  {
  }

  /** What `column.getIsSorted()` reports for the Name column. */
  datatype Sorted = Unsorted | Ascending | Descending

  /** Clicking the Name header: `toggleSorting(getIsSorted() === "asc")` sorts by name, descending exactly when it was ascending. */
  function NameHeaderClick(current: Sorted): (sorting: seq<DataTable.SortEntry>)
    ensures sorting == [DataTable.SortEntry("name", current.Ascending?)]
  {
    [DataTable.SortEntry("name", current == Ascending)]
  }

  /** The header click asks the server for name DESC after name ASC, and name ASC otherwise. */
  lemma NameHeaderRequest(current: Sorted)
    ensures DataTable.SortRequest(NameHeaderClick(current)) == ("name", if current.Ascending? then "DESC" else "ASC")
  {
  }
}
