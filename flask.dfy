/**
 * The Flask relay (server/app.py): `handle_rsvp` validates the body by key presence,
 * builds a Python dict per guest and calls `create_notion_page` for the primary and then
 * for each friend in turn, stopping at the first failure; exceptions become 400, 502 or
 * 500 responses.
 *
 * The friend dicts here use the key `create_notion_page` reads ("primary_contact"); the
 * dict as the source writes it is `FriendDataAsWritten`, and the lemmas beside it show
 * what that costs.
 */
module Flask {
  import opened Wrappers
  import opened Text
  import opened Payload
  import opened Store

  /** The values found in the dicts `handle_rsvp` builds. */
  datatype PyValue = PyNone | PyStr(s: string) | PyList(items: seq<Val>) | PyRichText(content: Val)

  type PyDict = map<string, PyValue>

  function Py(v: Val): PyValue {
    match v
    case Null => PyNone
    case Str(s) => PyStr(s)
  }

  /** Python truthiness: None, "" and [] are false, a non-empty dict is true. */
  predicate PyTruthy(v: PyValue) {
    match v
    case PyNone => false
    case PyStr(s) => s != ""
    case PyList(xs) => xs != []
    case PyRichText(_) => true
  }

  /** `data.get(key)` is truthy. */
  predicate Has(data: PyDict, key: string) {
    key in data && PyTruthy(data[key])
  }

  /** The exception kinds `handle_rsvp` distinguishes. */
  datatype PyError = ValueErr(message: string) | NotionErr(message: string) | OtherErr(message: string)

  // ---------------------------------------------------------------- validation

  /** `[f for f in fields if f not in present]`. */
  function MissingFields<T(==, !new)>(fields: seq<T>, present: set<T>): (r: seq<T>)
    ensures forall x :: x in r <==> x in fields && x !in present
    ensures |r| <= |fields|
    decreases |fields|
  {
    if fields == [] then []
    else (if fields[0] in present then [] else [fields[0]]) + MissingFields(fields[1..], present)
  }

  /** The missing names keep the order of the list they are taken from. */
  lemma MissingFieldsKeepOrder<T(!new)>(fields: seq<T>, present: set<T>, i: nat, j: nat)
    requires i < j < |fields| && fields[i] !in present && fields[j] !in present
    ensures exists a, b :: 0 <= a < b < |MissingFields(fields, present)|
              && MissingFields(fields, present)[a] == fields[i] && MissingFields(fields, present)[b] == fields[j]
  {
    var a, b := MissingPositions(fields, present, i, j);
  }

  /** Where two missing names land in the message, the earlier one first. */
  lemma {:induction false} MissingPositions<T(!new)>(fields: seq<T>, present: set<T>, i: nat, j: nat) returns (a: nat, b: nat)
    requires i < j < |fields| && fields[i] !in present && fields[j] !in present
    ensures a < b < |MissingFields(fields, present)|
    ensures MissingFields(fields, present)[a] == fields[i] && MissingFields(fields, present)[b] == fields[j]
    decreases |fields|
  {
    var rest := MissingFields(fields[1..], present);
    var head := MissingFieldsUnfold(fields, present);
    assert fields[j] == fields[1..][j - 1];
    if i == 0 {
      assert fields[j] in rest;
      var c := PositionOf(rest, fields[j]);
      a, b := 0, c + 1;
    } else {
      assert fields[i] == fields[1..][i - 1];
      var c, d := MissingPositions(fields[1..], present, i - 1, j - 1);
      a, b := |head| + c, |head| + d;
    }
  }

  /** A member of a list is at some position of it. */
  lemma PositionOf<T>(xs: seq<T>, x: T) returns (c: nat)
    requires x in xs
    ensures c < |xs| && xs[c] == x
  {
    c :| 0 <= c < |xs| && xs[c] == x;
  }

  /** The first name is kept or dropped, then the rest follow. */
  lemma MissingFieldsUnfold<T(!new)>(fields: seq<T>, present: set<T>) returns (head: seq<T>)
    requires fields != []
    ensures head == (if fields[0] in present then [] else [fields[0]])
    ensures MissingFields(fields, present) == head + MissingFields(fields[1..], present)
  {
    head := if fields[0] in present then [] else [fields[0]];
  }

  /** `str(list_of_strings)`: `['a', 'b']`. */
  function ListRepr(xs: seq<string>): (r: string)
    ensures |r| >= 2 && r[0] == '[' && r[|r| - 1] == ']'
  {
    "[" + Join(seq(|xs|, i requires 0 <= i < |xs| => "'" + xs[i] + "'"), ", ") + "]"
  }

  /** The empty list and a one-name list. */
  lemma ListReprShort(xs: seq<string>)
    requires |xs| <= 1
    ensures xs == [] ==> ListRepr(xs) == "[]"
    ensures |xs| == 1 ==> ListRepr(xs) == "['" + xs[0] + "']"
  {
    var q := seq(|xs|, i requires 0 <= i < |xs| => "'" + xs[i] + "'");
    assert ListRepr(xs) == "[" + Join(q, ", ") + "]";
  }

  /** One more name adds `, '<name>'` just before the closing bracket. */
  lemma ListReprSnoc(xs: seq<string>, y: string)
    requires xs != []
    ensures ListRepr(xs + [y]) == ListRepr(xs)[..|ListRepr(xs)| - 1] + ", '" + y + "']"
  {
    var q := seq(|xs|, i requires 0 <= i < |xs| => "'" + xs[i] + "'");
    var ys := xs + [y];
    var qy := seq(|ys|, i requires 0 <= i < |ys| => "'" + ys[i] + "'");
    assert qy == q + ["'" + y + "'"];
    JoinSnoc(q, "'" + y + "'", ", ");
    var l := ListRepr(xs);
    assert l == "[" + Join(q, ", ") + "]";
    assert l[..|l| - 1] == "[" + Join(q, ", ");
  }

  const NoData := "No data provided"
  const NotAnArray := "formData must be a non-empty array"
  const MissingPrefix := "Missing required fields: "
  const MissingContactPrefix := "Missing required fields for primary contact: "
  const RequiredFields := ["day", "formData"]
  const ContactFields := ["name", "email", "phone", "about"]

  function BodyKeys(b: Body): set<string> {
    (if b.day.Some? then {"day"} else {}) + (if b.formData.Some? then {"formData"} else {})
  }

  /** `not data`: a null body or an empty object. */
  predicate NoDataGiven(body: Option<Body>) {
    body.None? || (body.value.day.None? && body.value.formData.None? && !body.value.otherKeys)
  }

  /** A validated body: the `day` value and a non-empty `formData`. */
  datatype Checked = Checked(day: Val, items: seq<Entry>)

  /** Lines 133-149. */
  function CheckRequest(body: Option<Body>): (r: Result<Checked, PyError>)
    ensures r.Failure? ==> r.error.ValueErr?
    ensures NoDataGiven(body) ==> r == Failure(ValueErr(NoData))
    ensures r.Success? <==>
              !NoDataGiven(body) && body.value.day.Some? && body.value.formData.Some?
              && body.value.formData.value.List? && body.value.formData.value.items != []
              && forall f :: f in ContactFields ==> f in body.value.formData.value.items[0]
    ensures r.Success? ==> r.value.day == body.value.day.value && r.value.items == body.value.formData.value.items
  {
    if NoDataGiven(body) then Failure(ValueErr(NoData))
    else
      var b := body.value;
      var missing := MissingFields(RequiredFields, BodyKeys(b));
      if missing != [] then Failure(ValueErr(MissingPrefix + ListRepr(missing)))
      else if b.formData.value.NotAList? || b.formData.value.items == [] then Failure(ValueErr(NotAnArray))
      else
        var primary := b.formData.value.items[0];
        var missingContact := MissingFields(ContactFields, primary.Keys);
        if missingContact != [] then Failure(ValueErr(MissingContactPrefix + ListRepr(missingContact)))
        else Success(Checked(b.day.value, b.formData.value.items))
  }

  /** The missing-field message lists `day` before `formData`. */
  lemma MissingBodyFieldsInOrder(b: Body)
    requires !NoDataGiven(Some(b)) && b.day.None? && b.formData.None?
    ensures CheckRequest(Some(b)) == Failure(ValueErr(MissingPrefix + "['day', 'formData']"))
  {
    var missing := MissingFields(RequiredFields, BodyKeys(b));
    assert BodyKeys(b) == {};
    assert missing == ["day", "formData"];
    var quoted := seq(|missing|, i requires 0 <= i < |missing| => "'" + missing[i] + "'");
    assert quoted[0] == "'day'";
    assert quoted[1] == "'formData'";
    assert Join(quoted, ", ") == "'day'" + ", " + Join(quoted[1..], ", ");
    assert Join(quoted[1..], ", ") == "'formData'";
    assert ListRepr(missing) == "[" + Join(quoted, ", ") + "]";
    assert "[" + ("'day'" + ", " + "'formData'") + "]" == "['day', 'formData']";
    assert CheckRequest(Some(b)) == Failure(ValueErr(MissingPrefix + ListRepr(missing)));
  }

  /** The primary contact is checked for key presence only: empty strings and nulls pass. */
  lemma PresenceIsEnough(day: Val, primary: Entry, friends: seq<Entry>, otherKeys: bool)
    requires forall f :: f in ContactFields ==> f in primary
    ensures CheckRequest(Some(Body(Some(day), Some(List([primary] + friends)), otherKeys))) ==
              Success(Checked(day, [primary] + friends))
  {
  }

  /** Every body the page posts passes, whatever its fields hold. */
  lemma ClientSubmissionsPass(d: Entries.Day, forms: seq<Entries.GuestEntry>)
    requires |forms| >= 1
    ensures CheckRequest(ClientRequest(d, forms).body).Success?
  {
    var items := ClientRequest(d, forms).body.value.formData.value.items;
    assert items[0] == EntryJson(forms[0]);
  }

  // ---------------------------------------------------------------- the dicts

  /** `d.get(key, default)`. */
  function Get(e: Entry, key: string, default: Val): (r: Val)
    ensures key in e ==> r == e[key]
    ensures key !in e ==> r == default
  {
    if key in e then e[key] else default
  }

  /** The friends' names for the primary's `guests`, 'Unknown' where a name is absent. */
  function GuestNames(friends: seq<Entry>): (r: seq<Val>)
    ensures |r| == |friends|
    ensures forall i :: 0 <= i < |friends| ==> r[i] == Get(friends[i], "name", Str("Unknown"))
  {
    seq(|friends|, i requires 0 <= i < |friends| => Get(friends[i], "name", Str("Unknown")))
  }

  /** `{**primary_contact, "day": ..., "guest_type": "Primary", "guests": [...]}`. */
  function PrimaryData(primary: Entry, day: Val, friends: seq<Entry>): (r: PyDict)
    ensures Shaped(r)
    ensures r.Keys == primary.Keys + {"day", "guest_type", "guests"}
    ensures r["day"] == Py(day) && r["guest_type"] == PyStr("Primary") && r["guests"] == PyList(GuestNames(friends))
    ensures forall k :: k in primary && k !in {"day", "guest_type", "guests"} ==> r[k] == Py(primary[k])
  {
    (map k | k in primary :: Py(primary[k]))["day" := Py(day)]["guest_type" := PyStr("Primary")]["guests" := PyList(GuestNames(friends))]
  }

  /** The friend dict as server/app.py writes it: the primary's name sits under
      "Primary Contact", as an already-formatted rich-text value. */
  function FriendDataAsWritten(friend: Entry, day: Val, primaryName: Val): (r: PyDict)
    ensures Shaped(r) && "primary_contact" !in r
  {
    map["name" := Py(Get(friend, "name", Str("Unknown"))),
        "email" := Py(Get(friend, "email", Str(""))),
        "phone" := Py(Get(friend, "phone", Str(""))),
        "about" := Py(Get(friend, "about", Str(""))),
        "day" := Py(day),
        "guest_type" := PyStr("Friend"),
        "Primary Contact" := PyRichText(primaryName)]
  }

  /** The friend dict with the primary's name under the key `create_notion_page` reads. */
  function FriendData(friend: Entry, day: Val, primaryName: Val): (r: PyDict)
    ensures Shaped(r) && "primary_contact" in r && r["primary_contact"] == Py(primaryName)
  {
    map["name" := Py(Get(friend, "name", Str("Unknown"))),
        "email" := Py(Get(friend, "email", Str(""))),
        "phone" := Py(Get(friend, "phone", Str(""))),
        "about" := Py(Get(friend, "about", Str(""))),
        "day" := Py(day),
        "guest_type" := PyStr("Friend"),
        "primary_contact" := Py(primaryName)]
  }

  // ---------------------------------------------------------------- create_notion_page

  predicate TextOrAbsent(data: PyDict, key: string) {
    key in data ==> data[key].PyNone? || data[key].PyStr?
  }

  /** The value shapes `create_notion_page` meets in the dicts above. */
  predicate Shaped(data: PyDict) {
    TextOrAbsent(data, "name") && TextOrAbsent(data, "day") && TextOrAbsent(data, "email")
    && TextOrAbsent(data, "phone") && TextOrAbsent(data, "about") && TextOrAbsent(data, "primary_contact")
    && ("guest_type" in data ==> data["guest_type"].PyStr?)
    && ("guests" in data ==> data["guests"].PyList?)
  }

  const UnnamedGuest := "Unnamed Guest"
  const NoneHasNoCapitalize := "'NoneType' object has no attribute 'capitalize'"
  const PageFailedPrefix := "Failed to create Notion page: "

  /** `str(KeyError(key))`. */
  function KeyErrorText(key: string): string {
    "'" + key + "'"
  }

  /** The `TypeError` text of `", ".join` meeting None at index i. */
  function JoinErrorText(i: nat): string {
    "sequence item " + NatToString(i) + ": expected str instance, NoneType found"
  }

  /** The index of the first None in a list. */
  function FirstNull(xs: seq<Val>): (r: Option<nat>)
    ensures r.None? <==> forall i :: 0 <= i < |xs| ==> xs[i].Str?
    ensures r.Some? ==> r.value < |xs| && xs[r.value].Null? && forall i :: 0 <= i < r.value ==> xs[i].Str?
    decreases |xs|
  {
    if xs == [] then None
    else if xs[0].Null? then Some(0)
    else
      var t := FirstNull(xs[1..]);
      if t.None? then None else Some(t.value + 1)
  }

  function Strings(xs: seq<Val>): (r: seq<string>)
    requires forall i :: 0 <= i < |xs| ==> xs[i].Str?
    ensures |r| == |xs| && forall i :: 0 <= i < |xs| ==> r[i] == xs[i].s
  {
    seq(|xs|, i requires 0 <= i < |xs| => xs[i].s)
  }

  predicate Nameable(data: PyDict) {
    "name" in data && "day" in data && data["day"].PyStr? && "guest_type" in data
  }

  /** The columns `create_notion_page` always fills (lines 54-70). */
  function BaseProperties(data: PyDict): Properties
    requires Shaped(data) && Nameable(data)
  {
    map["Name" := Title(if Has(data, "name") then data["name"].s else UnnamedGuest),
        "Day" := Select(Capitalize(data["day"].s)),
        "Guest Type" := Select(data["guest_type"].s)]
  }

  /** How an optional column's value is typed in the store. */
  datatype ColumnKind = EmailColumn | PhoneColumn | TextColumn

  function ColumnValue(kind: ColumnKind, s: string): Property {
    match kind
    case EmailColumn => EmailProp(Some(s))
    case PhoneColumn => PhoneProp(Some(s))
    case TextColumn => RichText(s)
  }

  /** `if data.get(key): properties[column] = ...`: one column, added exactly when the
      dict's value is truthy, every other column kept. */
  function AddIfTruthy(p: Properties, data: PyDict, key: string, column: string, kind: ColumnKind): Properties
    requires TextOrAbsent(data, key)
  {
    if Has(data, key) then p[column := ColumnValue(kind, data[key].s)] else p
  }

  /** The columns added only when the dict has a truthy value (lines 72-91). */
  function OptionalProperties(data: PyDict, p: Properties): Properties
    requires Shaped(data)
  {
    var p1 := AddIfTruthy(p, data, "email", "Email", EmailColumn);
    var p2 := AddIfTruthy(p1, data, "phone", "Phone", PhoneColumn);
    var p3 := AddIfTruthy(p2, data, "about", "About", TextColumn);
    AddIfTruthy(p3, data, "primary_contact", "Primary Contact", TextColumn)
  }

  /** The property map `create_notion_page` builds (lines 54-96), or the text of the
      exception raised while building it. */
  function PageProperties(data: PyDict): (r: Result<Properties, string>)
    requires Shaped(data)
    ensures "name" !in data ==> r == Failure(KeyErrorText("name"))
    ensures "name" in data && "day" in data && data["day"].PyNone? ==> r == Failure(NoneHasNoCapitalize)
    ensures r.Success? ==> Nameable(data)
  {
    if "name" !in data then Failure(KeyErrorText("name"))
    else if "day" !in data then Failure(KeyErrorText("day"))
    else if data["day"].PyNone? then Failure(NoneHasNoCapitalize)
    else if "guest_type" !in data then Failure(KeyErrorText("guest_type"))
    else
      var p := OptionalProperties(data, BaseProperties(data));
      if Has(data, "guests") then
        var guests := data["guests"].items;
        var bad := FirstNull(guests);
        if bad.Some? then Failure(JoinErrorText(bad.value))
        else Success(p["Guests" := RichText(Join(Strings(guests), ", "))])
      else Success(p)
  }

  /** The database's columns. */
  const Columns := {"Name", "Day", "Guest Type", "Email", "Phone", "About", "Primary Contact", "Guests"}

  /** The columns of a page built from a dict: Name, Day and Guest Type always; the other
      columns exactly when the dict holds a truthy value for them. */
  lemma PageColumns(data: PyDict)
    requires Shaped(data) && PageProperties(data).Success?
    ensures var p := PageProperties(data).value;
            && p.Keys <= Columns
            && "Name" in p && "Day" in p && "Guest Type" in p
            && ("Email" in p <==> Has(data, "email")) && ("Phone" in p <==> Has(data, "phone"))
            && ("About" in p <==> Has(data, "about")) && ("Primary Contact" in p <==> Has(data, "primary_contact"))
            && ("Guests" in p <==> Has(data, "guests"))
  {
    var base := BaseProperties(data);
    var p1 := AddIfTruthy(base, data, "email", "Email", EmailColumn);
    var p2 := AddIfTruthy(p1, data, "phone", "Phone", PhoneColumn);
    var p3 := AddIfTruthy(p2, data, "about", "About", TextColumn);
    var p4 := AddIfTruthy(p3, data, "primary_contact", "Primary Contact", TextColumn);
    assert p4 == OptionalProperties(data, base);
  }

  /** What the always-present columns of a built page hold: the name (or "Unnamed
      Guest"), the capitalised day and the guest type. */
  lemma PageValues(data: PyDict)
    requires Shaped(data) && PageProperties(data).Success?
    ensures var p := PageProperties(data).value;
            && "Name" in p && p["Name"] == Title(if Has(data, "name") then data["name"].s else UnnamedGuest)
            && "Day" in p && p["Day"] == Select(Capitalize(data["day"].s))
            && "Guest Type" in p && p["Guest Type"] == Select(data["guest_type"].s)
  {
    var base := BaseProperties(data);
    var p1 := AddIfTruthy(base, data, "email", "Email", EmailColumn);
    var p2 := AddIfTruthy(p1, data, "phone", "Phone", PhoneColumn);
    var p3 := AddIfTruthy(p2, data, "about", "About", TextColumn);
    var p4 := AddIfTruthy(p3, data, "primary_contact", "Primary Contact", TextColumn);
    assert p4 == OptionalProperties(data, base);
  }

  /** What the optional columns of a built page hold: the dict's values, as typed by
      their column. */
  lemma OptionalValues(data: PyDict)
    requires Shaped(data) && PageProperties(data).Success?
    ensures var p := PageProperties(data).value;
            && (Has(data, "email") ==> "Email" in p && p["Email"] == EmailProp(Some(data["email"].s)))
            && (Has(data, "phone") ==> "Phone" in p && p["Phone"] == PhoneProp(Some(data["phone"].s)))
            && (Has(data, "about") ==> "About" in p && p["About"] == RichText(data["about"].s))
            && (Has(data, "primary_contact") ==> "Primary Contact" in p && p["Primary Contact"] == RichText(data["primary_contact"].s))
  {
    var base := BaseProperties(data);
    var p1 := AddIfTruthy(base, data, "email", "Email", EmailColumn);
    var p2 := AddIfTruthy(p1, data, "phone", "Phone", PhoneColumn);
    var p3 := AddIfTruthy(p2, data, "about", "About", TextColumn);
    var p4 := AddIfTruthy(p3, data, "primary_contact", "Primary Contact", TextColumn);
    assert p4 == OptionalProperties(data, base);
  }

  /** The primary's page lists the friends' names, 'Unknown' for a friend without one,
      joined by ", "; a friend whose name is null makes the join raise, so the primary's
      page is never built. */
  lemma PrimaryPageListsFriends(primary: Entry, day: Val, friends: seq<Entry>)
    requires "name" in primary && day.Str? && friends != []
    ensures var r := PageProperties(PrimaryData(primary, day, friends));
            var names := GuestNames(friends);
            && (FirstNull(names).Some? ==> r == Failure(JoinErrorText(FirstNull(names).value)))
            && (FirstNull(names).None? ==>
                  r.Success? && "Guests" in r.value && r.value["Guests"] == RichText(Join(Strings(names), ", "))
                  && r.value["Guest Type"] == Select("Primary"))
  {
    var data := PrimaryData(primary, day, friends);
    assert Nameable(data) && Has(data, "guests");
    var p := OptionalProperties(data, BaseProperties(data));
    assert "Guest Type" in p && p["Guest Type"] == Select("Primary") by {
      GuestTypeKept(data);
    }
  }

  /** The optional columns leave the Guest Type column as the base put it. */
  lemma GuestTypeKept(data: PyDict)
    requires Shaped(data) && Nameable(data)
    ensures var p := OptionalProperties(data, BaseProperties(data));
            "Guest Type" in p && p["Guest Type"] == Select(data["guest_type"].s)
  {
  }

  /** The defect: as written, a friend page never gets a Primary Contact column, because
      the dict puts the name under a key `create_notion_page` does not read. */
  lemma AsWrittenFriendPagesLackPrimaryContact(friend: Entry, day: Val, primaryName: Val)
    ensures var r := PageProperties(FriendDataAsWritten(friend, day, primaryName));
            r.Success? ==> "Primary Contact" !in r.value
  {
    var data := FriendDataAsWritten(friend, day, primaryName);
    if PageProperties(data).Success? {
      assert !Has(data, "guests");
      PageColumns(data);
    }
  }

  /** With the key corrected, every friend page names the primary contact (a non-empty
      name); a friend page can only fail to build when the day is null. */
  lemma FriendPagesNamePrimary(friend: Entry, day: Val, primaryName: Val)
    requires primaryName.Str? && primaryName.s != ""
    ensures var r := PageProperties(FriendData(friend, day, primaryName));
            (r.Success? <==> day.Str?)
            && (r.Success? ==> "Primary Contact" in r.value && r.value["Primary Contact"] == RichText(primaryName.s))
  {
    var data := FriendData(friend, day, primaryName);
    assert !Has(data, "guests") && Has(data, "primary_contact");
    if PageProperties(data).Success? {
      OptionalValues(data);
    }
  }

  /** `data.get(key) or ""`. */
  function TextOf(data: PyDict, key: string): string
    requires TextOrAbsent(data, key)
  {
    if Has(data, key) then data[key].s else ""
  }

  /** The row a reader sees for a page built from a dict without guests: the name (or
      "Unnamed Guest"), the optional texts or empty cells, the capitalised day. */
  lemma PageRow(data: PyDict)
    requires Shaped(data) && PageProperties(data).Success? && !Has(data, "guests")
    ensures ReadRow(PageProperties(data).value) ==
              Row(if Has(data, "name") then data["name"].s else UnnamedGuest,
                  TextOf(data, "email"), TextOf(data, "phone"), TextOf(data, "about"),
                  Capitalize(data["day"].s), data["guest_type"].s, TextOf(data, "primary_contact"), "")
  {
    PageColumns(data);
    PageValues(data);
    OptionalValues(data);
  }

  /** A friend's row from the corrected dict: an absent name reads 'Unknown' while an
      empty or null one reads "Unnamed Guest"; falsy texts are empty cells; the day is
      capitalised, the guest type is Friend and the contact is the primary's name. */
  lemma FriendRow(friend: Entry, day: Val, primaryName: Val)
    requires day.Str?
    ensures FriendPage(friend, day, primaryName).Success?
    ensures ReadRow(FriendPage(friend, day, primaryName).value) ==
              Row(if "name" in friend then OrElse(Lookup(friend, "name"), UnnamedGuest) else "Unknown",
                  OrElse(Lookup(friend, "email"), ""), OrElse(Lookup(friend, "phone"), ""), OrElse(Lookup(friend, "about"), ""),
                  Capitalize(day.s), "Friend", OrElse(Some(primaryName), ""), "")
  {
    var data := FriendData(friend, day, primaryName);
    FriendDictTexts(friend, day, primaryName);
    PageRow(data);
  }

  /** What the corrected friend dict gives each column's text. */
  lemma FriendDictTexts(friend: Entry, day: Val, primaryName: Val)
    requires day.Str?
    ensures var data := FriendData(friend, day, primaryName);
            && Nameable(data) && !Has(data, "guests")
            && (if Has(data, "name") then data["name"].s else UnnamedGuest)
               == (if "name" in friend then OrElse(Lookup(friend, "name"), UnnamedGuest) else "Unknown")
            && TextOf(data, "email") == OrElse(Lookup(friend, "email"), "")
            && TextOf(data, "phone") == OrElse(Lookup(friend, "phone"), "")
            && TextOf(data, "about") == OrElse(Lookup(friend, "about"), "")
            && data["day"].s == day.s && data["guest_type"].s == "Friend"
            && TextOf(data, "primary_contact") == OrElse(Some(primaryName), "")
  {
  }

  /** A dict with the required keys, a day and no guests builds to its base columns and
      optional columns. */
  lemma BuildsWithoutGuests(data: PyDict)
    requires Shaped(data) && Nameable(data) && !Has(data, "guests")
    ensures PageProperties(data) == Success(OptionalProperties(data, BaseProperties(data)))
  {
  }

  /** The correction changes nothing else: both dicts build or fail alike, and the pages
      differ only in the Primary Contact column. */
  lemma CorrectionOnlyAddsPrimaryContact(friend: Entry, day: Val, primaryName: Val)
    ensures var w := PageProperties(FriendDataAsWritten(friend, day, primaryName));
            var c := PageProperties(FriendData(friend, day, primaryName));
            w.Success? == c.Success? && (w.Success? ==> w.value == c.value - {"Primary Contact"})
  {
    var dw := FriendDataAsWritten(friend, day, primaryName);
    var dc := FriendData(friend, day, primaryName);
    if day.Str? {
      FriendDictsAgree(friend, day, primaryName);
      BuildsWithoutGuests(dw);
      BuildsWithoutGuests(dc);
      OnlyPrimaryContactDiffers(dw, dc, BaseProperties(dw));
    }
  }

  /** The two friend dicts share every key `create_notion_page` reads but the primary contact. */
  lemma FriendDictsAgree(friend: Entry, day: Val, primaryName: Val)
    requires day.Str?
    ensures var dw := FriendDataAsWritten(friend, day, primaryName);
            var dc := FriendData(friend, day, primaryName);
            && Nameable(dw) && Nameable(dc) && !Has(dw, "guests") && !Has(dc, "guests")
            && BaseProperties(dc) == BaseProperties(dw)
            && "email" in dw && "email" in dc && dw["email"] == dc["email"]
            && "phone" in dw && "phone" in dc && dw["phone"] == dc["phone"]
            && "about" in dw && "about" in dc && dw["about"] == dc["about"]
  {
    var dw := FriendDataAsWritten(friend, day, primaryName);
    var dc := FriendData(friend, day, primaryName);
    assert "name" in dw && "day" in dw && "guest_type" in dw && "guests" !in dw;
    assert "name" in dc && "day" in dc && "guest_type" in dc && "guests" !in dc;
    SharedBase(dw, dc);
  }

  /** Dicts that agree on name, day and guest type get the same base columns. */
  lemma SharedBase(dw: PyDict, dc: PyDict)
    requires Shaped(dw) && Shaped(dc) && Nameable(dw) && Nameable(dc)
    requires dw["name"] == dc["name"] && dw["day"] == dc["day"] && dw["guest_type"] == dc["guest_type"]
    ensures BaseProperties(dc) == BaseProperties(dw)
  {
  }

  /** Two dicts that agree on email, phone and about, the first without a primary
      contact, add the same optional columns but for Primary Contact. */
  lemma OnlyPrimaryContactDiffers(dw: PyDict, dc: PyDict, base: Properties)
    requires Shaped(dw) && Shaped(dc) && "Primary Contact" !in base && !Has(dw, "primary_contact")
    requires "email" in dw && "email" in dc && dw["email"] == dc["email"]
    requires "phone" in dw && "phone" in dc && dw["phone"] == dc["phone"]
    requires "about" in dw && "about" in dc && dw["about"] == dc["about"]
    ensures OptionalProperties(dw, base) == OptionalProperties(dc, base) - {"Primary Contact"}
  {
    var p1 := AddIfTruthy(base, dw, "email", "Email", EmailColumn);
    assert AddIfTruthy(base, dc, "email", "Email", EmailColumn) == p1;
    var p2 := AddIfTruthy(p1, dw, "phone", "Phone", PhoneColumn);
    assert AddIfTruthy(p1, dc, "phone", "Phone", PhoneColumn) == p2;
    var p3 := AddIfTruthy(p2, dw, "about", "About", TextColumn);
    assert AddIfTruthy(p2, dc, "about", "About", TextColumn) == p3;
    assert "Primary Contact" !in p3;
    assert OptionalProperties(dw, base) == p3;
  }

  // ---------------------------------------------------------------- handle_rsvp

  /** The outcome of one `create_notion_page` call at store call number k, given the
      property map built for it or the text of the exception raised while building it:
      the maps sent (none when the map could not be built) and the page or the
      `NotionError` text. */
  datatype Attempt = Attempt(sent: seq<Properties>, result: Result<PageId, string>)

  function PageAttempt(built: Result<Properties, string>, reply: nat -> StoreReply, k: nat): Attempt {
    match built
    case Failure(m) => Attempt([], Failure(PageFailedPrefix + m))
    case Success(p) =>
      match reply(k)
      case Created(id) => Attempt([p], Success(id))
      case Rejected(m) => Attempt([p], Failure(PageFailedPrefix + m))
  }

  /** `create_notion_page`: inserts the properties one at a time, then creates the page. */
  method CreateNotionPage(data: PyDict, sink: Sink) returns (r: Result<PageId, string>)
    requires Shaped(data)
    modifies sink`sent
    ensures var a := PageAttempt(PageProperties(data), sink.reply, |old(sink.sent)|);
            sink.sent == old(sink.sent) + a.sent && r == a.result
  {
    if "name" !in data {
      return Failure(PageFailedPrefix + KeyErrorText("name"));
    }
    var name := if Has(data, "name") then data["name"].s else UnnamedGuest;
    if "day" !in data {
      return Failure(PageFailedPrefix + KeyErrorText("day"));
    }
    if data["day"].PyNone? {
      return Failure(PageFailedPrefix + NoneHasNoCapitalize);
    }
    if "guest_type" !in data {
      return Failure(PageFailedPrefix + KeyErrorText("guest_type"));
    }
    var properties: Properties := map[];
    properties := properties["Name" := Title(name)];
    properties := properties["Day" := Select(Capitalize(data["day"].s))];
    properties := properties["Guest Type" := Select(data["guest_type"].s)];
    assert properties == BaseProperties(data);
    ghost var base := properties;
    if Has(data, "email") {
      properties := properties["Email" := EmailProp(Some(data["email"].s))];
    }
    assert properties == AddIfTruthy(base, data, "email", "Email", EmailColumn);
    if Has(data, "phone") {
      properties := properties["Phone" := PhoneProp(Some(data["phone"].s))];
    }
    if Has(data, "about") {
      properties := properties["About" := RichText(data["about"].s)];
    }
    if Has(data, "primary_contact") {
      properties := properties["Primary Contact" := RichText(data["primary_contact"].s)];
    }
    assert properties == OptionalProperties(data, base);
    if Has(data, "guests") {
      var bad := FirstNull(data["guests"].items);
      if bad.Some? {
        return Failure(PageFailedPrefix + JoinErrorText(bad.value));
      }
      properties := properties["Guests" := RichText(Join(Strings(data["guests"].items), ", "))];
    }
    assert PageProperties(data) == Success(properties);
    var reply := sink.CreatePage(properties);
    match reply {
      case Created(id) => r := Success(id);
      case Rejected(m) => r := Failure(PageFailedPrefix + m);
    }
  }

  /** The dict `handle_rsvp` hands to `create_notion_page` for form entry j: the
      primary's for j == 0, friend j's otherwise. */
  function PageFor(c: Checked, j: nat): (r: Result<Properties, string>)
    requires j < |c.items| && "name" in c.items[0]
    ensures c.day.Null? ==> r == Failure(NoneHasNoCapitalize)
    ensures j > 0 ==> (r.Success? <==> c.day.Str?)
  {
    if j == 0 then PageProperties(PrimaryData(c.items[0], c.day, c.items[1..]))
    else FriendPage(c.items[j], c.day, c.items[0]["name"])
  }

  /** The page built for one friend's dict: it fails, with Python's AttributeError, exactly
      when the day is null. */
  function FriendPage(friend: Entry, day: Val, primaryName: Val): (r: Result<Properties, string>)
    ensures r.Success? <==> day.Str?
    ensures day.Null? ==> r == Failure(NoneHasNoCapitalize)
  {
    var data := FriendData(friend, day, primaryName);
    assert "name" in data && "day" in data && "guest_type" in data && !Has(data, "guests");
    PageProperties(data)
  }

  /** Entry j of `built` is the property map, or the exception, for form entry j. */
  predicate BuiltFor(built: seq<Result<Properties, string>>, c: Checked)
    requires c.items != [] && "name" in c.items[0]
  {
    |built| == |c.items|
    && forall j {:trigger PageFor(c, j)} :: 0 <= j < |c.items| ==> built[j] == PageFor(c, j)
  }

  function Pages(c: Checked): (r: seq<Result<Properties, string>>)
    requires c.items != [] && "name" in c.items[0]
    ensures BuiltFor(r, c)
  {
    seq(|c.items|, j requires 0 <= j < |c.items| => PageFor(c, j))
  }

  /** Friends 1 .. i-1 of the built pages, created one after another at store calls
      k, k+1, ..., stopping at the first failure: the pages created, the maps sent and
      the `NotionError` text, if any. */
  datatype Run = Run(pages: seq<PageId>, sent: seq<Properties>, failure: Option<string>)

  function FriendsRun(built: seq<Result<Properties, string>>, i: nat, reply: nat -> StoreReply, k: nat): (r: Run)
    requires 1 <= i <= |built|
    ensures |r.sent| < i && |r.sent| - 1 <= |r.pages| <= |r.sent|
    ensures r.failure.None? ==> |r.pages| == |r.sent| == i - 1
    decreases i
  {
    if i == 1 then Run([], [], None)
    else
      var prev := FriendsRun(built, i - 1, reply, k);
      if prev.failure.Some? then prev
      else
        var a := PageAttempt(built[i - 1], reply, k + |prev.sent|);
        match a.result
        case Success(id) => Run(prev.pages + [id], prev.sent + a.sent, None)
        case Failure(m) => Run(prev.pages, prev.sent + a.sent, Some(m))
  }

  /** Once a friend fails, the rest are not attempted. */
  lemma {:induction false} FailureStops(built: seq<Result<Properties, string>>, j: nat, n: nat, reply: nat -> StoreReply, k: nat)
    requires 1 <= j <= n <= |built| && FriendsRun(built, j, reply, k).failure.Some?
    ensures FriendsRun(built, n, reply, k) == FriendsRun(built, j, reply, k)
    decreases n
  {
    if j < n {
      FailureStops(built, j, n - 1, reply, k);
    }
  }

  /** Friend j's page was built and the store accepted it at call k+j-1. */
  predicate FriendAccepted(built: seq<Result<Properties, string>>, reply: nat -> StoreReply, k: nat, j: nat)
    requires 1 <= j < |built|
  {
    built[j].Success? && reply(k + j - 1).Created?
  }

  /** The friends' run goes through exactly when every friend's page was built and
      accepted, friend j at store call k+j-1. */
  lemma {:induction false} FriendsRunOkIff(built: seq<Result<Properties, string>>, i: nat, reply: nat -> StoreReply, k: nat)
    requires 1 <= i <= |built|
    ensures FriendsRun(built, i, reply, k).failure.None? <==>
              forall j :: 1 <= j < i ==> FriendAccepted(built, reply, k, j)
    decreases i
  {
    if i > 1 {
      FriendsRunOkIff(built, i - 1, reply, k);
      RunStep(built, i, reply, k);
      if FriendsRun(built, i - 1, reply, k).failure.Some? {
        var j :| 1 <= j < i - 1 && !FriendAccepted(built, reply, k, j);
      }
    }
  }

  /** A run that went through sent every friend's page, in order, and collected the
      store's page ids. */
  lemma {:induction false} FriendsRunSentInOrder(built: seq<Result<Properties, string>>, i: nat, reply: nat -> StoreReply, k: nat)
    requires 1 <= i <= |built| && FriendsRun(built, i, reply, k).failure.None?
    ensures forall j :: 1 <= j < i ==> built[j] == Success(FriendsRun(built, i, reply, k).sent[j - 1])
                                       && reply(k + j - 1) == Created(FriendsRun(built, i, reply, k).pages[j - 1])
    decreases i
  {
    if i > 1 {
      var prev := FriendsRun(built, i - 1, reply, k);
      var r := FriendsRun(built, i, reply, k);
      RunStep(built, i, reply, k);
      FriendsRunSentInOrder(built, i - 1, reply, k);
      forall j | 1 <= j < i
        ensures built[j] == Success(r.sent[j - 1]) && reply(k + j - 1) == Created(r.pages[j - 1])
      {
        if j < i - 1 {
          assert r.sent[j - 1] == prev.sent[j - 1] && r.pages[j - 1] == prev.pages[j - 1];
        }
      }
    }
  }

  /** One more friend: the run is unchanged after a failure, grows by friend i-1's page
      and id when it is accepted, and fails otherwise. */
  lemma RunStep(built: seq<Result<Properties, string>>, i: nat, reply: nat -> StoreReply, k: nat)
    requires 2 <= i <= |built|
    ensures FriendsRun(built, i - 1, reply, k).failure.Some? ==> FriendsRun(built, i, reply, k) == FriendsRun(built, i - 1, reply, k)
    ensures FriendsRun(built, i - 1, reply, k).failure.None? && FriendAccepted(built, reply, k, i - 1) ==>
              FriendsRun(built, i, reply, k) ==
                Run(FriendsRun(built, i - 1, reply, k).pages + [reply(k + i - 2).page],
                    FriendsRun(built, i - 1, reply, k).sent + [built[i - 1].value], None)
    ensures FriendsRun(built, i - 1, reply, k).failure.None? && !FriendAccepted(built, reply, k, i - 1) ==>
              FriendsRun(built, i, reply, k).failure.Some?
  {
    var prev := FriendsRun(built, i - 1, reply, k);
    if prev.failure.None? {
      assert k + |prev.sent| == k + i - 2;
    }
  }

  datatype FlaskResponse = Ok(primary: PageId, friends: seq<PageId>) | Err(status: nat, error: string, details: string)

  function Status(r: FlaskResponse): nat {
    if r.Ok? then 200 else r.status
  }

  /** Lines 189-211. */
  function ErrorResponse(e: PyError): (r: FlaskResponse)
    ensures r.Err? && r.details == e.message
    ensures e.ValueErr? <==> r.status == 400
    ensures e.NotionErr? <==> r.status == 502
    ensures e.OtherErr? <==> r.status == 500
  {
    match e
    case ValueErr(m) => Err(400, "Validation error", m)
    case NotionErr(m) => Err(502, "Notion API error", m)
    case OtherErr(m) => Err(500, "Internal server error", m)
  }

  datatype Outcome = Outcome(response: FlaskResponse, sent: seq<Properties>)

  /** Lines 152-187 with the pages built in advance: the primary's page at store call k,
      then the friends' pages, 502 at the first failure. */
  function Relay(built: seq<Result<Properties, string>>, reply: nat -> StoreReply, k: nat): (o: Outcome)
    requires built != []
    ensures Status(o.response) in {200, 502}
    ensures Status(o.response) == 502 ==> o.response.error == "Notion API error"
    ensures o.response.Ok? ==> |o.response.friends| == |built| - 1 && |o.sent| == |built|
  {
    var primary := PageAttempt(built[0], reply, k);
    if primary.result.Failure? then Outcome(ErrorResponse(NotionErr(primary.result.error)), primary.sent)
    else
      var fr := FriendsRun(built, |built|, reply, k + |primary.sent|);
      if fr.failure.Some? then Outcome(ErrorResponse(NotionErr(fr.failure.value)), primary.sent + fr.sent)
      else Outcome(Ok(primary.result.value, fr.pages), primary.sent + fr.sent)
  }

  /** The relay answers 200 exactly when every page was built and accepted, page j at
      store call k+j; it then sent every page in form order and returns the store's ids. */
  lemma RelayOkIffAllCreated(built: seq<Result<Properties, string>>, reply: nat -> StoreReply, k: nat)
    requires built != []
    ensures Relay(built, reply, k).response.Ok? <==>
              forall j :: 0 <= j < |built| ==> built[j].Success? && reply(k + j).Created?
  {
    if built[0].Success? && reply(k).Created? {
      FriendsRunOkIff(built, |built|, reply, k + 1);
      forall j | 1 <= j < |built|
        ensures FriendAccepted(built, reply, k + 1, j) == (built[j].Success? && reply(k + j).Created?)
      {
        assert k + 1 + j - 1 == k + j;
      }
    }
  }

  /** On a 200 answer every page was sent, in form order, and the response carries the
      store's ids: the primary's from call k, friend j's from call k+j. */
  lemma RelayOkSendsInOrder(built: seq<Result<Properties, string>>, reply: nat -> StoreReply, k: nat)
    requires built != [] && Relay(built, reply, k).response.Ok?
    ensures reply(k) == Created(Relay(built, reply, k).response.primary)
    ensures forall j :: 0 <= j < |built| ==> built[j] == Success(Relay(built, reply, k).sent[j])
    ensures forall j :: 0 <= j < |built| - 1 ==> reply(k + 1 + j) == Created(Relay(built, reply, k).response.friends[j])
  {
    var o := Relay(built, reply, k);
    var fr := FriendsRun(built, |built|, reply, k + 1);
    FriendsRunSentInOrder(built, |built|, reply, k + 1);
    assert o.sent == [built[0].value] + fr.sent && o.response.friends == fr.pages;
    forall j | 0 <= j < |built| - 1
      ensures built[j + 1] == Success(o.sent[j + 1]) && reply(k + 1 + j) == Created(o.response.friends[j])
    {
      assert k + 1 + (j + 1) - 1 == k + 1 + j;
    }
  }

  /** `handle_rsvp`, with the store's replies given by `reply` and the primary's page at
      call k. */
  function Rsvp(req: Request, reply: nat -> StoreReply, k: nat): (o: Outcome)
    ensures Status(o.response) in {200, 400, 500, 502}
    ensures Status(o.response) == 400 <==> req.Parsed? && CheckRequest(req.body).Failure?
    ensures Status(o.response) == 400 ==> o.sent == [] && o.response.error == "Validation error"
    ensures Status(o.response) == 502 ==> o.response.error == "Notion API error"
    ensures req.Unreadable? ==> o == Outcome(Err(500, "Internal server error", req.reason), [])
    ensures Status(o.response) == 500 ==> req.Unreadable?
    ensures req.Parsed? && CheckRequest(req.body).Success? ==> o == Relay(Pages(CheckRequest(req.body).value), reply, k)
  {
    match req
    case Unreadable(reason) => Outcome(ErrorResponse(OtherErr(reason)), [])
    case Parsed(body) =>
      match CheckRequest(body)
      case Failure(e) => Outcome(ErrorResponse(e), [])
      case Success(c) => Relay(Pages(c), reply, k)
  }

  // ------------------------------------------------- the relay as written

  /** The page built for one friend's dict as server/app.py writes it. */
  function FriendPageAsWritten(friend: Entry, day: Val, primaryName: Val): (r: Result<Properties, string>)
    ensures r.Success? <==> day.Str?
    ensures day.Null? ==> r == Failure(NoneHasNoCapitalize)
    ensures r.Success? ==> "Primary Contact" !in r.value
  {
    var data := FriendDataAsWritten(friend, day, primaryName);
    assert "name" in data && "day" in data && "guest_type" in data && !Has(data, "guests");
    AsWrittenFriendPagesLackPrimaryContact(friend, day, primaryName);
    PageProperties(data)
  }

  /** `PageFor` with the friend dict as written. */
  function PageForAsWritten(c: Checked, j: nat): (r: Result<Properties, string>)
    requires j < |c.items| && "name" in c.items[0]
    ensures j == 0 ==> r == PageFor(c, 0)
    ensures c.day.Null? ==> r == Failure(NoneHasNoCapitalize)
    ensures j > 0 ==> (r.Success? <==> c.day.Str?) && (r.Success? ==> "Primary Contact" !in r.value)
  {
    if j == 0 then PageProperties(PrimaryData(c.items[0], c.day, c.items[1..]))
    else FriendPageAsWritten(c.items[j], c.day, c.items[0]["name"])
  }

  function PagesAsWritten(c: Checked): (r: seq<Result<Properties, string>>)
    requires c.items != [] && "name" in c.items[0]
    ensures |r| == |c.items| && forall j :: 0 <= j < |r| ==> r[j] == PageForAsWritten(c, j)
    ensures r[0] == Pages(c)[0]
  {
    seq(|c.items|, j requires 0 <= j < |c.items| => PageForAsWritten(c, j))
  }

  /** `handle_rsvp` exactly as written: friend pages come from `FriendDataAsWritten`. */
  function RsvpAsWritten(req: Request, reply: nat -> StoreReply, k: nat): (o: Outcome)
    ensures Status(o.response) in {200, 400, 500, 502}
    ensures Status(o.response) == 400 <==> req.Parsed? && CheckRequest(req.body).Failure?
    ensures Status(o.response) == 400 ==> o.sent == [] && o.response.error == "Validation error"
    ensures Status(o.response) == 502 ==> o.response.error == "Notion API error"
    ensures req.Unreadable? ==> o == Outcome(Err(500, "Internal server error", req.reason), [])
    ensures Status(o.response) == 500 ==> req.Unreadable?
    ensures req.Parsed? && CheckRequest(req.body).Success? ==>
              o == Relay(PagesAsWritten(CheckRequest(req.body).value), reply, k)
  {
    match req
    case Unreadable(reason) => Outcome(ErrorResponse(OtherErr(reason)), [])
    case Parsed(body) =>
      match CheckRequest(body)
      case Failure(e) => Outcome(ErrorResponse(e), [])
      case Success(c) => Relay(PagesAsWritten(c), reply, k)
  }

  /** A map as written against the corrected one: the same exception, or the same
      columns without Primary Contact. */
  predicate Corresponds(w: Result<Properties, string>, c: Result<Properties, string>) {
    (w.Failure? && w == c) || (w.Success? && c.Success? && w.value == c.value - {"Primary Contact"})
  }

  /** Two lists of sent maps, the first the second without Primary Contact. */
  predicate SentCorresponds(sw: seq<Properties>, sc: seq<Properties>) {
    |sw| == |sc| && forall j :: 0 <= j < |sw| ==> sw[j] == sc[j] - {"Primary Contact"}
  }

  /** The maps a relay sends, as written against corrected: the same primary map first,
      then each friend's map without Primary Contact. */
  predicate RelaySentCorresponds(sw: seq<Properties>, sc: seq<Properties>) {
    |sw| == |sc| && (sw != [] ==> sw[0] == sc[0])
    && forall j :: 1 <= j < |sw| ==> sw[j] == sc[j] - {"Primary Contact"}
  }

  /** Friend by friend, both dicts build the same page but for Primary Contact, or fail alike. */
  lemma FriendPagesCorrespond(friend: Entry, day: Val, primaryName: Val)
    ensures Corresponds(FriendPageAsWritten(friend, day, primaryName), FriendPage(friend, day, primaryName))
  {
    CorrectionOnlyAddsPrimaryContact(friend, day, primaryName);
  }

  /** One store call over corresponding maps: the same result, corresponding maps sent. */
  lemma AttemptCorresponds(w: Result<Properties, string>, c: Result<Properties, string>, reply: nat -> StoreReply, k: nat)
    requires Corresponds(w, c)
    ensures PageAttempt(w, reply, k).result == PageAttempt(c, reply, k).result
    ensures SentCorresponds(PageAttempt(w, reply, k).sent, PageAttempt(c, reply, k).sent)
  {
  }

  lemma SentCorrespondsAppend(sw: seq<Properties>, sc: seq<Properties>, tw: seq<Properties>, tc: seq<Properties>)
    requires SentCorresponds(sw, sc) && SentCorresponds(tw, tc)
    ensures SentCorresponds(sw + tw, sc + tc)
  {
    forall j | 0 <= j < |sw + tw|
      ensures (sw + tw)[j] == (sc + tc)[j] - {"Primary Contact"}
    {
      if j >= |sw| {
        assert (sw + tw)[j] == tw[j - |sw|] && (sc + tc)[j] == tc[j - |sw|];
      }
    }
  }

  /** Two friends' runs over corresponding maps create the same pages and fail alike;
      the maps sent correspond. */
  lemma {:induction false} FriendsRunCorresponds(bw: seq<Result<Properties, string>>, bc: seq<Result<Properties, string>>,
                                                 i: nat, reply: nat -> StoreReply, k: nat)
    requires 1 <= i <= |bw| == |bc|
    requires forall j :: 1 <= j < |bw| ==> Corresponds(bw[j], bc[j])
    ensures FriendsRun(bw, i, reply, k).pages == FriendsRun(bc, i, reply, k).pages
    ensures FriendsRun(bw, i, reply, k).failure == FriendsRun(bc, i, reply, k).failure
    ensures SentCorresponds(FriendsRun(bw, i, reply, k).sent, FriendsRun(bc, i, reply, k).sent)
    decreases i
  {
    if i > 1 {
      FriendsRunCorresponds(bw, bc, i - 1, reply, k);
      var pw, pc := FriendsRun(bw, i - 1, reply, k), FriendsRun(bc, i - 1, reply, k);
      if pw.failure.None? {
        var n := k + |pw.sent|;
        AttemptCorresponds(bw[i - 1], bc[i - 1], reply, n);
        SentCorrespondsAppend(pw.sent, pc.sent, PageAttempt(bw[i - 1], reply, n).sent, PageAttempt(bc[i - 1], reply, n).sent);
      }
    }
  }

  /** The relay over corresponding maps, with the same primary map, answers the same and
      sends the same maps but for Primary Contact on friend pages. */
  lemma RelayCorresponds(bw: seq<Result<Properties, string>>, bc: seq<Result<Properties, string>>,
                         reply: nat -> StoreReply, k: nat)
    requires bw != [] && |bw| == |bc| && bw[0] == bc[0]
    requires forall j :: 1 <= j < |bw| ==> Corresponds(bw[j], bc[j])
    ensures Relay(bw, reply, k).response == Relay(bc, reply, k).response
    ensures RelaySentCorresponds(Relay(bw, reply, k).sent, Relay(bc, reply, k).sent)
  {
    var primary := PageAttempt(bw[0], reply, k);
    if primary.result.Success? {
      FriendsRunCorresponds(bw, bc, |bw|, reply, k + |primary.sent|);
      PrimaryThenFriends(primary.sent, FriendsRun(bw, |bw|, reply, k + 1).sent, FriendsRun(bc, |bc|, reply, k + 1).sent);
    }
  }

  lemma PrimaryThenFriends(p: seq<Properties>, fw: seq<Properties>, fc: seq<Properties>)
    requires |p| == 1 && SentCorresponds(fw, fc)
    ensures RelaySentCorresponds(p + fw, p + fc)
  {
    forall j | 1 <= j < |p + fw|
      ensures (p + fw)[j] == (p + fc)[j] - {"Primary Contact"}
    {
      assert (p + fw)[j] == fw[j - 1] && (p + fc)[j] == fc[j - 1];
    }
  }

  /** The defect of lines 170-174 changes no response: the relay as written answers every
      request exactly as the corrected one, sends the same primary map, and sends each
      friend's map without the Primary Contact column. */
  lemma AsWrittenRsvpDropsOnlyPrimaryContact(req: Request, reply: nat -> StoreReply, k: nat)
    ensures RsvpAsWritten(req, reply, k).response == Rsvp(req, reply, k).response
    ensures RelaySentCorresponds(RsvpAsWritten(req, reply, k).sent, Rsvp(req, reply, k).sent)
  {
    if req.Parsed? && CheckRequest(req.body).Success? {
      var c := CheckRequest(req.body).value;
      PagesCorrespond(c);
      RelayCorresponds(PagesAsWritten(c), Pages(c), reply, k);
    }
  }

  /** Every friend map the relay as written sends lacks the Primary Contact column. */
  lemma AsWrittenFriendMapsLackPrimaryContact(req: Request, reply: nat -> StoreReply, k: nat)
    ensures forall j :: 1 <= j < |RsvpAsWritten(req, reply, k).sent| ==> "Primary Contact" !in RsvpAsWritten(req, reply, k).sent[j]
  {
    AsWrittenRsvpDropsOnlyPrimaryContact(req, reply, k);
  }

  /** The pages as written are the corrected pages: the primary's the same, each friend's
      without Primary Contact or failing alike. */
  lemma PagesCorrespond(c: Checked)
    requires c.items != [] && "name" in c.items[0]
    ensures |PagesAsWritten(c)| == |Pages(c)| && PagesAsWritten(c)[0] == Pages(c)[0]
    ensures forall j :: 1 <= j < |Pages(c)| ==> Corresponds(PagesAsWritten(c)[j], Pages(c)[j])
  {
    var bw, bc := PagesAsWritten(c), Pages(c);
    forall j | 1 <= j < |bw|
      ensures Corresponds(bw[j], bc[j])
    {
      assert bc[j] == PageFor(c, j);
      FriendPagesCorrespond(c.items[j], c.day, c.items[0]["name"]);
    }
  }

  /** The primary's `create_notion_page` call (lines 152-158). */
  method CreatePrimaryPage(checked: Checked, ghost built: seq<Result<Properties, string>>, sink: Sink)
    returns (r: Result<PageId, string>)
    requires checked.items != [] && "name" in checked.items[0] && BuiltFor(built, checked)
    modifies sink`sent
    ensures var a := PageAttempt(built[0], sink.reply, |old(sink.sent)|);
            sink.sent == old(sink.sent) + a.sent && r == a.result
  {
    var primaryData := PrimaryData(checked.items[0], checked.day, checked.items[1..]);
    assert built[0] == PageFor(checked, 0);
    r := CreateNotionPage(primaryData, sink);
  }

  /** One pass of the friends' loop body (lines 162-176), as an extension of the run of
      the friends before it. */
  method FriendStep(checked: Checked, i: nat, ghost built: seq<Result<Properties, string>>, sink: Sink,
                          ghost start: nat, ghost before: seq<Properties>)
    returns (r: Result<PageId, string>)
    requires 1 <= i < |checked.items| && "name" in checked.items[0] && BuiltFor(built, checked)
    requires |before| == start
    requires FriendsRun(built, i, sink.reply, start).failure.None?
    requires sink.sent == before + FriendsRun(built, i, sink.reply, start).sent
    modifies sink`sent
    ensures sink.sent == before + FriendsRun(built, i + 1, sink.reply, start).sent
    ensures r.Success? ==> FriendsRun(built, i + 1, sink.reply, start).failure.None?
                           && FriendsRun(built, i + 1, sink.reply, start).pages == FriendsRun(built, i, sink.reply, start).pages + [r.value]
    ensures r.Failure? ==> FriendsRun(built, i + 1, sink.reply, start).failure == Some(r.error)
  {
    r := CreateFriendPage(checked, i, built, sink);
  }

  /** Friend i's dict (lines 163-175), then its `create_notion_page` call. */
  method CreateFriendPage(checked: Checked, i: nat, ghost built: seq<Result<Properties, string>>, sink: Sink)
    returns (r: Result<PageId, string>)
    requires 1 <= i < |checked.items| && "name" in checked.items[0] && BuiltFor(built, checked)
    modifies sink`sent
    ensures var a := PageAttempt(built[i], sink.reply, |old(sink.sent)|);
            sink.sent == old(sink.sent) + a.sent && r == a.result
  {
    var friend := checked.items[i];
    var friendData := FriendData(friend, checked.day, checked.items[0]["name"]);
    assert built[i] == PageFor(checked, i);
    r := CreateNotionPage(friendData, sink);
  }

  /** The loop over `data["formData"][1:]` (lines 161-177): one page per friend, in
      order, returning at the first exception. */
  method CreateFriendPages(checked: Checked, ghost built: seq<Result<Properties, string>>, sink: Sink)
    returns (friendResponses: seq<PageId>, failure: Option<string>)
    requires checked.items != [] && "name" in checked.items[0] && BuiltFor(built, checked)
    modifies sink`sent
    ensures var fr := FriendsRun(built, |built|, sink.reply, |old(sink.sent)|);
            sink.sent == old(sink.sent) + fr.sent && friendResponses == fr.pages && failure == fr.failure
  {
    ghost var start := |sink.sent|;
    ghost var before := sink.sent;
    friendResponses := [];
    var i := 1;
    while i < |checked.items|
      invariant 1 <= i <= |checked.items|
      invariant FriendsRun(built, i, sink.reply, start).failure.None?
      invariant FriendsRun(built, i, sink.reply, start).pages == friendResponses
      invariant sink.sent == before + FriendsRun(built, i, sink.reply, start).sent
    {
      var friendResponse := FriendStep(checked, i, built, sink, start, before);
      if friendResponse.Failure? {
        FailureStops(built, i + 1, |built|, sink.reply, start);
        return friendResponses, Some(friendResponse.error);
      }
      friendResponses := friendResponses + [friendResponse.value];
      i := i + 1;
    }
    failure := None;
  }

  /** Lines 152-187: the primary's page, then the friends' pages, 502 at the first
      exception. */
  method CreatePages(checked: Checked, ghost built: seq<Result<Properties, string>>, sink: Sink)
    returns (resp: FlaskResponse)
    requires checked.items != [] && "name" in checked.items[0] && BuiltFor(built, checked)
    modifies sink`sent
    ensures var o := Relay(built, sink.reply, |old(sink.sent)|);
            resp == o.response && sink.sent == old(sink.sent) + o.sent
  {
    var primaryResponse := CreatePrimaryPage(checked, built, sink);
    if primaryResponse.Failure? {
      return ErrorResponse(NotionErr(primaryResponse.error));
    }
    var friendResponses, failure := CreateFriendPages(checked, built, sink);
    if failure.Some? {
      return ErrorResponse(NotionErr(failure.value));
    }
    resp := Ok(primaryResponse.value, friendResponses);
  }

  /** `handle_rsvp`: validates, then creates the pages. */
  method HandleRsvp(req: Request, sink: Sink) returns (resp: FlaskResponse)
    modifies sink`sent
    ensures var o := Rsvp(req, sink.reply, |old(sink.sent)|);
            resp == o.response && sink.sent == old(sink.sent) + o.sent
  {
    if req.Unreadable? {
      return ErrorResponse(OtherErr(req.reason));
    }
    var checked := CheckRequest(req.body);
    if checked.Failure? {
      return ErrorResponse(checked.error);
    }
    resp := CreatePages(checked.value, Pages(checked.value), sink);
  }
}
