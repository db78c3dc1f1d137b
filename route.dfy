/**
 * The Next.js submission relay (app/api/rsvp/route.ts): checks the body in a fixed order,
 * splits `formData` into a primary record and friend records, hands them to
 * `addMultipleRSVPsToNotion` and maps the outcome to a response.
 */
module Route {
  import opened Wrappers
  import opened Payload
  import opened Store
  import opened Notion
  import Entries
  import Validation

  const InvalidFormat := "Invalid request format"
  const NoFormData := "No form data provided"
  const IncompletePrimary := "Primary contact information is incomplete"
  const ProcessingFailed := "Failed to process RSVP"
  const SubmittedMessage := "RSVP submitted successfully"

  datatype ResponseBody =
    | ErrorBody(error: string)
    | ErrorDetails(error: string, details: string)
    | SuccessBody(message: string, primary: PageId, friends: seq<PageId>)

  datatype Response = Response(status: nat, body: ResponseBody)

  function BadRequest(error: string): Response {
    Response(400, ErrorBody(error))
  }

  /** The body passes the format check: an object with a truthy `day` and an array `formData`. */
  predicate WellFormed(body: Option<Body>) {
    body.Some? && Truthy(body.value.day) && body.value.formData.Some? && body.value.formData.value.List?
  }

  function Items(body: Option<Body>): seq<Entry>
    requires WellFormed(body)
  {
    body.value.formData.value.items
  }

  /** All four contact fields of the first entry are truthy. */
  predicate PrimaryComplete(e: Entry) {
    Truthy(Lookup(e, "name")) && Truthy(Lookup(e, "email")) && Truthy(Lookup(e, "phone")) && Truthy(Lookup(e, "about"))
  }

  /** A friend record: falsy name becomes 'Unknown', other falsy fields ''. */
  function FriendRecord(e: Entry, day: string): (r: RsvpData)
    ensures r.guestType == Friend && r.day == day && r.primaryContact.None? && r.guests.None?
    ensures r.name != "" && (Truthy(Lookup(e, "name")) ==> r.name == e["name"].s)
    ensures !Truthy(Lookup(e, "name")) ==> r.name == "Unknown"
    ensures r.email == (if Truthy(Lookup(e, "email")) then e["email"].s else "")
    ensures r.phone == (if Truthy(Lookup(e, "phone")) then e["phone"].s else "")
    ensures r.about == (if Truthy(Lookup(e, "about")) then e["about"].s else "")
  {
    RsvpData(OrElse(Lookup(e, "name"), "Unknown"), OrElse(Lookup(e, "email"), ""),
             OrElse(Lookup(e, "phone"), ""), OrElse(Lookup(e, "about"), ""), day, Friend, None, None)
  }

  datatype Split = Split(primary: RsvpData, friends: seq<RsvpData>)

  /** Lines 9-56: the checks in order, then the records. */
  function Validate(body: Option<Body>): (r: Result<Split, Response>)
    ensures !WellFormed(body) ==> r == Failure(BadRequest(InvalidFormat))
    ensures WellFormed(body) && Items(body) == [] ==> r == Failure(BadRequest(NoFormData))
    ensures WellFormed(body) && Items(body) != [] && !PrimaryComplete(Items(body)[0]) ==>
              r == Failure(BadRequest(IncompletePrimary))
    ensures r.Success? <==> WellFormed(body) && Items(body) != [] && PrimaryComplete(Items(body)[0])
    ensures r.Success? ==>
              var p := Items(body)[0];
              var day := body.value.day.value.s;
              r.value.primary == RsvpData(p["name"].s, p["email"].s, p["phone"].s, p["about"].s, day, Primary, None, None)
              && |r.value.friends| == |Items(body)| - 1
              && forall i :: 0 <= i < |r.value.friends| ==> r.value.friends[i] == FriendRecord(Items(body)[i + 1], day)
  {
    if !WellFormed(body) then Failure(BadRequest(InvalidFormat))
    else
      var day := body.value.day.value.s;
      var formData := Items(body);
      if |formData| == 0 then Failure(BadRequest(NoFormData))
      else
        var primaryContact := formData[0];
        var friends := formData[1..];
        if !PrimaryComplete(primaryContact) then Failure(BadRequest(IncompletePrimary))
        else
          var primaryData := RsvpData(primaryContact["name"].s, primaryContact["email"].s,
                                      primaryContact["phone"].s, primaryContact["about"].s, day, Primary, None, None);
          Success(Split(primaryData, seq(|friends|, i requires 0 <= i < |friends| => FriendRecord(friends[i], day))))
  }

  /** A response and the property maps sent to the store, in order. */
  datatype Exchange = Exchange(response: Response, sent: seq<Properties>)

  /** `POST`, with the store's replies given by `reply` (call 0 is the primary's). */
  function Post(req: Request, databaseId: string, reply: nat -> StoreReply): (o: Exchange)
    ensures o.response.status in {200, 400, 500}
    ensures o.response.status == 400 <==> req.Parsed? && Validate(req.body).Failure?
    ensures o.response.status == 400 ==> o.sent == []
    ensures req.Unreadable? ==> o == Exchange(Response(500, ErrorDetails(ProcessingFailed, req.reason)), [])
    ensures o.response.status == 200 <==>
              req.Parsed? && Validate(req.body).Success? && databaseId != ""
              && FirstRejection(Answers(reply, 0, |Validate(req.body).value.friends| + 1)).None?
    ensures o.response.status == 200 ==> o.response.body.SuccessBody? && o.response.body.message == SubmittedMessage
    ensures o.response.status == 500 ==> o.response.body.ErrorDetails? && o.response.body.error == ProcessingFailed
    ensures req.Parsed? && Validate(req.body).Success? ==>
              o.sent == AddMultiple(Validate(req.body).value.primary, Validate(req.body).value.friends, databaseId, reply, 0).sent
  {
    match req
    case Unreadable(reason) => Exchange(Response(500, ErrorDetails(ProcessingFailed, reason)), [])
    case Parsed(body) =>
      match Validate(body)
      case Failure(resp) => Exchange(resp, [])
      case Success(split) =>
        var d := AddMultiple(split.primary, split.friends, databaseId, reply, 0);
        if d.result.Success? then
          Exchange(Response(200, SuccessBody(SubmittedMessage, d.result.value.0, d.result.value.1)), d.sent)
        else
          Exchange(Response(500, ErrorDetails(ProcessingFailed, d.result.error)), d.sent)
  }

  function BodyWith(day: Option<Val>, items: seq<Entry>, otherKeys: bool): Option<Body> {
    Some(Body(day, Some(List(items)), otherKeys))
  }

  /** No field of a friend entry can make the relay refuse a request: replacing every
      entry after the first changes neither whether validation fails nor how. */
  lemma FriendsNeverRejected(day: Option<Val>, primary: Entry, fs1: seq<Entry>, fs2: seq<Entry>, otherKeys: bool)
    ensures var r1 := Validate(BodyWith(day, [primary] + fs1, otherKeys));
            var r2 := Validate(BodyWith(day, [primary] + fs2, otherKeys));
            r1.Failure? == r2.Failure? && (r1.Failure? ==> r1.error == r2.error)
            && (r1.Success? ==> r1.value.primary == r2.value.primary)
  {
    var b1 := BodyWith(day, [primary] + fs1, otherKeys);
    var b2 := BodyWith(day, [primary] + fs2, otherKeys);
    assert WellFormed(b1) == WellFormed(b2);
    if WellFormed(b1) {
      assert Items(b1)[0] == primary && Items(b2)[0] == primary;
    }
  }

  /** One friend record per entry after the first, in order: appending an entry appends
      its friend record and changes nothing before it. */
  lemma OneFriendPerEntry(day: Option<Val>, items: seq<Entry>, extra: Entry, otherKeys: bool)
    requires Validate(BodyWith(day, items, otherKeys)).Success?
    ensures var r1 := Validate(BodyWith(day, items, otherKeys));
            var r2 := Validate(BodyWith(day, items + [extra], otherKeys));
            r2.Success? && r2.value.primary == r1.value.primary
            && r2.value.friends == r1.value.friends + [FriendRecord(extra, day.value.s)]
  {
    var b1 := BodyWith(day, items, otherKeys);
    var b2 := BodyWith(day, items + [extra], otherKeys);
    assert Items(b2)[0] == Items(b1)[0];
    var r1 := Validate(b1);
    var r2 := Validate(b2);
    assert |r2.value.friends| == |r1.value.friends| + 1;
    forall i | 0 <= i < |r1.value.friends|
      ensures r2.value.friends[i] == r1.value.friends[i]
    {
      assert Items(b2)[i + 1] == Items(b1)[i + 1];
    }
    assert Items(b2)[|items|] == extra;
  }

  /** A submission the page lets through (its first entry passed the first step's checks)
      passes the relay's validation, and the primary record is that entry verbatim. */
  lemma ClientSubmissionsPass(d: Entries.Day, forms: seq<Entries.GuestEntry>)
    requires |forms| >= 1 && Validation.StepValid(forms[0], 0)
    ensures var r := Validate(ClientRequest(d, forms).body);
            r.Success? && |r.value.friends| == |forms| - 1
            && r.value.primary == RsvpData(forms[0].name, forms[0].email, forms[0].phone, forms[0].about,
                                           Entries.DayName(d), Primary, None, None)
  {
    var body := ClientRequest(d, forms).body;
    assert Entries.DayName(d) != "";
    assert WellFormed(body) && |Items(body)| == |forms|;
    var p := Items(body)[0];
    assert p == EntryJson(forms[0]);
    FilledEntryComplete(forms[0]);
    assert Validate(body).Success?;
    assert p["name"].s == forms[0].name && p["email"].s == forms[0].email;
    assert p["phone"].s == forms[0].phone && p["about"].s == forms[0].about;
  }

  /** An entry with four non-empty fields is sent as a complete primary contact. */
  lemma FilledEntryComplete(g: Entries.GuestEntry)
    requires g.name != "" && g.email != "" && g.phone != "" && g.about != ""
    ensures PrimaryComplete(EntryJson(g))
  {
    var e := EntryJson(g);
    assert Lookup(e, "name") == Some(Str(g.name)) && Lookup(e, "email") == Some(Str(g.email));
    assert Lookup(e, "phone") == Some(Str(g.phone)) && Lookup(e, "about") == Some(Str(g.about));
  }
}
