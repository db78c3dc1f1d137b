/**
 * Record shaping for the store (lib/notion.ts): `addRSVPToNotion` turns one guest record
 * into a property map and creates one page, `addMultipleRSVPsToNotion` annotates a
 * primary contact and its friends and creates a page for each, primary first.
 */
module Notion {
  import opened Wrappers
  import opened Text
  import opened Store

  datatype GuestType = Primary | Friend

  function GuestTypeName(t: GuestType): string {
    match t
    case Primary => "Primary"
    case Friend => "Friend"
  }

  /** One guest record (RSVPData); `primaryContact` and `guests` are optional members. */
  datatype RsvpData = RsvpData(name: string, email: string, phone: string, about: string, day: string,
                               guestType: GuestType, primaryContact: Option<string>, guests: Option<seq<string>>)

  const MissingDatabaseId := "Database ID is not defined"

  /** `value || null` on a string. */
  function NullIfEmpty(s: string): (r: Option<string>)
    ensures r.None? <==> s == ""
    ensures r.Some? ==> r.value == s
  {
    if s == "" then None else Some(s)
  }

  /** A friend's record names a (non-empty) primary contact. */
  predicate AddsPrimaryContact(d: RsvpData) {
    d.guestType == Friend && d.primaryContact.Some? && d.primaryContact.value != ""
  }

  /** A primary's record lists at least one friend. */
  predicate AddsGuests(d: RsvpData) {
    d.guestType == Primary && d.guests.Some? && |d.guests.value| > 0
  }

  const BaseColumns: set<string> := {"Name", "Email", "Phone", "About", "Day", "Guest Type"}

  /** The property map `addRSVPToNotion` builds for one record. */
  function PropertiesFor(d: RsvpData): (p: Properties)
    ensures p.Keys == BaseColumns + (if AddsPrimaryContact(d) then {"Primary Contact"} else {})
                                  + (if AddsGuests(d) then {"Guests"} else {})
    ensures p["Email"].EmailProp? && (p["Email"].email.None? <==> d.email == "")
    ensures p["Phone"].PhoneProp? && (p["Phone"].phone.None? <==> d.phone == "")
    ensures p["Day"].Select? && |p["Day"].name| == |d.day|
  {
    var base := map["Name" := Title(d.name),
                    "Email" := EmailProp(NullIfEmpty(d.email)),
                    "Phone" := PhoneProp(NullIfEmpty(d.phone)),
                    "About" := RichText(d.about),
                    "Day" := Select(UpperFirst(d.day)),
                    "Guest Type" := Select(GuestTypeName(d.guestType))];
    var withContact := if AddsPrimaryContact(d) then base["Primary Contact" := RichText(d.primaryContact.value)] else base;
    if AddsGuests(d) then withContact["Guests" := RichText(Join(d.guests.value, ", "))] else withContact
  }

  /** Reading back the stored row gives every field of the record, the day with its first
      letter upper-cased; the contact and guest columns are filled only for the guest type
      they belong to. */
  lemma RowOfRecord(d: RsvpData)
    ensures ReadRow(PropertiesFor(d)) ==
      Row(d.name, d.email, d.phone, d.about, UpperFirst(d.day), GuestTypeName(d.guestType),
          if AddsPrimaryContact(d) then d.primaryContact.value else "",
          if AddsGuests(d) then Join(d.guests.value, ", ") else "")
  {
    var p := PropertiesFor(d);
    assert CellText(p, "Email") == d.email;
    assert CellText(p, "Phone") == d.phone;
  }

  function ReplyResult(reply: StoreReply): (r: Result<PageId, string>)
    ensures r.Success? <==> reply.Created?
  {
    match reply
    case Created(page) => Success(page)
    case Rejected(message) => Failure(message)
  }

  /** `addRSVPToNotion`: checks the database id, builds the property map one column at a
      time and creates one page. */
  method AddRsvpToNotion(d: RsvpData, databaseId: string, sink: Sink) returns (r: Result<PageId, string>)
    modifies sink`sent
    ensures databaseId == "" ==> r == Failure(MissingDatabaseId) && sink.sent == old(sink.sent)
    ensures databaseId != "" ==> (sink.sent == old(sink.sent) + [PropertiesFor(d)]
                                  && r == ReplyResult(sink.reply(|old(sink.sent)|)))
  {
    if databaseId == "" {
      return Failure(MissingDatabaseId);
    }
    var properties: Properties := map[];
    properties := properties["Name" := Title(d.name)];
    properties := properties["Email" := EmailProp(if d.email == "" then None else Some(d.email))];
    properties := properties["Phone" := PhoneProp(if d.phone == "" then None else Some(d.phone))];
    properties := properties["About" := RichText(d.about)];
    properties := properties["Day" := Select(UpperFirst(d.day))];
    properties := properties["Guest Type" := Select(GuestTypeName(d.guestType))];
    if d.guestType == Friend && d.primaryContact.Some? && d.primaryContact.value != "" {
      properties := properties["Primary Contact" := RichText(d.primaryContact.value)];
    }
    if d.guestType == Primary && d.guests.Some? && |d.guests.value| > 0 {
      properties := properties["Guests" := RichText(Join(d.guests.value, ", "))];
    }
    assert properties == PropertiesFor(d);
    var reply := sink.CreatePage(properties);
    r := ReplyResult(reply);
  }

  function Names(friends: seq<RsvpData>): (r: seq<string>)
    ensures |r| == |friends| && forall i :: 0 <= i < |friends| ==> r[i] == friends[i].name
  {
    seq(|friends|, i requires 0 <= i < |friends| => friends[i].name)
  }

  /** The records `addMultipleRSVPsToNotion` sends: the primary, marked Primary and listing
      its friends' names in order, then each friend, marked Friend and naming the primary.
      Every other field is the caller's. */
  function Records(primary: RsvpData, friends: seq<RsvpData>): (r: seq<RsvpData>)
    ensures |r| == |friends| + 1
    ensures r[0].guestType == Primary && r[0].guests == Some(Names(friends))
    ensures r[0].(guestType := primary.guestType, guests := primary.guests) == primary
    ensures forall i :: 0 <= i < |friends| ==>
              r[i + 1].guestType == Friend && r[i + 1].primaryContact == Some(primary.name)
              && r[i + 1].(guestType := friends[i].guestType, primaryContact := friends[i].primaryContact) == friends[i]
  {
    [primary.(guestType := Primary, guests := Some(Names(friends)))]
      + seq(|friends|, i requires 0 <= i < |friends| => friends[i].(guestType := Friend, primaryContact := Some(primary.name)))
  }

  /** The index of the first rejected reply, if any. */
  function FirstRejection(rs: seq<StoreReply>): (r: Option<nat>)
    ensures r.None? <==> forall i :: 0 <= i < |rs| ==> rs[i].Created?
    ensures r.Some? ==> r.value < |rs| && rs[r.value].Rejected? && forall i :: 0 <= i < r.value ==> rs[i].Created?
    decreases |rs|
  {
    if rs == [] then None
    else if rs[0].Rejected? then Some(0)
    else
      var t := FirstRejection(rs[1..]);
      if t.None? then None else Some(t.value + 1)
  }

  /** The outcome of a batch: the primary page and the friends' pages, or the error text;
      and the property maps sent to the store, in order. */
  datatype Dispatch = Dispatch(result: Result<(PageId, seq<PageId>), string>, sent: seq<Properties>)

  /** `addMultipleRSVPsToNotion`, with the store's replies given by `reply`, call `k` being
      the primary's and call k+1+i the i-th friend's. Succeeds exactly when the database id
      is set and every call is accepted; otherwise the error is the first rejection's. */
  function AddMultiple(primary: RsvpData, friends: seq<RsvpData>, databaseId: string,
                       reply: nat -> StoreReply, k: nat): (o: Dispatch)
    ensures var a := Answers(reply, k, |friends| + 1);
            (o.result.Success? <==> databaseId != "" && FirstRejection(a).None?)
            && (o.result.Success? ==> (a[0] == Created(o.result.value.0) && |o.result.value.1| == |friends|
                                      && forall i :: 0 <= i < |friends| ==> a[i + 1] == Created(o.result.value.1[i])))
            && (databaseId == "" ==> o.result == Failure(MissingDatabaseId))
            && (databaseId != "" && o.result.Failure? ==>
                  FirstRejection(a).Some? && o.result.error == a[FirstRejection(a).value].message)
            && |o.sent| == (if databaseId == "" then 0 else if a[0].Rejected? then 1 else |friends| + 1)
    ensures forall i :: 0 <= i < |o.sent| ==> o.sent[i] == PropertiesFor(Records(primary, friends)[i])
  {
    var recs := Records(primary, friends);
    var a := Answers(reply, k, |friends| + 1);
    if databaseId == "" then Dispatch(Failure(MissingDatabaseId), [])
    else if a[0].Rejected? then Dispatch(Failure(a[0].message), [PropertiesFor(recs[0])])
    else
      var sent := seq(|recs|, i requires 0 <= i < |recs| => PropertiesFor(recs[i]));
      var bad := FirstRejection(a);
      if bad.Some? then Dispatch(Failure(a[bad.value].message), sent)
      else Dispatch(Success((a[0].page, seq(|friends|, i requires 0 <= i < |friends| => a[i + 1].page))), sent)
  }

  /** The first page sent is the primary's, listing the friends' names in order. */
  lemma PrimaryPageFirst(primary: RsvpData, friends: seq<RsvpData>, databaseId: string, reply: nat -> StoreReply, k: nat)
    requires databaseId != ""
    ensures var o := AddMultiple(primary, friends, databaseId, reply, k);
            o.sent != [] && o.sent[0]["Guest Type"] == Select("Primary") && "Primary Contact" !in o.sent[0]
            && (friends != [] ==> o.sent[0]["Guests"] == RichText(Join(Names(friends), ", ")))
            && (friends == [] ==> "Guests" !in o.sent[0])
  {
    var o := AddMultiple(primary, friends, databaseId, reply, k);
    var r := Records(primary, friends)[0];
    assert o.sent[0] == PropertiesFor(r);
    PrimaryProperties(r);
  }

  /** A primary's record has no contact column, and lists its guests exactly when it has some. */
  lemma PrimaryProperties(r: RsvpData)
    requires r.guestType == Primary && r.guests.Some?
    ensures PropertiesFor(r)["Guest Type"] == Select("Primary") && "Primary Contact" !in PropertiesFor(r)
    ensures r.guests.value != [] ==> PropertiesFor(r)["Guests"] == RichText(Join(r.guests.value, ", "))
    ensures r.guests.value == [] ==> "Guests" !in PropertiesFor(r)
  {
    assert !AddsPrimaryContact(r);
  }

  /** A friend's record names its primary in the contact column and lists no guests. */
  lemma FriendProperties(r: RsvpData)
    requires r.guestType == Friend && r.primaryContact.Some? && r.primaryContact.value != ""
    ensures PropertiesFor(r)["Primary Contact"] == RichText(r.primaryContact.value)
    ensures PropertiesFor(r)["Guest Type"] == Select("Friend")
    ensures "Guests" !in PropertiesFor(r)
  {
    assert AddsPrimaryContact(r) && !AddsGuests(r);
  }

  /** Every friend page sent names the primary contact and is marked Friend. */
  lemma FriendPagesNamePrimary(primary: RsvpData, friends: seq<RsvpData>, databaseId: string, reply: nat -> StoreReply, k: nat, i: nat)
    requires primary.name != "" && databaseId != "" && reply(k).Created?
    requires 1 <= i <= |friends|
    ensures var p := AddMultiple(primary, friends, databaseId, reply, k).sent[i];
            p["Primary Contact"] == RichText(primary.name) && p["Guest Type"] == Select("Friend")
            && "Guests" !in p && ReadRow(p).name == friends[i - 1].name
  {
    var o := AddMultiple(primary, friends, databaseId, reply, k);
    assert Answers(reply, k, |friends| + 1)[0] == reply(k);
    var r := Records(primary, friends)[i];
    assert o.sent[i] == PropertiesFor(r);
    assert r.guestType == Friend && r.primaryContact == Some(primary.name) && r.name == friends[i - 1].name;
    FriendRecordPage(r);
  }

  /** The page of a friend's record: the contact column, the Friend type, no guests and
      the friend's own name. */
  lemma FriendRecordPage(r: RsvpData)
    requires r.guestType == Friend && r.primaryContact.Some? && r.primaryContact.value != ""
    ensures var p := PropertiesFor(r);
            p["Primary Contact"] == RichText(r.primaryContact.value) && p["Guest Type"] == Select("Friend")
            && "Guests" !in p && ReadRow(p).name == r.name
  {
    FriendProperties(r);
    RowOfRecord(r);
  }
}
