/**
 * The request body both relays receive: `{day, formData}` as JSON.
 *
 * The body is null or an object; `day` is absent, null or a string; `formData` is
 * absent, not a list, or a list of guest objects; a guest object maps keys to null or
 * a string. Numbers and booleans, in the body or in `day`, and null list items are
 * outside this model.
 */
module Payload {
  import opened Wrappers
  import opened Entries

  /** A value inside a guest object. */
  datatype Val = Null | Str(s: string)

  /** One guest object of `formData`; a key that is not in the map is absent. */
  type Entry = map<string, Val>

  datatype FormDataVal = NotAList | List(items: seq<Entry>)

  /** An object body: its `day` and `formData` members (None when absent), and whether it
      has any other member. */
  datatype Body = Body(day: Option<Val>, formData: Option<FormDataVal>, otherKeys: bool)

  /** What the relay reads: a body that could not be decoded (with the decoder's error
      text), or a decoded body, None being the JSON null. */
  datatype Request = Unreadable(reason: string) | Parsed(body: Option<Body>)

  function Lookup(e: Entry, key: string): Option<Val> {
    if key in e then Some(e[key]) else None
  }

  /** JavaScript truthiness of a member, which for these values is also Python's:
      present, not null and not the empty string. */
  predicate Truthy(v: Option<Val>) {
    v.Some? && v.value.Str? && v.value.s != ""
  }

  /** `x || fallback` on a member. */
  function OrElse(v: Option<Val>, fallback: string): (r: string)
    ensures Truthy(v) ==> r == v.value.s
    ensures !Truthy(v) ==> r == fallback
  {
    if Truthy(v) then v.value.s else fallback
  }

  /** One guest entry as `JSON.stringify` sends it. */
  function EntryJson(g: GuestEntry): Entry {
    map["name" := Str(g.name), "email" := Str(g.email), "phone" := Str(g.phone), "about" := Str(g.about)]
  }

  /** The body the page posts for a day (app/page.tsx lines 353-356). */
  function ClientRequest(d: Day, forms: seq<GuestEntry>): (r: Request)
    ensures r.Parsed? && r.body.Some? && !r.body.value.otherKeys
    ensures r.body.value.day == Some(Str(DayName(d)))
    ensures r.body.value.formData.Some? && r.body.value.formData.value.List?
    ensures |r.body.value.formData.value.items| == |forms|
    ensures forall i :: 0 <= i < |forms| ==> r.body.value.formData.value.items[i] == EntryJson(forms[i])
  {
    Parsed(Some(Body(Some(Str(DayName(d))), Some(List(seq(|forms|, i requires 0 <= i < |forms| => EntryJson(forms[i])))), false)))
  }
}
