/**
 * The values the RSVP form works with (app/page.tsx lines 21-72): the three event days,
 * one guest's four text fields, and the four per-field error flags.
 */
module Entries {
  import opened Wrappers

  /** `DayKey`: the three sessions the form collects RSVPs for. */
  datatype Day = Thursday | Friday | Saturday

  /** The day key as it travels in the request body. */
  function DayName(d: Day): string {
    match d
    case Thursday => "thursday"
    case Friday => "friday"
    case Saturday => "saturday"
  }

  function ParseDay(s: string): Option<Day> {
    if s == "thursday" then Some(Thursday)
    else if s == "friday" then Some(Friday)
    else if s == "saturday" then Some(Saturday)
    else None
  }

  /** Day keys and their names are in one-to-one correspondence. */
  lemma DayNameRoundTrip(d: Day, s: string)
    ensures ParseDay(DayName(d)) == Some(d)
    ensures ParseDay(s) == Some(d) ==> s == DayName(d)
  {
  }

  /** `FormFields`: one guest's entries. */
  datatype GuestEntry = GuestEntry(name: string, email: string, phone: string, about: string) {
    function Get(f: Field): string {
      match f
      case Name => name
      case Email => email
      case Phone => phone
      case About => about
    }

    function With(f: Field, v: string): (e: GuestEntry)
      ensures e.Get(f) == v
      ensures forall g :: g != f ==> e.Get(g) == Get(g)
    {
      match f
      case Name => this.(name := v)
      case Email => this.(email := v)
      case Phone => this.(phone := v)
      case About => this.(about := v)
    }
  }

  const EmptyEntry := GuestEntry("", "", "", "")

  /** The four keys of `FormFields` and of `ValidationField`. */
  datatype Field = Name | Email | Phone | About

  /** `ValidationField`: which fields are currently shown as failing. */
  datatype Flags = Flags(name: bool, email: bool, phone: bool, about: bool) {
    function Get(f: Field): bool {
      match f
      case Name => name
      case Email => email
      case Phone => phone
      case About => about
    }

    function With(f: Field, b: bool): (r: Flags)
      ensures r.Get(f) == b
      ensures forall g :: g != f ==> r.Get(g) == Get(g)
    {
      match f
      case Name => this.(name := b)
      case Email => this.(email := b)
      case Phone => this.(phone := b)
      case About => this.(about := b)
    }
  }

  const NoFlags := Flags(false, false, false, false)
}
