/**
 * The hosted record store both relays write to, seen only at its interface: one
 * "create page" call per guest, carrying a map from column name to property value.
 * The store itself is a sink that records, in order, every property map it is given,
 * and answers call number k with `reply(k)`.
 */
module Store {
  import opened Wrappers

  /** The property kinds the relays fill in. */
  datatype Property =
    | Title(content: string)
    | RichText(content: string)
    | EmailProp(email: Option<string>)     // None is the JSON null
    | PhoneProp(phone: Option<string>)     // None is the JSON null
    | Select(name: string)

  type Properties = map<string, Property>

  datatype PageId = PageId(id: string)

  /** What the store answers one create call with. */
  datatype StoreReply = Created(page: PageId) | Rejected(message: string)

  /** The store's answers to calls k, k+1, ..., k+n-1. */
  function Answers(reply: nat -> StoreReply, k: nat, n: nat): (r: seq<StoreReply>)
    ensures |r| == n && forall i :: 0 <= i < n ==> r[i] == reply(k + i)
  {
    seq(n, i requires 0 <= i < n => reply(k + i))
  }

  /** `notion.pages.create`, as an abstract sink. */
  class Sink {
    var sent: seq<Properties>
    const reply: nat -> StoreReply

    constructor (reply: nat -> StoreReply)
      ensures sent == [] && this.reply == reply
    {
      sent := [];
      this.reply := reply;
    }

    method CreatePage(p: Properties) returns (r: StoreReply)
      modifies this`sent
      ensures sent == old(sent) + [p]
      ensures r == reply(|old(sent)|)
    {
      r := reply(|sent|);
      sent := sent + [p];
    }
  }

  /** A stored row as a reader of the database sees it: the text of each column, with an
      absent property or a null read as the empty cell. */
  datatype Row = Row(name: string, email: string, phone: string, about: string, day: string,
                     guestType: string, primaryContact: string, guests: string)

  function CellText(p: Properties, key: string): string {
    if key !in p then ""
    else match p[key]
      case Title(c) => c
      case RichText(c) => c
      case EmailProp(e) => if e.Some? then e.value else ""
      case PhoneProp(n) => if n.Some? then n.value else ""
      case Select(n) => n
  }

  function ReadRow(p: Properties): Row {
    Row(CellText(p, "Name"), CellText(p, "Email"), CellText(p, "Phone"), CellText(p, "About"),
        CellText(p, "Day"), CellText(p, "Guest Type"), CellText(p, "Primary Contact"), CellText(p, "Guests"))
  }
}
