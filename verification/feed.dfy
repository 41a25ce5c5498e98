/**
 The feed the handler builds: an envelope taken from the request, then one
 item per fetched record, appended in the order the records arrive.

 Two pieces of host-runtime behaviour are not modelled but passed in through
 `Host`: JavaScript's coercion of a value to a string (`'' + v`) and the
 `Date` constructor. Every property below holds whatever values they
 return; that neither of them throws is assumed (see `Handler.Handle`).
 */
module Feeds {
  import opened Params
  import opened Json

  /** What `new Date(v)` produces: an invalid date or an instant in
      milliseconds since the epoch. */
  datatype Date = InvalidDate | Instant(ms: int)

  /** The host runtime's conversions, left uninterpreted. */
  datatype Host = Host(toStr: Value -> string, parseDate: Value -> Date)

  /** One feed entry. Title, description and image carry whatever value the
      record held, not necessarily a string. */
  datatype Item = Item(
    title: Value,
    id: string,
    link: string,
    date: Date,
    description: Value,
    image: Value)

  datatype Feed = Feed(
    id: string,
    title: string,
    description: string,
    link: string,
    copyright: string,
    items: seq<Item>)

  /** Which record fields feed which item fields, as named in the request.
      The three required names are already known to be non-empty; the
      optional ones are kept as received. */
  datatype Mapping = Mapping(
    itemTitle: string,
    itemLink: string,
    itemDate: string,
    baseItemLink: Option<string>,
    itemDescription: Option<string>,
    itemImage: Option<string>)

  /** The feed envelope, before any item is added. */
  function NewFeed(url: string, title: string, description: Option<string>): (f: Feed)
    ensures f.id == url && f.link == url
    ensures f.title == title
    ensures f.description == (if description.Some? then description.value else "")
    ensures f.copyright == ""
    ensures f.items == []
  {
    Feed(url, title, OrEmpty(description), url, "", [])
  }

  /** `feed.addItem(item)`: appends, and touches nothing else. */
  function AddItem(f: Feed, item: Item): (g: Feed)
    ensures |g.items| == |f.items| + 1 && g.items[|f.items|] == item
    ensures g.items[..|f.items|] == f.items
    ensures g.(items := f.items) == f
  {
    f.(items := f.items + [item])
  }

  /** An optional field selected by the parameter `name`: the record's
      value when the parameter is truthy, the empty string otherwise. */
  function OptionalField(r: Record, name: Option<string>): (v: Value)
    ensures name.None? || name == Some("") ==> v == Str("")
    ensures name.Some? && name.value != "" ==> v == Lookup(r, name.value)
  {
    if Truthy(name) then Lookup(r, name.value) else Str("")
  }

  /** The item built from one record: every field comes from the record
      field the mapping names, and id and link are the same string. */
  function ProjectItem(m: Mapping, r: Record, host: Host): (item: Item)
    ensures item.id == item.link
    ensures item.link == OrEmpty(m.baseItemLink) + host.toStr(Lookup(r, m.itemLink))
    ensures item.title == Lookup(r, m.itemTitle)
    ensures item.date == host.parseDate(Lookup(r, m.itemDate))
    ensures item.description == OptionalField(r, m.itemDescription)
    ensures item.image == OptionalField(r, m.itemImage)
  {
    var link := OrEmpty(m.baseItemLink) + host.toStr(Lookup(r, m.itemLink));
    Item(
      Lookup(r, m.itemTitle),
      link,
      link,
      host.parseDate(Lookup(r, m.itemDate)),
      OptionalField(r, m.itemDescription),
      OptionalField(r, m.itemImage))
  }

  /** The items for a sequence of records: one per record, each built from
      its own record alone, in the records' order. */
  function Project(m: Mapping, records: seq<Record>, host: Host): (items: seq<Item>)
    ensures |items| == |records|
    ensures forall i :: 0 <= i < |records| ==> items[i] == ProjectItem(m, records[i], host)
  {
    if |records| == 0 then []
    else [ProjectItem(m, records[0], host)] + Project(m, records[1..], host)
  }

  /** Projection distributes over concatenation: nothing is filtered,
      merged or reordered across a split of the source. A corollary of the
      pointwise contract of `Project`, by sequence extensionality. */
  lemma ProjectAppend(m: Mapping, a: seq<Record>, b: seq<Record>, host: Host)
    ensures Project(m, a + b, host) == Project(m, a, host) + Project(m, b, host)
  {
  }

  /** Id and link agree, and both are the base link (empty when absent)
      followed by the coerced `item_link` field; the base is therefore a
      prefix of every link, and with no base the link is the coerced field. */
  lemma LinkExtendsBase(m: Mapping, r: Record, host: Host)
    ensures var item := ProjectItem(m, r, host);
            var base := if m.baseItemLink.Some? then m.baseItemLink.value else "";
            && item.id == item.link
            && item.link == base + host.toStr(Lookup(r, m.itemLink))
            && |base| <= |item.link| && item.link[..|base|] == base
            && (m.baseItemLink.None? ==> item.link == host.toStr(Lookup(r, m.itemLink)))
  {
  }

  /** The title is exactly the record's `item_title` field, and `Undefined`
      when the record has no such key. */
  lemma TitleIsField(m: Mapping, r: Record, host: Host)
    ensures m.itemTitle in r ==> ProjectItem(m, r, host).title == r[m.itemTitle]
    ensures m.itemTitle !in r ==> ProjectItem(m, r, host).title == Undefined
  {
  }

  /** Description and image are the empty string when their parameter is
      absent or empty, and otherwise the record's field of that name. */
  lemma OptionalFieldsDefault(m: Mapping, r: Record, host: Host)
    ensures var item := ProjectItem(m, r, host);
            && (!Truthy(m.itemDescription) ==> item.description == Str(""))
            && (Truthy(m.itemDescription) ==>
                  item.description == Lookup(r, m.itemDescription.value))
            && (!Truthy(m.itemImage) ==> item.image == Str(""))
            && (Truthy(m.itemImage) ==> item.image == Lookup(r, m.itemImage.value))
  {
  }

  /** The date depends on the `item_date` field alone: two records that
      agree on it get the same date, whatever their other fields. */
  lemma DateOnlyFromDateField(m: Mapping, r1: Record, r2: Record, host: Host)
    requires Lookup(r1, m.itemDate) == Lookup(r2, m.itemDate)
    ensures ProjectItem(m, r1, host).date == ProjectItem(m, r2, host).date
  {
  }
}
