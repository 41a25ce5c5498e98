/**
 The GET handler: flatten and validate the query, fetch the source array,
 and turn it into a feed.

 The outbound fetch and JSON parse are a parameter, `fetch`, from the source
 URL to the parsed records, so that "the source is never consulted" can be
 stated as "the outcome is the same whatever `fetch` is".
 */
module Handler {
  import opened Params
  import opened Json
  import opened Feeds

  /** The body of the 400 response. */
  const MissingParams: string := "Missing or malformed parameters"

  /** The parameters without which no feed is built. */
  const RequiredNames: seq<string> := ["url", "title", "item_title", "item_link", "item_date"]

  /** The first values of the required parameters, all known to be non-empty. */
  datatype Required = Required(
    url: string,
    title: string,
    itemTitle: string,
    itemLink: string,
    itemDate: string)

  /** The handler's two outcomes: status 400 with `msg` as the body, or
      status 200 with `feed`, served as `text/xml` once serialised. */
  datatype Outcome = BadRequest(msg: string) | Ok(feed: Feed)

  /** Every required parameter has a truthy first value. */
  predicate RequiredPresent(q: Query) {
    forall name :: name in RequiredNames ==> Truthy(Arg(q, name))
  }

  /** The required-parameter check: succeeds exactly when every required
      parameter has a non-empty first value, and then carries those values. */
  function Validate(q: Query): (r: Option<Required>)
    ensures r.Some? <==> RequiredPresent(q)
    ensures r.Some? ==>
              && Arg(q, "url") == Some(r.value.url)
              && Arg(q, "title") == Some(r.value.title)
              && Arg(q, "item_title") == Some(r.value.itemTitle)
              && Arg(q, "item_link") == Some(r.value.itemLink)
              && Arg(q, "item_date") == Some(r.value.itemDate)
  {
    var url := Arg(q, "url");
    var title := Arg(q, "title");
    var itemTitle := Arg(q, "item_title");
    var itemLink := Arg(q, "item_link");
    var itemDate := Arg(q, "item_date");
    if !Truthy(url) || !Truthy(title) || !Truthy(itemTitle) || !Truthy(itemLink) || !Truthy(itemDate)
    then None
    else Some(Required(url.value, title.value, itemTitle.value, itemLink.value, itemDate.value))
  }

  /** The field mapping of a validated request, optional names as received. */
  function MappingOf(q: Query, req: Required): Mapping {
    Mapping(
      req.itemTitle,
      req.itemLink,
      req.itemDate,
      Arg(q, "base_item_link"),
      Arg(q, "item_description"),
      Arg(q, "item_image"))
  }

  /** The handler as a function of the query, the source and the host. */
  function Handle(q: Query, fetch: string -> seq<Record>, host: Host): (out: Outcome)
    ensures out.BadRequest? <==> !RequiredPresent(q)
    ensures out.BadRequest? ==> out.msg == MissingParams
  {
    match Validate(q)
    case None => BadRequest(MissingParams)
    case Some(req) =>
      var records := fetch(req.url);
      var feed := NewFeed(req.url, req.title, Arg(q, "description"));
      Ok(feed.(items := Project(MappingOf(q, req), records, host)))
  }

  /** The handler step by step, with the item loop appending one item per
      fetched record; it computes the same outcome as `Handle`. */
  method ServeFeed(q: Query, fetch: string -> seq<Record>, host: Host) returns (out: Outcome)
    ensures out == Handle(q, fetch, host)
  {
    var url := Arg(q, "url");
    var title := Arg(q, "title");
    var itemTitle := Arg(q, "item_title");
    var itemLink := Arg(q, "item_link");
    var itemDate := Arg(q, "item_date");
    if !Truthy(url) || !Truthy(title) || !Truthy(itemTitle) || !Truthy(itemLink) || !Truthy(itemDate) {
      return BadRequest(MissingParams);
    }

    var description := Arg(q, "description");
    var baseItemLink := Arg(q, "base_item_link");
    var itemDescription := Arg(q, "item_description");
    var itemImage := Arg(q, "item_image");

    var feedData := fetch(url.value);

    var feed := NewFeed(url.value, title.value, description);
    var m := Mapping(itemTitle.value, itemLink.value, itemDate.value, baseItemLink, itemDescription, itemImage);
    for i := 0 to |feedData|
      invariant feed.(items := []) == NewFeed(url.value, title.value, description)
      invariant |feed.items| == i
      invariant forall j :: 0 <= j < i ==> feed.items[j] == ProjectItem(m, feedData[j], host)
    {
      feed := AddItem(feed, ProjectItem(m, feedData[i], host));
    }
    return Ok(feed);
  }

  /** A request missing a required parameter is answered with the fixed 400
      body before anything is fetched: the outcome is the same whatever the
      source and the host would have done. */
  lemma BadRequestIgnoresSource(q: Query, fetch1: string -> seq<Record>, fetch2: string -> seq<Record>,
                                host1: Host, host2: Host)
    requires !RequiredPresent(q)
    ensures Handle(q, fetch1, host1) == BadRequest(MissingParams) == Handle(q, fetch2, host2)
  {
  }

  /** The 400 condition written out per parameter: some required parameter
      is absent, is an empty list, or has the empty string first. */
  lemma BadRequestIffSomeMissing(q: Query, fetch: string -> seq<Record>, host: Host)
    ensures Handle(q, fetch, host).BadRequest? <==>
              exists name :: name in RequiredNames && (Arg(q, name).None? || Arg(q, name).value == "")
  {
  }

  /** A valid request yields the envelope built from its parameters. */
  lemma FeedEnvelope(q: Query, fetch: string -> seq<Record>, host: Host, req: Required)
    requires Validate(q) == Some(req)
    ensures var out := Handle(q, fetch, host);
            && out.Ok?
            && out.feed.id == req.url && out.feed.link == req.url
            && Arg(q, "url") == Some(out.feed.id)
            && Arg(q, "title") == Some(out.feed.title)
            && (Truthy(Arg(q, "description")) ==> out.feed.description == Arg(q, "description").value)
            && (!Truthy(Arg(q, "description")) ==> out.feed.description == "")
            && out.feed.copyright == ""
  {
  }

  /** A valid request yields one item per record fetched from `url`, item i
      built from record i alone under the request's field mapping. */
  lemma ItemsFollowSource(q: Query, fetch: string -> seq<Record>, host: Host, req: Required)
    requires Validate(q) == Some(req)
    ensures var out := Handle(q, fetch, host);
            var records := fetch(req.url);
            var m := MappingOf(q, req);
            && out.Ok?
            && |out.feed.items| == |records|
            && (forall i :: 0 <= i < |records| ==> out.feed.items[i] == ProjectItem(m, records[i], host))
            && Some(m.itemTitle) == Arg(q, "item_title")
            && Some(m.itemLink) == Arg(q, "item_link")
            && Some(m.itemDate) == Arg(q, "item_date")
            && m.baseItemLink == Arg(q, "base_item_link")
            && m.itemDescription == Arg(q, "item_description")
            && m.itemImage == Arg(q, "item_image")
  {
  }

  /** At the level of the request: every item's id and link are
      `(base_item_link || '') + record[item_link]`, coerced by the host. */
  lemma ItemLinks(q: Query, fetch: string -> seq<Record>, host: Host, req: Required)
    requires Validate(q) == Some(req)
    ensures var out := Handle(q, fetch, host);
            var records := fetch(req.url);
            && out.Ok?
            && |out.feed.items| == |records|
            && forall i :: 0 <= i < |records| ==>
                 && out.feed.items[i].id == out.feed.items[i].link
                 && out.feed.items[i].link ==
                      OrEmpty(Arg(q, "base_item_link")) + host.toStr(Lookup(records[i], req.itemLink))
  {
  }
}
