/** The EventBrite client: the organiser's event listing, fetched page by page, and the
    structured content of one event. The site is a parameter of the client; the client's
    observable effect is the list of requests it sends. */
module EventBrite {
  import opened Common

  /** The `type` of a listing: past (`"past"`) or future (`"future"`) events. */
  datatype Kind = Past | Future

  /** An event of the listing, as far as the program reads it: its `id` and its
      `name.text`, either of which may be missing from the JSON object. */
  datatype Event = Event(id: Option<string>, nameText: Option<string>)

  /** One page of the `showmore` listing: `data.events` and `data.has_next_page`. */
  datatype Page = Page(events: seq<Event>, hasNext: bool)

  /** What selects a listing: the organiser, the kind and the page size. */
  datatype Query = Query(orgId: string, kind: Kind, pageSize: int)

  /** A module of an event's structured content: its `type` and its
      `data.webinar_url.url`, each None when a key on the way is missing. */
  datatype Module = Module(kind: Option<string>, webinarUrl: Option<string>)

  /** An event's structured content: its `modules` list, None when the key is missing. */
  datatype Content = Content(modules: Option<seq<Module>>)

  /** The requests the client sends. */
  datatype Request =
    | ShowMore(orgId: string, page: int, pageSize: int, kind: Kind)
    | StructuredContent(eventId: string)

  /** The remote site. `pages(q)` lists the answers to pages 1, 2, … of listing q (an
      error status is Err); past the end of that list the site answers an empty last page.
      `content(id)` answers the structured-content request for event id. */
  datatype Site = Site(pages: Query -> seq<Result<Page>>, content: string -> Result<Content>)

  /** The answer to page number `page` of a listing. */
  function Answer(pages: seq<Result<Page>>, page: int): Result<Page>
  {
    if 1 <= page <= |pages| then pages[page - 1] else Ok(Page([], false))
  }

  /** A page after which `get_events` requests no more: it raised, or it has no next page. */
  predicate IsLast(r: Result<Page>)
  {
    r.Err? || !r.value.hasNext
  }

  /** How many pages `get_events` requests when it has reached page `page`: one more
      after each page that has a next one. */
  function Requested(pages: seq<Result<Page>>, page: nat): (n: nat)
    requires page >= 1
    ensures n >= 1
    decreases |pages| + 1 - page
  {
    if IsLast(Answer(pages, page)) then 1 else 1 + Requested(pages, page + 1)
  }

  /** What `get_events` returns when it has reached page `page`: each page's events
      extended onto the list, or the exception of a failing page. */
  function Gathered(pages: seq<Result<Page>>, page: nat): Result<seq<Event>>
    requires page >= 1
    decreases |pages| + 1 - page
  {
    match Answer(pages, page)
    case Err => Err
    case Ok(p) => if !p.hasNext then Ok(p.events) else Prepend(p.events, Gathered(pages, page + 1))
  }

  /** The listing requests for pages from, from + 1, …, from + n - 1. */
  function ShowMores(q: Query, from: int, n: nat): (r: seq<Request>)
    ensures |r| == n
    ensures forall i :: 0 <= i < n ==> r[i] == ShowMore(q.orgId, from + i, q.pageSize, q.kind)
  {
    if n == 0 then [] else ShowMores(q, from, n - 1) + [ShowMore(q.orgId, from + n - 1, q.pageSize, q.kind)]
  }

  /** The events of pages from, …, from + n - 1, concatenated in page order (a failing
      page contributes nothing). */
  function EventsOf(pages: seq<Result<Page>>, from: int, n: nat): seq<Event>
    decreases n
  {
    if n == 0 then []
    else (match Answer(pages, from) case Err => [] case Ok(p) => p.events) + EventsOf(pages, from + 1, n - 1)
  }

  /** `get_events` requests consecutive pages and stops right after the first that reports
      no next page (or raises): every page before that one was answered and has a next one. */
  lemma {:induction false} RequestedStopsAtFirstLast(pages: seq<Result<Page>>, page: nat)
    requires page >= 1
    ensures var n := Requested(pages, page);
      && (forall j :: page <= j < page + n - 1 ==> !IsLast(Answer(pages, j)))
      && IsLast(Answer(pages, page + n - 1))
    decreases |pages| + 1 - page
  {
    if !IsLast(Answer(pages, page)) {
      RequestedStopsAtFirstLast(pages, page + 1);
    }
  }

  /** The result of `get_events` is the in-order concatenation of the events of every page
      it requested, the last page included, unless that last page raised. */
  lemma {:induction false} GatheredConcatenates(pages: seq<Result<Page>>, page: nat)
    requires page >= 1
    ensures var n := Requested(pages, page);
      Gathered(pages, page) == if Answer(pages, page + n - 1).Err? then Err else Ok(EventsOf(pages, page, n))
    decreases |pages| + 1 - page
  {
    var n := Requested(pages, page);
    if !IsLast(Answer(pages, page)) {
      GatheredConcatenates(pages, page + 1);
      assert page + 1 + (n - 1) - 1 == page + n - 1;
    } else if Answer(pages, page).Ok? {
      var events := Answer(pages, page).value.events;
      assert EventsOf(pages, page, 1) == events + EventsOf(pages, page + 1, 0);
      assert events + [] == events;
    }
  }

  /** `get_all_events`: the future listing followed by the past one, or the exception of
      either. */
  function AllEvents(site: Site, orgId: string, pageSize: int): Result<seq<Event>>
  {
    match Gathered(site.pages(Query(orgId, Future, pageSize)), 1)
    case Err => Err
    case Ok(future) => Prepend(future, Gathered(site.pages(Query(orgId, Past, pageSize)), 1))
  }

  /** The requests of `get_all_events`: the future listing's, then, unless that raised,
      the past listing's. */
  function AllRequests(site: Site, orgId: string, pageSize: int): seq<Request>
  {
    var fq := Query(orgId, Future, pageSize);
    var pq := Query(orgId, Past, pageSize);
    var future := ShowMores(fq, 1, Requested(site.pages(fq), 1));
    if Gathered(site.pages(fq), 1).Err? then future
    else future + ShowMores(pq, 1, Requested(site.pages(pq), 1))
  }

  /** `get_all_events` succeeds exactly when both listings do, and then returns every
      future event before every past event, each listing in page order. */
  lemma AllEventsFutureThenPast(site: Site, orgId: string, pageSize: int)
    ensures var fp := site.pages(Query(orgId, Future, pageSize));
      var pp := site.pages(Query(orgId, Past, pageSize));
      var nf := Requested(fp, 1);
      var np := Requested(pp, 1);
      AllEvents(site, orgId, pageSize) ==
        if Answer(fp, nf).Err? || Answer(pp, np).Err? then Err
        else Ok(EventsOf(fp, 1, nf) + EventsOf(pp, 1, np))
  {
    GatheredConcatenates(site.pages(Query(orgId, Future, pageSize)), 1);
    GatheredConcatenates(site.pages(Query(orgId, Past, pageSize)), 1);
  }

  /** The `EventBrite` client object. Its session (headers, proxies, certificate checks) is
      not modelled; what it sends is recorded in `sent`. */
  class Client {
    const site: Site
    var sent: seq<Request>

    constructor (site: Site)
      ensures this.site == site && sent == []
    {
      this.site := site;
      sent := [];
    }

    /** `get_showmore`: one page of a listing; an error status raises. */
    method GetShowmore(orgId: string, page: int, pageSize: int, kind: Kind) returns (r: Result<Page>)
      modifies this
      ensures sent == old(sent) + [ShowMore(orgId, page, pageSize, kind)]
      ensures r == Answer(site.pages(Query(orgId, kind, pageSize)), page)
    {
      sent := sent + [ShowMore(orgId, page, pageSize, kind)];
      r := Answer(site.pages(Query(orgId, kind, pageSize)), page);
    }

    /** `get_structured_content`: an event's structured content; an error status raises. */
    method GetStructuredContent(eventId: string) returns (r: Result<Content>)
      modifies this
      ensures sent == old(sent) + [StructuredContent(eventId)]
      ensures r == site.content(eventId)
    {
      sent := sent + [StructuredContent(eventId)];
      r := site.content(eventId);
    }

    /** `get_events`: requests pages 1, 2, … while the last one had a next page, extending
      the list with each page's events; an exception of a page ends it. */
    method GetEvents(orgId: string, kind: Kind, pageSize: int) returns (r: Result<seq<Event>>)
      modifies this
      ensures var q := Query(orgId, kind, pageSize);
        sent == old(sent) + ShowMores(q, 1, Requested(site.pages(q), 1))
      ensures r == Gathered(site.pages(Query(orgId, kind, pageSize)), 1)
    {
      var q := Query(orgId, kind, pageSize);
      ghost var pages := site.pages(q);
      var events: seq<Event> := [];
      var page: nat := 1;
      var hasNext := true;
      PrependTwice([], [], Gathered(pages, 1));
      while hasNext
        invariant page >= 1
        invariant hasNext ==> page <= |pages| + 1
        invariant hasNext ==> Requested(pages, 1) == page - 1 + Requested(pages, page)
        invariant hasNext ==> Gathered(pages, 1) == Prepend(events, Gathered(pages, page))
        invariant !hasNext ==> Requested(pages, 1) == page - 1 && Gathered(pages, 1) == Ok(events)
        invariant sent == old(sent) + ShowMores(q, 1, page - 1)
        decreases |pages| + 1 - page
      {
        var answer := GetShowmore(orgId, page, pageSize, kind);
        if answer.Err? {
          return Err;
        }
        ghost var before := events;
        events := events + answer.value.events;
        hasNext := answer.value.hasNext;
        if hasNext {
          PrependTwice(before, answer.value.events, Gathered(pages, page + 1));
        }
        page := page + 1;
      }
      r := Ok(events);
    }

    /** `get_past_events`: the past listing, with the page size passed on. */
    method GetPastEvents(orgId: string, pageSize: int) returns (r: Result<seq<Event>>)
      modifies this
      ensures var q := Query(orgId, Past, pageSize);
        sent == old(sent) + ShowMores(q, 1, Requested(site.pages(q), 1))
      ensures r == Gathered(site.pages(Query(orgId, Past, pageSize)), 1)
    {
      r := GetEvents(orgId, Past, pageSize);
    }

    /** `get_future_events`: the future listing, with the page size passed on. */
    method GetFutureEvents(orgId: string, pageSize: int) returns (r: Result<seq<Event>>)
      modifies this
      ensures var q := Query(orgId, Future, pageSize);
        sent == old(sent) + ShowMores(q, 1, Requested(site.pages(q), 1))
      ensures r == Gathered(site.pages(Query(orgId, Future, pageSize)), 1)
    {
      r := GetEvents(orgId, Future, pageSize);
    }

    /** `get_all_events`: extends an empty list with the future events, then the past ones. */
    method GetAllEvents(orgId: string, pageSize: int) returns (r: Result<seq<Event>>)
      modifies this
      ensures sent == old(sent) + AllRequests(site, orgId, pageSize)
      ensures r == AllEvents(site, orgId, pageSize)
    {
      var events: seq<Event> := [];
      var future := GetFutureEvents(orgId, pageSize);
      if future.Err? {
        return Err;
      }
      events := events + future.value;
      var past := GetPastEvents(orgId, pageSize);
      if past.Err? {
        return Err;
      }
      events := events + past.value;
      assert events == future.value + past.value;
      r := Ok(events);
    }
  }
}
