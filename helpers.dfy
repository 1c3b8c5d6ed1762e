/** `get_streamyard_links`: the StreamYard webinar URLs named in the structured content of a
    list of events. The same extraction is repeated inside the `download` command, which
    reuses the definitions here. */
module Helpers {
  import opened Common
  import opened EventBrite

  const WebinarType: string := "webinar"

  /** Reading `x["type"]`, or `x["data"]["webinar_url"]["url"]` of a webinar module,
      raises KeyError. */
  predicate Broken(m: Module)
  {
    m.kind.None? || (m.kind == Some(WebinarType) && m.webinarUrl.None?)
  }

  /** What the scan of a module list yields: the URLs appended, and whether a KeyError
      ended it early. */
  datatype Scanned = Scanned(urls: seq<string>, keyError: bool)

  /** The `for x in event_data["modules"]` loop: every webinar module appends its URL, the
      others are passed over, and a missing key raises, ending the scan with the URLs
      appended so far. */
  function Scan(ms: seq<Module>): Scanned
  {
    if ms == [] then Scanned([], false)
    else if Broken(ms[0]) then Scanned([], true)
    else
      var rest := Scan(ms[1..]);
      if ms[0].kind == Some(WebinarType) then Scanned([ms[0].webinarUrl.value] + rest.urls, rest.keyError)
      else rest
  }

  /** The URLs of the webinar modules of a list, in order: the reference filter. */
  function WebinarUrls(ms: seq<Module>): seq<string>
  {
    if ms == [] then []
    else
      var here := if ms[0].kind == Some(WebinarType) && ms[0].webinarUrl.Some? then [ms[0].webinarUrl.value] else [];
      here + WebinarUrls(ms[1..])
  }

  /** The index of the first module whose keys are missing, or the length of the list. */
  function FirstBroken(ms: seq<Module>): (k: nat)
    ensures k <= |ms|
    ensures forall i :: 0 <= i < k ==> !Broken(ms[i])
    ensures k < |ms| ==> Broken(ms[k])
  {
    if ms == [] then 0 else if Broken(ms[0]) then 0 else 1 + FirstBroken(ms[1..])
  }

  /** The scan yields exactly the webinar URLs before the first module with a missing key,
      in module order, and it ends with a KeyError exactly when there is such a module:
      the URLs appended before the error stay. */
  lemma {:induction false} ScanKeepsPrefix(ms: seq<Module>)
    ensures Scan(ms).urls == WebinarUrls(ms[..FirstBroken(ms)])
    ensures Scan(ms).keyError <==> FirstBroken(ms) < |ms|
  {
    if ms != [] && !Broken(ms[0]) {
      ScanKeepsPrefix(ms[1..]);
      assert ms[..FirstBroken(ms)][1..] == ms[1..][..FirstBroken(ms[1..])];
    }
    if ms != [] && Broken(ms[0]) {
      assert ms[..FirstBroken(ms)] == [];
    }
  }

  /** Only webinar modules contribute, and each contributes its own URL: a URL is in the
      filter exactly when some webinar module of the list carries it. */
  lemma {:induction false} WebinarUrlsMembers(ms: seq<Module>, u: string)
    ensures u in WebinarUrls(ms) <==>
      exists i :: 0 <= i < |ms| && ms[i].kind == Some(WebinarType) && ms[i].webinarUrl == Some(u)
  {
    if ms != [] {
      WebinarUrlsMembers(ms[1..], u);
      if exists i :: 0 <= i < |ms| && ms[i].kind == Some(WebinarType) && ms[i].webinarUrl == Some(u) {
        var i :| 0 <= i < |ms| && ms[i].kind == Some(WebinarType) && ms[i].webinarUrl == Some(u);
        if i > 0 {
          assert ms[1..][i - 1] == ms[i];
        }
      }
      if exists i :: 0 <= i < |ms[1..]| && ms[1..][i].kind == Some(WebinarType) && ms[1..][i].webinarUrl == Some(u) {
        var i :| 0 <= i < |ms[1..]| && ms[1..][i].kind == Some(WebinarType) && ms[1..][i].webinarUrl == Some(u);
        assert ms[i + 1] == ms[1..][i];
      }
    }
  }

  /** The filter keeps module order: filtering a concatenation concatenates the filters. */
  lemma {:induction false} WebinarUrlsAppend(a: seq<Module>, b: seq<Module>)
    ensures WebinarUrls(a + b) == WebinarUrls(a) + WebinarUrls(b)
  {
    if a == [] {
      assert a + b == b;
    } else {
      assert (a + b)[1..] == a[1..] + b;
      WebinarUrlsAppend(a[1..], b);
    }
  }

  /** The URLs one event contributes: none when its content request raised an HTTPError
      or its content has no `modules`, otherwise what the scan of its modules yields. */
  function EventLinks(content: Result<Content>): seq<string>
  {
    match content
    case Err => []
    case Ok(c) => if c.modules.None? then [] else Scan(c.modules.value).urls
  }

  /** Whether the keys the loop reads outside its `try` are present: `id`, and, when the
      loop logs the event's name first, `name.text`. */
  predicate Readable(e: Event, needsName: bool)
  {
    e.id.Some? && (needsName ==> e.nameText.Some?)
  }

  /** What the loop over the events yields: each event's URLs in event order, or a
      KeyError that aborts the whole command. */
  function Links(site: Site, events: seq<Event>, needsName: bool): Result<seq<string>>
  {
    if events == [] then Ok([])
    else if !Readable(events[0], needsName) then Err
    else Prepend(EventLinks(site.content(events[0].id.value)), Links(site, events[1..], needsName))
  }

  /** The structured-content requests the loop sends: one per event, in order, up to the
      first event whose keys are missing. */
  function ContentRequests(events: seq<Event>, needsName: bool): seq<Request>
  {
    if events == [] || !Readable(events[0], needsName) then []
    else [StructuredContent(events[0].id.value)] + ContentRequests(events[1..], needsName)
  }

  /** Per-event containment: an event whose content request raised contributes nothing and
      the later events are still processed. */
  lemma FailedEventContributesNothing(site: Site, e: Event, rest: seq<Event>, needsName: bool)
    requires Readable(e, needsName) && site.content(e.id.value).Err?
    ensures Links(site, [e] + rest, needsName) == Links(site, rest, needsName)
  {
    assert ([e] + rest)[1..] == rest;
    PrependTwice([], [], Links(site, rest, needsName));
  }

  /** The loop aborts exactly when some event lacks a key it reads outside the `try`. */
  lemma {:induction false} LinksAbort(site: Site, events: seq<Event>, needsName: bool)
    ensures Links(site, events, needsName).Err? <==>
      exists i :: 0 <= i < |events| && !Readable(events[i], needsName)
  {
    if events != [] {
      LinksAbort(site, events[1..], needsName);
      if exists i :: 0 <= i < |events[1..]| && !Readable(events[1..][i], needsName) {
        var i :| 0 <= i < |events[1..]| && !Readable(events[1..][i], needsName);
        assert events[i + 1] == events[1..][i];
      }
      if exists i :: 0 <= i < |events| && !Readable(events[i], needsName) {
        var i :| 0 <= i < |events| && !Readable(events[i], needsName);
        if i > 0 {
          assert events[1..][i - 1] == events[i];
        }
      }
    }
  }

  /** Event order: the URLs of a concatenation of readable event lists are the URLs of the
      first list followed by those of the second. */
  lemma {:induction false} LinksAppend(site: Site, a: seq<Event>, b: seq<Event>, needsName: bool)
    requires Links(site, a, needsName).Ok?
    ensures Links(site, a + b, needsName) == Prepend(Links(site, a, needsName).value, Links(site, b, needsName))
  {
    if a == [] {
      assert a + b == b;
      PrependTwice([], [], Links(site, b, needsName));
    } else {
      assert (a + b)[1..] == a[1..] + b;
      assert (a + b)[0] == a[0];
      LinksAppend(site, a[1..], b, needsName);
      PrependTwice(EventLinks(site.content(a[0].id.value)), Links(site, a[1..], needsName).value,
        Links(site, b, needsName));
    }
  }

  /** The inner `for x in event_data["modules"]` loop, appending to `urls`. */
  method ScanModules(urls: seq<string>, ms: seq<Module>) returns (out: seq<string>, keyError: bool)
    ensures out == urls + Scan(ms).urls && keyError == Scan(ms).keyError
  {
    out := urls;
    var i := 0;
    while i < |ms|
      invariant 0 <= i <= |ms|
      invariant out + Scan(ms[i..]).urls == urls + Scan(ms).urls
      invariant Scan(ms[i..]).keyError == Scan(ms).keyError
    {
      var x := ms[i];
      assert ms[i..][1..] == ms[i + 1..];
      if x.kind.None? {
        return out, true;
      }
      if x.kind.value == WebinarType {
        if x.webinarUrl.None? {
          return out, true;
        }
        assert out + Scan(ms[i..]).urls == (out + [x.webinarUrl.value]) + Scan(ms[i + 1..]).urls;
        out := out + [x.webinarUrl.value];
      }
      i := i + 1;
    }
    assert ms[i..] == [];
    keyError := false;
  }

  /** `get_streamyard_links`: logs each event's id and `name.text` (outside the `try`), then
      requests its structured content and appends the URLs of its webinar modules; an
      HTTPError or a KeyError inside the `try` is logged and the next event follows. */
  method GetStreamyardLinks(client: Client, data: seq<Event>) returns (r: Result<seq<string>>)
    modifies client
    ensures client.sent == old(client.sent) + ContentRequests(data, true)
    ensures r == Links(client.site, data, true)
  {
    var urls: seq<string> := [];
    var i := 0;
    PrependTwice([], [], Links(client.site, data, true));
    assert data[0..] == data;
    while i < |data|
      invariant 0 <= i <= |data|
      invariant Prepend(urls, Links(client.site, data[i..], true)) == Links(client.site, data, true)
      invariant client.sent + ContentRequests(data[i..], true) == old(client.sent) + ContentRequests(data, true)
    {
      var event := data[i];
      assert data[i..][0] == event && data[i..][1..] == data[i + 1..];
      if event.id.None? || event.nameText.None? {
        assert ContentRequests(data[i..], true) == [];
        assert client.sent + [] == client.sent;
        return Err;
      }
      ghost var sentBefore := client.sent;
      assert ContentRequests(data[i..], true) == [StructuredContent(event.id.value)] + ContentRequests(data[i + 1..], true);
      var eventData := client.GetStructuredContent(event.id.value);
      assert sentBefore + ContentRequests(data[i..], true) == client.sent + ContentRequests(data[i + 1..], true);
      ghost var before := urls;
      if eventData.Ok? && eventData.value.modules.Some? {
        var keyError;
        urls, keyError := ScanModules(urls, eventData.value.modules.value);
      }
      assert urls == before + EventLinks(client.site.content(event.id.value));
      PrependTwice(before, EventLinks(client.site.content(event.id.value)), Links(client.site, data[i + 1..], true));
      i := i + 1;
    }
    assert data[i..] == [];
    assert client.sent + [] == client.sent;
    assert urls + [] == urls;
    r := Ok(urls);
  }
}
