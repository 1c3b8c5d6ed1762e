/** The `download` command up to the point where the workers start: it lists the events,
    extracts their StreamYard URLs, turns each URL into a downloadable VOD entry
    (registering first where the webinar asks for it), and fills the queue the workers
    share with the entries and one sentinel per thread. */
module DownloadCommand {
  import opened Common
  import EB = EventBrite
  import H = Helpers
  import SY = StreamYard
  import opened Runtime
  import opened Downloader

  // ---------------------------------------------------------------------------------------
  // StreamYard URLs of the events
  // ---------------------------------------------------------------------------------------

  /** The URL loop of `cli`: for each event, its structured content and the URLs of its
      webinar modules. Unlike `get_streamyard_links` it does not read `name.text`; a missing
      `id` raises inside the `try`, and the KeyError handler reads `id` again, so the
      command aborts there. */
  method WebinarUrls(client: EB.Client, events: seq<EB.Event>) returns (r: Result<seq<string>>)
    modifies client
    ensures client.sent == old(client.sent) + H.ContentRequests(events, false)
    ensures r == H.Links(client.site, events, false)
  {
    var urls: seq<string> := [];
    var i := 0;
    PrependTwice([], [], H.Links(client.site, events, false));
    assert events[0..] == events;
    while i < |events|
      invariant 0 <= i <= |events|
      invariant Prepend(urls, H.Links(client.site, events[i..], false)) == H.Links(client.site, events, false)
      invariant client.sent + H.ContentRequests(events[i..], false) == old(client.sent) + H.ContentRequests(events, false)
    {
      var event := events[i];
      assert events[i..][0] == event && events[i..][1..] == events[i + 1..];
      if event.id.None? {
        assert H.ContentRequests(events[i..], false) == [];
        assert client.sent + [] == client.sent;
        return Err;
      }
      ghost var sentBefore := client.sent;
      assert H.ContentRequests(events[i..], false) == [EB.StructuredContent(event.id.value)] + H.ContentRequests(events[i + 1..], false);
      var eventData := client.GetStructuredContent(event.id.value);
      assert sentBefore + H.ContentRequests(events[i..], false) == client.sent + H.ContentRequests(events[i + 1..], false);
      ghost var before := urls;
      if eventData.Ok? && eventData.value.modules.Some? {
        var keyError;
        urls, keyError := H.ScanModules(urls, eventData.value.modules.value);
      }
      assert urls == before + H.EventLinks(client.site.content(event.id.value));
      PrependTwice(before, H.EventLinks(client.site.content(event.id.value)), H.Links(client.site, events[i + 1..], false));
      i := i + 1;
    }
    assert events[i..] == [];
    assert client.sent + [] == client.sent;
    assert urls + [] == urls;
    r := Ok(urls);
  }

  // ---------------------------------------------------------------------------------------
  // VOD entries
  // ---------------------------------------------------------------------------------------

  /** Information from which an entry is appended: `vodUrl` is present, `isVodMediaDeleted`
      is present and not `true`, and `title` and `vodPosterUrl` are present (a missing key
      raises inside the `try`, which skips the URL). */
  predicate Usable(info: SY.Info)
  {
    && info.vodUrl.Some?
    && info.vodDeleted == Some(false)
    && info.title.Some?
    && info.vodPosterUrl.Some?
  }

  /** The entry appended for usable information. */
  function EntryOf(info: SY.Info): Entry
    requires Usable(info)
  {
    Entry(info.title.value, info.vodUrl.value, info.vodPosterUrl.value)
  }

  /** The entry, if any, that the information fetched last yields. */
  function Keep(fetched: Result<SY.Info>): Option<Entry>
  {
    if fetched.Ok? && Usable(fetched.value) then Some(EntryOf(fetched.value)) else None
  }

  /** The client after one URL, and the entry appended for it, if any. */
  datatype Vod = Vod(state: SY.State, entry: Option<Entry>)

  /** The `try` block for one URL: fetch the information; if `isRegistrationEnabled` is
      `true`, register and fetch again; then append the entry if the information allows.
      Every exception (an error status, a missing key, a missing or deleted VOD) skips
      the URL. */
  function VodSpec(site: SY.Site, s: SY.State, url: string, email: string, firstName: string, lastName: string): Vod
  {
    var first := SY.InfoSpec(site, s, url);
    if first.info.Err? || first.info.value.registrationEnabled.None? then Vod(first.state, None)
    else if first.info.value.registrationEnabled == Some(true) then
      var posted := SY.RegisterSpec(site, first.state, url, first.info.value, email, firstName, lastName);
      if !posted.ok then Vod(posted.state, None)
      else
        var again := SY.InfoSpec(site, posted.state, url);
        Vod(again.state, Keep(again.info))
    else Vod(first.state, Keep(first.info))
  }

  /** The client after a list of URLs, and the entries appended. */
  datatype Collected = Collected(state: SY.State, entries: seq<Entry>)

  /** The loop over the URLs: each URL's entry, in URL order. */
  function CollectFrom(site: SY.Site, s: SY.State, urls: seq<string>, email: string, firstName: string, lastName: string): Collected
    decreases |urls|
  {
    if urls == [] then Collected(s, [])
    else
      var v := VodSpec(site, s, urls[0], email, firstName, lastName);
      var rest := CollectFrom(site, v.state, urls[1..], email, firstName, lastName);
      Collected(rest.state, (if v.entry.Some? then [v.entry.value] else []) + rest.entries)
  }

  /** Whether a list of requests holds a registration. */
  predicate HasRegistration(requests: seq<SY.Request>)
  {
    exists i :: 0 <= i < |requests| && requests[i].Register?
  }

  /** An entry is appended only from information the API gave for the URL's webinar id that
      has a VOD URL and is not marked deleted, and the entry carries that information's
      title, VOD URL and poster. */
  lemma VodOnlyFromAvailable(site: SY.Site, s: SY.State, url: string, email: string, firstName: string, lastName: string)
    requires VodSpec(site, s, url, email, firstName, lastName).entry.Some?
    ensures var e := VodSpec(site, s, url, email, firstName, lastName).entry.value;
      exists registered: bool ::
        && site.api(SY.WebinarId(url), registered).Ok?
        && var info := site.api(SY.WebinarId(url), registered).value;
        && info.vodUrl == Some(e.url) && info.vodDeleted == Some(false)
        && info.title == Some(e.title) && info.vodPosterUrl == Some(e.poster)
  {
    var id := SY.WebinarId(url);
    var first := SY.InfoSpec(site, s, url);
    SY.InfoRequests(site, s, url);
    if first.info.value.registrationEnabled == Some(true) {
      var posted := SY.RegisterSpec(site, first.state, url, first.info.value, email, firstName, lastName);
      SY.InfoRequests(site, posted.state, url);
      var registered := id in posted.state.registered;
      assert site.api(id, registered) == SY.InfoSpec(site, posted.state, url).info;
    } else {
      var registered := id in s.registered;
      assert site.api(id, registered) == first.info;
    }
  }

  /** A registration is among the requests of a concatenation exactly when it is among
      those of one of the parts. */
  lemma RegistrationIn(a: seq<SY.Request>, b: seq<SY.Request>)
    ensures HasRegistration(a + b) <==> HasRegistration(a) || HasRegistration(b)
  {
    if HasRegistration(a + b) {
      var i :| 0 <= i < |a + b| && (a + b)[i].Register?;
      if i >= |a| {
        assert b[i - |a|] == (a + b)[i];
      }
    }
    if HasRegistration(a) {
      var i :| 0 <= i < |a| && a[i].Register?;
      assert (a + b)[i] == a[i];
    }
    if HasRegistration(b) {
      var i :| 0 <= i < |b| && b[i].Register?;
      assert (a + b)[|a| + i] == b[i];
    }
  }

  /** Fetching the information extends the requests and posts no registration. */
  lemma InfoPostsNothing(site: SY.Site, s: SY.State, url: string)
    ensures var sent := SY.InfoSpec(site, s, url).state.sent;
      |s.sent| <= |sent| && sent == s.sent + sent[|s.sent|..] && !HasRegistration(sent[|s.sent|..])
  {
    SY.InfoRequests(site, s, url);
    var sent := SY.InfoSpec(site, s, url).state.sent;
    var id := SY.WebinarId(url);
    var added := if s.hasJwt then [SY.WebinarApi(id)]
      else if site.landing(url).ok then [SY.Landing(url), SY.WebinarApi(id)]
      else [SY.Landing(url)];
    assert sent == s.sent + added;
    assert sent[|s.sent|..] == added;
    forall i | 0 <= i < |added|
      ensures !added[i].Register?
    {
      assert added[i] == SY.Landing(url) || added[i] == SY.WebinarApi(id);
    }
  }

  /** A registration is posted for a URL exactly when the first information fetched says
      `isRegistrationEnabled` is `true` and the form can be filled in; the requests of
      the URL extend those sent before. */
  lemma VodRegistersOnlyWhenEnabled(site: SY.Site, s: SY.State, url: string, email: string, firstName: string, lastName: string)
    ensures var v := VodSpec(site, s, url, email, firstName, lastName);
      var first := SY.InfoSpec(site, s, url).info;
      && |s.sent| <= |v.state.sent| && v.state.sent[..|s.sent|] == s.sent
      && (HasRegistration(v.state.sent[|s.sent|..]) <==>
            && first.Ok? && first.value.registrationEnabled == Some(true)
            && SY.BuildRegistration(first.value, email, firstName, lastName).Ok?)
  {
    var v := VodSpec(site, s, url, email, firstName, lastName);
    var f := SY.InfoSpec(site, s, url);
    InfoPostsNothing(site, s, url);
    var mid := f.state.sent[|s.sent|..];
    if f.info.Ok? && f.info.value.registrationEnabled == Some(true) {
      var posted := SY.RegisterSpec(site, f.state, url, f.info.value, email, firstName, lastName);
      match SY.BuildRegistration(f.info.value, email, firstName, lastName)
      case Err =>
        assert v.state.sent == f.state.sent;
      case Ok(p) =>
        var reg := SY.Register(SY.WebinarId(url), p);
        assert posted.state.sent == f.state.sent + [reg];
        assert HasRegistration([reg]) by { assert [reg][0] == reg; }
        RegistrationIn(mid, [reg]);
        if posted.ok {
          InfoPostsNothing(site, posted.state, url);
          var tail := v.state.sent[|posted.state.sent|..];
          assert v.state.sent == s.sent + ((mid + [reg]) + tail);
          RegistrationIn(mid + [reg], tail);
          assert v.state.sent[|s.sent|..] == (mid + [reg]) + tail;
        } else {
          assert v.state.sent == s.sent + (mid + [reg]);
          assert v.state.sent[|s.sent|..] == mid + [reg];
        }
    } else {
      assert v.state.sent == f.state.sent;
    }
  }

  /** URL order: the entries of a concatenation of URL lists are those of the first list
      followed by those of the second, taken from where the first left the client. */
  lemma {:induction false} CollectAppend(site: SY.Site, s: SY.State, a: seq<string>, b: seq<string>, email: string, firstName: string, lastName: string)
    ensures var ca := CollectFrom(site, s, a, email, firstName, lastName);
      var cb := CollectFrom(site, ca.state, b, email, firstName, lastName);
      CollectFrom(site, s, a + b, email, firstName, lastName) == Collected(cb.state, ca.entries + cb.entries)
    decreases |a|
  {
    if a == [] {
      assert a + b == b;
    } else {
      assert (a + b)[0] == a[0] && (a + b)[1..] == a[1..] + b;
      var v := VodSpec(site, s, a[0], email, firstName, lastName);
      CollectAppend(site, v.state, a[1..], b, email, firstName, lastName);
      var head := if v.entry.Some? then [v.entry.value] else [];
      var ca := CollectFrom(site, v.state, a[1..], email, firstName, lastName);
      var cb := CollectFrom(site, ca.state, b, email, firstName, lastName);
      assert head + (ca.entries + cb.entries) == (head + ca.entries) + cb.entries;
    }
  }

  /** At most one entry per URL. */
  lemma {:induction false} CollectAtMostOnePerUrl(site: SY.Site, s: SY.State, urls: seq<string>, email: string, firstName: string, lastName: string)
    ensures |CollectFrom(site, s, urls, email, firstName, lastName).entries| <= |urls|
    decreases |urls|
  {
    if urls != [] {
      var v := VodSpec(site, s, urls[0], email, firstName, lastName);
      CollectAtMostOnePerUrl(site, v.state, urls[1..], email, firstName, lastName);
    }
  }

  /** The body of the `try` for one URL. */
  method FetchVod(sy: SY.Client, url: string, email: string, firstName: string, lastName: string) returns (entry: Option<Entry>)
    modifies sy
    ensures sy.Snap() == VodSpec(sy.site, old(sy.Snap()), url, email, firstName, lastName).state
    ensures entry == VodSpec(sy.site, old(sy.Snap()), url, email, firstName, lastName).entry
  {
    var data := sy.GetWebinarInfo(url);
    if data.Err? || data.value.registrationEnabled.None? {
      return None;
    }
    if data.value.registrationEnabled.value {
      var ok := sy.RegisterWebinar(url, data.value, email, firstName, lastName);
      if !ok {
        return None;
      }
      data := sy.GetWebinarInfo(url);
      if data.Err? {
        return None;
      }
    }
    var info := data.value;
    if info.vodUrl.None? || info.vodDeleted != Some(false) || info.title.None? || info.vodPosterUrl.None? {
      return None;
    }
    entry := Some(Entry(info.title.value, info.vodUrl.value, info.vodPosterUrl.value));
  }

  /** The loop over the URLs, appending to `vod_download_data`. */
  method CollectVods(sy: SY.Client, urls: seq<string>, email: string, firstName: string, lastName: string) returns (vods: seq<Entry>)
    modifies sy
    ensures sy.Snap() == CollectFrom(sy.site, old(sy.Snap()), urls, email, firstName, lastName).state
    ensures vods == CollectFrom(sy.site, old(sy.Snap()), urls, email, firstName, lastName).entries
  {
    ghost var whole := CollectFrom(sy.site, sy.Snap(), urls, email, firstName, lastName);
    vods := [];
    var i := 0;
    assert urls[0..] == urls;
    while i < |urls|
      invariant 0 <= i <= |urls|
      invariant CollectFrom(sy.site, sy.Snap(), urls[i..], email, firstName, lastName).state == whole.state
      invariant vods + CollectFrom(sy.site, sy.Snap(), urls[i..], email, firstName, lastName).entries == whole.entries
    {
      assert urls[i..][0] == urls[i] && urls[i..][1..] == urls[i + 1..];
      ghost var rest := CollectFrom(sy.site, sy.Snap(), urls[i..], email, firstName, lastName);
      var entry := FetchVod(sy, urls[i], email, firstName, lastName);
      ghost var later := CollectFrom(sy.site, sy.Snap(), urls[i + 1..], email, firstName, lastName);
      var found := if entry.Some? then [entry.value] else [];
      assert rest.entries == found + later.entries;
      vods := vods + found;
      i := i + 1;
    }
    assert urls[i..] == [];
    assert vods + [] == vods;
  }

  // ---------------------------------------------------------------------------------------
  // The queue
  // ---------------------------------------------------------------------------------------

  /** The queue holds every entry in order, then exactly `threads` sentinels (none for a
      non-positive count), and nothing else. */
  lemma QueueForShape(vods: seq<Entry>, threads: int)
    ensures var q := QueueFor(vods, threads);
      var k := if threads > 0 then threads else 0;
      && |q| == |vods| + k
      && (forall i :: 0 <= i < |vods| ==> q[i] == Job(vods[i]))
      && (forall i :: |vods| <= i < |q| ==> q[i] == Sentinel)
  {
    var k := if threads > 0 then threads else 0;
    var q := QueueFor(vods, threads);
    forall i | |vods| <= i < |q|
      ensures q[i] == Sentinel
    {
      assert q[i] == Sentinels(k)[i - |vods|];
    }
  }

  /** The queue of `cli`: one `put` per entry, then one sentinel per worker started. */
  method PrepareQueue(vods: seq<Entry>, threads: int) returns (queue: JobQueue<Item>)
    ensures fresh(queue)
    ensures queue.items == QueueFor(vods, threads)
    ensures queue.unfinished == |vods| + (if threads > 0 then threads else 0)
  {
    queue := new JobQueue<Item>();
    var i := 0;
    while i < |vods|
      invariant 0 <= i <= |vods|
      invariant queue.items == Jobs(vods[..i]) && queue.unfinished == i
    {
      assert vods[..i + 1][..i] == vods[..i];
      queue.Put(Job(vods[i]));
      i := i + 1;
    }
    assert vods[..i] == vods;
    var t := 0;
    while t < threads
      invariant 0 <= t && (threads > 0 ==> t <= threads) && (threads <= 0 ==> t == 0)
      invariant queue.items == Jobs(vods) + Sentinels(t) && queue.unfinished == |vods| + t
    {
      queue.Put(Sentinel);
      t := t + 1;
    }
    assert t == (if threads > 0 then threads else 0);
  }

  // ---------------------------------------------------------------------------------------
  // The command
  // ---------------------------------------------------------------------------------------

  /** What `cli` has gathered when the workers start: the StreamYard URLs and the VOD
      entries. */
  datatype Prepared = Prepared(urls: seq<string>, vods: seq<Entry>)

  /** `cli` up to the workers: the events are listed twice (the first listing is only
      counted, the second is used), their URLs extracted, a new StreamYard client turns
      them into VOD entries, and the queue is filled. An exception of a listing or of the
      URL loop aborts the command. */
  method Cli(eventbrite: EB.Client, streamyardSite: SY.Site, orgId: string, pageSize: int, threads: int,
             email: string, firstName: string, lastName: string)
    returns (r: Result<Prepared>, queue: JobQueue<Item>)
    modifies eventbrite
    ensures var events := EB.AllEvents(eventbrite.site, orgId, pageSize);
      r.Ok? <==> events.Ok? && H.Links(eventbrite.site, events.value, false).Ok?
    ensures r.Ok? ==>
      var events := EB.AllEvents(eventbrite.site, orgId, pageSize).value;
      var urls := H.Links(eventbrite.site, events, false).value;
      var c := CollectFrom(streamyardSite, SY.State(false, {}, []), urls, email, firstName, lastName);
      && r.value == Prepared(urls, c.entries)
      && fresh(queue) && queue.items == QueueFor(c.entries, threads)
      && queue.unfinished == |queue.items|
      && eventbrite.sent == old(eventbrite.sent) + EB.AllRequests(eventbrite.site, orgId, pageSize)
           + EB.AllRequests(eventbrite.site, orgId, pageSize) + H.ContentRequests(events, false)
  {
    queue := new JobQueue<Item>();
    var listed := eventbrite.GetAllEvents(orgId, pageSize);
    if listed.Err? {
      return Err, queue;
    }
    var events := eventbrite.GetAllEvents(orgId, pageSize);
    if events.Err? {
      return Err, queue;
    }
    var urls := WebinarUrls(eventbrite, events.value);
    if urls.Err? {
      return Err, queue;
    }
    var streamyard := new SY.Client(streamyardSite);
    var vods := CollectVods(streamyard, urls.value, email, firstName, lastName);
    queue := PrepareQueue(vods, threads);
    r := Ok(Prepared(urls.value, vods));
  }
}
