/** Which requests are open, in terms of the events of a run. */
module CaptureOpen {
  import opened Wrappers
  import opened Text
  import opened NetworkCollector
  import opened CaptureSafety
  import opened CaptureRuns

  // ----- what one event says

  /** The content type of a request once a response was labelled with the one it came with. */
  function TypeAfter(c: Capture, id: string, contentType: string): string {
    if !Blank(contentType) || id !in c.bodies.resources then Trim(contentType) else c.bodies.resources[id].contentType
  }

  /** The request is tracked, or the table has room for it. */
  predicate HasPlace(c: Capture, id: string) {
    id in c.bodies.resources || |c.bodies.order| < c.limits.maxResources
  }

  /** Hosts of the page: its own, any below it, and either with a leading "www."; and requests without a host. */
  lemma HostsOfPage(baseHost: string, url: string, host: string)
    requires !Blank(baseHost) && !Blank(url)
    ensures var h := ToLower(if HasPrefix(host, "www.") then host[4..] else host);
            RelevantHost(baseHost, url, Some(host)) <==>
              h == "" || h == baseHost || exists p: string :: h == p + "." + baseHost
    ensures !RelevantHost(baseHost, url, None)
  {
    var h := ToLower(if HasPrefix(host, "www.") then host[4..] else host);
    var tail := "." + baseHost;
    if HasSuffix(h, tail) { assert h == h[..|h| - |tail|] + "." + baseHost; }
    if p: string :| h == p + "." + baseHost { assert h == p + tail; }
    hide ToLower, Blank;
  }

  /** A relevant response or web socket of a request that is tracked or for which there is room. */
  predicate Opens(c: Capture, e: Event, id: string) {
    match e
    case ResponseReceived(x, url, host, kind, _, mime, header) =>
      x == id && !Blank(id) && HasPlace(c, id)
      && RelevantResource(c.baseHost, kind, url, host, FirstNonEmpty(mime, header))
    case WebSocketCreated(x, url, host) =>
      x == id && !Blank(id) && HasPlace(c, id) && RelevantHost(c.baseHost, url, host)
    case _ => false
  }

  predicate OpensSocket(c: Capture, e: Event, id: string) { e.WebSocketCreated? && Opens(c, e, id) }

  predicate OpensSource(c: Capture, e: Event, id: string) {
    e.ResponseReceived? && Opens(c, e, id) && EqualFold(e.kind, "EventSource")
  }

  /** A response to XHR or fetch whose content type names a stream. */
  predicate OpensStream(c: Capture, e: Event, id: string) {
    && e.ResponseReceived? && Opens(c, e, id) && !EqualFold(e.kind, "EventSource")
    && ToLower(Trim(e.kind)) in {"xhr", "fetch"}
    && var t := ToLower(TypeAfter(c, id, FirstNonEmpty(e.mime, e.header)));
       Contains(t, "event-stream") || Contains(t, "ndjson") || Contains(t, "stream")
  }

  /** A message of a tracked request. */
  predicate Tells(c: Capture, e: Event, id: string) {
    e.EventSourceMessage? && e.id == id && !Blank(id) && id in c.bodies.resources
  }

  predicate Loaded(e: Event, id: string) { e.LoadingDone? && e.id == id && !Blank(id) }

  predicate Closed(e: Event, id: string) { e.WebSocketClosed? && e.id == id && !Blank(id) }

  /** A request that is done, closes its event source unless it succeeded and had messages as one. */
  predicate EndsSource(c: Capture, e: Event, id: string) {
    Loaded(e, id) && id in c.bodies.resources &&
    var r := c.bodies.resources[id];
    !(e.finished && r.messages != 0
      && (EqualFold(r.source, "event_source") || EqualFold(r.kind, "EventSource")
          || Contains(ToLower(r.contentType), "event-stream")))
  }

  // ----- what one event changes

  lemma AnyOfThree(t: string)
    ensures ContainsAny(t, ["event-stream", "ndjson", "stream"]) <==>
            Contains(t, "event-stream") || Contains(t, "ndjson") || Contains(t, "stream")
  {
    hide Contains;
    var ps := ["event-stream", "ndjson", "stream"];
    assert ps[1..] == ["ndjson", "stream"];
    assert ContainsAny(t, ["ndjson", "stream"]) <==> Contains(t, "ndjson") || Contains(t, "stream") by {
      assert ["ndjson", "stream"][1..] == ["stream"] && ["stream"][1..] == [];
      assert ContainsAny(t, ["stream"]) <==> Contains(t, "stream");
    }
  }

  lemma RelevantHasKind(baseHost: string, kind: string, url: string, host: Option<string>, contentType: string)
    ensures RelevantResource(baseHost, kind, url, host, contentType) ==> !Blank(kind)
  {
    hide RelevantHost, ApplicationData;
    assert ToLower("") == "";
  }

  /** The request after a response, as labelled with it. */
  function Labelled(c: Capture, e: Event): Resource
    requires e.ResponseReceived? && Opens(c, e, e.id)
  {
    Ensure(c.limits, c.bodies, e.id, e.url, Label(e.kind, FirstNonEmpty(e.mime, e.header), "response"))
      .resources[e.id].(status := e.status)
  }

  lemma LabelSays(c: Capture, e: Event)
    requires e.ResponseReceived? && Opens(c, e, e.id)
    ensures !Blank(e.kind) && Labelled(c, e).kind == Trim(e.kind) && Labelled(c, e).source == "response"
    ensures Labelled(c, e).contentType == TypeAfter(c, e.id, FirstNonEmpty(e.mime, e.header))
    ensures !EqualFold(e.kind, "EventSource") ==> (StreamingResponse(Labelled(c, e)) <==> OpensStream(c, e, e.id))
  {
    hide RelevantResource, FirstNonEmpty, ToLower;
    RelevantHasKind(c.baseHost, e.kind, e.url, e.host, FirstNonEmpty(e.mime, e.header));
    TrimShape(e.kind);
    TrimOfTrimmed(Trim(e.kind));
    assert Trim("response") == "response" by { TrimOfTrimmed("response"); }
    AnyOfThree(ToLower(TypeAfter(c, e.id, FirstNonEmpty(e.mime, e.header))));
  }

  /** A response that opens its request files it under the sets it belongs to. */
  lemma OpeningFiles(c: Capture, e: Event, now: int)
    requires e.ResponseReceived? && Opens(c, e, e.id)
    ensures var n := Step(c, e, now);
            && n.open.active == c.open.active + {e.id}
            && n.open.streams == c.open.streams + (if OpensStream(c, e, e.id) then {e.id} else {})
            && n.open.eventSources == c.open.eventSources + (if OpensSource(c, e, e.id) then {e.id} else {})
            && n.open.webSockets == c.open.webSockets
  {
    LabelSays(c, e);
    StreamIsOpened(c, e, e.id);
    hide RelevantHost, ApplicationData, TypeAfter, Relabel, RelevantResource, FetchesBody, FirstNonEmpty, ToLower;
    hide StreamingResponse, OpensStream;
  }

  lemma OtherwiseIdle(c: Capture, e: Event, now: int)
    requires c.limits.Valid() && e.ResponseReceived? && !Opens(c, e, e.id)
    ensures Step(c, e, now).open == c.open
  {
    hide RelevantResource, FirstNonEmpty, TrackResponse;
  }

  lemma ResponseOpens(c: Capture, e: Event, now: int, id: string)
    requires c.limits.Valid() && e.ResponseReceived?
    ensures var n := Step(c, e, now);
            && (id in n.open.active <==> Opens(c, e, id) || id in c.open.active)
            && (id in n.open.streams <==> OpensStream(c, e, id) || id in c.open.streams)
            && (id in n.open.eventSources <==> OpensSource(c, e, id) || id in c.open.eventSources)
            && n.open.webSockets == c.open.webSockets
  {
    if Opens(c, e, e.id) { OpeningFiles(c, e, now); } else { OtherwiseIdle(c, e, now); }
    StreamIsOpened(c, e, id);
    hide RelevantResource, OpensStream, Step;
  }

  lemma StreamIsOpened(c: Capture, e: Event, id: string)
    ensures OpensStream(c, e, id) ==>
              e.ResponseReceived? && id == e.id && Opens(c, e, id) && !EqualFold(e.kind, "EventSource")
  {
  }

  lemma OtherOpens(c: Capture, e: Event, now: int, id: string)
    requires c.limits.Valid() && !e.ResponseReceived?
    ensures var n := Step(c, e, now);
            && (id in n.open.active <==> Opens(c, e, id) || (id in c.open.active && !Loaded(e, id) && !Closed(e, id)))
            && (id in n.open.streams <==> id in c.open.streams && !Loaded(e, id))
            && (id in n.open.eventSources <==> Tells(c, e, id) || (id in c.open.eventSources && !EndsSource(c, e, id)))
            && (id in n.open.webSockets <==>
                  OpensSocket(c, e, id) || (id in c.open.webSockets && !Loaded(e, id) && !Closed(e, id)))
  {
    hide RelevantHost, FetchesBody, FirstNonEmpty, ToLower, Append;
  }

  // ----- what is open after a run

  /** At which positions of a run something opens or ends request id; each event is read in the state it meets. */
  ghost function Openings(c: Capture, es: seq<Timed>, id: string): nat -> bool {
    (k: nat) => k < |es| && Opens(Run(c, es[..k]), es[k].event, id)
  }

  ghost function SocketOpenings(c: Capture, es: seq<Timed>, id: string): nat -> bool {
    (k: nat) => k < |es| && OpensSocket(Run(c, es[..k]), es[k].event, id)
  }

  ghost function StreamOpenings(c: Capture, es: seq<Timed>, id: string): nat -> bool {
    (k: nat) => k < |es| && OpensStream(Run(c, es[..k]), es[k].event, id)
  }

  ghost function SourceOpenings(c: Capture, es: seq<Timed>, id: string): nat -> bool {
    (k: nat) => k < |es| && (OpensSource(Run(c, es[..k]), es[k].event, id) || Tells(Run(c, es[..k]), es[k].event, id))
  }

  ghost function SourceEnds(c: Capture, es: seq<Timed>, id: string): nat -> bool {
    (k: nat) => k < |es| && EndsSource(Run(c, es[..k]), es[k].event, id)
  }

  ghost function Ends(es: seq<Timed>, id: string): nat -> bool {
    (k: nat) => k < |es| && (Loaded(es[k].event, id) || Closed(es[k].event, id))
  }

  ghost function Loads(es: seq<Timed>, id: string): nat -> bool { (k: nat) => k < |es| && Loaded(es[k].event, id) }

  /** Something was opened at one of the first n positions and did not end since. */
  ghost predicate OpenSince(opens: nat -> bool, ends: nat -> bool, n: nat) {
    exists k: nat :: k < n && opens(k) && forall j: nat :: k < j < n ==> !ends(j)
  }

  lemma SinceStep(opens: nat -> bool, ends: nat -> bool, n: nat)
    ensures OpenSince(opens, ends, n + 1) <==> opens(n) || (OpenSince(opens, ends, n) && !ends(n))
  {
    if OpenSince(opens, ends, n) && !ends(n) {
      var k: nat :| k < n && opens(k) && forall j: nat :: k < j < n ==> !ends(j);
      assert forall j: nat :: k < j < n + 1 ==> !ends(j);
    }
    if OpenSince(opens, ends, n + 1) && !opens(n) {
      var k: nat :| k < n + 1 && opens(k) && forall j: nat :: k < j < n + 1 ==> !ends(j);
      assert forall j: nat :: k < j < n ==> !ends(j);
    }
    if opens(n) { assert forall j: nat :: n < j < n + 1 ==> !ends(j); }
  }

  lemma StillOpen(opens: nat -> bool, ends: nat -> bool, n: nat, was: bool, now: bool)
    requires was <==> OpenSince(opens, ends, n)
    requires now <==> opens(n) || (was && !ends(n))
    ensures now <==> OpenSince(opens, ends, n + 1)
  {
    SinceStep(opens, ends, n);
    hide OpenSince;
  }

  lemma StepOpens(c: Capture, e: Event, now: int, id: string)
    requires c.limits.Valid()
    ensures var n := Step(c, e, now);
            && (id in n.open.active <==> Opens(c, e, id) || (id in c.open.active && !Loaded(e, id) && !Closed(e, id)))
            && (id in n.open.streams <==> OpensStream(c, e, id) || (id in c.open.streams && !Loaded(e, id)))
            && (id in n.open.eventSources <==>
                  OpensSource(c, e, id) || Tells(c, e, id) || (id in c.open.eventSources && !EndsSource(c, e, id)))
            && (id in n.open.webSockets <==>
                  OpensSocket(c, e, id) || (id in c.open.webSockets && !Loaded(e, id) && !Closed(e, id)))
  {
    StreamIsOpened(c, e, id);
    hide Step, OpensStream;
    if e.ResponseReceived? { ResponseOpens(c, e, now, id); } else { OtherOpens(c, e, now, id); }
  }

  lemma RunStep(c: Capture, es: seq<Timed>, n: nat)
    requires n < |es|
    ensures Run(c, es[..n + 1]) == Step(Run(c, es[..n]), es[n].event, es[n].now)
  {
    assert es[..n + 1][..n] == es[..n];
  }

  /** What is open after the first n events is what was opened by one of them and not ended since. */
  ghost predicate OpenIs(c: Capture, es: seq<Timed>, id: string, n: nat)
    requires n <= |es|
  {
    var o := Run(c, es[..n]).open;
    && (id in o.active <==> OpenSince(Openings(c, es, id), Ends(es, id), n))
    && (id in o.streams <==> OpenSince(StreamOpenings(c, es, id), Loads(es, id), n))
    && (id in o.eventSources <==> OpenSince(SourceOpenings(c, es, id), SourceEnds(c, es, id), n))
    && (id in o.webSockets <==> OpenSince(SocketOpenings(c, es, id), Ends(es, id), n))
  }

  lemma ActiveMore(c: Capture, es: seq<Timed>, id: string, m: nat)
    requires m < |es| && Run(c, es[..m]).limits.Valid()
    requires id in Run(c, es[..m]).open.active <==> OpenSince(Openings(c, es, id), Ends(es, id), m)
    ensures id in Run(c, es[..m + 1]).open.active <==> OpenSince(Openings(c, es, id), Ends(es, id), m + 1)
  {
    RunStep(c, es, m);
    StepOpens(Run(c, es[..m]), es[m].event, es[m].now, id);
    hide Run, Step, Opens, Loaded, Closed, OpenSince;
    StillOpen(Openings(c, es, id), Ends(es, id), m, id in Run(c, es[..m]).open.active,
              id in Run(c, es[..m + 1]).open.active);
  }

  lemma StreamsMore(c: Capture, es: seq<Timed>, id: string, m: nat)
    requires m < |es| && Run(c, es[..m]).limits.Valid()
    requires id in Run(c, es[..m]).open.streams <==> OpenSince(StreamOpenings(c, es, id), Loads(es, id), m)
    ensures id in Run(c, es[..m + 1]).open.streams <==> OpenSince(StreamOpenings(c, es, id), Loads(es, id), m + 1)
  {
    RunStep(c, es, m);
    StepOpens(Run(c, es[..m]), es[m].event, es[m].now, id);
    hide Run, Step, OpensStream, Loaded, OpenSince;
    StillOpen(StreamOpenings(c, es, id), Loads(es, id), m, id in Run(c, es[..m]).open.streams,
              id in Run(c, es[..m + 1]).open.streams);
  }

  lemma SourcesMore(c: Capture, es: seq<Timed>, id: string, m: nat)
    requires m < |es| && Run(c, es[..m]).limits.Valid()
    requires id in Run(c, es[..m]).open.eventSources <==> OpenSince(SourceOpenings(c, es, id), SourceEnds(c, es, id), m)
    ensures id in Run(c, es[..m + 1]).open.eventSources <==>
              OpenSince(SourceOpenings(c, es, id), SourceEnds(c, es, id), m + 1)
  {
    RunStep(c, es, m);
    StepOpens(Run(c, es[..m]), es[m].event, es[m].now, id);
    hide Run, Step, OpensSource, Tells, EndsSource, OpenSince;
    StillOpen(SourceOpenings(c, es, id), SourceEnds(c, es, id), m, id in Run(c, es[..m]).open.eventSources,
              id in Run(c, es[..m + 1]).open.eventSources);
  }

  lemma SocketsMore(c: Capture, es: seq<Timed>, id: string, m: nat)
    requires m < |es| && Run(c, es[..m]).limits.Valid()
    requires id in Run(c, es[..m]).open.webSockets <==> OpenSince(SocketOpenings(c, es, id), Ends(es, id), m)
    ensures id in Run(c, es[..m + 1]).open.webSockets <==> OpenSince(SocketOpenings(c, es, id), Ends(es, id), m + 1)
  {
    RunStep(c, es, m);
    StepOpens(Run(c, es[..m]), es[m].event, es[m].now, id);
    hide Run, Step, OpensSocket, Loaded, Closed, OpenSince;
    StillOpen(SocketOpenings(c, es, id), Ends(es, id), m, id in Run(c, es[..m]).open.webSockets,
              id in Run(c, es[..m + 1]).open.webSockets);
  }

  lemma NothingOpen(c: Capture, es: seq<Timed>, id: string)
    requires Initial(c)
    ensures OpenIs(c, es, id, 0)
  {
    assert es[..0] == [];
  }

  /** In every run, the open sets hold exactly the requests that were opened and did not end since. */
  lemma {:induction false} OpenUntilEnded(c: Capture, es: seq<Timed>, id: string, n: nat)
    requires Initial(c) && n <= |es|
    ensures OpenIs(c, es, id, n)
  {
    if n == 0 {
      NothingOpen(c, es, id);
    } else {
      var m := n - 1;
      OpenUntilEnded(c, es, id, m);
      RunKeepsLimits(c, es[..m]);
      hide Run, OpenSince, Openings, StreamOpenings, SourceOpenings, SocketOpenings, Ends, Loads, SourceEnds;
      ActiveMore(c, es, id, m);
      StreamsMore(c, es, id, m);
      SourcesMore(c, es, id, m);
      SocketsMore(c, es, id, m);
    }
  }
}
