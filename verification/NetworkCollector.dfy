/**
 * The network capture collector: a state machine over DevTools events with byte, resource and
 * message budgets. An event carries the decoded fields of one message; `host` is the host of its
 * URL, absent when the URL does not parse. The specification is a function on Capture; class
 * Collector performs the field updates in source order.
 */
module NetworkCollector {
  import opened Wrappers
  import opened Text

  datatype Resource = Resource(
    url: string, kind: string, contentType: string, source: string, status: int,
    body: string, bodyBytes: int, truncated: bool, messages: int, finished: bool)

  /** What a request is taken for: resource type, content type and where its text comes from. */
  datatype Label = Label(kind: string, contentType: string, source: string)

  const SOCKET := Label("WebSocket", "text/plain", "websocket")
  const EVENTS := Label("EventSource", "text/event-stream", "event_source")

  datatype Limits = Limits(maxBytes: int, resourceMaxBytes: int, maxResources: int, maxMessages: int) {
    predicate Valid() { 0 < maxBytes && 0 < resourceMaxBytes && 0 < maxResources && 0 < maxMessages }
  }

  /** What was captured: the resources, in order of first sight, and the bytes they hold together. */
  datatype Bodies = Bodies(resources: map<string, Resource>, order: seq<string>, totalBytes: int, truncated: bool)

  /** The requests still open, and the finished ones whose body has yet to be asked for. */
  datatype Open = Open(
    active: set<string>, eventSources: set<string>, streams: set<string>, webSockets: set<string>,
    pending: set<string>)

  datatype Tally = Tally(httpRequests: int, eventSourceMessages: int, webSocketMessages: int, unavailable: int)

  datatype Clock = Clock(activity: int, eventSource: Option<int>, stream: Option<int>)

  datatype Capture = Capture(
    limits: Limits, baseHost: string, bodies: Bodies, open: Open, tally: Tally, clock: Clock, idleReason: string)

  datatype Event =
    | RequestSent(id: string, http: bool)
    | ResponseReceived(id: string, url: string, host: Option<string>, kind: string, status: int,
                       mime: string, header: string)
    | LoadingDone(id: string, finished: bool)
    | EventSourceMessage(id: string, data: string)
    | DataReceived(id: string)
    | WebSocketCreated(id: string, url: string, host: Option<string>)
    | WebSocketFrame(id: string, text: bool, payload: string)
    | WebSocketClosed(id: string)
    | BodiesTaken
    | BodyArrived(id: string, data: string)
    | BodyUnavailable(id: string)

  function FirstPositive(values: seq<int>): (r: int)
    ensures 0 <= r
    ensures forall i :: 0 <= i < |values| && values[i] > 0 ==> r > 0
  {
    if values == [] then 0 else if values[0] > 0 then values[0] else FirstPositive(values[1..])
  }

  /** A value that is not positive gives way to its default. */
  lemma OrDefault(value: int, default: int)
    requires 0 < default
    ensures FirstPositive([value, default]) == if 0 < value then value else default
  {
    assert [value, default][1..] == [default];
    assert FirstPositive([default]) == default;
  }

  function NewLimits(maxBytes: int, resourceMaxBytes: int, maxResources: int, maxMessages: int): (l: Limits)
    ensures l.Valid()
    ensures l.maxBytes == if 0 < maxBytes then maxBytes else 64_000_000
    ensures l.resourceMaxBytes == if 0 < resourceMaxBytes then resourceMaxBytes else l.maxBytes
    ensures l.maxResources == if 0 < maxResources then maxResources else 32
    ensures l.maxMessages == if 0 < maxMessages then maxMessages else 4096
  {
    OrDefault(maxBytes, 64_000_000);
    OrDefault(maxResources, 32);
    OrDefault(maxMessages, 4096);
    assert [resourceMaxBytes, maxBytes, 64_000_000][1..] == [maxBytes, 64_000_000];
    Limits(FirstPositive([maxBytes, 64_000_000]), FirstPositive([resourceMaxBytes, maxBytes, 64_000_000]),
           FirstPositive([maxResources, 32]), FirstPositive([maxMessages, 4096]))
  }

  function NewCapture(limits: Limits, baseHost: string, now: int): Capture {
    Capture(limits, baseHost, Bodies(map[], [], 0, false), Open({}, {}, {}, {}, {}), Tally(0, 0, 0, 0),
            Clock(now, None, None), "")
  }

  // ----- classification

  function FirstNonEmpty(a: string, b: string): string {
    if Trim(a) != "" then Trim(a) else Trim(b)
  }

  predicate ApplicationData(contentType: string) {
    var c := ToLower(Trim(contentType));
    c != "" &&
    (ContainsAny(c, ["json", "xml", "yaml", "event-stream", "graphql", "ndjson"])
     || HasPrefixAny(c, ["text/plain", "text/markdown", "text/csv"]))
  }

  predicate RelevantHost(baseHost: string, url: string, host: Option<string>) {
    Blank(baseHost) || Blank(url) ||
    (host.Some? &&
     var h := ToLower(if HasPrefix(host.value, "www.") then host.value[4..] else host.value);
     h == "" || h == baseHost || HasSuffix(h, "." + baseHost))
  }

  predicate RelevantResource(baseHost: string, kind: string, url: string, host: Option<string>, contentType: string) {
    RelevantHost(baseHost, url, host) &&
    var k := ToLower(Trim(kind));
    (k in {"xhr", "fetch", "eventsource", "websocket"}
     || (k in {"document", "other", "manifest"} && ApplicationData(contentType)))
  }

  predicate StreamingResponse(r: Resource) {
    var c := ToLower(r.contentType);
    ToLower(Trim(r.kind)) in {"xhr", "fetch"}
    && ContainsAny(c, ["event-stream", "ndjson", "stream"])
  }

  predicate FetchesBody(r: Resource) {
    !EqualFold(r.source, "event_source") && !EqualFold(r.source, "websocket")
    && (ToLower(Trim(r.kind)) in {"xhr", "fetch"} || ApplicationData(r.contentType))
  }

  predicate StaysOpen(r: Resource, finished: bool) {
    finished && r.messages != 0
    && (EqualFold(r.source, "event_source") || EqualFold(r.kind, "EventSource")
        || Contains(ToLower(r.contentType), "event-stream"))
  }

  // ----- resources and bodies

  function Relabel(r: Resource, url: string, tag: Label): Resource {
    r.(url := if !Blank(url) && Blank(r.url) then Trim(url) else r.url,
       kind := if !Blank(tag.kind) then Trim(tag.kind) else r.kind,
       contentType := if !Blank(tag.contentType) then Trim(tag.contentType) else r.contentType,
       source := if !Blank(tag.source) then Trim(tag.source) else r.source)
  }

  function NewResource(url: string, tag: Label): Resource {
    Resource(Trim(url), Trim(tag.kind), Trim(tag.contentType), Trim(tag.source), 0, "", 0, false, 0, false)
  }

  /** The resource table is full and has no place for this request. */
  predicate Refused(l: Limits, b: Bodies, id: string) {
    id !in b.resources && 0 < l.maxResources <= |b.order|
  }

  function Ensure(l: Limits, b: Bodies, id: string, url: string, tag: Label): Bodies {
    if id in b.resources then Update(b, id, Relabel(b.resources[id], url, tag))
    else if Refused(l, b, id) then b.(truncated := true)
    else Update(b, id, NewResource(url, tag)).(order := b.order + [id])
  }

  function Update(b: Bodies, id: string, r: Resource): Bodies { b.(resources := b.resources[id := r]) }

  /** The least positive value, or 0: an exhausted budget is skipped, not counted as zero. */
  function MinPositive(values: seq<int>): (m: int)
    ensures 0 <= m
    ensures m == 0 <==> forall i :: 0 <= i < |values| ==> values[i] <= 0
    ensures m > 0 ==> m in values && forall i :: 0 <= i < |values| && values[i] > 0 ==> m <= values[i]
  {
    if values == [] then 0
    else
      var init, v := MinPositive(values[..|values| - 1]), values[|values| - 1];
      assert forall i :: 0 <= i < |values| - 1 ==> values[i] == values[..|values| - 1][i];
      if v <= 0 then init else if init == 0 || v < init then v else init
  }

  function Available(l: Limits, b: Bodies, r: Resource): int {
    MinPositive([l.maxBytes - b.totalBytes, l.resourceMaxBytes - r.bodyBytes])
  }

  function Append(l: Limits, b: Bodies, id: string, data: string): Bodies
    requires id in b.resources
  {
    var r := b.resources[id];
    var available := Available(l, b, r);
    if data == "" then b
    else if available <= 0 then Update(b, id, r.(truncated := true)).(truncated := true)
    else
      var cut := |data| > available;
      var part := if cut then data[..available] else data;
      Update(b, id, r.(body := r.body + part, bodyBytes := r.bodyBytes + |part|, truncated := r.truncated || cut))
        .(totalBytes := b.totalBytes + |part|, truncated := b.truncated || cut)
  }

  /** Appends one message of a stream, unless the resource used up its messages. */
  function AppendMessage(l: Limits, b: Bodies, id: string, data: string): Bodies
    requires id in b.resources
  {
    if l.maxMessages <= 0 || b.resources[id].messages <= l.maxMessages then Append(l, b, id, data)
    else Update(b, id, b.resources[id].(truncated := true)).(truncated := true)
  }

  function EventRecord(data: string): string { "data: " + Trim(data) + "\n\n" }

  function FrameRecord(payload: string): string { payload + "\n" }

  function CountMessage(r: Resource, tag: Label): Resource {
    r.(kind := tag.kind, contentType := FirstNonEmpty(r.contentType, tag.contentType), source := tag.source,
       messages := r.messages + 1)
  }

  // ----- the handlers

  function Touch(c: Clock, now: int): Clock { c.(activity := now) }

  function TouchEventSource(c: Clock, now: int): Clock { c.(activity := now, eventSource := Some(now)) }

  function TouchStream(c: Clock, now: int): Clock { c.(activity := now, stream := Some(now)) }

  function Opened(o: Open, c: Clock, id: string, kind: string, r: Resource, now: int): (Resource, Open, Clock) {
    var n := o.(active := o.active + {id});
    if EqualFold(kind, "EventSource") then
      (r.(source := "event_source"), n.(eventSources := n.eventSources + {id}), TouchEventSource(c, now))
    else if StreamingResponse(r) then (r, n.(streams := n.streams + {id}), TouchStream(c, now))
    else (r, n, Touch(c, now))
  }

  /** Files the response of a tracked request under the open sets it belongs to. */
  function TrackResponse(c: Capture, id: string, kind: string, status: int, now: int): Capture
    requires id in c.bodies.resources
  {
    var (r, o, clock) := Opened(c.open, c.clock, id, kind, c.bodies.resources[id].(status := status), now);
    c.(bodies := Update(c.bodies, id, r), open := Fetch(o, id, r), clock := clock)
  }

  function Fetch(o: Open, id: string, r: Resource): Open {
    if FetchesBody(r) then o.(pending := o.pending + {id}) else o
  }

  function OnResponse(c: Capture, e: Event, now: int): Capture
    requires e.ResponseReceived?
  {
    var contentType := FirstNonEmpty(e.mime, e.header);
    if Blank(e.id) || !RelevantResource(c.baseHost, e.kind, e.url, e.host, contentType) then c
    else
      var n := c.(bodies := Ensure(c.limits, c.bodies, e.id, e.url, Label(e.kind, contentType, "response")));
      if e.id in n.bodies.resources then TrackResponse(n, e.id, e.kind, e.status, now) else n
  }

  function Finish(c: Capture, id: string, finished: bool, now: int): Capture
    requires id in c.bodies.resources
  {
    var r := c.bodies.resources[id];
    var o := if StaysOpen(r, finished) then c.open else c.open.(eventSources := c.open.eventSources - {id});
    c.(bodies := Update(c.bodies, id, r.(finished := finished)), open := Fetch(o, id, r),
       clock := Touch(c.clock, now))
  }

  function OnLoadingDone(c: Capture, id: string, finished: bool, now: int): Capture {
    if Blank(id) then c
    else
      var n := c.(open := c.open.(active := c.open.active - {id}, webSockets := c.open.webSockets - {id},
                                  streams := c.open.streams - {id}));
      if id in n.bodies.resources then Finish(n, id, finished, now) else n
  }

  function OnEventSourceMessage(c: Capture, id: string, data: string, now: int): Capture {
    if Blank(id) || id !in c.bodies.resources then c
    else
      var r := CountMessage(c.bodies.resources[id], EVENTS).(finished := false);
      c.(bodies := AppendMessage(c.limits, Update(c.bodies, id, r), id, EventRecord(data)),
         open := c.open.(eventSources := c.open.eventSources + {id}),
         tally := c.tally.(eventSourceMessages := c.tally.eventSourceMessages + 1),
         clock := TouchEventSource(c.clock, now))
  }

  function OnDataReceived(c: Capture, id: string, now: int): Capture {
    if Blank(id) then c
    else if id in c.open.streams then c.(clock := TouchStream(c.clock, now))
    else if id in c.open.eventSources then c.(clock := TouchEventSource(c.clock, now))
    else c
  }

  function OnWebSocketCreated(c: Capture, e: Event, now: int): Capture
    requires e.WebSocketCreated?
  {
    if Blank(e.id) || !RelevantHost(c.baseHost, e.url, e.host) then c
    else
      var n := c.(bodies := Ensure(c.limits, c.bodies, e.id, e.url, SOCKET));
      if e.id !in n.bodies.resources then n
      else n.(open := n.open.(webSockets := n.open.webSockets + {e.id}, active := n.open.active + {e.id}),
              clock := Touch(n.clock, now))
  }

  function AcceptFrame(c: Capture, id: string, payload: string, now: int): Capture
    requires id in c.bodies.resources
  {
    var r := CountMessage(c.bodies.resources[id], SOCKET);
    c.(bodies := AppendMessage(c.limits, Update(c.bodies, id, r), id, FrameRecord(payload)),
       tally := c.tally.(webSocketMessages := c.tally.webSocketMessages + 1),
       clock := Touch(c.clock, now))
  }

  function OnWebSocketFrame(c: Capture, id: string, text: bool, payload: string, now: int): Capture {
    if Blank(id) || payload == "" || !text || id !in c.bodies.resources then c else AcceptFrame(c, id, payload, now)
  }

  function OnWebSocketClosed(c: Capture, id: string, now: int): Capture {
    if Blank(id) then c
    else
      var n := c.(open := c.open.(active := c.open.active - {id}, webSockets := c.open.webSockets - {id}));
      if id !in n.bodies.resources then n
      else n.(bodies := Update(n.bodies, id, n.bodies.resources[id].(finished := true)), clock := Touch(n.clock, now))
  }

  function OnBody(c: Capture, id: string, data: string, now: int): Capture {
    if id !in c.bodies.resources || Blank(data) then c
    else c.(bodies := Append(c.limits, c.bodies, id, data), clock := Touch(c.clock, now))
  }

  function Step(c: Capture, e: Event, now: int): Capture {
    match e
    case RequestSent(id, http) =>
      if id != "" && http then c.(tally := c.tally.(httpRequests := c.tally.httpRequests + 1)) else c
    case ResponseReceived(_, _, _, _, _, _, _) => OnResponse(c, e, now)
    case LoadingDone(id, finished) => OnLoadingDone(c, id, finished, now)
    case EventSourceMessage(id, data) => OnEventSourceMessage(c, id, data, now)
    case DataReceived(id) => OnDataReceived(c, id, now)
    case WebSocketCreated(_, _, _) => OnWebSocketCreated(c, e, now)
    case WebSocketFrame(id, text, payload) => OnWebSocketFrame(c, id, text, payload, now)
    case WebSocketClosed(id) => OnWebSocketClosed(c, id, now)
    case BodiesTaken => c.(open := c.open.(pending := {}))
    case BodyArrived(id, data) => OnBody(c, id, data, now)
    case BodyUnavailable(id) =>
      if id in c.bodies.resources then c.(tally := c.tally.(unavailable := c.tally.unavailable + 1)) else c
  }

  // ----- settling, in milliseconds

  function Max(a: int, b: int): int { if a < b then b else a }

  /** The last time a stream spoke, or else the last activity at all. */
  function QuietSince(c: Clock): int {
    if c.stream.None? && c.eventSource.None? then c.activity
    else if c.stream.None? then c.eventSource.value
    else if c.eventSource.None? then c.stream.value
    else Max(c.stream.value, c.eventSource.value)
  }

  const MIN_OBSERVATION := 8000

  /** The reason to stop waiting, if there is one. */
  function Settled(o: Open, c: Clock, readyElapsed: int, totalElapsed: int, idleWanted: int, now: int)
    : Option<string>
  {
    var idle := if idleWanted <= 0 then 1500 else idleWanted;
    var longIdle := Max(idle * 4, 6000);
    if readyElapsed < 500 then None
    else if 0 < |o.eventSources| + |o.streams| then
      if totalElapsed < MIN_OBSERVATION || now - QuietSince(c) < longIdle then None
      else if 0 < |o.eventSources| then Some("event_source_idle") else Some("stream_idle")
    else if 0 < |o.active| then
      if totalElapsed < MIN_OBSERVATION || now - c.activity < longIdle then None
      else Some("network_idle_with_active_requests")
    else if now - c.activity < idle then None
    else if 0 < |o.webSockets| then Some("websocket_idle")
    else Some("network_idle")
  }

  // ----- the class

  class Collector {
    const limits: Limits
    const baseHost: string
    var resources: map<string, Resource>
    var order: seq<string>
    var active: set<string>
    var eventSources: set<string>
    var streams: set<string>
    var webSockets: set<string>
    var pending: set<string>
    var totalBytes: int
    var truncated: bool
    var httpRequests: int
    var eventSourceMessages: int
    var webSocketMessages: int
    var unavailable: int
    var lastActivity: int
    var lastEventSource: Option<int>
    var lastStream: Option<int>
    var idleReason: string

    ghost function Held(): Bodies
      reads this
    {
      Bodies(resources, order, totalBytes, truncated)
    }

    function Unfinished(): Open
      reads this
    {
      Open(active, eventSources, streams, webSockets, pending)
    }

    function Times(): Clock
      reads this
    {
      Clock(lastActivity, lastEventSource, lastStream)
    }

    ghost function View(): Capture
      reads this
    {
      Capture(limits, baseHost, Held(), Unfinished(),
              Tally(httpRequests, eventSourceMessages, webSocketMessages, unavailable), Times(), idleReason)
    }

    constructor (baseHost: string, maxBytes: int, resourceMaxBytes: int, maxResources: int, maxMessages: int,
                 now: int)
      ensures View() == NewCapture(NewLimits(maxBytes, resourceMaxBytes, maxResources, maxMessages), baseHost, now)
    {
      this.limits := NewLimits(maxBytes, resourceMaxBytes, maxResources, maxMessages);
      this.baseHost := baseHost;
      resources, order := map[], [];
      active, eventSources, streams, webSockets, pending := {}, {}, {}, {}, {};
      totalBytes, truncated := 0, false;
      httpRequests, eventSourceMessages, webSocketMessages, unavailable := 0, 0, 0, 0;
      lastActivity, lastEventSource, lastStream, idleReason := now, None, None, "";
    }

    method EnsureResource(id: string, url: string, tag: Label) returns (tracked: bool)
      modifies this`resources, this`order, this`truncated
      ensures Held() == Ensure(limits, old(Held()), id, url, tag)
      ensures tracked <==> id in resources
    {
      if id in resources {
        resources := resources[id := Relabel(resources[id], url, tag)];
        return true;
      }
      if limits.maxResources > 0 && |order| >= limits.maxResources {
        truncated := true;
        return false;
      }
      resources := resources[id := NewResource(url, tag)];
      order := order + [id];
      return true;
    }

    method LeastPositive(values: seq<int>) returns (out: int)
      ensures out == MinPositive(values)
    {
      out := 0;
      for i := 0 to |values|
        invariant out == MinPositive(values[..i])
      {
        assert values[..i + 1][..i] == values[..i];
        if values[i] > 0 && (out == 0 || values[i] < out) {
          out := values[i];
        }
      }
      assert values[..|values|] == values;
    }

    method AppendToResource(id: string, data: string)
      requires id in resources
      modifies this`resources, this`totalBytes, this`truncated
      ensures Held() == Append(limits, old(Held()), id, data)
    {
      hide MinPositive;
      if data == "" { return; }
      var r := resources[id];
      var available := LeastPositive([limits.maxBytes - totalBytes, limits.resourceMaxBytes - r.bodyBytes]);
      if available <= 0 {
        resources := resources[id := r.(truncated := true)];
        truncated := true;
        return;
      }
      var kept := data;
      if |data| > available {
        kept := data[..available];
        r := r.(truncated := true);
        truncated := true;
      }
      resources := resources[id := r.(body := r.body + kept, bodyBytes := r.bodyBytes + |kept|)];
      totalBytes := totalBytes + |kept|;
    }

    method AppendBudgeted(id: string, data: string)
      requires id in resources
      modifies this`resources, this`totalBytes, this`truncated
      ensures Held() == AppendMessage(limits, old(Held()), id, data)
    {
      if limits.maxMessages <= 0 || resources[id].messages <= limits.maxMessages {
        AppendToResource(id, data);
      } else {
        resources := resources[id := resources[id].(truncated := true)];
        truncated := true;
      }
    }

    method MarkActivity(now: int)
      modifies this`lastActivity
      ensures Times() == Touch(old(Times()), now)
    {
      lastActivity := now;
    }

    method MarkEventSourceActivity(now: int)
      modifies this`lastActivity, this`lastEventSource
      ensures Times() == TouchEventSource(old(Times()), now)
    {
      lastActivity := now;
      lastEventSource := Some(now);
    }

    method MarkStreamActivity(now: int)
      modifies this`lastActivity, this`lastStream
      ensures Times() == TouchStream(old(Times()), now)
    {
      lastActivity := now;
      lastStream := Some(now);
    }

    /** Lists a request whose body is worth asking for. */
    method QueueBody(id: string, r: Resource)
      modifies this`pending
      ensures Unfinished() == Fetch(old(Unfinished()), id, r)
    {
      if FetchesBody(r) {
        pending := pending + {id};
      }
    }

    /** Opens an ordinary response, or one that is an event source or a stream. */
    method OpenResponse(id: string, kind: string, r: Resource, now: int) returns (q: Resource)
      modifies this`active, this`eventSources, this`streams, this`lastActivity, this`lastEventSource, this`lastStream
      ensures (q, Unfinished(), Times()) == Opened(old(Unfinished()), old(Times()), id, kind, r, now)
    {
      q := r;
      active := active + {id};
      if EqualFold(kind, "EventSource") {
        q := r.(source := "event_source");
        eventSources := eventSources + {id};
        MarkEventSourceActivity(now);
      } else if StreamingResponse(r) {
        streams := streams + {id};
        MarkStreamActivity(now);
      } else {
        MarkActivity(now);
      }
    }

    method FileResponse(id: string, kind: string, status: int, now: int)
      requires id in resources
      modifies this
      ensures View() == TrackResponse(old(View()), id, kind, status, now)
    {
      var r := OpenResponse(id, kind, resources[id].(status := status), now);
      resources := resources[id := r];
      QueueBody(id, r);
    }

    method HandleResponse(e: Event, now: int)
      requires e.ResponseReceived?
      modifies this
      ensures View() == OnResponse(old(View()), e, now)
    {
      var contentType := FirstNonEmpty(e.mime, e.header);
      if Blank(e.id) || !RelevantResource(baseHost, e.kind, e.url, e.host, contentType) { return; }
      var tracked := EnsureResource(e.id, e.url, Label(e.kind, contentType, "response"));
      if tracked {
        FileResponse(e.id, e.kind, e.status, now);
      }
    }

    method FinishResource(id: string, finished: bool, now: int)
      requires id in resources
      modifies this
      ensures View() == Finish(old(View()), id, finished, now)
    {
      hide StaysOpen, FetchesBody;
      var r := resources[id];
      if !StaysOpen(r, finished) {
        eventSources := eventSources - {id};
      }
      resources := resources[id := r.(finished := finished)];
      QueueBody(id, r);
      MarkActivity(now);
    }

    method HandleLoadingDone(id: string, finished: bool, now: int)
      modifies this
      ensures View() == OnLoadingDone(old(View()), id, finished, now)
    {
      if Blank(id) { return; }
      active := active - {id};
      webSockets := webSockets - {id};
      streams := streams - {id};
      if id in resources {
        FinishResource(id, finished, now);
      }
    }

    method HandleEventSourceMessage(id: string, data: string, now: int)
      modifies this
      ensures View() == OnEventSourceMessage(old(View()), id, data, now)
    {
      hide AppendMessage, CountMessage, EventRecord, Blank;
      if Blank(id) || id !in resources { return; }
      var r := CountMessage(resources[id], EVENTS);
      resources := resources[id := r.(finished := false)];
      eventSources := eventSources + {id};
      eventSourceMessages := eventSourceMessages + 1;
      AppendBudgeted(id, EventRecord(data));
      MarkEventSourceActivity(now);
    }

    method HandleDataReceived(id: string, now: int)
      modifies this
      ensures View() == OnDataReceived(old(View()), id, now)
    {
      if Blank(id) { return; }
      if id in streams {
        MarkStreamActivity(now);
        return;
      }
      if id in eventSources {
        MarkEventSourceActivity(now);
      }
    }

    method OpenSocket(id: string, now: int)
      modifies this`webSockets, this`active, this`lastActivity
      ensures webSockets == old(webSockets) + {id} && active == old(active) + {id} && lastActivity == now
    {
      webSockets := webSockets + {id};
      active := active + {id};
      lastActivity := now;
    }

    method HandleWebSocketCreated(e: Event, now: int)
      requires e.WebSocketCreated?
      modifies this
      ensures View() == OnWebSocketCreated(old(View()), e, now)
    {
      hide Ensure, RelevantHost, Blank;
      if Blank(e.id) || !RelevantHost(baseHost, e.url, e.host) { return; }
      var tracked := EnsureResource(e.id, e.url, SOCKET);
      if tracked {
        OpenSocket(e.id, now);
      }
    }

    method CountFrame(id: string)
      requires id in resources
      modifies this`resources, this`webSocketMessages
      ensures Held() == Update(old(Held()), id, CountMessage(old(resources)[id], SOCKET))
      ensures webSocketMessages == old(webSocketMessages) + 1 && id in resources
    {
      hide CountMessage;
      resources := resources[id := CountMessage(resources[id], SOCKET)];
      webSocketMessages := webSocketMessages + 1;
    }

    method TakeFrame(id: string, payload: string, now: int)
      requires id in resources
      modifies this`resources, this`webSocketMessages, this`totalBytes, this`truncated, this`lastActivity
      ensures View() == AcceptFrame(old(View()), id, payload, now)
    {
      hide AppendMessage, CountMessage, FrameRecord, Update;
      CountFrame(id);
      AppendBudgeted(id, FrameRecord(payload));
      MarkActivity(now);
    }

    method HandleWebSocketFrame(id: string, text: bool, payload: string, now: int)
      modifies this
      ensures View() == OnWebSocketFrame(old(View()), id, text, payload, now)
    {
      if Blank(id) || payload == "" || !text || id !in resources { return; }
      TakeFrame(id, payload, now);
    }

    method HandleWebSocketClosed(id: string, now: int)
      modifies this
      ensures View() == OnWebSocketClosed(old(View()), id, now)
    {
      hide Blank;
      if Blank(id) { return; }
      active := active - {id};
      webSockets := webSockets - {id};
      if id !in resources { return; }
      resources := resources[id := resources[id].(finished := true)];
      MarkActivity(now);
    }

    method HandleBody(id: string, data: string, now: int)
      modifies this
      ensures View() == OnBody(old(View()), id, data, now)
    {
      if id !in resources || Blank(data) { return; }
      AppendToResource(id, data);
      MarkActivity(now);
    }

    method Handle(e: Event, now: int)
      modifies this
      ensures View() == Step(old(View()), e, now)
    {
      match e
      case RequestSent(id, http) =>
        if id != "" && http { httpRequests := httpRequests + 1; }
      case ResponseReceived(_, _, _, _, _, _, _) => HandleResponse(e, now);
      case LoadingDone(id, finished) => HandleLoadingDone(id, finished, now);
      case EventSourceMessage(id, data) => HandleEventSourceMessage(id, data, now);
      case DataReceived(id) => HandleDataReceived(id, now);
      case WebSocketCreated(_, _, _) => HandleWebSocketCreated(e, now);
      case WebSocketFrame(id, text, payload) => HandleWebSocketFrame(id, text, payload, now);
      case WebSocketClosed(id) => HandleWebSocketClosed(id, now);
      case BodiesTaken => pending := {};
      case BodyArrived(id, data) => HandleBody(id, data, now);
      case BodyUnavailable(id) =>
        if id in resources { unavailable := unavailable + 1; }
    }

    /** Decides whether the page is quiet and, if so, records why. */
    method Settle(readyElapsed: int, totalElapsed: int, idleWanted: int, now: int) returns (quiet: bool)
      modifies this`idleReason
      ensures var why := Settled(Unfinished(), Times(), readyElapsed, totalElapsed, idleWanted, now);
              && (quiet <==> why.Some?)
              && idleReason == if why.Some? then why.value else old(idleReason)
    {
      var idle := if idleWanted <= 0 then 1500 else idleWanted;
      if readyElapsed < 500 { return false; }
      if |eventSources| + |streams| > 0 {
        if totalElapsed < MIN_OBSERVATION { return false; }
        if now - QuietSince(Times()) < Max(idle * 4, 6000) { return false; }
        idleReason := "stream_idle";
        if |eventSources| > 0 { idleReason := "event_source_idle"; }
        return true;
      }
      if |active| > 0 {
        if totalElapsed < MIN_OBSERVATION { return false; }
        if now - lastActivity < Max(idle * 4, 6000) { return false; }
        idleReason := "network_idle_with_active_requests";
        return true;
      }
      if now - lastActivity < idle { return false; }
      idleReason := if |webSockets| > 0 then "websocket_idle" else "network_idle";
      return true;
    }
  }
}
