/** Which bodies are asked for, what is counted, and what is known of each request, in terms of the events of a run. */
module CaptureTallies {
  import opened Wrappers
  import opened Text
  import opened NetworkCollector
  import opened CaptureSafety
  import opened CaptureRuns
  import opened CaptureOpen

  // ----- which bodies are asked for, and what is counted

  /** The request is read with XHR or fetch or holds data, and is neither an event source nor a web socket. */
  predicate HasBody(r: Resource) {
    && ToLower(r.source) != "event_source" && ToLower(r.source) != "websocket"
    && (ToLower(Trim(r.kind)) == "xhr" || ToLower(Trim(r.kind)) == "fetch" || ApplicationData(r.contentType))
  }

  /** A response or the end of a request that has a body. */
  predicate Queues(c: Capture, e: Event, id: string) {
    if e.ResponseReceived? then
      && Opens(c, e, id) && !EqualFold(e.kind, "EventSource")
      && (ToLower(Trim(e.kind)) in {"xhr", "fetch"}
          || ApplicationData(TypeAfter(c, id, FirstNonEmpty(e.mime, e.header))))
    else Loaded(e, id) && id in c.bodies.resources && HasBody(c.bodies.resources[id])
  }

  lemma Sources()
    ensures ToLower("event_source") == "event_source" && ToLower("websocket") == "websocket"
    ensures ToLower("response") == "response" != "event_source" && "response" != "websocket"
  {
    assert "response"[0] != "event_source"[0] && "response"[0] != "websocket"[0];
  }

  lemma FetchesWhatHasBody(r: Resource)
    ensures FetchesBody(r) <==> HasBody(r)
  {
    Sources();
    hide ToLower, ApplicationData;
  }

  lemma ResponseQueues(c: Capture, e: Event, now: int, id: string)
    requires c.limits.Valid() && e.ResponseReceived?
    ensures id in Step(c, e, now).open.pending <==> Queues(c, e, id) || id in c.open.pending
  {
    if Opens(c, e, e.id) {
      LabelSays(c, e);
      Sources();
      TrimShape(e.kind);
      TrimOfTrimmed(Trim(e.kind));
      FetchesWhatHasBody(Labelled(c, e));
      FetchesWhatHasBody(Labelled(c, e).(source := "event_source"));
    }
    hide RelevantHost, ApplicationData, TypeAfter, Relabel, RelevantResource, FetchesBody, FirstNonEmpty, ToLower;
    hide StreamingResponse;
  }

  lemma StepQueues(c: Capture, e: Event, now: int, id: string)
    requires c.limits.Valid()
    ensures id in Step(c, e, now).open.pending <==> Queues(c, e, id) || (id in c.open.pending && !e.BodiesTaken?)
  {
    if e.ResponseReceived? {
      ResponseQueues(c, e, now, id);
    } else {
      if e.LoadingDone? && id in c.bodies.resources { FetchesWhatHasBody(c.bodies.resources[id]); }
      hide RelevantHost, FetchesBody, HasBody, FirstNonEmpty, ToLower, Append;
    }
  }

  ghost function Queueings(c: Capture, es: seq<Timed>, id: string): nat -> bool {
    (k: nat) => k < |es| && Queues(Run(c, es[..k]), es[k].event, id)
  }

  function Takings(es: seq<Timed>): nat -> bool { (k: nat) => k < |es| && es[k].event.BodiesTaken? }

  /** In every run, exactly the requests with a body that were queued since the last taking are pending. */
  lemma {:induction false} PendingUntilTaken(c: Capture, es: seq<Timed>, id: string, n: nat)
    requires Initial(c) && n <= |es|
    ensures id in Run(c, es[..n]).open.pending <==> OpenSince(Queueings(c, es, id), Takings(es), n)
  {
    if n > 0 {
      var m := n - 1;
      PendingUntilTaken(c, es, id, m);
      RunKeepsLimits(c, es[..m]);
      RunStep(c, es, m);
      StepQueues(Run(c, es[..m]), es[m].event, es[m].now, id);
      SinceStep(Queueings(c, es, id), Takings(es), m);
      hide Run, Step, Queues, OpenSince;
    }
  }

  predicate Frames(c: Capture, e: Event, id: string) {
    e.WebSocketFrame? && e.id == id && !Blank(id) && e.text && e.payload != "" && id in c.bodies.resources
  }

  function Hits(f: nat -> bool, n: nat): nat {
    if n == 0 then 0 else Hits(f, n - 1) + if f(n - 1) then 1 else 0
  }

  function MessagesOf(c: Capture, id: string): int {
    if id in c.bodies.resources then c.bodies.resources[id].messages else 0
  }

  lemma AppendKeepsMessages(l: Limits, b: Bodies, id: string, data: string)
    requires id in b.resources
    ensures var n := AppendMessage(l, b, id, data).resources;
            n.Keys == b.resources.Keys && n[id].messages == b.resources[id].messages
            && forall x :: x in n && x != id ==> n[x] == b.resources[x]
  {
    hide Available;
  }

  /** What an event adds to the counts of the collector. */
  lemma StepTallies(c: Capture, e: Event, now: int)
    ensures Step(c, e, now).tally == Tally(
              c.tally.httpRequests + (if e.RequestSent? && e.http && e.id != "" then 1 else 0),
              c.tally.eventSourceMessages + (if e.EventSourceMessage? && Tells(c, e, e.id) then 1 else 0),
              c.tally.webSocketMessages + (if e.WebSocketFrame? && Frames(c, e, e.id) then 1 else 0),
              c.tally.unavailable + (if e.BodyUnavailable? && e.id in c.bodies.resources then 1 else 0))
  {
    hide RelevantHost, RelevantResource, FetchesBody, FirstNonEmpty, ToLower, StreamingResponse, StaysOpen;
    hide AppendMessage, EventRecord, FrameRecord, Append, Ensure;
  }

  lemma MessageCounts(c: Capture, e: Event, now: int, id: string)
    requires e.EventSourceMessage? || e.WebSocketFrame?
    ensures MessagesOf(Step(c, e, now), id) == MessagesOf(c, id) + if Tells(c, e, id) || Frames(c, e, id) then 1 else 0
  {
    if (e.EventSourceMessage? && Tells(c, e, e.id)) || (e.WebSocketFrame? && Frames(c, e, e.id)) {
      var r := if e.WebSocketFrame? then CountMessage(c.bodies.resources[e.id], SOCKET)
               else CountMessage(c.bodies.resources[e.id], EVENTS).(finished := false);
      var data := if e.WebSocketFrame? then FrameRecord(e.payload) else EventRecord(e.data);
      AppendKeepsMessages(c.limits, Update(c.bodies, e.id, r), e.id, data);
    }
    hide FirstNonEmpty, AppendMessage, EventRecord, FrameRecord;
  }

  lemma EnsureKeepsMessages(l: Limits, b: Bodies, id: string, url: string, tag: Label)
    ensures var n := Ensure(l, b, id, url, tag).resources;
            forall x :: x in n ==> n[x].messages == if x in b.resources then b.resources[x].messages else 0
    ensures b.resources.Keys <= Ensure(l, b, id, url, tag).resources.Keys
  {
  }

  lemma OpeningKeepsMessages(c: Capture, e: Event, now: int, id: string)
    requires e.ResponseReceived? || e.WebSocketCreated?
    ensures MessagesOf(Step(c, e, now), id) == MessagesOf(c, id)
  {
    hide RelevantHost, RelevantResource, FetchesBody, FirstNonEmpty, ToLower, StreamingResponse, Ensure;
    var tag := if e.WebSocketCreated? then SOCKET else Label(e.kind, FirstNonEmpty(e.mime, e.header), "response");
    EnsureKeepsMessages(c.limits, c.bodies, e.id, e.url, tag);
  }

  lemma StepCounts(c: Capture, e: Event, now: int, id: string)
    ensures MessagesOf(Step(c, e, now), id) == MessagesOf(c, id) + if Tells(c, e, id) || Frames(c, e, id) then 1 else 0
  {
    if e.EventSourceMessage? || e.WebSocketFrame? {
      MessageCounts(c, e, now, id);
    } else if e.ResponseReceived? || e.WebSocketCreated? {
      OpeningKeepsMessages(c, e, now, id);
    } else {
      hide OnResponse, OnWebSocketCreated, OnEventSourceMessage, OnWebSocketFrame, FetchesBody, StaysOpen, Available;
    }
  }

  ghost function Messages(c: Capture, es: seq<Timed>, id: string): nat -> bool {
    (k: nat) => k < |es| && (Tells(Run(c, es[..k]), es[k].event, id) || Frames(Run(c, es[..k]), es[k].event, id))
  }

  /** In every run each request counts its own messages, dropped ones included. */
  lemma {:induction false} MessagesAreCounted(c: Capture, es: seq<Timed>, id: string, n: nat)
    requires Initial(c) && n <= |es|
    ensures MessagesOf(Run(c, es[..n]), id) == Hits(Messages(c, es, id), n)
  {
    if n > 0 {
      var m := n - 1;
      MessagesAreCounted(c, es, id, m);
      RunStep(c, es, m);
      StepCounts(Run(c, es[..m]), es[m].event, es[m].now, id);
      hide Run, Step, Tells, Frames;
    }
  }

  // ----- status and end

  function StatusOf(c: Capture, id: string): int {
    if id in c.bodies.resources then c.bodies.resources[id].status else 0
  }

  predicate FinishedOf(c: Capture, id: string) { id in c.bodies.resources && c.bodies.resources[id].finished }

  /** The status and the end that an event reports of a request, or what was known before. */
  function StatusAfter(c: Capture, e: Event, id: string, was: int): int {
    if e.ResponseReceived? && Opens(c, e, id) then e.status else was
  }

  predicate FinishedAfter(c: Capture, e: Event, id: string, was: bool) {
    if id !in c.bodies.resources then false
    else if Loaded(e, id) then e.finished
    else if Closed(e, id) then true
    else was && !Tells(c, e, id)
  }

  lemma EnsureKeepsState(l: Limits, b: Bodies, id: string, url: string, tag: Label, x: string)
    ensures var n := Ensure(l, b, id, url, tag).resources;
            && (x in b.resources ==> x in n)
            && (x in n ==> n[x].status == (if x in b.resources then b.resources[x].status else 0)
                           && (n[x].finished <==> x in b.resources && b.resources[x].finished))
  {
    hide Relabel;
    if id in b.resources { RelabelKeepsState(b, id, url, tag); }
  }

  lemma RelabelKeepsState(b: Bodies, id: string, url: string, tag: Label)
    requires id in b.resources
    ensures var r := Relabel(b.resources[id], url, tag);
            r.status == b.resources[id].status && r.finished == b.resources[id].finished
  {
  }

  lemma OpeningSetsState(c: Capture, e: Event, now: int, id: string)
    requires c.limits.Valid() && (e.ResponseReceived? || e.WebSocketCreated?)
    ensures var n := Step(c, e, now);
            && StatusOf(n, id) == StatusAfter(c, e, id, StatusOf(c, id))
            && (FinishedOf(n, id) <==> FinishedAfter(c, e, id, FinishedOf(c, id)))
  {
    hide RelevantHost, RelevantResource, FetchesBody, FirstNonEmpty, ToLower, StreamingResponse, Ensure;
    var tag := if e.WebSocketCreated? then SOCKET else Label(e.kind, FirstNonEmpty(e.mime, e.header), "response");
    EnsureKeepsState(c.limits, c.bodies, e.id, e.url, tag, id);
    EnsureTracks(c, e.id, e.url, tag);
  }

  lemma EnsureTracks(c: Capture, id: string, url: string, tag: Label)
    requires c.limits.Valid()
    ensures id in Ensure(c.limits, c.bodies, id, url, tag).resources <==> HasPlace(c, id)
  {
  }

  lemma AppendKeepsState(l: Limits, b: Bodies, id: string, data: string)
    requires id in b.resources
    ensures var n := AppendMessage(l, b, id, data).resources;
            n.Keys == b.resources.Keys && n[id].status == b.resources[id].status
            && n[id].finished == b.resources[id].finished && forall x :: x in n && x != id ==> n[x] == b.resources[x]
  {
    hide Available;
  }

  lemma MessageSetsState(c: Capture, e: Event, now: int, id: string)
    requires e.EventSourceMessage? || e.WebSocketFrame?
    ensures var n := Step(c, e, now);
            && StatusOf(n, id) == StatusAfter(c, e, id, StatusOf(c, id))
            && (FinishedOf(n, id) <==> FinishedAfter(c, e, id, FinishedOf(c, id)))
  {
    if (e.EventSourceMessage? && Tells(c, e, e.id)) || (e.WebSocketFrame? && Frames(c, e, e.id)) {
      var r := if e.WebSocketFrame? then CountMessage(c.bodies.resources[e.id], SOCKET)
               else CountMessage(c.bodies.resources[e.id], EVENTS).(finished := false);
      var data := if e.WebSocketFrame? then FrameRecord(e.payload) else EventRecord(e.data);
      AppendKeepsState(c.limits, Update(c.bodies, e.id, r), e.id, data);
    }
    hide FirstNonEmpty, AppendMessage, EventRecord, FrameRecord;
  }

  lemma StepSetsState(c: Capture, e: Event, now: int, id: string)
    requires c.limits.Valid()
    ensures var n := Step(c, e, now);
            && StatusOf(n, id) == StatusAfter(c, e, id, StatusOf(c, id))
            && (FinishedOf(n, id) <==> FinishedAfter(c, e, id, FinishedOf(c, id)))
  {
    if e.EventSourceMessage? || e.WebSocketFrame? {
      MessageSetsState(c, e, now, id);
    } else if e.ResponseReceived? || e.WebSocketCreated? {
      OpeningSetsState(c, e, now, id);
    } else {
      hide OnResponse, OnWebSocketCreated, OnEventSourceMessage, OnWebSocketFrame, FetchesBody, StaysOpen, Available;
    }
  }

  function LastStatus(c: Capture, es: seq<Timed>, id: string): int {
    if es == [] then 0
    else
      var n := |es| - 1;
      StatusAfter(Run(c, es[..n]), es[n].event, id, LastStatus(c, es[..n], id))
  }

  predicate Ended(c: Capture, es: seq<Timed>, id: string) {
    es != [] && var n := |es| - 1; FinishedAfter(Run(c, es[..n]), es[n].event, id, Ended(c, es[..n], id))
  }

  /** In every run the status of a request is that of its last response, and it is finished as its last end says. */
  lemma {:induction false} StateIsLast(c: Capture, es: seq<Timed>, id: string)
    requires Initial(c)
    ensures StatusOf(Run(c, es), id) == LastStatus(c, es, id)
    ensures FinishedOf(Run(c, es), id) <==> Ended(c, es, id)
  {
    if es != [] {
      var n := |es| - 1;
      RunKeepsLimits(c, es[..n]);
      StateIsLast(c, es[..n], id);
      RunExtends(c, es, n);
      StepSetsState(Run(c, es[..n]), es[n].event, es[n].now, id);
      hide Run, Step, StatusAfter, FinishedAfter;
    }
  }
}
