/** Exactly when the collector keeps its two byte budgets. */
module CaptureBudgets {
  import opened Wrappers
  import opened Text
  import opened NetworkCollector
  import opened CaptureSafety
  import opened CaptureRuns

  // ----- what one event appends

  predicate MayTakeMessage(c: Capture, id: string) {
    id in c.bodies.resources && (c.limits.maxMessages <= 0 || c.bodies.resources[id].messages < c.limits.maxMessages)
  }

  /** The request and text that an event makes the collector append, if any. */
  function Appended(c: Capture, e: Event): Option<(string, string)> {
    match e
    case EventSourceMessage(id, data) =>
      if !Blank(id) && MayTakeMessage(c, id) then Some((id, EventRecord(data))) else None
    case WebSocketFrame(id, text, payload) =>
      if !Blank(id) && payload != "" && text && MayTakeMessage(c, id) then Some((id, FrameRecord(payload))) else None
    case BodyArrived(id, data) =>
      if id in c.bodies.resources && !Blank(data) then Some((id, data)) else None
    case _ => None
  }

  /** The text that an event appends to one request. */
  function TextFor(c: Capture, e: Event, id: string): string {
    var a := Appended(c, e);
    if a.Some? && a.value.0 == id then a.value.1 else ""
  }

  function BytesOf(c: Capture, id: string): int {
    if id in c.bodies.resources then c.bodies.resources[id].bodyBytes else 0
  }

  /** Some budget of the collector still has room for a request. */
  predicate HasRoom(c: Capture, id: string) {
    c.bodies.totalBytes < c.limits.maxBytes || BytesOf(c, id) < c.limits.resourceMaxBytes
  }

  /** How the text of request id goes on from one state to the next: `added` bytes of `text`. */
  ghost predicate Adds(c: Capture, id: string, text: string, added: nat, n: Capture) {
    && id in c.bodies.resources && id in n.bodies.resources && added <= |text|
    && (var r, q := c.bodies.resources[id], n.bodies.resources[id];
        q.body == r.body + text[..added] && q.bodyBytes == r.bodyBytes + added)
    && n.bodies.totalBytes == c.bodies.totalBytes + added
    && (0 < added <==> text != "" && HasRoom(c, id))
    && (0 < added && c.bodies.totalBytes < c.limits.maxBytes ==> n.bodies.totalBytes <= c.limits.maxBytes)
    && (0 < added && BytesOf(c, id) < c.limits.resourceMaxBytes ==> BytesOf(n, id) <= c.limits.resourceMaxBytes)
  }

  /** Appending to a request whose text was not touched since. */
  lemma AppendAdds(c: Capture, id: string, r: Resource, text: string, n: Capture) returns (added: nat)
    requires id in c.bodies.resources && SameText(r, c.bodies.resources[id]) && text != ""
    requires n.bodies == Append(c.limits, Update(c.bodies, id, r), id, text)
    ensures Adds(c, id, text, added, n)
    ensures forall x :: x in c.bodies.resources && x != id ==> n.bodies.resources[x] == c.bodies.resources[x]
  {
    AppendShape(c.limits, Update(c.bodies, id, r), id, text);
    hide Append;
    added := n.bodies.resources[id].bodyBytes - r.bodyBytes;
  }

  /** An event that appends adds bytes of its text to its request, as the budgets allow, and to no other. */
  lemma StepAppends(c: Capture, e: Event, now: int) returns (added: nat)
    requires Appended(c, e).Some?
    ensures var (id, text) := Appended(c, e).value;
            var n := Step(c, e, now);
            Adds(c, id, text, added, n) && n.bodies.resources.Keys == c.bodies.resources.Keys
            && forall x :: x in c.bodies.resources && x != id ==> n.bodies.resources[x] == c.bodies.resources[x]
  {
    var n := Step(c, e, now);
    hide Adds, Append, EventRecord, FrameRecord;
    match e
    case EventSourceMessage(id, data) =>
      var r := CountMessage(c.bodies.resources[id], EVENTS).(finished := false);
      RecordsHaveText(data);
      added := AppendAdds(c, id, r, EventRecord(data), n);
      MessageKeepsKeys(c.limits, Update(c.bodies, id, r), id, EventRecord(data));
    case WebSocketFrame(id, _, payload) =>
      var r := CountMessage(c.bodies.resources[id], SOCKET);
      RecordsHaveText(payload);
      added := AppendAdds(c, id, r, FrameRecord(payload), n);
      MessageKeepsKeys(c.limits, Update(c.bodies, id, r), id, FrameRecord(payload));
    case BodyArrived(id, data) =>
      assert Update(c.bodies, id, c.bodies.resources[id]) == c.bodies;
      added := AppendAdds(c, id, c.bodies.resources[id], data, n);
      MessageKeepsKeys(c.limits, c.bodies, id, data);
  }

  lemma RecordsHaveText(data: string)
    ensures EventRecord(data) != "" && FrameRecord(data) != ""
  {
  }

  /** All text is as it was, and new requests have none. */
  ghost predicate TextsKept(b: Bodies, n: Bodies) {
    && n.totalBytes == b.totalBytes
    && (forall x :: x in b.resources ==>
          x in n.resources && n.resources[x].body == b.resources[x].body
          && n.resources[x].bodyBytes == b.resources[x].bodyBytes)
    && (forall x :: x in n.resources && x !in b.resources ==>
          n.resources[x].body == "" && n.resources[x].bodyBytes == 0)
  }

  lemma RelabelKeepsText(b: Bodies, id: string, url: string, tag: Label)
    requires id in b.resources
    ensures var r := Relabel(b.resources[id], url, tag);
            r.body == b.resources[id].body && r.bodyBytes == b.resources[id].bodyBytes
  {
  }

  lemma EnsureKeepsTexts(l: Limits, b: Bodies, id: string, url: string, tag: Label)
    ensures TextsKept(b, Ensure(l, b, id, url, tag))
  {
    if id in b.resources { RelabelKeepsText(b, id, url, tag); }
    hide Relabel;
  }

  lemma TrackKeepsTexts(c: Capture, id: string, kind: string, status: int, now: int)
    requires id in c.bodies.resources
    ensures TextsKept(c.bodies, TrackResponse(c, id, kind, status, now).bodies)
  {
    hide FetchesBody, StreamingResponse, EqualFold;
  }

  lemma KeptTwice(a: Bodies, b: Bodies, d: Bodies)
    requires TextsKept(a, b) && TextsKept(b, d)
    ensures TextsKept(a, d)
  {
  }

  lemma ResponseKeepsTexts(c: Capture, e: Event, now: int)
    requires e.ResponseReceived?
    ensures TextsKept(c.bodies, OnResponse(c, e, now).bodies)
  {
    var tag := Label(e.kind, FirstNonEmpty(e.mime, e.header), "response");
    var n := c.(bodies := Ensure(c.limits, c.bodies, e.id, e.url, tag));
    EnsureKeepsTexts(c.limits, c.bodies, e.id, e.url, tag);
    if e.id in n.bodies.resources {
      TrackKeepsTexts(n, e.id, e.kind, e.status, now);
      KeptTwice(c.bodies, n.bodies, TrackResponse(n, e.id, e.kind, e.status, now).bodies);
    }
    assert TextsKept(c.bodies, c.bodies);
    hide TextsKept, Ensure, TrackResponse, RelevantResource, FirstNonEmpty, Blank;
  }

  lemma SocketKeepsTexts(c: Capture, e: Event, now: int)
    requires e.WebSocketCreated?
    ensures TextsKept(c.bodies, OnWebSocketCreated(c, e, now).bodies)
  {
    EnsureKeepsTexts(c.limits, c.bodies, e.id, e.url, SOCKET);
    hide Ensure, RelevantHost;
  }

  /** A message that finds its message budget used up adds nothing. */
  lemma MessageKeepsTexts(c: Capture, e: Event, now: int)
    requires (e.EventSourceMessage? || e.WebSocketFrame?) && Appended(c, e).None?
    ensures TextsKept(c.bodies, Step(c, e, now).bodies)
  {
    hide Append, EventRecord, FrameRecord, FirstNonEmpty, Blank;
  }

  /** Every event that appends nothing leaves all text as it is. */
  lemma StepAppendsNothing(c: Capture, e: Event, now: int)
    requires Appended(c, e).None?
    ensures TextsKept(c.bodies, Step(c, e, now).bodies)
  {
    match e
    case ResponseReceived(_, _, _, _, _, _, _) => ResponseKeepsTexts(c, e, now);
    case WebSocketCreated(_, _, _) => SocketKeepsTexts(c, e, now);
    case EventSourceMessage(_, _) => MessageKeepsTexts(c, e, now);
    case WebSocketFrame(_, _, _) => MessageKeepsTexts(c, e, now);
    case _ => hide Append, Fetch, StaysOpen;
  }

  // ----- the total budget

  /** The event meets an exhausted total budget while its resource still has room. */
  predicate Overdraws(c: Capture, e: Event) {
    var a := Appended(c, e);
    a.Some? && c.limits.maxBytes <= c.bodies.totalBytes && BytesOf(c, a.value.0) < c.limits.resourceMaxBytes
  }

  /** Within the total budget, an event leaves it exactly when it overdraws. */
  lemma StepOverdraws(c: Capture, e: Event, now: int)
    requires c.bodies.totalBytes <= c.limits.maxBytes
    ensures Step(c, e, now).bodies.totalBytes <= c.limits.maxBytes <==> !Overdraws(c, e)
  {
    hide Step, Appended;
    if Appended(c, e).Some? {
      var added := StepAppends(c, e, now);
      TextIsNotEmpty(c, e);
    } else {
      StepAppendsNothing(c, e, now);
    }
  }

  lemma TextIsNotEmpty(c: Capture, e: Event)
    requires Appended(c, e).Some?
    ensures Appended(c, e).value.1 != ""
  {
  }

  ghost predicate OverdrawsAt(c: Capture, es: seq<Timed>, k: nat)
    requires k < |es|
  {
    Overdraws(Run(c, es[..k]), es[k].event)
  }

  predicate WithinBudget(c: Capture) { c.bodies.totalBytes <= c.limits.maxBytes }

  lemma LastEvent(c: Capture, es: seq<Timed>, n: nat)
    requires Initial(c) && n + 1 == |es|
    ensures WithinBudget(Run(c, es)) <==> WithinBudget(Run(c, es[..n])) && !OverdrawsAt(c, es, n)
  {
    RunKeepsInv(c, es[..n]);
    RunKeepsInv(c, es);
    RunGrows(c, es, n);
    if WithinBudget(Run(c, es[..n])) {
      StepOverdraws(Run(c, es[..n]), es[n].event, es[n].now);
    }
  }

  /** A run stays within the total budget exactly when none of its events overdraws. */
  lemma {:induction false} BudgetHoldsUntilOverdrawn(c: Capture, es: seq<Timed>)
    requires Initial(c)
    ensures WithinBudget(Run(c, es)) <==> forall k :: 0 <= k < |es| ==> !OverdrawsAt(c, es, k)
  {
    if es != [] {
      var n := |es| - 1;
      BudgetHoldsUntilOverdrawn(c, es[..n]);
      LastEvent(c, es, n);
      forall k | 0 <= k < n ensures OverdrawsAt(c, es[..n], k) <==> OverdrawsAt(c, es, k) {
        assert es[..n][..k] == es[..k];
      }
    }
  }

  // ----- the budget of one request

  /** The event meets the exhausted budget of request id while the total still has room. */
  predicate OverdrawsOwn(c: Capture, e: Event, id: string) {
    TextFor(c, e, id) != "" && c.limits.resourceMaxBytes <= BytesOf(c, id) && c.bodies.totalBytes < c.limits.maxBytes
  }

  predicate WithinOwn(c: Capture, id: string) { BytesOf(c, id) <= c.limits.resourceMaxBytes }

  /** What an event does to the bytes of one request. */
  lemma StepOverdrawsOwn(c: Capture, e: Event, now: int, id: string)
    requires c.limits.Valid()
    ensures BytesOf(c, id) <= BytesOf(Step(c, e, now), id)
    ensures WithinOwn(c, id) ==> (WithinOwn(Step(c, e, now), id) <==> !OverdrawsOwn(c, e, id))
  {
    StepKeepsLimits(c, e, now);
    hide Step, Appended;
    if Appended(c, e).Some? {
      var added := StepAppends(c, e, now);
    } else {
      StepAppendsNothing(c, e, now);
    }
  }

  ghost predicate OverdrawsOwnAt(c: Capture, es: seq<Timed>, id: string, k: nat)
    requires k < |es|
  {
    OverdrawsOwn(Run(c, es[..k]), es[k].event, id)
  }

  /** The body of a request stays within resourceMaxBytes exactly when no event overdraws its budget. */
  lemma {:induction false} OwnBudgetHoldsUntilOverdrawn(c: Capture, es: seq<Timed>, id: string)
    requires Initial(c)
    ensures WithinOwn(Run(c, es), id) <==> forall k :: 0 <= k < |es| ==> !OverdrawsOwnAt(c, es, id, k)
  {
    RunKeepsLimits(c, es);
    if es != [] {
      var n := |es| - 1;
      OwnBudgetHoldsUntilOverdrawn(c, es[..n], id);
      RunKeepsLimits(c, es[..n]);
      RunExtends(c, es, n);
      StepOverdrawsOwn(Run(c, es[..n]), es[n].event, es[n].now, id);
      hide Run, OverdrawsOwn, BytesOf;
      forall k | 0 <= k < n ensures OverdrawsOwnAt(c, es[..n], id, k) <==> OverdrawsOwnAt(c, es, id, k) {
        assert es[..n][..k] == es[..k];
      }
      assert OverdrawsOwnAt(c, es, id, n) <==> OverdrawsOwn(Run(c, es[..n]), es[n].event, id);
    }
  }

  // ----- the rule that counts an exhausted budget as zero

  /** What both budgets leave, an exhausted one counting as zero. */
  function Capped(l: Limits, b: Bodies, r: Resource): int {
    var total, own := l.maxBytes - b.totalBytes, l.resourceMaxBytes - r.bodyBytes;
    Max(0, if total < own then total else own)
  }

  /** The rule in use agrees with this one, unless one budget alone is exhausted. */
  lemma SkippedBudget(l: Limits, b: Bodies, r: Resource)
    ensures Available(l, b, r) == Capped(l, b, r) <==> (b.totalBytes < l.maxBytes <==> r.bodyBytes < l.resourceMaxBytes)
  {
    var budgets := [l.maxBytes - b.totalBytes, l.resourceMaxBytes - r.bodyBytes];
    assert budgets[0] > 0 || budgets[1] > 0 ==> Available(l, b, r) in budgets;
    assert Available(l, b, r) == 0 <==> budgets[0] <= 0 && budgets[1] <= 0;
  }

  /** An append under that rule. */
  function CappedAppend(l: Limits, b: Bodies, id: string, data: string): Bodies {
    if id !in b.resources then b
    else
      var r := b.resources[id];
      var part := if |data| > Capped(l, b, r) then data[..Capped(l, b, r)] else data;
      var lost := |part| < |data|;
      Update(b, id, r.(body := r.body + part, bodyBytes := r.bodyBytes + |part|, truncated := r.truncated || lost))
        .(totalBytes := b.totalBytes + |part|, truncated := b.truncated || lost)
  }

  /** Any number of appends under that rule. */
  function CappedAppends(l: Limits, b: Bodies, appends: seq<(string, string)>): Bodies {
    if appends == [] then b
    else
      var last := appends[|appends| - 1];
      CappedAppend(l, CappedAppends(l, b, appends[..|appends| - 1]), last.0, last.1)
  }

  ghost predicate WithinBoth(l: Limits, b: Bodies) {
    b.totalBytes <= l.maxBytes && forall id :: id in b.resources ==> b.resources[id].bodyBytes <= l.resourceMaxBytes
  }

  /** Under that rule both plain bounds hold whatever is appended. */
  lemma {:induction false} CappedAppendsStayWithin(l: Limits, b: Bodies, appends: seq<(string, string)>)
    requires WithinBoth(l, b)
    ensures WithinBoth(l, CappedAppends(l, b, appends))
  {
    if appends != [] {
      CappedAppendsStayWithin(l, b, appends[..|appends| - 1]);
    }
  }

  // ----- both plain bounds are exceeded by some runs

  /** A tracked request that has no text and has sent no message. */
  ghost predicate Silent(c: Capture, id: string) {
    id in c.bodies.resources && c.bodies.resources[id].bodyBytes == 0 && c.bodies.resources[id].messages == 0
  }

  lemma SocketOpens(c: Capture, id: string, now: int)
    requires !Blank(id) && Blank(c.baseHost) && id !in c.bodies.resources && |c.bodies.order| < c.limits.maxResources
    ensures var n := Step(c, WebSocketCreated(id, "", None), now);
            && Silent(n, id) && n.bodies.resources.Keys == c.bodies.resources.Keys + {id}
            && n.bodies.order == c.bodies.order + [id] && n.bodies.totalBytes == c.bodies.totalBytes
            && n.limits == c.limits && n.baseHost == c.baseHost
            && forall x :: Silent(c, x) ==> Silent(n, x)
  {
    assert id in Ensure(c.limits, c.bodies, id, "", SOCKET).resources;
  }

  lemma FrameAdds(c: Capture, id: string, payload: string, now: int)
    requires !Blank(id) && |payload| == 1 && Silent(c, id) && c.limits.maxMessages > 1
             && c.limits.resourceMaxBytes == 2
    requires c.limits.maxBytes <= c.bodies.totalBytes || 2 <= c.limits.maxBytes - c.bodies.totalBytes
    ensures var n := Step(c, WebSocketFrame(id, true, payload), now);
            && n.bodies.totalBytes == c.bodies.totalBytes + 2 && n.limits == c.limits
            && BytesOf(n, id) == 2 && MayTakeMessage(n, id)
            && forall x :: x != id && Silent(c, x) ==> Silent(n, x)
  {
    var b := Update(c.bodies, id, CountMessage(c.bodies.resources[id], SOCKET));
    AppendShape(c.limits, b, id, FrameRecord(payload));
  }

  lemma RunAppends(c: Capture, es: seq<Timed>, t: Timed)
    ensures Run(c, es + [t]) == Step(Run(c, es), t.event, t.now)
  {
    assert (es + [t])[..|es|] == es;
  }

  /** Two silent sockets with ids a and b, and nothing else. */
  lemma OpenTwo(c: Capture, a: string, b: string) returns (es: seq<Timed>)
    requires Initial(c) && c.limits == Limits(2, 2, 32, 4096) && Blank(c.baseHost)
    requires !Blank(a) && !Blank(b) && a != b
    ensures var d := Run(c, es); Silent(d, a) && Silent(d, b) && d.bodies.totalBytes == 0 && d.limits == c.limits
  {
    var first, second := Timed(WebSocketCreated(a, "", None), 0), Timed(WebSocketCreated(b, "", None), 0);
    assert Run(c, []) == c;
    hide Step, Blank, Run;
    RunAppends(c, [], first);
    SocketOpens(c, a, 0);
    RunAppends(c, [] + [first], second);
    SocketOpens(Run(c, [] + [first]), b, 0);
    es := [] + [first] + [second];
  }

  /** One frame each: the second is kept although the total budget is used up. */
  lemma SendTwo(c: Capture, es: seq<Timed>, a: string, b: string) returns (more: seq<Timed>)
    requires Silent(Run(c, es), a) && Silent(Run(c, es), b) && Run(c, es).bodies.totalBytes == 0
    requires Run(c, es).limits == Limits(2, 2, 32, 4096) && !Blank(a) && !Blank(b) && a != b
    ensures Run(c, more).bodies.totalBytes == 4
  {
    var first, second := Timed(WebSocketFrame(a, true, "x"), 0), Timed(WebSocketFrame(b, true, "x"), 0);
    hide Step, Blank, Run, Silent;
    RunAppends(c, es, first);
    FrameAdds(Run(c, es), a, "x", 0);
    RunAppends(c, es + [first], second);
    FrameAdds(Run(c, es + [first]), b, "x", 0);
    more := es + [first] + [second];
  }

  /** The plain bound on the total is not kept: two web sockets with one frame each exceed it. */
  lemma TotalCanExceedItsBudget()
    ensures exists c, es :: Initial(c) && !WithinBudget(Run(c, es))
  {
    var c := NewCapture(Limits(2, 2, 32, 4096), "", 0);
    assert !Blank("a") && !Blank("b") && Blank("") && "a"[0] != "b"[0];
    hide Blank, Run, Silent;
    RunKeepsLimits(c, []);
    var open := OpenTwo(c, "a", "b");
    var es := SendTwo(c, open, "a", "b");
    RunKeepsLimits(c, es);
    assert !WithinBudget(Run(c, es));
  }

  /** One socket that sent one frame, which filled its budget but not the total one. */
  lemma OpenAndSend(c: Capture, id: string) returns (es: seq<Timed>)
    requires Initial(c) && c.limits == Limits(4, 2, 32, 4096) && Blank(c.baseHost) && !Blank(id)
    ensures var d := Run(c, es);
            BytesOf(d, id) == 2 && MayTakeMessage(d, id) && d.bodies.totalBytes == 2 && d.limits == c.limits
  {
    var open, frame := Timed(WebSocketCreated(id, "", None), 0), Timed(WebSocketFrame(id, true, "x"), 0);
    assert Run(c, []) == c;
    hide Step, Blank, Run, Silent, MayTakeMessage;
    RunAppends(c, [], open);
    SocketOpens(c, id, 0);
    RunAppends(c, [] + [open], frame);
    FrameAdds(Run(c, [] + [open]), id, "x", 0);
    es := [] + [open] + [frame];
  }

  /** Nor is that of one request: a web socket with two frames keeps both, although one fills its budget. */
  lemma OwnCanExceedItsBudget()
    ensures exists c, es, id :: Initial(c) && !WithinOwn(Run(c, es), id)
  {
    var c := NewCapture(Limits(4, 2, 32, 4096), "", 0);
    assert !Blank("a") && Blank("");
    hide Blank, Run, MayTakeMessage, WithinOwn, BytesOf;
    var es := OpenAndSend(c, "a");
    var frame := Timed(WebSocketFrame("a", true, "x"), 0);
    SecondFrame(c, es, frame, "a");
  }

  lemma SecondFrame(c: Capture, es: seq<Timed>, frame: Timed, id: string)
    requires Initial(c) && frame.event == WebSocketFrame(id, true, "x") && !Blank(id) && MayTakeMessage(Run(c, es), id)
    requires BytesOf(Run(c, es), id) == 2 && Run(c, es).bodies.totalBytes == 2 && Run(c, es).limits == c.limits
    requires c.limits == Limits(4, 2, 32, 4096)
    ensures !WithinOwn(Run(c, es + [frame]), id)
  {
    var all := es + [frame];
    RecordsHaveText("x");
    assert all[..|es|] == es && all[|es|] == frame;
    assert OverdrawsOwnAt(c, all, id, |es|);
    OwnBudgetHoldsUntilOverdrawn(c, all, id);
  }
}
