/** The invariant of the collector, and a proof that every event keeps it. */
module CaptureSafety {
  import opened Wrappers
  import opened Text
  import opened NetworkCollector

  // ----- sums over the resources

  predicate Distinct(s: seq<string>) { forall i, j :: 0 <= i < j < |s| ==> s[i] != s[j] }

  /** The bytes of a resource, all of them or only those that fit a budget. */
  function Weight(r: Resource, cap: Option<int>): int {
    if cap.Some? && cap.value < r.bodyBytes then cap.value else r.bodyBytes
  }

  function WeightAt(m: map<string, Resource>, id: string, cap: Option<int>): int {
    if id in m then Weight(m[id], cap) else 0
  }

  function Sum(order: seq<string>, m: map<string, Resource>, cap: Option<int>): int {
    if order == [] then 0 else Sum(order[..|order| - 1], m, cap) + WeightAt(m, order[|order| - 1], cap)
  }

  lemma {:induction false} SumChange(order: seq<string>, m: map<string, Resource>, id: string, r: Resource,
                                     cap: Option<int>)
    requires Distinct(order)
    ensures Sum(order, m[id := r], cap) ==
            Sum(order, m, cap) + (if id in order then Weight(r, cap) - WeightAt(m, id, cap) else 0)
  {
    if order != [] {
      var init := order[..|order| - 1];
      assert order == init + [order[|order| - 1]];
      SumChange(init, m, id, r, cap);
    }
  }

  lemma {:induction false} SumBounds(order: seq<string>, m: map<string, Resource>, id: string, cap: Option<int>)
    requires forall x :: x in m ==> 0 <= Weight(m[x], cap)
    ensures 0 <= Sum(order, m, cap)
    ensures id in order ==> WeightAt(m, id, cap) <= Sum(order, m, cap)
  {
    if order != [] {
      var init := order[..|order| - 1];
      assert order == init + [order[|order| - 1]];
      SumBounds(init, m, id, cap);
    }
  }

  // ----- byte accounting

  ghost predicate OrderInv(l: Limits, b: Bodies) {
    Distinct(b.order) && |b.order| <= l.maxResources && forall id :: id in b.order <==> id in b.resources
  }

  ghost predicate AccountInv(l: Limits, b: Bodies) {
    && OrderInv(l, b)
    && (forall id :: id in b.resources ==>
          b.resources[id].bodyBytes == |b.resources[id].body| <= Max(l.maxBytes, l.resourceMaxBytes))
    && b.totalBytes == Sum(b.order, b.resources, None)
    && b.totalBytes <= l.maxBytes + Sum(b.order, b.resources, Some(l.resourceMaxBytes))
  }

  /** Two resources that hold the same text, whatever else is known about them. */
  predicate SameText(r: Resource, q: Resource) {
    r.body == q.body && r.bodyBytes == q.bodyBytes && r.truncated == q.truncated
  }

  lemma UpdateKeepsAccount(l: Limits, b: Bodies, id: string, r: Resource)
    requires AccountInv(l, b) && id in b.resources
    requires r.body == b.resources[id].body && r.bodyBytes == b.resources[id].bodyBytes
    ensures AccountInv(l, Update(b, id, r))
  {
    hide Sum;
    var n := Update(b, id, r);
    SumChange(b.order, b.resources, id, n.resources[id], None);
    SumChange(b.order, b.resources, id, n.resources[id], Some(l.resourceMaxBytes));
  }

  lemma NewKeepsOrder(l: Limits, b: Bodies, id: string, r: Resource)
    requires OrderInv(l, b) && id !in b.resources && |b.order| < l.maxResources
    ensures OrderInv(l, Update(b, id, r).(order := b.order + [id]))
  {
  }

  /** A new empty resource adds nothing to a sum. */
  lemma SumOfNew(order: seq<string>, m: map<string, Resource>, id: string, r: Resource, cap: Option<int>)
    requires Distinct(order) && id !in order && Weight(r, cap) == 0
    ensures Sum(order + [id], m[id := r], cap) == Sum(order, m, cap)
  {
    SumChange(order, m, id, r, cap);
    assert (order + [id])[..|order|] == order;
  }

  lemma NewKeepsAccount(l: Limits, b: Bodies, id: string, r: Resource, n: Bodies)
    requires AccountInv(l, b) && l.Valid() && id !in b.resources && |b.order| < l.maxResources
    requires r.body == "" && r.bodyBytes == 0 && n == Update(b, id, r).(order := b.order + [id])
    ensures AccountInv(l, n)
  {
    hide Sum, WeightAt;
    NewKeepsOrder(l, b, id, r);
    SumOfNew(b.order, b.resources, id, r, None);
    SumOfNew(b.order, b.resources, id, r, Some(l.resourceMaxBytes));
  }

  /** Whether an append adds under the total budget or under the resource budget, the bound holds. */
  lemma AppendKeepsTotal(l: Limits, b: Bodies, id: string, data: string)
    requires AccountInv(l, b) && l.Valid() && id in b.resources
    ensures var n := Append(l, b, id, data);
            n.totalBytes == Sum(n.order, n.resources, None)
            && n.totalBytes <= l.maxBytes + Sum(n.order, n.resources, Some(l.resourceMaxBytes))
  {
    hide Append;
    var n := Append(l, b, id, data);
    AppendShape(l, b, id, data);
    SumChange(b.order, b.resources, id, n.resources[id], None);
    SumChange(b.order, b.resources, id, n.resources[id], Some(l.resourceMaxBytes));
    SumBounds(n.order, n.resources, id, Some(l.resourceMaxBytes));
    assert n.resources == b.resources[id := n.resources[id]];
  }

  lemma AppendKeepsAccount(l: Limits, b: Bodies, id: string, data: string)
    requires AccountInv(l, b) && l.Valid() && id in b.resources
    ensures AccountInv(l, Append(l, b, id, data))
  {
    hide Append, Sum;
    var n := Append(l, b, id, data);
    AppendShape(l, b, id, data);
    AppendKeepsTotal(l, b, id, data);
    SumBounds(n.order, n.resources, id, None);
  }

  /** How many bytes an append adds, and which budget they respect. */
  lemma AppendShape(l: Limits, b: Bodies, id: string, data: string)
    requires id in b.resources
    ensures var n := Append(l, b, id, data);
            var r, q := b.resources[id], n.resources[id];
            var added := q.bodyBytes - r.bodyBytes;
            && n.order == b.order && n.resources.Keys == b.resources.Keys
            && (forall x :: x in b.resources && x != id ==> n.resources[x] == b.resources[x])
            && 0 <= added <= |data| && n.totalBytes == b.totalBytes + added
            && q.body == r.body + data[..added]
            && (q.truncated <==> r.truncated || added < |data|)
            && (n.truncated <==> b.truncated || added < |data|)
            && (added > 0 && b.totalBytes < l.maxBytes ==> n.totalBytes <= l.maxBytes)
            && (added > 0 && r.bodyBytes < l.resourceMaxBytes ==> q.bodyBytes <= l.resourceMaxBytes)
            && (added > 0 ==> b.totalBytes < l.maxBytes || r.bodyBytes < l.resourceMaxBytes)
            && (data != "" && (b.totalBytes < l.maxBytes || r.bodyBytes < l.resourceMaxBytes) ==> added > 0)
  {
    var r := b.resources[id];
    var budgets := [l.maxBytes - b.totalBytes, l.resourceMaxBytes - r.bodyBytes];
    var available := MinPositive(budgets);
    assert available > 0 ==> available == budgets[0] || available == budgets[1];
    assert available > 0 && budgets[0] > 0 ==> available <= budgets[0];
    assert available > 0 && budgets[1] > 0 ==> available <= budgets[1];
    assert available == 0 ==> budgets[0] <= 0 && budgets[1] <= 0;
    assert r.body + data[..0] == r.body;
    assert data[..|data|] == data;
  }

  // ----- honest truncation

  /** What the events so far asked the collector to keep: text per tracked request, and refusals. */
  datatype History = History(offered: map<string, string>, refused: bool)

  /** A body that lost bytes is marked, and one that did not is all that was offered. */
  predicate Honest(r: Resource, all: string) {
    |r.body| <= |all| && (r.truncated <==> |r.body| < |all|) && (!r.truncated ==> r.body == all)
  }

  /** The flag is set exactly when a request was refused or a body is marked. */
  ghost predicate FlagHonest(b: Bodies, refused: bool) {
    b.truncated <==> refused || exists id :: id in b.resources && b.resources[id].truncated
  }

  ghost predicate HonestInv(b: Bodies, h: History) {
    && h.offered.Keys == b.resources.Keys
    && (forall id :: id in b.resources ==> Honest(b.resources[id], h.offered[id]))
    && FlagHonest(b, h.refused)
  }

  ghost predicate BodyInv(l: Limits, b: Bodies, h: History) { AccountInv(l, b) && HonestInv(b, h) }

  function Offer(h: History, id: string, data: string): History {
    h.(offered := h.offered[id := (if id in h.offered then h.offered[id] else "") + data])
  }

  lemma UpdateKeepsBodies(l: Limits, b: Bodies, h: History, id: string, r: Resource)
    requires BodyInv(l, b, h) && id in b.resources && SameText(r, b.resources[id])
    ensures BodyInv(l, Update(b, id, r), h)
  {
    var n := Update(b, id, r);
    UpdateKeepsAccount(l, b, id, r);
    assert forall x :: x in b.resources ==> n.resources[x].truncated == b.resources[x].truncated;
  }

  lemma NewKeepsBodies(l: Limits, b: Bodies, h: History, id: string, r: Resource, n: Bodies)
    requires BodyInv(l, b, h) && l.Valid() && id !in b.resources && |b.order| < l.maxResources
    requires r.body == "" && r.bodyBytes == 0 && !r.truncated && n == Update(b, id, r).(order := b.order + [id])
    ensures BodyInv(l, n, Offer(h, id, ""))
  {
    hide AccountInv, Sum;
    NewKeepsAccount(l, b, id, r, n);
    forall x | x in b.resources && b.resources[x].truncated ensures n.resources[x].truncated {}
    assert forall x :: x in n.resources && n.resources[x].truncated ==> x in b.resources && b.resources[x].truncated;
  }

  lemma AppendIsHonest(l: Limits, b: Bodies, id: string, data: string, all: string)
    requires id in b.resources && Honest(b.resources[id], all)
    ensures Honest(Append(l, b, id, data).resources[id], all + data)
  {
    AppendShape(l, b, id, data);
    hide Append;
    assert data[..|data|] == data;
  }

  /** One resource changed, and the flag records whether it lost bytes just now. */
  lemma FlagKeepsUp(b: Bodies, refused: bool, n: Bodies, id: string, lost: bool)
    requires id in b.resources && n.resources.Keys == b.resources.Keys
    requires forall x :: x in b.resources && x != id ==> n.resources[x] == b.resources[x]
    requires n.resources[id].truncated <==> b.resources[id].truncated || lost
    requires n.truncated <==> b.truncated || lost
    requires FlagHonest(b, refused)
    ensures FlagHonest(n, refused)
  {
    forall x | x in b.resources && b.resources[x].truncated ensures x in n.resources && n.resources[x].truncated {}
    forall x | x in n.resources && n.resources[x].truncated && !lost ensures b.resources[x].truncated {}
  }

  lemma AppendFlags(l: Limits, b: Bodies, id: string, data: string, n: Bodies) returns (lost: bool)
    requires id in b.resources && n == Append(l, b, id, data)
    ensures n.resources.Keys == b.resources.Keys
    ensures forall x :: x in b.resources && x != id ==> n.resources[x] == b.resources[x]
    ensures n.resources[id].truncated <==> b.resources[id].truncated || lost
    ensures n.truncated <==> b.truncated || lost
  {
    AppendShape(l, b, id, data);
    lost := n.resources[id].bodyBytes - b.resources[id].bodyBytes < |data|;
  }

  lemma OneOffer(b: Bodies, h: History, n: Bodies, g: History, id: string)
    requires HonestInv(b, h) && id in b.resources
    requires g.offered.Keys == h.offered.Keys && g.refused == h.refused && n.resources.Keys == b.resources.Keys
    requires forall x :: x in b.resources && x != id ==>
               n.resources[x] == b.resources[x] && g.offered[x] == h.offered[x]
    requires Honest(n.resources[id], g.offered[id]) && FlagHonest(n, g.refused)
    ensures HonestInv(n, g)
  {
    hide Honest, FlagHonest;
  }

  lemma AppendKeepsHonest(l: Limits, b: Bodies, h: History, id: string, data: string, n: Bodies)
    requires HonestInv(b, h) && id in b.resources && n == Append(l, b, id, data)
    ensures HonestInv(n, Offer(h, id, data))
  {
    var g := Offer(h, id, data);
    assert g.offered[id] == h.offered[id] + data;
    hide Append, Honest, FlagHonest;
    AppendIsHonest(l, b, id, data, h.offered[id]);
    var lost := AppendFlags(l, b, id, data, n);
    FlagKeepsUp(b, h.refused, n, id, lost);
    hide HonestInv, Offer;
    OneOffer(b, h, n, g, id);
  }

  lemma DropKeepsHonest(b: Bodies, h: History, id: string, data: string, n: Bodies)
    requires HonestInv(b, h) && id in b.resources && data != ""
    requires n == Update(b, id, b.resources[id].(truncated := true)).(truncated := true)
    ensures HonestInv(n, Offer(h, id, data))
  {
    assert n.resources[id].truncated;
  }

  lemma MessageKeepsBodies(l: Limits, b: Bodies, h: History, id: string, data: string)
    requires BodyInv(l, b, h) && l.Valid() && id in b.resources && data != ""
    ensures BodyInv(l, AppendMessage(l, b, id, data), Offer(h, id, data))
  {
    var n := AppendMessage(l, b, id, data);
    if l.maxMessages <= 0 || b.resources[id].messages <= l.maxMessages {
      AppendKeepsAccount(l, b, id, data);
      AppendKeepsHonest(l, b, h, id, data, n);
    } else {
      UpdateKeepsAccount(l, b, id, b.resources[id].(truncated := true));
      DropKeepsHonest(b, h, id, data, n);
    }
  }

  /** Looking a request up: a new one starts with no text, and a refusal is remembered. */
  function EnsureHistory(l: Limits, b: Bodies, h: History, id: string): History {
    if id in b.resources then h else if Refused(l, b, id) then h.(refused := true) else Offer(h, id, "")
  }

  lemma EnsureKeepsBodies(l: Limits, b: Bodies, h: History, id: string, url: string, tag: Label)
    requires BodyInv(l, b, h) && l.Valid()
    ensures BodyInv(l, Ensure(l, b, id, url, tag), EnsureHistory(l, b, h, id))
    ensures b.resources.Keys <= Ensure(l, b, id, url, tag).resources.Keys
  {
    var n := Ensure(l, b, id, url, tag);
    if id in b.resources {
      UpdateKeepsBodies(l, b, h, id, Relabel(b.resources[id], url, tag));
    } else if !Refused(l, b, id) {
      NewKeepsBodies(l, b, h, id, NewResource(url, tag), n);
    }
  }

  // ----- open sets

  ghost predicate OpenInv(o: Open, keys: set<string>) {
    && o.active <= keys && o.eventSources <= keys && o.streams <= keys && o.webSockets <= keys && o.pending <= keys
    && o.webSockets <= o.active
  }

  ghost predicate Inv(c: Capture, h: History) {
    c.limits.Valid() && BodyInv(c.limits, c.bodies, h) && OpenInv(c.open, c.bodies.resources.Keys)
  }

  /** What one event asks the collector to keep or refuses, given the state it meets. */
  function HistoryStep(c: Capture, h: History, e: Event): History {
    match e
    case ResponseReceived(id, url, host, kind, _, mime, header) =>
      if Blank(id) || !RelevantResource(c.baseHost, kind, url, host, FirstNonEmpty(mime, header)) then h
      else EnsureHistory(c.limits, c.bodies, h, id)
    case WebSocketCreated(id, url, host) =>
      if Blank(id) || !RelevantHost(c.baseHost, url, host) then h else EnsureHistory(c.limits, c.bodies, h, id)
    case EventSourceMessage(id, data) =>
      if Blank(id) || id !in c.bodies.resources then h else Offer(h, id, EventRecord(data))
    case WebSocketFrame(id, text, payload) =>
      if Blank(id) || payload == "" || !text || id !in c.bodies.resources then h
      else Offer(h, id, FrameRecord(payload))
    case BodyArrived(id, data) =>
      if id !in c.bodies.resources || Blank(data) then h else Offer(h, id, data)
    case _ => h
  }

  lemma ResponseKeepsInv(c: Capture, h: History, e: Event, now: int)
    requires Inv(c, h) && e.ResponseReceived?
    ensures Inv(OnResponse(c, e, now), HistoryStep(c, h, e))
  {
    var contentType := FirstNonEmpty(e.mime, e.header);
    if !Blank(e.id) && RelevantResource(c.baseHost, e.kind, e.url, e.host, contentType) {
      var tag := Label(e.kind, contentType, "response");
      EnsureKeepsBodies(c.limits, c.bodies, h, e.id, e.url, tag);
      var n := c.(bodies := Ensure(c.limits, c.bodies, e.id, e.url, tag));
      if e.id in n.bodies.resources {
        TrackKeepsInv(n, EnsureHistory(c.limits, c.bodies, h, e.id), e.id, e.kind, e.status, now);
      }
    }
  }

  lemma TrackKeepsInv(c: Capture, h: History, id: string, kind: string, status: int, now: int)
    requires Inv(c, h) && id in c.bodies.resources
    ensures Inv(TrackResponse(c, id, kind, status, now), h)
  {
    var r := Opened(c.open, c.clock, id, kind, c.bodies.resources[id].(status := status), now).0;
    UpdateKeepsBodies(c.limits, c.bodies, h, id, r);
    assert Update(c.bodies, id, r).resources.Keys == c.bodies.resources.Keys;
  }

  lemma LoadingDoneKeepsInv(c: Capture, h: History, id: string, finished: bool, now: int)
    requires Inv(c, h)
    ensures Inv(OnLoadingDone(c, id, finished, now), h)
  {
    hide BodyInv, FetchesBody, StaysOpen;
    if id in c.bodies.resources {
      var r := c.bodies.resources[id].(finished := finished);
      UpdateKeepsBodies(c.limits, c.bodies, h, id, r);
      assert Update(c.bodies, id, r).resources.Keys == c.bodies.resources.Keys;
    }
  }

  lemma MessageKeepsKeys(l: Limits, b: Bodies, id: string, data: string)
    requires id in b.resources
    ensures AppendMessage(l, b, id, data).resources.Keys == b.resources.Keys
    ensures Append(l, b, id, data).resources.Keys == b.resources.Keys
  {
    AppendShape(l, b, id, data);
  }

  lemma StreamKeepsInv(c: Capture, h: History, id: string, r: Resource, data: string)
    requires Inv(c, h) && id in c.bodies.resources && SameText(r, c.bodies.resources[id]) && data != ""
    ensures var n := AppendMessage(c.limits, Update(c.bodies, id, r), id, data);
            BodyInv(c.limits, n, Offer(h, id, data)) && n.resources.Keys == c.bodies.resources.Keys
  {
    hide AppendMessage, BodyInv;
    UpdateKeepsBodies(c.limits, c.bodies, h, id, r);
    MessageKeepsBodies(c.limits, Update(c.bodies, id, r), h, id, data);
    MessageKeepsKeys(c.limits, Update(c.bodies, id, r), id, data);
  }

  lemma EventSourceKeepsInv(c: Capture, h: History, id: string, data: string, now: int)
    requires Inv(c, h)
    ensures Inv(OnEventSourceMessage(c, id, data, now), HistoryStep(c, h, EventSourceMessage(id, data)))
  {
    hide AppendMessage, BodyInv, Blank;
    if !Blank(id) && id in c.bodies.resources {
      var r := CountMessage(c.bodies.resources[id], EVENTS).(finished := false);
      StreamKeepsInv(c, h, id, r, EventRecord(data));
    }
  }

  lemma FrameKeepsInv(c: Capture, h: History, id: string, text: bool, payload: string, now: int)
    requires Inv(c, h)
    ensures Inv(OnWebSocketFrame(c, id, text, payload, now), HistoryStep(c, h, WebSocketFrame(id, text, payload)))
  {
    hide AppendMessage, BodyInv, Blank;
    if !Blank(id) && payload != "" && text && id in c.bodies.resources {
      StreamKeepsInv(c, h, id, CountMessage(c.bodies.resources[id], SOCKET), FrameRecord(payload));
    }
  }

  lemma SocketCreatedKeepsInv(c: Capture, h: History, e: Event, now: int)
    requires Inv(c, h) && e.WebSocketCreated?
    ensures Inv(OnWebSocketCreated(c, e, now), HistoryStep(c, h, e))
  {
    if !Blank(e.id) && RelevantHost(c.baseHost, e.url, e.host) {
      EnsureKeepsBodies(c.limits, c.bodies, h, e.id, e.url, SOCKET);
    }
  }

  lemma SocketClosedKeepsInv(c: Capture, h: History, id: string, now: int)
    requires Inv(c, h)
    ensures Inv(OnWebSocketClosed(c, id, now), h)
  {
    if id in c.bodies.resources {
      var r := c.bodies.resources[id].(finished := true);
      UpdateKeepsBodies(c.limits, c.bodies, h, id, r);
      assert Update(c.bodies, id, r).resources.Keys == c.bodies.resources.Keys;
    }
  }

  lemma BodyKeepsInv(c: Capture, h: History, id: string, data: string, now: int)
    requires Inv(c, h)
    ensures Inv(OnBody(c, id, data, now), HistoryStep(c, h, BodyArrived(id, data)))
  {
    hide Append, AccountInv, HonestInv;
    if id in c.bodies.resources && !Blank(data) {
      AppendKeepsAccount(c.limits, c.bodies, id, data);
      AppendKeepsHonest(c.limits, c.bodies, h, id, data, Append(c.limits, c.bodies, id, data));
      MessageKeepsKeys(c.limits, c.bodies, id, data);
    }
  }

  /** Every event keeps the invariant. */
  lemma StepKeepsInv(c: Capture, h: History, e: Event, now: int)
    requires Inv(c, h)
    ensures Inv(Step(c, e, now), HistoryStep(c, h, e))
  {
    match e
    case ResponseReceived(_, _, _, _, _, _, _) => ResponseKeepsInv(c, h, e, now);
    case LoadingDone(id, finished) => LoadingDoneKeepsInv(c, h, id, finished, now);
    case EventSourceMessage(id, data) => EventSourceKeepsInv(c, h, id, data, now);
    case WebSocketCreated(_, _, _) => SocketCreatedKeepsInv(c, h, e, now);
    case WebSocketFrame(id, text, payload) => FrameKeepsInv(c, h, id, text, payload, now);
    case WebSocketClosed(id) => SocketClosedKeepsInv(c, h, id, now);
    case BodyArrived(id, data) => BodyKeepsInv(c, h, id, data, now);
    case _ =>
  }
}
