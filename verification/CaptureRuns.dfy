/** What holds of the collector after any sequence of events. */
module CaptureRuns {
  import opened Wrappers
  import opened Text
  import opened NetworkCollector
  import opened CaptureSafety

  datatype Timed = Timed(event: Event, now: int)

  function Run(c: Capture, es: seq<Timed>): Capture {
    if es == [] then c else Step(Run(c, es[..|es| - 1]), es[|es| - 1].event, es[|es| - 1].now)
  }

  /** The text each tracked request was offered over a run, and whether any request was refused. */
  function RunHistory(c: Capture, es: seq<Timed>): History {
    if es == [] then History(map[], false)
    else HistoryStep(Run(c, es[..|es| - 1]), RunHistory(c, es[..|es| - 1]), es[|es| - 1].event)
  }

  ghost predicate Initial(c: Capture) {
    c.limits.Valid() && c == NewCapture(c.limits, c.baseHost, c.clock.activity)
  }

  lemma RunExtends(c: Capture, es: seq<Timed>, n: nat)
    requires n + 1 == |es|
    ensures Run(c, es) == Step(Run(c, es[..n]), es[n].event, es[n].now)
    ensures RunHistory(c, es) == HistoryStep(Run(c, es[..n]), RunHistory(c, es[..n]), es[n].event)
  {
  }

  lemma StepKeepsLimits(c: Capture, e: Event, now: int)
    ensures Step(c, e, now).limits == c.limits
  {
  }

  lemma {:induction false} RunKeepsLimits(c: Capture, es: seq<Timed>)
    ensures Run(c, es).limits == c.limits
  {
    if es != [] {
      var n := |es| - 1;
      RunKeepsLimits(c, es[..n]);
      StepKeepsLimits(Run(c, es[..n]), es[n].event, es[n].now);
    }
  }

  /** Advances the state and its history by one event. */
  lemma NextKeepsInv(c: Capture, h: History, e: Event, now: int, d: Capture, g: History)
    requires Inv(c, h) && d == Step(c, e, now) && g == HistoryStep(c, h, e)
    ensures Inv(d, g)
  {
    StepKeepsInv(c, h, e, now);
  }

  lemma {:induction false} RunKeepsInv(c: Capture, es: seq<Timed>)
    requires Initial(c)
    ensures Inv(Run(c, es), RunHistory(c, es)) && Run(c, es).limits == c.limits
  {
    RunKeepsLimits(c, es);
    if es != [] {
      var n := |es| - 1;
      RunKeepsInv(c, es[..n]);
      RunExtends(c, es, n);
      NextKeepsInv(Run(c, es[..n]), RunHistory(c, es[..n]), es[n].event, es[n].now, Run(c, es), RunHistory(c, es));
    }
  }

  /** Body lengths, the total and the budgets agree after every run. */
  lemma BytesAreCounted(c: Capture, es: seq<Timed>)
    requires Initial(c)
    ensures var l, b := c.limits, Run(c, es).bodies;
            && (forall id :: id in b.resources ==>
                  b.resources[id].bodyBytes == |b.resources[id].body| <= Max(l.maxBytes, l.resourceMaxBytes))
            && b.totalBytes == Sum(b.order, b.resources, None)
            && b.totalBytes <= l.maxBytes + Sum(b.order, b.resources, Some(l.resourceMaxBytes))
  {
    RunKeepsInv(c, es);
  }

  /** The order lists each resource once and stays within its limit; the open sets hold resources only. */
  lemma SetsHoldResources(c: Capture, es: seq<Timed>)
    requires Initial(c)
    ensures var r := Run(c, es);
            && Distinct(r.bodies.order) && |r.bodies.order| <= c.limits.maxResources
            && (forall id :: id in r.bodies.order <==> id in r.bodies.resources)
            && r.open.active + r.open.eventSources + r.open.streams + r.open.pending <= r.bodies.resources.Keys
            && r.open.webSockets <= r.open.active
  {
    RunKeepsInv(c, es);
  }

  /** A page is never declared quiet because only its web sockets are left. */
  lemma NeverWebSocketIdle(c: Capture, es: seq<Timed>, ready: int, total: int, idle: int, now: int)
    requires Initial(c)
    ensures Settled(Run(c, es).open, Run(c, es).clock, ready, total, idle, now) != Some("websocket_idle")
  {
    RunKeepsInv(c, es);
    var o := Run(c, es).open;
    if 0 < |o.webSockets| {
      var id :| id in o.webSockets;
      assert id in o.active;
    }
    assert "websocket_idle"[0] != "event_source_idle"[0] && "websocket_idle"[0] != "stream_idle"[0];
    assert "websocket_idle"[0] != "network_idle"[0] && "websocket_idle"[0] != "network_idle_with_active_requests"[0];
  }

  // ----- honest truncation

  /** Something offered is missing: a request was refused or a body is shorter than its offers. */
  ghost predicate Missing(b: Bodies, h: History) {
    h.refused || exists id :: id in b.resources && id in h.offered && |b.resources[id].body| < |h.offered[id]|
  }

  /** The flag is set exactly when something is missing; until then every body is all that was offered. */
  lemma TruncationIsHonest(c: Capture, es: seq<Timed>)
    requires Initial(c)
    ensures var b, h := Run(c, es).bodies, RunHistory(c, es);
            && (b.truncated <==> Missing(b, h))
            && h.offered.Keys == b.resources.Keys
            && (!b.truncated ==> forall id :: id in b.resources ==> b.resources[id].body == h.offered[id])
            && (forall id :: id in b.resources ==>
                  (b.resources[id].truncated <==> |b.resources[id].body| < |h.offered[id]|))
  {
    RunKeepsInv(c, es);
    var b, h := Run(c, es).bodies, RunHistory(c, es);
    assert forall id :: id in b.resources ==>
        (b.resources[id].truncated <==> |b.resources[id].body| < |h.offered[id]|);
  }

  lemma StepGrows(c: Capture, e: Event, now: int)
    ensures c.bodies.truncated ==> Step(c, e, now).bodies.truncated
    ensures c.bodies.totalBytes <= Step(c, e, now).bodies.totalBytes
  {
  }

  /** Once set, the truncation flag stays set, and no byte is given back. */
  lemma {:induction false} RunGrows(c: Capture, es: seq<Timed>, k: nat)
    requires k <= |es|
    ensures Run(c, es[..k]).bodies.truncated ==> Run(c, es).bodies.truncated
    ensures Run(c, es[..k]).bodies.totalBytes <= Run(c, es).bodies.totalBytes
  {
    if k == |es| {
      assert es[..k] == es;
    } else {
      var n := |es| - 1;
      assert es[..n][..k] == es[..k];
      RunGrows(c, es[..n], k);
      StepGrows(Run(c, es[..n]), es[n].event, es[n].now);
    }
  }
}
