/** From the event stream to the blocks: what the collector keeps of server-sent events is read back whole. */
module EventCapture {
  import opened Wrappers
  import opened Text
  import opened NetworkCollector
  import opened CaptureSafety
  import opened CaptureRuns
  import opened CapturePrefix
  import opened EventStream

  /** The event offers text to the request in another way than as a server-sent event. */
  predicate OtherText(e: Event, id: string) {
    (e.BodyArrived? && e.id == id) || (e.WebSocketFrame? && e.id == id)
  }

  predicate EventsOnly(es: seq<Timed>, id: string) { forall i :: 0 <= i < |es| ==> !OtherText(es[i].event, id) }

  /** The payload that an event sends to a tracked request. */
  function Sent(c: Capture, e: Event, id: string): seq<string> {
    if e.EventSourceMessage? && e.id == id && id in c.bodies.resources then [e.data] else []
  }

  /** The payloads sent to a request over a run, in order. */
  function Payloads(c: Capture, es: seq<Timed>, id: string): seq<string> {
    if es == [] then []
    else Payloads(c, es[..|es| - 1], id) + Sent(Run(c, es[..|es| - 1]), es[|es| - 1].event, id)
  }

  lemma {:induction false} WrittenConcat(a: seq<string>, b: seq<string>)
    ensures Written(a + b) == Written(a) + Written(b)
  {
    if a == [] {
      assert a + b == b;
    } else {
      assert (a + b)[1..] == a[1..] + b;
      WrittenConcat(a[1..], b);
    }
  }

  /** One event adds to the offered text exactly the record of the payload it sends. */
  lemma StepOffers(c: Capture, h: History, e: Event, id: string)
    requires h.offered.Keys == c.bodies.resources.Keys && !Blank(id) && !OtherText(e, id)
    ensures var g := HistoryStep(c, h, e);
            if id in h.offered then id in g.offered && g.offered[id] == h.offered[id] + Written(Sent(c, e, id))
            else Sent(c, e, id) == [] && (id in g.offered ==> g.offered[id] == "")
  {
    hide RelevantResource, RelevantHost, FirstNonEmpty, FrameRecord, EventRecord;
    if Sent(c, e, id) != [] {
      assert Written([e.data]) == EventRecord(e.data) + Written([e.data][1..]) && [e.data][1..] == [];
    }
  }

  lemma {:induction false} OfferedIsWritten(c: Capture, es: seq<Timed>, id: string)
    requires Initial(c) && !Blank(id) && EventsOnly(es, id)
    ensures var h := RunHistory(c, es);
            if id in h.offered then h.offered[id] == Written(Payloads(c, es, id)) else Payloads(c, es, id) == []
  {
    if es != [] {
      var n := |es| - 1;
      var was, h := Run(c, es[..n]), RunHistory(c, es[..n]);
      OfferedIsWritten(c, es[..n], id);
      RunKeepsInv(c, es[..n]);
      assert h.offered.Keys == was.bodies.resources.Keys;
      hide Step, HistoryStep, Inv, Blank, Sent, OtherText;
      StepOffers(was, h, es[n].event, id);
      WrittenConcat(Payloads(c, es[..n], id), Sent(was, es[n].event, id));
    }
  }

  /**
   * As long as the body of a request is not truncated, whatever happens to other requests, the reader
   * returns the payloads that the page was sent on it, trimmed and in order, exactly when none of them
   * has a line break inside.
   */
  lemma EventsAreReadBack(c: Capture, es: seq<Timed>, id: string)
    requires Initial(c) && !Blank(id) && EventsOnly(es, id)
    requires id in Run(c, es).bodies.resources && !Run(c, es).bodies.resources[id].truncated
    ensures Blocks(Run(c, es).bodies.resources[id].body) == Trimmed(Payloads(c, es, id)) <==>
            SingleLines(Payloads(c, es, id))
  {
    RunKeepsInv(c, es);
    OfferedIsWritten(c, es, id);
    assert Honest(Run(c, es).bodies.resources[id], RunHistory(c, es).offered[id]);
    ReadBackIffSingleLines(Payloads(c, es, id));
  }

  /**
   * A truncated body that was never resumed after its cut is read as the first payloads, the last of
   * them perhaps cut.
   */
  lemma CutEventsReadFirstItems(c: Capture, es: seq<Timed>, id: string)
    requires Initial(c) && !Blank(id) && EventsOnly(es, id) && SingleLines(Payloads(c, es, id))
    requires forall k :: 0 <= k < |es| ==> !ResumesAt(c, es, id, k)
    ensures FirstItems(Blocks(BodyOf(Run(c, es), id)), Trimmed(Payloads(c, es, id)))
  {
    hide Run, RunHistory, ResumesAt, FirstItems, Blocks, EventsOnly;
    BodyIsPrefix(c, es, id);
    OfferedIsWritten(c, es, id);
    var all := Written(Payloads(c, es, id));
    var body := BodyOf(Run(c, es), id);
    assert OfferedTo(RunHistory(c, es), id) == all;
    assert body == all[..|body|];
    CutBodyReadsFirstItems(Payloads(c, es, id), |body|);
  }
}
