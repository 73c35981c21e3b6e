/**
 * When the collector calls a page quiet: how long ago the events that count were, and what is recorded
 * as the reason.
 */
module CaptureSettling {
  import opened Wrappers
  import opened Text
  import opened NetworkCollector
  import opened CaptureSafety
  import opened CaptureRuns
  import opened CaptureOpen

  /** Data of an open stream or event source. */
  predicate Streams(c: Capture, e: Event) {
    e.DataReceived? && !Blank(e.id) && e.id in c.open.streams + c.open.eventSources
  }

  /** A stream or event source opened or said something. */
  predicate Speaks(c: Capture, e: Event) {
    Streams(c, e) || (e.ResponseReceived? && (OpensSource(c, e, e.id) || OpensStream(c, e, e.id)))
    || (e.EventSourceMessage? && Tells(c, e, e.id))
  }

  /** The event is traffic of a request that the collector follows. */
  predicate Stirs(c: Capture, e: Event) {
    match e
    case ResponseReceived(id, _, _, _, _, _, _) => Opens(c, e, id)
    case WebSocketCreated(id, _, _) => Opens(c, e, id)
    case LoadingDone(id, _) => Loaded(e, id) && id in c.bodies.resources
    case WebSocketClosed(id) => Closed(e, id) && id in c.bodies.resources
    case EventSourceMessage(id, _) => Tells(c, e, id)
    case WebSocketFrame(id, text, payload) => !Blank(id) && text && payload != "" && id in c.bodies.resources
    case DataReceived(_) => Streams(c, e)
    case BodyArrived(id, data) => !Blank(data) && id in c.bodies.resources
    case _ => false
  }

  lemma StepStirs(c: Capture, e: Event, now: int)
    requires c.limits.Valid()
    ensures Step(c, e, now).clock.activity == if Stirs(c, e) then now else c.clock.activity
  {
    hide RelevantHost, RelevantResource, FetchesBody, FirstNonEmpty, ToLower, Append, StreamingResponse, StaysOpen;
  }

  lemma StepSpeaks(c: Capture, e: Event, now: int)
    requires c.limits.Valid()
    ensures var n := Step(c, e, now).clock;
            if Speaks(c, e) then (n.stream == Some(now) && n.eventSource == c.clock.eventSource)
                                 || (n.eventSource == Some(now) && n.stream == c.clock.stream)
            else n.stream == c.clock.stream && n.eventSource == c.clock.eventSource
  {
    if e.ResponseReceived? && Opens(c, e, e.id) { LabelSays(c, e); }
    hide RelevantHost, RelevantResource, FetchesBody, FirstNonEmpty, ToLower, Append, StreamingResponse, StaysOpen;
    hide OpensStream, Relabel, TypeAfter;
  }

  ghost predicate StirsAt(c: Capture, es: seq<Timed>, k: nat) { k < |es| && Stirs(Run(c, es[..k]), es[k].event) }

  ghost predicate SpeaksAt(c: Capture, es: seq<Timed>, k: nat) { k < |es| && Speaks(Run(c, es[..k]), es[k].event) }

  // ----- how long ago

  /** Time does not run backwards. */
  predicate Ticking(c: Capture, es: seq<Timed>) {
    && (forall i :: 0 <= i < |es| ==> c.clock.activity <= es[i].now)
    && (forall i, j :: 0 <= i < j < |es| ==> es[i].now <= es[j].now)
  }

  /** All traffic of the first n events, and the start, lie at least `silence` before `now`. */
  ghost predicate StillFor(c: Capture, es: seq<Timed>, n: nat, silence: int, now: int) {
    c.clock.activity + silence <= now && forall k: nat :: k < n && StirsAt(c, es, k) ==> es[k].now + silence <= now
  }

  /** All that streams and event sources said in the first n events lies that far back. */
  ghost predicate SilentFor(c: Capture, es: seq<Timed>, n: nat, silence: int, now: int) {
    forall k: nat :: k < n && SpeaksAt(c, es, k) ==> es[k].now + silence <= now
  }

  lemma {:induction false} ActivityIsLast(c: Capture, es: seq<Timed>, n: nat, silence: int, now: int)
    requires Initial(c) && Ticking(c, es) && n <= |es|
    ensures c.clock.activity <= Run(c, es[..n]).clock.activity
    ensures n < |es| ==> Run(c, es[..n]).clock.activity <= es[n].now
    ensures Run(c, es[..n]).clock.activity + silence <= now <==> StillFor(c, es, n, silence, now)
  {
    if n > 0 {
      var m := n - 1;
      ActivityIsLast(c, es, m, silence, now);
      RunKeepsLimits(c, es[..m]);
      RunStep(c, es, m);
      StepStirs(Run(c, es[..m]), es[m].event, es[m].now);
      hide Run, Step, Stirs;
      assert StirsAt(c, es, m) <==> Stirs(Run(c, es[..m]), es[m].event);
    }
  }

  /** The clocks of streams and event sources never run ahead. */
  predicate Behind(k: Clock, now: int) {
    (k.stream.Some? ==> k.stream.value <= now) && (k.eventSource.Some? ==> k.eventSource.value <= now)
  }

  predicate Spoke(k: Clock) { k.stream.Some? || k.eventSource.Some? }

  /** How the clocks of streams and event sources go on when something is said at time t, and when not. */
  lemma LaterSpeech(k: Clock, n: Clock, speaks: bool, t: int)
    requires Behind(k, t)
    requires if speaks then (n.stream == Some(t) && n.eventSource == k.eventSource)
                            || (n.eventSource == Some(t) && n.stream == k.stream)
             else n.stream == k.stream && n.eventSource == k.eventSource
    ensures Behind(n, t) && (Spoke(n) <==> Spoke(k) || speaks)
    ensures speaks ==> QuietSince(n) == t
    ensures !speaks && Spoke(k) ==> QuietSince(n) == QuietSince(k)
  {
  }

  /** Silence after one more event. */
  lemma LaterSilence(c: Capture, es: seq<Timed>, m: nat, silence: int, now: int)
    requires Ticking(c, es) && m < |es|
    ensures SilentFor(c, es, m + 1, silence, now) <==>
            if SpeaksAt(c, es, m) then es[m].now + silence <= now else SilentFor(c, es, m, silence, now)
  {
    hide SpeaksAt;
  }

  /** What was said last is what the collector takes for the beginning of the silence. */
  lemma {:induction false} SpeechIsLast(c: Capture, es: seq<Timed>, n: nat, silence: int, now: int)
    requires Initial(c) && Ticking(c, es) && n <= |es|
    ensures var k := Run(c, es[..n]).clock;
            && (n < |es| ==> Behind(k, es[n].now))
            && (Spoke(k) <==> exists i: nat :: i < n && SpeaksAt(c, es, i))
            && (Spoke(k) ==> (QuietSince(k) + silence <= now <==> SilentFor(c, es, n, silence, now)))
  {
    if n > 0 {
      var m := n - 1;
      SpeechIsLast(c, es, m, silence, now);
      RunKeepsLimits(c, es[..m]);
      RunStep(c, es, m);
      StepSpeaks(Run(c, es[..m]), es[m].event, es[m].now);
      LaterSpeech(Run(c, es[..m]).clock, Run(c, es[..n]).clock, Speaks(Run(c, es[..m]), es[m].event), es[m].now);
      LaterSilence(c, es, m, silence, now);
      hide Run, Step, Speaks, QuietSince, SilentFor;
      assert SpeaksAt(c, es, m) <==> Speaks(Run(c, es[..m]), es[m].event);
    }
  }

  /** Whatever opens a stream or an event source is something said. */
  lemma OpeningSpeaks(c: Capture, e: Event, now: int, id: string)
    requires c.limits.Valid()
    requires id in Step(c, e, now).open.streams + Step(c, e, now).open.eventSources
    requires id !in c.open.streams + c.open.eventSources
    ensures Speaks(c, e)
  {
    StepOpens(c, e, now, id);
    StreamIsOpened(c, e, id);
    hide Step, OpensStream;
  }

  /** An open stream or event source said something. */
  lemma {:induction false} OpenSpoke(c: Capture, es: seq<Timed>, n: nat, id: string)
    requires Initial(c) && n <= |es|
    requires id in Run(c, es[..n]).open.streams + Run(c, es[..n]).open.eventSources
    ensures exists i: nat :: i < n && SpeaksAt(c, es, i)
  {
    if n > 0 {
      var m := n - 1;
      RunKeepsLimits(c, es[..m]);
      RunStep(c, es, m);
      var was := Run(c, es[..m]);
      if id in was.open.streams + was.open.eventSources {
        OpenSpoke(c, es, m, id);
      } else {
        OpeningSpeaks(was, es[m].event, es[m].now, id);
        assert SpeaksAt(c, es, m);
      }
    }
  }

  // ----- the decision

  function IdleTime(wanted: int): int { if 0 < wanted then wanted else 1500 }

  function LongSilence(wanted: int): int { if 4 * IdleTime(wanted) < 6000 then 6000 else 4 * IdleTime(wanted) }

  /** What the collector answers after a run. */
  ghost function Answer(c: Capture, es: seq<Timed>, ready: int, total: int, wanted: int, now: int): Option<string> {
    Settled(Run(c, es).open, Run(c, es).clock, ready, total, wanted, now)
  }

  /** Half a second after the page is ready, and after eight seconds at all while something is open. */
  predicate WaitedEnough(o: Open, ready: int, total: int) {
    500 <= ready && (o.active + o.streams + o.eventSources != {} ==> 8000 <= total)
  }

  /** The silence that the open requests call for. */
  ghost predicate Silence(c: Capture, es: seq<Timed>, wanted: int, now: int) {
    var o := Run(c, es).open;
    if o.streams + o.eventSources != {} then SilentFor(c, es, |es|, LongSilence(wanted), now)
    else StillFor(c, es, |es|, if o.active != {} then LongSilence(wanted) else IdleTime(wanted), now)
  }

  function Reason(o: Open): string {
    if o.eventSources != {} then "event_source_idle"
    else if o.streams != {} then "stream_idle"
    else if o.active != {} then "network_idle_with_active_requests"
    else "network_idle"
  }

  /** The decision in terms of the clocks. */
  lemma DecidesByClock(o: Open, k: Clock, ready: int, total: int, wanted: int, now: int)
    requires o.webSockets <= o.active
    ensures var spoken := o.streams + o.eventSources != {};
            var silence := if spoken || o.active != {} then LongSilence(wanted) else IdleTime(wanted);
            Settled(o, k, ready, total, wanted, now) ==
            if WaitedEnough(o, ready, total) && (if spoken then QuietSince(k) else k.activity) + silence <= now
            then Some(Reason(o)) else None
  {
    EmptyCount(o.streams);
    EmptyCount(o.eventSources);
    EmptyCount(o.active);
    EmptyCount(o.webSockets);
    hide QuietSince;
  }

  lemma EmptyCount(s: set<string>)
    ensures 0 < |s| <==> s != {}
  {
  }

  /**
   * After any run and at any time, the page is quiet exactly when it was given enough time and the silence
   * has lasted; then the reason names what is still open.
   */
  lemma QuietIff(c: Capture, es: seq<Timed>, ready: int, total: int, wanted: int, now: int)
    requires Initial(c) && Ticking(c, es)
    ensures Answer(c, es, ready, total, wanted, now) ==
            if WaitedEnough(Run(c, es).open, ready, total) && Silence(c, es, wanted, now)
            then Some(Reason(Run(c, es).open)) else None
  {
    var o, k, n := Run(c, es).open, Run(c, es).clock, |es|;
    assert es[..n] == es;
    ActivityIsLast(c, es, n, LongSilence(wanted), now);
    ActivityIsLast(c, es, n, IdleTime(wanted), now);
    SpeechIsLast(c, es, n, LongSilence(wanted), now);
    RunKeepsInv(c, es);
    DecidesByClock(o, k, ready, total, wanted, now);
    if o.streams + o.eventSources != {} {
      var id :| id in o.streams + o.eventSources;
      OpenSpoke(c, es, n, id);
    }
    hide Run, StillFor, SilentFor, QuietSince, Settled, Reason, WaitedEnough, LongSilence, IdleTime, Inv;
  }

  /** Once quiet, a page without further events stays quiet, for the same reason. */
  lemma StaysQuiet(c: Capture, es: seq<Timed>, ready: int, total: int, wanted: int, now: int, more: nat)
    requires Initial(c) && Ticking(c, es) && Answer(c, es, ready, total, wanted, now).Some?
    ensures Answer(c, es, ready + more, total + more, wanted, now + more) == Answer(c, es, ready, total, wanted, now)
  {
    QuietIff(c, es, ready, total, wanted, now);
    QuietIff(c, es, ready + more, total + more, wanted, now + more);
    hide Answer, Run;
  }

  /** A page where nothing happens any more is quiet from some time on. */
  lemma BecomesQuiet(c: Capture, es: seq<Timed>, wanted: int, ready: int, total: int, now: int)
    requires Initial(c) && Ticking(c, es) && 500 <= ready && 8000 <= total
    requires c.clock.activity + LongSilence(wanted) <= now
    requires es != [] ==> es[|es| - 1].now + LongSilence(wanted) <= now
    ensures Answer(c, es, ready, total, wanted, now).Some?
  {
    QuietIff(c, es, ready, total, wanted, now);
    assert forall i :: 0 <= i < |es| ==> es[i].now <= es[|es| - 1].now;
    hide Answer, Run;
  }
}
