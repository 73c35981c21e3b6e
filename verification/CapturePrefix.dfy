/** Exactly when a body of the collector is the beginning of what was offered, with no hole in it. */
module CapturePrefix {
  import opened Wrappers
  import opened Text
  import opened NetworkCollector
  import opened CaptureSafety
  import opened CaptureRuns
  import opened CaptureBudgets

  /** The text that an event offers to a tracked request, kept or not. */
  function Given(c: Capture, e: Event, id: string): string {
    match e
    case EventSourceMessage(x, data) =>
      if x == id && !Blank(id) && id in c.bodies.resources then EventRecord(data) else ""
    case WebSocketFrame(x, text, payload) =>
      if x == id && !Blank(id) && payload != "" && text && id in c.bodies.resources then FrameRecord(payload) else ""
    case BodyArrived(x, data) => if x == id && id in c.bodies.resources && !Blank(data) then data else ""
    case _ => ""
  }

  function OfferedTo(h: History, id: string): string { if id in h.offered then h.offered[id] else "" }

  function BodyOf(c: Capture, id: string): string {
    if id in c.bodies.resources then c.bodies.resources[id].body else ""
  }

  lemma OfferGrows(c: Capture, h: History, e: Event, id: string)
    requires h.offered.Keys == c.bodies.resources.Keys
    ensures OfferedTo(HistoryStep(c, h, e), id) == OfferedTo(h, id) + Given(c, e, id)
  {
    hide RelevantResource, RelevantHost, FirstNonEmpty, FrameRecord, EventRecord;
  }

  /** The text appended is the text offered, unless the message budget dropped it. */
  lemma AppendedIsGiven(c: Capture, e: Event, id: string)
    ensures TextFor(c, e, id) == "" || TextFor(c, e, id) == Given(c, e, id)
  {
  }

  /** A step adds a beginning of the text it offers, and some of it exactly when there is text to append and room. */
  lemma StepGoes(c: Capture, e: Event, now: int, id: string) returns (added: nat)
    requires forall x :: x in c.bodies.resources ==> c.bodies.resources[x].bodyBytes == |c.bodies.resources[x].body|
    ensures var n := Step(c, e, now);
            && added <= |Given(c, e, id)| && BodyOf(n, id) == BodyOf(c, id) + Given(c, e, id)[..added]
            && (0 < added <==> TextFor(c, e, id) != "" && HasRoom(c, id))
  {
    AppendedIsGiven(c, e, id);
    hide Step, Given, Appended;
    added := 0;
    if Appended(c, e).Some? {
      var more := StepAppends(c, e, now);
      if Appended(c, e).value.0 == id { added := more; }
    } else {
      StepAppendsNothing(c, e, now);
    }
  }

  // ----- which offered bytes are kept

  function Span(from: nat, n: nat): seq<nat> { seq(n, i => from + i) }

  /** The positions in the offered text of the bytes that the body keeps. */
  ghost function Kept(c: Capture, es: seq<Timed>, id: string): seq<nat> {
    if es == [] then []
    else
      var n := |es| - 1;
      var added := |BodyOf(Run(c, es), id)| - |BodyOf(Run(c, es[..n]), id)|;
      Kept(c, es[..n], id) + Span(|OfferedTo(RunHistory(c, es[..n]), id)|, if added < 0 then 0 else added)
  }

  predicate Inside(s: string, ps: seq<nat>) { forall i :: 0 <= i < |ps| ==> ps[i] < |s| }

  function Pick(s: string, ps: seq<nat>): string
    requires Inside(s, ps)
  {
    seq(|ps|, i requires 0 <= i < |ps| => s[ps[i]])
  }

  /** The event appends to a request whose body already misses bytes. */
  predicate Resumes(c: Capture, e: Event, id: string) {
    TextFor(c, e, id) != "" && HasRoom(c, id) && id in c.bodies.resources && c.bodies.resources[id].truncated
  }

  ghost predicate ResumesAt(c: Capture, es: seq<Timed>, id: string, k: nat)
    requires k < |es|
  {
    Resumes(Run(c, es[..k]), es[k].event, id)
  }

  /** One more offer: the bytes kept of it come from where it starts. */
  lemma PickMore(s: string, ps: seq<nat>, t: string, added: nat)
    requires Inside(s, ps) && added <= |t|
    ensures Inside(s + t, ps + Span(|s|, added)) && Pick(s + t, ps + Span(|s|, added)) == Pick(s, ps) + t[..added]
  {
  }

  /** The kept positions stay an initial stretch exactly when nothing is added behind a gap. */
  lemma SpanMore(ps: seq<nat>, from: nat, added: nat)
    requires |ps| <= from
    ensures ps + Span(from, added) == Span(0, |ps| + added) <==> ps == Span(0, |ps|) && (added == 0 || from == |ps|)
  {
    var all := ps + Span(from, added);
    if all == Span(0, |ps| + added) {
      assert ps == all[..|ps|] == Span(0, |ps| + added)[..|ps|] == Span(0, |ps|);
      if added > 0 { assert all[|ps|] == from; }
    }
  }

  /** The body is made of the kept bytes, wherever they were offered. */
  lemma {:induction false} BodyIsKept(c: Capture, es: seq<Timed>, id: string)
    requires Initial(c)
    ensures Inside(OfferedTo(RunHistory(c, es), id), Kept(c, es, id))
    ensures BodyOf(Run(c, es), id) == Pick(OfferedTo(RunHistory(c, es), id), Kept(c, es, id))
  {
    if es != [] {
      var n := |es| - 1;
      var was, h, e := Run(c, es[..n]), RunHistory(c, es[..n]), es[n].event;
      BodyIsKept(c, es[..n], id);
      RunKeepsInv(c, es[..n]);
      RunExtends(c, es, n);
      OfferGrows(was, h, e, id);
      var added := StepGoes(was, e, es[n].now, id);
      hide Step, HistoryStep, Given, BodyOf, OfferedTo, Inv, TextFor, HasRoom, Pick, Inside;
      PickMore(OfferedTo(h, id), Kept(c, es[..n], id), Given(was, e, id), added);
    }
  }

  lemma HonestLengths(c: Capture, h: History, id: string)
    requires Inv(c, h)
    ensures |BodyOf(c, id)| <= |OfferedTo(h, id)|
    ensures id in c.bodies.resources ==>
              (c.bodies.resources[id].truncated <==> |BodyOf(c, id)| < |OfferedTo(h, id)|)
    ensures id !in c.bodies.resources ==> BodyOf(c, id) == "" && OfferedTo(h, id) == ""
  {
  }

  /** One event keeps the body without a hole exactly when it does not resume a cut one. */
  lemma StepResumes(c: Capture, h: History, e: Event, now: int, id: string, ps: seq<nat>)
    requires Inv(c, h) && |ps| == |BodyOf(c, id)|
    ensures var added := |BodyOf(Step(c, e, now), id)| - |BodyOf(c, id)|;
            && 0 <= added
            && (ps + Span(|OfferedTo(h, id)|, added) == Span(0, |ps| + added) <==>
                ps == Span(0, |ps|) && !Resumes(c, e, id))
  {
    var added := StepGoes(c, e, now, id);
    HonestLengths(c, h, id);
    hide Step, Appended, BodyOf, OfferedTo, Inv, HasRoom, Span, Given;
    SpanMore(ps, |OfferedTo(h, id)|, added);
    TextIsForTracked(c, e, id);
  }

  lemma TextIsForTracked(c: Capture, e: Event, id: string)
    ensures TextFor(c, e, id) != "" ==> id in c.bodies.resources
  {
  }

  lemma KeptLength(c: Capture, es: seq<Timed>, id: string)
    requires Initial(c)
    ensures |Kept(c, es, id)| == |BodyOf(Run(c, es), id)|
  {
    hide Run, BodyOf, OfferedTo, Kept, RunHistory;
    BodyIsKept(c, es, id);
  }

  lemma KeptMore(c: Capture, es: seq<Timed>, id: string, n: nat)
    requires n + 1 == |es|
    ensures var added := |BodyOf(Run(c, es), id)| - |BodyOf(Run(c, es[..n]), id)|;
            0 <= added ==>
              Kept(c, es, id) == Kept(c, es[..n], id) + Span(|OfferedTo(RunHistory(c, es[..n]), id)|, added)
  {
    hide Run, BodyOf, OfferedTo, RunHistory;
  }

  /** One more event of a run. */
  lemma LastResumes(c: Capture, es: seq<Timed>, id: string, n: nat)
    requires Initial(c) && n + 1 == |es|
    ensures Kept(c, es, id) == Span(0, |Kept(c, es, id)|) <==>
            Kept(c, es[..n], id) == Span(0, |Kept(c, es[..n], id)|) && !ResumesAt(c, es, id, n)
  {
    RunKeepsInv(c, es[..n]);
    RunExtends(c, es, n);
    hide Run, RunHistory, Kept, Inv, Step, HistoryStep, BodyOf, OfferedTo, Span, Resumes;
    KeptLength(c, es, id);
    KeptLength(c, es[..n], id);
    KeptMore(c, es, id, n);
    StepResumes(Run(c, es[..n]), RunHistory(c, es[..n]), es[n].event, es[n].now, id, Kept(c, es[..n], id));
  }

  lemma NothingKept(c: Capture, id: string)
    ensures Kept(c, [], id) == Span(0, |Kept(c, [], id)|)
  {
  }

  lemma ResumedBefore(c: Capture, es: seq<Timed>, id: string, n: nat, k: nat)
    requires k < n <= |es|
    ensures ResumesAt(c, es[..n], id, k) <==> ResumesAt(c, es, id, k)
  {
    hide Run, Resumes;
    assert es[..n][..k] == es[..k];
  }

  /** The kept bytes are the first ones offered exactly when no event resumes the body after a cut. */
  lemma {:induction false} NoHoleIffNeverResumed(c: Capture, es: seq<Timed>, id: string)
    requires Initial(c)
    ensures Kept(c, es, id) == Span(0, |Kept(c, es, id)|) <==>
            forall k :: 0 <= k < |es| ==> !ResumesAt(c, es, id, k)
  {
    hide Kept, Span, Initial, ResumesAt;
    if es == [] {
      NothingKept(c, id);
    } else {
      var n := |es| - 1;
      NoHoleIffNeverResumed(c, es[..n], id);
      LastResumes(c, es, id, n);
      forall k | 0 <= k < n ensures ResumesAt(c, es[..n], id, k) <==> ResumesAt(c, es, id, k) {
        ResumedBefore(c, es, id, n, k);
      }
    }
  }

  lemma PickSpan(s: string, n: nat)
    requires Inside(s, Span(0, n))
    ensures n <= |s| && Pick(s, Span(0, n)) == s[..n]
  {
    if n > 0 { assert Span(0, n)[n - 1] == n - 1; }
  }

  /** A body that was never resumed is the beginning of what was offered. */
  lemma BodyIsPrefix(c: Capture, es: seq<Timed>, id: string)
    requires Initial(c) && forall k :: 0 <= k < |es| ==> !ResumesAt(c, es, id, k)
    ensures BodyOf(Run(c, es), id) <= OfferedTo(RunHistory(c, es), id)
  {
    hide Run, RunHistory, Kept, BodyOf, OfferedTo, Span, Pick, Inside, ResumesAt;
    NoHoleIffNeverResumed(c, es, id);
    BodyIsKept(c, es, id);
    PickSpan(OfferedTo(RunHistory(c, es), id), |Kept(c, es, id)|);
  }
}
