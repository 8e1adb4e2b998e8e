/** The tracking callback that startTrack registers on the image track-result path:
    which events it hands to the guard, and what it returns. */
module TrackFilter {
  import opened ImageTypes
  import opened JobEffects
  import opened CompletionGuard

  /** ImageCanonicalEvents.ImageTrackData: whose image, whether it was added, and the
      inventory or the error. */
  datatype TrackData = TrackData(uuid: Uuid, success: bool, inventory: ImageInventory, error: ErrorCode)

  /** One delivery of an event to the callback, at wall-clock time `nowMs`. */
  datatype TrackEvent = TrackEvent(data: TrackData, nowMs: int)

  /** What the callback does with one event: the guard call it makes, if any, and what it returns. */
  datatype Decision = Decision(call: Option<GuardCall>, returned: bool)

  const MILLIS_PER_SECOND := 1000

  /** The deadline startTrack computes: the registration time plus the timeout, given in seconds. */
  function OffTime(nowMs: int, timeoutSeconds: int): int {
    nowMs + timeoutSeconds * MILLIS_PER_SECOND
  }

  /** The callback's body for one event. An event about the job's target resource becomes
      success or fail on the guard, according to the event, and the callback returns true;
      any other event leaves the guard alone, and the callback returns true strictly before
      the deadline and false from the deadline on. */
  function Decide(data: TrackData, target: Option<Uuid>, offTime: int, nowMs: int): (d: Decision)
    ensures d.call.Some? <==> target == Some(data.uuid)
    ensures d.call.Some? ==> d.returned && d.call.value.Terminal()
    ensures d.call.Some? ==> (d.call.value.CallSuccess? <==> data.success)
    ensures d.call.Some? && data.success ==> d.call.value.inv == data.inventory
    ensures d.call.Some? && !data.success ==> d.call.value.err == data.error
    ensures d.call.None? ==> (d.returned <==> nowMs < offTime)
  {
    if target == Some(data.uuid) then
      Decision(Some(if data.success then CallSuccess(data.inventory) else CallFail(data.error)), true)
    else
      Decision(None, offTime > nowMs)
  }

  /** The guard calls a sequence of events produces. */
  function CallsOf(target: Option<Uuid>, offTime: int, es: seq<TrackEvent>): (cs: seq<GuardCall>)
    ensures |cs| <= |es|
    ensures forall c :: c in cs ==> c.Terminal()
  {
    if es == [] then []
    else
      var d := Decide(es[0].data, target, offTime, es[0].nowMs);
      (if d.call.Some? then [d.call.value] else []) + CallsOf(target, offTime, es[1..])
  }

  /** The values the callback returns for a sequence of events. */
  function Returned(target: Option<Uuid>, offTime: int, es: seq<TrackEvent>): (ks: seq<bool>)
    ensures |ks| == |es|
  {
    if es == [] then []
    else [Decide(es[0].data, target, offTime, es[0].nowMs).returned] + Returned(target, offTime, es[1..])
  }

  /** The events `es`, delivered in order to the callback of job `j`'s guard. */
  function RunEvents(s: GuardState, j: Uuid, target: Option<Uuid>, offTime: int, es: seq<TrackEvent>): (GuardState, seq<Effect>)
    decreases |es|
  {
    if es == [] then (s, [])
    else
      var d := Decide(es[0].data, target, offTime, es[0].nowMs);
      var r := if d.call.Some? then Step(s, d.call.value) else StepResult(s, None, None);
      var rest := RunEvents(r.next, j, target, offTime, es[1..]);
      (rest.0, Effects(j, r) + rest.1)
  }

  /** The tracking channel is nothing but a source of guard calls: delivering events has the
      same effect as making their calls on the guard, so every guarantee of the guard (first
      wins, at most one delivery, result written before the caller hears) covers it. */
  lemma {:induction false} EventsAreGuardCalls(s: GuardState, j: Uuid, target: Option<Uuid>, offTime: int, es: seq<TrackEvent>)
    ensures RunEvents(s, j, target, offTime, es) == Run(s, j, CallsOf(target, offTime, es))
    decreases |es|
  {
    if es != [] {
      var d := Decide(es[0].data, target, offTime, es[0].nowMs);
      var tail := CallsOf(target, offTime, es[1..]);
      if d.call.Some? {
        var cs := [d.call.value] + tail;
        assert cs[0] == d.call.value && cs[1..] == tail;
        EventsAreGuardCalls(Step(s, d.call.value).next, j, target, offTime, es[1..]);
      } else {
        EventsAreGuardCalls(s, j, target, offTime, es[1..]);
        assert Effects(j, StepResult(s, None, None)) == [];
        assert CallsOf(target, offTime, es) == [] + tail == tail;
        assert RunEvents(s, j, target, offTime, es).1 == [] + RunEvents(s, j, target, offTime, es[1..]).1;
        var rest := RunEvents(s, j, target, offTime, es[1..]);
        assert [] + rest.1 == rest.1;
      }
    }
  }

  /** A callback that sees no event about its resource never touches the guard, and returns
      true strictly before `timeoutSeconds` have passed since registration at `startMs` and
      false at or after that deadline. */
  lemma {:induction false} UnmatchedEventsNeverTouchGuard(
    s: GuardState, j: Uuid, target: Option<Uuid>, startMs: int, timeoutSeconds: int, es: seq<TrackEvent>)
    requires forall i :: 0 <= i < |es| ==> target != Some(es[i].data.uuid)
    ensures RunEvents(s, j, target, OffTime(startMs, timeoutSeconds), es) == (s, [])
    ensures forall i :: 0 <= i < |es| ==>
              Returned(target, OffTime(startMs, timeoutSeconds), es)[i] == (es[i].nowMs - startMs < timeoutSeconds * 1000)
    decreases |es|
  {
    if es != [] {
      var off := OffTime(startMs, timeoutSeconds);
      assert forall i :: 0 <= i < |es| - 1 ==> es[1..][i] == es[i + 1];
      UnmatchedEventsNeverTouchGuard(s, j, target, startMs, timeoutSeconds, es[1..]);
      assert Effects(j, StepResult(s, None, None)) == [];
      var ks := Returned(target, off, es);
      assert ks[1..] == Returned(target, off, es[1..]);
      forall i | 0 <= i < |es|
        ensures ks[i] == (es[i].nowMs - startMs < timeoutSeconds * 1000)
      {
        if i > 0 {
          assert ks[i] == ks[1..][i - 1];
        }
      }
    }
  }

  /** First wins across channels: once the guard is done, events about the resource are
      accepted by the callback (it returns true) but change nothing. */
  lemma {:induction false} EventsAfterDoneAreIgnored(s: GuardState, j: Uuid, target: Option<Uuid>, offTime: int, es: seq<TrackEvent>)
    requires s.done
    ensures RunEvents(s, j, target, offTime, es) == (s, [])
  {
    EventsAreGuardCalls(s, j, target, offTime, es);
    RunAfterDone(s, j, CallsOf(target, offTime, es));
  }

  /** The tracking channel alone reaches the caller at most once. */
  lemma TrackingDeliversAtMostOnce(s: GuardState, j: Uuid, target: Option<Uuid>, offTime: int, es: seq<TrackEvent>)
    ensures |Deliveries(RunEvents(s, j, target, offTime, es).1)| <= 1
  {
    EventsAreGuardCalls(s, j, target, offTime, es);
    AtMostOneDelivery(s, j, CallsOf(target, offTime, es));
  }
}
