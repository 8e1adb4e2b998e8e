/** AddImageCompletion as a state machine on values: one call is a `Step`, any order of calls
    from any of the job's channels (the dispatch reply, the tracking event, the cleanup reply)
    is a `Run`. The class in AddImageJob takes exactly these steps. */
module CompletionGuard {
  import opened ImageTypes
  import opened JobEffects

  /** A call on the guard: the two terminal ones, success and fail, and track. */
  datatype GuardCall =
    | CallSuccess(inv: ImageInventory)
    | CallFail(err: ErrorCode)
    | CallTrack(inv: ImageInventory)
  {
    predicate Terminal() { !CallTrack? }
  }

  /** The guard's own state: the done flag and the event it fills in. */
  datatype GuardState = GuardState(done: bool, event: AddImageEvent)

  /** What one call does: the next state, the job result it writes (if any) and
      what it hands the caller's completion (if anything). */
  datatype StepResult = StepResult(next: GuardState, persisted: Option<JobResult>, delivered: Option<Outcome>)

  /** The job result written for an outcome: the serialised event on success,
      the default wrapping of the error on failure. */
  function ResultOf(o: Outcome): JobResult {
    match o
    case SinkSuccess(e) => EventJson(e)
    case SinkFail(err) => WrappedError(err)
  }

  /** What a winning terminal call hands the caller, for a job whose event carries `apiId`. */
  function Winner(apiId: Uuid, c: GuardCall): Outcome
    requires c.Terminal()
  {
    match c
    case CallSuccess(inv) => SinkSuccess(AddImageEvent(apiId, Some(inv)))
    case CallFail(err) => SinkFail(err)
  }

  /** One call on the guard. Once done, nothing happens; a terminal call that finds the flag
      clear sets it, writes the job result and then hands the same outcome to the caller;
      track writes the partial event without setting the flag. */
  function Step(s: GuardState, c: GuardCall): (r: StepResult)
    ensures s.done ==> r == StepResult(s, None, None)
    ensures r.next.done == (s.done || c.Terminal())
    ensures r.next.event.apiId == s.event.apiId
    ensures r.delivered.Some? <==> !s.done && c.Terminal()
    ensures r.delivered.Some? ==>
              r.delivered.value == Winner(s.event.apiId, c) && r.persisted == Some(ResultOf(r.delivered.value))
    ensures !s.done && c.CallTrack? ==>
              r.next.event == AddImageEvent(s.event.apiId, Some(c.inv)) && r.persisted == Some(EventJson(r.next.event))
  {
    if s.done then StepResult(s, None, None)
    else
      match c
      case CallSuccess(inv) =>
        var e := s.event.(inventory := Some(inv));
        StepResult(GuardState(true, e), Some(EventJson(e)), Some(SinkSuccess(e)))
      case CallFail(err) =>
        StepResult(GuardState(true, s.event), Some(WrappedError(err)), Some(SinkFail(err)))
      case CallTrack(inv) =>
        var e := s.event.(inventory := Some(inv));
        StepResult(GuardState(false, e), Some(EventJson(e)), None)
  }

  /** The effects of one step of the guard of job `j`: the result write, then the delivery. */
  function Effects(j: Uuid, r: StepResult): seq<Effect> {
    (if r.persisted.Some? then [ResultPersisted(j, r.persisted.value)] else [])
    + (if r.delivered.Some? then [Delivered(j, r.delivered.value)] else [])
  }

  /** Applying one step's effects to the table writes its result, if any, into job `j`'s row. */
  lemma ApplyStepEffects(records: map<Uuid, JobRecord>, j: Uuid, r: StepResult)
    requires j in records
    ensures ApplyResults(records, Effects(j, r)) ==
              if r.persisted.Some? then records[j := records[j].(jobResult := r.persisted)] else records
  {
    var written := if r.persisted.Some? then records[j := records[j].(jobResult := r.persisted)] else records;
    var q := if r.delivered.Some? then [Delivered(j, r.delivered.value)] else [];
    assert ApplyResults(written, q) == written by {
      if q != [] {
        assert ApplyResults(written, q) == ApplyResults(written, q[1..]);
      }
    }
    if r.persisted.Some? {
      var p := [ResultPersisted(j, r.persisted.value)];
      ApplyResultsAppend(records, p, q);
      assert ApplyResults(records, p) == ApplyResults(written, p[1..]);
    } else {
      assert Effects(j, r) == q;
    }
  }

  /** The calls `cs`, in that order, on the guard of job `j`: final state and trace. */
  function Run(s: GuardState, j: Uuid, cs: seq<GuardCall>): (GuardState, seq<Effect>)
    decreases |cs|
  {
    if cs == [] then (s, [])
    else
      var r := Step(s, cs[0]);
      var rest := Run(r.next, j, cs[1..]);
      (rest.0, Effects(j, r) + rest.1)
  }

  predicate HasTerminal(cs: seq<GuardCall>) {
    exists i :: 0 <= i < |cs| && cs[i].Terminal()
  }

  /** The index of the first terminal call. */
  function FirstTerminal(cs: seq<GuardCall>): (k: nat)
    requires HasTerminal(cs)
    ensures k < |cs| && cs[k].Terminal()
    ensures forall i :: 0 <= i < k ==> !cs[i].Terminal()
  {
    if cs[0].Terminal() then 0
    else
      assert HasTerminal(cs[1..]) by {
        var i :| 0 <= i < |cs| && cs[i].Terminal();
        assert cs[1..][i - 1] == cs[i];
      }
      1 + FirstTerminal(cs[1..])
  }

  /** Every delivery in the trace comes straight after the write of the matching job result. */
  ghost predicate PersistsBeforeDelivering(t: seq<Effect>) {
    forall i :: 0 <= i < |t| && t[i].Delivered? ==>
      0 < i && t[i - 1] == ResultPersisted(t[i].job, ResultOf(t[i].outcome))
  }

  /** One more call on the guard extends the run by exactly that call's step. With the `Took`
      contract of each guard method, this carries "the guard's state and the effect log are
      those of `Run` over the calls made so far" from one method call to the next. */
  lemma {:induction false} RunSnoc(s: GuardState, j: Uuid, cs: seq<GuardCall>, c: GuardCall)
    ensures var p := Run(s, j, cs);
            var r := Step(p.0, c);
            Run(s, j, cs + [c]) == (r.next, p.1 + Effects(j, r))
    decreases |cs|
  {
    if cs == [] {
      assert cs + [c] == [c];
      assert [c][1..] == [];
      var r := Step(s, c);
      assert Run(s, j, [c]) == (r.next, Effects(j, r) + []);
      assert Effects(j, r) + [] == [] + Effects(j, r);
    } else {
      var r0 := Step(s, cs[0]);
      assert (cs + [c])[0] == cs[0] && (cs + [c])[1..] == cs[1..] + [c];
      RunSnoc(r0.next, j, cs[1..], c);
      var p := Run(r0.next, j, cs[1..]);
      var r := Step(p.0, c);
      assert Run(s, j, cs + [c]).1 == Effects(j, r0) + (p.1 + Effects(j, r));
      assert Effects(j, r0) + (p.1 + Effects(j, r)) == (Effects(j, r0) + p.1) + Effects(j, r);
    }
  }

  /** The guard never sends anything on the bus, whatever calls it receives. */
  lemma {:induction false} RunSendsNothing(s: GuardState, j: Uuid, cs: seq<GuardCall>)
    ensures SentMessages(Run(s, j, cs).1) == []
    decreases |cs|
  {
    if cs != [] {
      var r := Step(s, cs[0]);
      var p := if r.persisted.Some? then [ResultPersisted(j, r.persisted.value)] else [];
      var q := if r.delivered.Some? then [Delivered(j, r.delivered.value)] else [];
      assert Effects(j, r) == p + q;
      SentMessagesAppend(p, q);
      RunSendsNothing(r.next, j, cs[1..]);
      SentMessagesAppend(Effects(j, r), Run(r.next, j, cs[1..]).1);
    }
  }

  /** After done is set, no call changes anything. */
  lemma {:induction false} RunAfterDone(s: GuardState, j: Uuid, cs: seq<GuardCall>)
    requires s.done
    ensures Run(s, j, cs) == (s, [])
    decreases |cs|
  {
    if cs != [] {
      assert Effects(j, Step(s, cs[0])) == [];
      RunAfterDone(s, j, cs[1..]);
    }
  }

  /** Track calls alone never set done and never reach the caller. */
  lemma {:induction false} RunWithoutTerminal(s: GuardState, j: Uuid, cs: seq<GuardCall>)
    requires !HasTerminal(cs)
    ensures Run(s, j, cs).0.done == s.done
    ensures Deliveries(Run(s, j, cs).1) == []
    decreases |cs|
  {
    if cs != [] {
      assert !cs[0].Terminal();
      assert !HasTerminal(cs[1..]) by {
        forall i | 0 <= i < |cs| - 1
          ensures !cs[1..][i].Terminal()
        {
          assert cs[1..][i] == cs[i + 1];
        }
      }
      var r := Step(s, cs[0]);
      RunWithoutTerminal(r.next, j, cs[1..]);
      DeliveriesAppend(Effects(j, r), Run(r.next, j, cs[1..]).1);
    }
  }

  /** First wins: the caller receives exactly one outcome, that of the first terminal call. */
  lemma {:induction false} FirstTerminalWins(s: GuardState, j: Uuid, cs: seq<GuardCall>, k: nat)
    requires !s.done
    requires k < |cs| && cs[k].Terminal()
    requires forall i :: 0 <= i < k ==> !cs[i].Terminal()
    ensures Run(s, j, cs).0.done
    ensures Deliveries(Run(s, j, cs).1) == [Winner(s.event.apiId, cs[k])]
    decreases |cs|
  {
    var r := Step(s, cs[0]);
    if k == 0 {
      RunAfterDone(r.next, j, cs[1..]);
      DeliveriesAppend(Effects(j, r), []);
      DeliveriesAppend([ResultPersisted(j, r.persisted.value)], [Delivered(j, r.delivered.value)]);
    } else {
      FirstTerminalWins(r.next, j, cs[1..], k - 1);
      DeliveriesAppend(Effects(j, r), Run(r.next, j, cs[1..]).1);
    }
  }

  /** At most once: whatever the order of calls, the caller's completion is reached once if
      the guard was not yet done and some call was terminal, and never otherwise. */
  lemma AtMostOneDelivery(s: GuardState, j: Uuid, cs: seq<GuardCall>)
    ensures |Deliveries(Run(s, j, cs).1)| == if !s.done && HasTerminal(cs) then 1 else 0
  {
    if s.done {
      RunAfterDone(s, j, cs);
    } else if HasTerminal(cs) {
      FirstTerminalWins(s, j, cs, FirstTerminal(cs));
    } else {
      RunWithoutTerminal(s, j, cs);
    }
  }

  /** Every delivery is immediately preceded by the write of the job result it corresponds to. */
  lemma {:induction false} RunPersistsBeforeDelivering(s: GuardState, j: Uuid, cs: seq<GuardCall>)
    ensures PersistsBeforeDelivering(Run(s, j, cs).1)
    decreases |cs|
  {
    if cs != [] {
      var r := Step(s, cs[0]);
      var e := Effects(j, r);
      var rest := Run(r.next, j, cs[1..]).1;
      RunPersistsBeforeDelivering(r.next, j, cs[1..]);
      var t := e + rest;
      forall i | 0 <= i < |t| && t[i].Delivered?
        ensures 0 < i && t[i - 1] == ResultPersisted(t[i].job, ResultOf(t[i].outcome))
      {
        if i < |e| {
          assert r.delivered.Some? && i == |e| - 1;
        } else {
          assert t[i] == rest[i - |e|];
          assert t[i - 1] == rest[i - |e| - 1];
        }
      }
    }
  }

  /** Read after write: once the caller has been answered, the stored job result is the
      result of exactly that answer, whatever calls came after it. */
  lemma {:induction false} ReadAfterWrite(s: GuardState, j: Uuid, cs: seq<GuardCall>, records: map<Uuid, JobRecord>)
    requires j in records && !s.done && HasTerminal(cs)
    ensures |Deliveries(Run(s, j, cs).1)| == 1
    ensures ApplyResults(records, Run(s, j, cs).1)[j].jobResult == Some(ResultOf(Deliveries(Run(s, j, cs).1)[0]))
    decreases |cs|
  {
    var r := Step(s, cs[0]);
    var e := Effects(j, r);
    var rest := Run(r.next, j, cs[1..]).1;
    DeliveriesAppend(e, rest);
    ApplyResultsAppend(records, e, rest);
    if cs[0].Terminal() {
      RunAfterDone(r.next, j, cs[1..]);
      var o := r.delivered.value;
      assert e == [ResultPersisted(j, ResultOf(o)), Delivered(j, o)];
      DeliveriesAppend([ResultPersisted(j, ResultOf(o))], [Delivered(j, o)]);
      assert ApplyResults(records, e)[j].jobResult == Some(ResultOf(o)) by {
        var after := records[j := records[j].(jobResult := Some(ResultOf(o)))];
        assert e[1..] == [Delivered(j, o)];
        assert ApplyResults(records, e) == ApplyResults(after, e[1..]);
        assert ApplyResults(after, e[1..]) == ApplyResults(after, []);
      }
    } else {
      assert HasTerminal(cs[1..]) by {
        var i :| 0 <= i < |cs| && cs[i].Terminal();
        assert cs[1..][i - 1] == cs[i];
      }
      assert e == [ResultPersisted(j, r.persisted.value)];
      assert Deliveries(e) == [];
      ReadAfterWrite(r.next, j, cs[1..], ApplyResults(records, e));
    }
  }
}
