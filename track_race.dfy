/** The guard as written, where track reads the done flag and writes the job result as two
    separate moves that another thread's success or fail can fall between. Set beside the
    atomic guard of CompletionGuard, which is what the rest of the model uses. */
module TrackRace {
  import opened ImageTypes
  import opened JobEffects
  import opened CompletionGuard

  /** One scheduling move: a whole success or fail (both compare-and-set the flag), or one of
      the two halves of track. */
  datatype Move = Whole(c: GuardCall) | TrackReads(inv: ImageInventory) | TrackWrites

  /** The guard plus the inventory of a track that has found the flag clear and not yet written. */
  datatype RaceState = RaceState(guard: GuardState, pending: Option<ImageInventory>)

  function RaceStep(s: RaceState, j: Uuid, m: Move): (RaceState, seq<Effect>) {
    match m
    case Whole(c) =>
      var r := Step(s.guard, c);
      (RaceState(r.next, s.pending), Effects(j, r))
    case TrackReads(inv) =>
      if s.guard.done then (s, []) else (s.(pending := Some(inv)), [])
    case TrackWrites =>
      if s.pending.None? then (s, [])
      else
        var e := s.guard.event.(inventory := s.pending);
        (RaceState(s.guard.(event := e), None), [ResultPersisted(j, EventJson(e))])
  }

  function RaceRun(s: RaceState, j: Uuid, ms: seq<Move>): (RaceState, seq<Effect>)
    decreases |ms|
  {
    if ms == [] then (s, [])
    else
      var first := RaceStep(s, j, ms[0]);
      var rest := RaceRun(first.0, j, ms[1..]);
      (rest.0, first.1 + rest.1)
  }

  /** A track that checks the flag, then a success that wins, then the track's write: the
      caller has been told the image `won`, but the stored job result says `partial`, so a
      client polling the job reads something other than what the callback delivered. */
  lemma TrackRaceOverwritesResult(j: Uuid, apiId: Uuid, rec: JobRecord, partial: ImageInventory, won: ImageInventory)
    requires partial != won
    ensures var s := RaceState(GuardState(false, AddImageEvent(apiId, None)), None);
            var t := RaceRun(s, j, [TrackReads(partial), Whole(CallSuccess(won)), TrackWrites]).1;
            && Deliveries(t) == [SinkSuccess(AddImageEvent(apiId, Some(won)))]
            && ApplyResults(map[j := rec], t)[j].jobResult == Some(EventJson(AddImageEvent(apiId, Some(partial))))
            && ApplyResults(map[j := rec], t)[j].jobResult != Some(ResultOf(Deliveries(t)[0]))
  {
    var s0 := RaceState(GuardState(false, AddImageEvent(apiId, None)), None);
    var ms := [TrackReads(partial), Whole(CallSuccess(won)), TrackWrites];
    var wonEvent := AddImageEvent(apiId, Some(won));
    var partialEvent := AddImageEvent(apiId, Some(partial));
    var s1 := RaceState(GuardState(false, AddImageEvent(apiId, None)), Some(partial));
    var s2 := RaceState(GuardState(true, wonEvent), Some(partial));
    var s3 := RaceState(GuardState(true, partialEvent), None);
    var e2 := [ResultPersisted(j, EventJson(wonEvent)), Delivered(j, SinkSuccess(wonEvent))];
    var e3 := [ResultPersisted(j, EventJson(partialEvent))];
    assert RaceStep(s0, j, ms[0]) == (s1, []);
    var r := Step(s1.guard, CallSuccess(won));
    assert r.next == GuardState(true, wonEvent);
    assert r.delivered == Some(SinkSuccess(wonEvent)) && r.persisted == Some(EventJson(wonEvent));
    assert Effects(j, r) == e2;
    assert RaceStep(s1, j, ms[1]) == (s2, e2);
    assert RaceStep(s2, j, ms[2]) == (s3, e3);
    assert ms[1..][1..][1..] == [];
    assert RaceRun(s2, j, ms[1..][1..]) == (s3, e3 + []);
    assert ms[1..][0] == ms[1];
    assert RaceRun(s1, j, ms[1..]) == (s3, e2 + (e3 + []));
    assert e3 + [] == e3;
    var t := RaceRun(s0, j, ms).1;
    assert t == [] + (e2 + e3);
    assert t == e2 + e3;
    DeliveriesAppend(e2, e3);
    DeliveriesAppend([e2[0]], [e2[1]]);
    assert e2 == [e2[0]] + [e2[1]];
    var m0 := map[j := rec];
    var m1 := m0[j := rec.(jobResult := Some(EventJson(wonEvent)))];
    var m2 := m1[j := m1[j].(jobResult := Some(EventJson(partialEvent)))];
    ApplyResultsAppend(m0, e2, e3);
    assert ApplyResults(m0, e2) == m1 by {
      assert ApplyResults(m0, e2) == ApplyResults(m1, e2[1..]);
      assert ApplyResults(m1, e2[1..]) == ApplyResults(m1, e2[1..][1..]);
      assert e2[1..][1..] == [];
    }
    assert ApplyResults(m1, e3) == m2 by {
      assert ApplyResults(m1, e3) == ApplyResults(m2, e3[1..]);
      assert e3[1..] == [];
    }
    assert EventJson(partialEvent) != EventJson(wonEvent);
  }
}
