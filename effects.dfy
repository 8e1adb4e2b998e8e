/** The observable effects of the job on its collaborators (database, bus, event facade,
    the caller's completions), and projections of a trace of them. */
module JobEffects {
  import opened ImageTypes

  /** One effect, in the order it happens. */
  datatype Effect =
    | RecordSaved(record: JobRecord)                       // dbf.updateAndRefresh(job)
    | ResultPersisted(job: Uuid, result: JobResult)        // updateByUuid(uuid, vo -> vo.setJobResult(..))
    | StateChanged(job: Uuid, state: LongJobState, result: JobResult)  // LongJobUtils.changeState
    | Subscribed(job: Uuid, offTime: int)                  // evtf.on(IMAGE_TRACK_RESULT_PATH, ..)
    | Sent(msg: Outgoing)                                  // bus.send
    | Delivered(job: Uuid, outcome: Outcome)               // the completion given to start
    | CancelAnswered(job: Uuid, answer: CancelAnswer)      // the completion given to cancel
    | DeleteFailedWarning(resourceUuid: Option<Uuid>)      // logger.warn in resume

  /** The outcomes handed to start's completion, in order. */
  function Deliveries(t: seq<Effect>): (r: seq<Outcome>)
    ensures forall o :: o in r ==> exists i :: 0 <= i < |t| && t[i].Delivered? && t[i].outcome == o
    ensures forall i :: 0 <= i < |t| && t[i].Delivered? ==> t[i].outcome in r
  {
    if t == [] then []
    else (if t[0].Delivered? then [t[0].outcome] else []) + Deliveries(t[1..])
  }

  /** The messages handed to the bus, in order. */
  function SentMessages(t: seq<Effect>): (r: seq<Outgoing>)
    ensures forall m :: m in r <==> Sent(m) in t
  {
    if t == [] then []
    else (if t[0].Sent? then [t[0].msg] else []) + SentMessages(t[1..])
  }

  /** The job-result column after the trace's result writes are applied to `records`. */
  function ApplyResults(records: map<Uuid, JobRecord>, t: seq<Effect>): (r: map<Uuid, JobRecord>)
    ensures r.Keys == records.Keys
  {
    if t == [] then records
    else
      var next :=
        if t[0].ResultPersisted? && t[0].job in records
        then records[t[0].job := records[t[0].job].(jobResult := Some(t[0].result))]
        else records;
      ApplyResults(next, t[1..])
  }

  lemma {:induction false} DeliveriesAppend(a: seq<Effect>, b: seq<Effect>)
    ensures Deliveries(a + b) == Deliveries(a) + Deliveries(b)
  {
    if a != [] {
      assert (a + b)[0] == a[0] && (a + b)[1..] == a[1..] + b;
      DeliveriesAppend(a[1..], b);
      assert Deliveries(a + b) == (if a[0].Delivered? then [a[0].outcome] else []) + Deliveries(a[1..] + b);
    } else {
      assert a + b == b;
    }
  }

  lemma {:induction false} SentMessagesAppend(a: seq<Effect>, b: seq<Effect>)
    ensures SentMessages(a + b) == SentMessages(a) + SentMessages(b)
  {
    if a != [] {
      assert (a + b)[0] == a[0] && (a + b)[1..] == a[1..] + b;
      SentMessagesAppend(a[1..], b);
      assert SentMessages(a + b) == (if a[0].Sent? then [a[0].msg] else []) + SentMessages(a[1..] + b);
    } else {
      assert a + b == b;
    }
  }

  lemma {:induction false} ApplyResultsAppend(records: map<Uuid, JobRecord>, a: seq<Effect>, b: seq<Effect>)
    ensures ApplyResults(records, a + b) == ApplyResults(ApplyResults(records, a), b)
  {
    if a != [] {
      assert (a + b)[0] == a[0] && (a + b)[1..] == a[1..] + b;
      var next :=
        if a[0].ResultPersisted? && a[0].job in records
        then records[a[0].job := records[a[0].job].(jobResult := Some(a[0].result))]
        else records;
      ApplyResultsAppend(next, a[1..], b);
      assert ApplyResults(records, a + b) == ApplyResults(next, a[1..] + b);
    } else {
      assert a + b == b;
    }
  }
}
