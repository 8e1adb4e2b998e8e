/** The requests the add-image job builds and the traces of its driver operations
    (start, the dispatch reply, cleanup, resume, cancel) as functions of their inputs. */
module AddImageFlow {
  import opened ImageTypes
  import opened JobEffects
  import opened CompletionGuard
  import opened TrackFilter

  /** ImageDeletionPolicy.Direct.toString(). */
  const DIRECT_DELETION_POLICY := "Direct"

  /** The job result resume writes. */
  const RESTART_FAILURE_TEXT := "Failed because management node restarted."

  /** buildDeletionMsg: a forced deletion, under the Direct policy, of the image the add
      request names, from the same backup storages, routed by that image's uuid. */
  function BuildDeletionMsg(msg: AddImageMsg): (r: Outgoing)
    ensures r.ImageDeletion? && r.deletion.forceDelete
    ensures r.deletion.imageUuid == msg.resourceUuid
    ensures r.deletion.backupStorageUuids == msg.backupStorageUuids
    ensures r.deletion.deletionPolicy == DIRECT_DELETION_POLICY
    ensures r.route == ImageService(r.deletion.imageUuid)
  {
    var d := DeletionMsg(msg.resourceUuid, true, msg.backupStorageUuids, DIRECT_DELETION_POLICY);
    ImageDeletion(d, ImageService(d.imageUuid))
  }

  /** The add request as start sends it: routed by its resource uuid. */
  function AddImageRequest(msg: AddImageMsg): Outgoing {
    AddImage(msg, ImageService(msg.resourceUuid))
  }

  /** The resource uuid step of start: a message without one gets `freshUuid`; a message
      that has one is left alone. The flag says whether a uuid was generated. */
  function AssignResourceUuid(msg: AddImageMsg, freshUuid: Uuid): (r: (AddImageMsg, bool))
    ensures r.1 <==> msg.resourceUuid.None?
    ensures r.0.resourceUuid == if r.1 then Some(freshUuid) else msg.resourceUuid
    ensures r.0.(resourceUuid := msg.resourceUuid) == msg
  {
    if msg.resourceUuid.None? then (msg.(resourceUuid := Some(freshUuid)), true) else (msg, false)
  }

  /** The job record after start: a generated uuid goes into both the job data and the
      target resource uuid; a job whose data already named a resource is unchanged. */
  function StartedRecord(rec: JobRecord, freshUuid: Uuid): (r: JobRecord)
    ensures r.uuid == rec.uuid && r.apiId == rec.apiId && r.state == rec.state && r.jobResult == rec.jobResult
    ensures r.jobData.resourceUuid.Some?
    ensures rec.jobData.resourceUuid.None? ==>
              r.targetResourceUuid == r.jobData.resourceUuid == Some(freshUuid)
              && r.jobData == rec.jobData.(resourceUuid := Some(freshUuid))
    ensures rec.jobData.resourceUuid.Some? ==> r == rec
  {
    var (m, generated) := AssignResourceUuid(rec.jobData, freshUuid);
    if generated then rec.(jobData := m, targetResourceUuid := m.resourceUuid) else rec
  }

  /** Starting a job twice never replaces the resource uuid the first start assigned. */
  lemma StartKeepsAssignedUuid(rec: JobRecord, first: Uuid, second: Uuid)
    ensures StartedRecord(StartedRecord(rec, first), second) == StartedRecord(rec, first)
  {
  }

  /** What start does before any reply: save the record if a uuid was generated, register
      the tracking callback if the request asks for tracking, then send the add request. */
  function StartTrace(rec: JobRecord, freshUuid: Uuid, nowMs: int, timeoutSeconds: int): seq<Effect> {
    var (m, generated) := AssignResourceUuid(rec.jobData, freshUuid);
    (if generated then [RecordSaved(StartedRecord(rec, freshUuid))] else [])
    + (if m.needTrack then [Subscribed(rec.uuid, OffTime(nowMs, timeoutSeconds))] else [])
    + [Sent(AddImageRequest(m))]
  }

  /** start sends exactly one message, the add request, last, routed by the resource uuid
      the started record holds; the tracking callback, when asked for, is registered with
      the deadline `timeoutSeconds` after `nowMs` before that send; nothing reaches the caller. */
  lemma StartSubscribesBeforeSending(rec: JobRecord, freshUuid: Uuid, nowMs: int, timeoutSeconds: int)
    ensures var t := StartTrace(rec, freshUuid, nowMs, timeoutSeconds);
            var m := StartedRecord(rec, freshUuid).jobData;
            && SentMessages(t) == [AddImageRequest(m)]
            && t[|t| - 1] == Sent(AddImageRequest(m))
            && AddImageRequest(m).route == ImageService(m.resourceUuid) && m.resourceUuid.Some?
            && (rec.jobData.needTrack <==> exists i :: 0 <= i < |t| - 1 && t[i] == Subscribed(rec.uuid, OffTime(nowMs, timeoutSeconds)))
            && Deliveries(t) == []
  {
    var (m, generated) := AssignResourceUuid(rec.jobData, freshUuid);
    var a := if generated then [RecordSaved(StartedRecord(rec, freshUuid))] else [];
    var b := if m.needTrack then [Subscribed(rec.uuid, OffTime(nowMs, timeoutSeconds))] else [];
    var c := [Sent(AddImageRequest(m))];
    var t := StartTrace(rec, freshUuid, nowMs, timeoutSeconds);
    assert t == a + b + c;
    SentMessagesAppend(a, b);
    SentMessagesAppend(a + b, c);
    DeliveriesAppend(a, b);
    DeliveriesAppend(a + b, c);
    if m.needTrack {
      assert t[|a|] == Subscribed(rec.uuid, OffTime(nowMs, timeoutSeconds));
    } else {
      assert forall i :: 0 <= i < |t| - 1 ==> t[i] == a[i];
    }
  }

  /** The dispatch reply's choice: one guard call, or cleanup. */
  datatype Branch = Call(call: GuardCall) | CleanUp

  /** How the reply to the add request is handled. A failure reply fails the guard with the
      reply's error. A success reply cleans up when the job was cancelled meanwhile, and
      otherwise tracks (when the request asks for tracking) or succeeds with the inventory. */
  function OnAddReply(reply: Reply<ImageInventory>, cancelled: bool, needTrack: bool): (b: Branch)
    ensures (b.Call? && b.call.CallFail?) <==> reply.ReplyErr?
    ensures reply.ReplyErr? ==> b == Call(CallFail(reply.error))
    ensures b == CleanUp <==> reply.ReplyOk? && cancelled
    ensures (b.Call? && b.call.CallTrack?) <==> reply.ReplyOk? && !cancelled && needTrack
    ensures (b.Call? && b.call.CallSuccess?) <==> reply.ReplyOk? && !cancelled && !needTrack
    ensures b.Call? && !b.call.CallFail? ==> b.call.inv == reply.value
  {
    match reply
    case ReplyErr(err) => Call(CallFail(err))
    case ReplyOk(inv) =>
      if cancelled then CleanUp
      else if needTrack then Call(CallTrack(inv))
      else Call(CallSuccess(inv))
  }

  /** The uuid recorded for audit on a reply: the request's resource uuid on failure,
      the created image's uuid on success. */
  function AuditUuid(msg: AddImageMsg, reply: Reply<ImageInventory>): Option<Uuid> {
    if reply.ReplyOk? then Some(reply.value.uuid) else msg.resourceUuid
  }

  /** The effects of handling the dispatch reply on guard state `s` of job `j`. */
  function ReplyEffects(s: GuardState, j: Uuid, msg: AddImageMsg, reply: Reply<ImageInventory>, cancelled: bool): seq<Effect> {
    match OnAddReply(reply, cancelled, msg.needTrack)
    case CleanUp => [Sent(BuildDeletionMsg(msg))]
    case Call(c) => Effects(j, Step(s, c))
  }

  /** Dispatch reply followed, for cleanup, by the deletion's reply (whatever it is),
      with no other call on the guard in between. */
  function DispatchTrace(s: GuardState, j: Uuid, msg: AddImageMsg, reply: Reply<ImageInventory>, cancelled: bool, cancelErr: ErrorCode): seq<Effect> {
    ReplyEffects(s, j, msg, reply, cancelled)
    + (if OnAddReply(reply, cancelled, msg.needTrack) == CleanUp then Effects(j, Step(s, CallFail(cancelErr))) else [])
  }

  /** Cancel after success, when no tracking event reaches the guard before the deletion's
      reply: the image is deleted (one forced deletion, routed like the add request, sent
      first) and the caller hears the cancellation error, never success. If the guard was
      already finished, the image is deleted all the same and the caller hears nothing more. */
  lemma CancelledSuccessIsCleanedUp(s: GuardState, j: Uuid, msg: AddImageMsg, inv: ImageInventory, cancelErr: ErrorCode)
    ensures var t := DispatchTrace(s, j, msg, ReplyOk(inv), true, cancelErr);
            && t[0] == Sent(BuildDeletionMsg(msg))
            && SentMessages(t) == [BuildDeletionMsg(msg)]
            && BuildDeletionMsg(msg).route == AddImageRequest(msg).route
            && Deliveries(t) == (if s.done then [] else [SinkFail(cancelErr)])
  {
    var a := [Sent(BuildDeletionMsg(msg))];
    var b := Effects(j, Step(s, CallFail(cancelErr)));
    assert DispatchTrace(s, j, msg, ReplyOk(inv), true, cancelErr) == a + b;
    SentMessagesAppend(a, b);
    DeliveriesAppend(a, b);
    if !s.done {
      assert b == [ResultPersisted(j, WrappedError(cancelErr))] + [Delivered(j, SinkFail(cancelErr))];
      SentMessagesAppend([ResultPersisted(j, WrappedError(cancelErr))], [Delivered(j, SinkFail(cancelErr))]);
      DeliveriesAppend([ResultPersisted(j, WrappedError(cancelErr))], [Delivered(j, SinkFail(cancelErr))]);
    }
  }

  /** Cancel after success, with a tracking event in between: a matching success event that
      reaches the guard while the deletion is in flight wins. The caller is told the image
      was added, the image is deleted all the same, and the deletion's reply, failing the
      guard, is dropped. */
  lemma TrackedSuccessDuringCleanUpWins(s: GuardState, j: Uuid, msg: AddImageMsg, inv: ImageInventory, tracked: ImageInventory, cancelErr: ErrorCode)
    requires !s.done
    ensures var t := ReplyEffects(s, j, msg, ReplyOk(inv), true) + Run(s, j, [CallSuccess(tracked), CallFail(cancelErr)]).1;
            && SentMessages(t) == [BuildDeletionMsg(msg)]
            && Deliveries(t) == [SinkSuccess(AddImageEvent(s.event.apiId, Some(tracked)))]
  {
    var a := ReplyEffects(s, j, msg, ReplyOk(inv), true);
    var cs := [CallSuccess(tracked), CallFail(cancelErr)];
    var b := Run(s, j, cs).1;
    assert a == [Sent(BuildDeletionMsg(msg))];
    FirstTerminalWins(s, j, cs, 0);
    RunSendsNothing(s, j, cs);
    SentMessagesAppend(a, b);
    DeliveriesAppend(a, b);
  }

  /** A reply that is not a cancelled success makes exactly one guard call and sends nothing. */
  lemma UncancelledReplyIsOneGuardCall(s: GuardState, j: Uuid, msg: AddImageMsg, reply: Reply<ImageInventory>, cancelled: bool, cancelErr: ErrorCode)
    requires !(reply.ReplyOk? && cancelled)
    ensures var b := OnAddReply(reply, cancelled, msg.needTrack);
            && b.Call?
            && DispatchTrace(s, j, msg, reply, cancelled, cancelErr) == Run(s, j, [b.call]).1
            && SentMessages(DispatchTrace(s, j, msg, reply, cancelled, cancelErr)) == []
  {
    var b := OnAddReply(reply, cancelled, msg.needTrack);
    var e := Effects(j, Step(s, b.call));
    assert [b.call][1..] == [];
    assert Run(s, j, [b.call]).1 == e + [];
    var r := Step(s, b.call);
    var p := if r.persisted.Some? then [ResultPersisted(j, r.persisted.value)] else [];
    var q := if r.delivered.Some? then [Delivered(j, r.delivered.value)] else [];
    assert e == p + q;
    SentMessagesAppend(p, q);
  }

  /** The record after resume's reply handler: failed, with the restart text as its result. */
  function RestartFailedRecord(rec: JobRecord): JobRecord {
    rec.(state := Failed, jobResult := Some(Text(RESTART_FAILURE_TEXT)))
  }

  /** What resume's deletion reply handler does: warn if the deletion failed, then fail the job. */
  function ResumeReplyEffects(j: Uuid, msg: AddImageMsg, reply: Reply<()>): seq<Effect> {
    (if reply.ReplyErr? then [DeleteFailedWarning(msg.resourceUuid)] else [])
    + [StateChanged(j, Failed, Text(RESTART_FAILURE_TEXT))]
  }

  /** resume followed by the reply to its deletion. */
  function ResumeTrace(j: Uuid, msg: AddImageMsg, reply: Reply<()>): seq<Effect> {
    [Sent(BuildDeletionMsg(msg))] + ResumeReplyEffects(j, msg, reply)
  }

  /** Resume, whatever the deletion's reply: exactly one message is sent, a forced deletion of
      the job's resource; the job ends failed with the restart text; the caller of start is not
      called. */
  lemma ResumeAlwaysFails(j: Uuid, msg: AddImageMsg, reply: Reply<()>)
    ensures var t := ResumeTrace(j, msg, reply);
            && SentMessages(t) == [BuildDeletionMsg(msg)]
            && t[|t| - 1] == StateChanged(j, Failed, Text(RESTART_FAILURE_TEXT))
            && Deliveries(t) == []
  {
    var w := if reply.ReplyErr? then [DeleteFailedWarning(msg.resourceUuid)] else [];
    var c := [StateChanged(j, Failed, Text(RESTART_FAILURE_TEXT))];
    var a := [Sent(BuildDeletionMsg(msg))];
    assert ResumeTrace(j, msg, reply) == a + (w + c);
    SentMessagesAppend(a, w + c);
    SentMessagesAppend(w, c);
    DeliveriesAppend(a, w + c);
    DeliveriesAppend(w, c);
  }

  /** The cancel request: the add request itself, addressed and routed by its resource uuid,
      carrying the job's api id as the cancellation's. */
  function CancelRequest(rec: JobRecord): (r: Outgoing)
    ensures r.CancelAddImage? && r.cancel.msg == rec.jobData
    ensures r.cancel.imageUuid == rec.jobData.resourceUuid && r.route == ImageService(r.cancel.imageUuid)
    ensures r.cancel.cancellationApiId == rec.apiId
  {
    var c := CancelMsg(rec.jobData, rec.jobData.resourceUuid, rec.apiId);
    CancelAddImage(c, ImageService(c.imageUuid))
  }

  /** What cancel's completion hears: success(false) on a success reply, the reply's error otherwise. */
  function CancelAnswerFor(reply: Reply<()>): (a: CancelAnswer)
    ensures a.CancelSinkSuccess? <==> reply.ReplyOk?
    ensures a.CancelSinkSuccess? ==> !a.value
    ensures a.CancelSinkFail? ==> a.error == reply.error
  {
    if reply.ReplyOk? then CancelSinkSuccess(false) else CancelSinkFail(reply.error)
  }

  /** cancel followed by the reply to its request. */
  function CancelTrace(rec: JobRecord, reply: Reply<()>): seq<Effect> {
    [Sent(CancelRequest(rec)), CancelAnswered(rec.uuid, CancelAnswerFor(reply))]
  }

  /** Cancel asks the image service to stop and reports its answer; it deletes nothing and
      does not touch start's completion. */
  lemma CancelDeletesNothing(rec: JobRecord, reply: Reply<()>)
    ensures var t := CancelTrace(rec, reply);
            && SentMessages(t) == [CancelRequest(rec)]
            && (forall m :: m in SentMessages(t) ==> !m.ImageDeletion?)
            && Deliveries(t) == []
  {
    var t := CancelTrace(rec, reply);
    SentMessagesAppend([t[0]], [t[1]]);
    DeliveriesAppend([t[0]], [t[1]]);
    assert t == [t[0]] + [t[1]];
  }
}
