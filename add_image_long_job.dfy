/** The imperative side of AddImageLongJob: the guard object with its done flag, the job
    object whose start, resume and cancel send messages, and the bus callbacks they register.
    Each callback is an object holding what the Java anonymous class captures; its `Run` is
    invoked by whoever delivers the reply, in any order with the other callbacks. */
module AddImageJob {
  import opened ImageTypes
  import opened JobEffects
  import opened CompletionGuard
  import opened TrackFilter
  import opened AddImageFlow

  /** What the job talks to: the long-job table (`records`) and, in `log`, every observable
      effect on the database, the bus, the event facade and the callers' completions, in order. */
  class Env {
    var records: map<Uuid, JobRecord>
    var log: seq<Effect>

    constructor (records: map<Uuid, JobRecord>)
      ensures this.records == records && log == []
    {
      this.records := records;
      log := [];
    }

    /** The table holds job `j` under its own uuid. */
    predicate Holds(j: Uuid)
      reads this
    {
      j in records && records[j].uuid == j
    }

    /** updateByUuid(j, vo -> vo.setJobResult(result)): the refreshed row is returned. */
    method UpdateJobResult(j: Uuid, result: JobResult) returns (r: JobRecord)
      requires j in records
      modifies this
      ensures records == old(records)[j := old(records)[j].(jobResult := Some(result))]
      ensures log == old(log) + [ResultPersisted(j, result)]
      ensures r == records[j]
    {
      records := records[j := records[j].(jobResult := Some(result))];
      log := log + [ResultPersisted(j, result)];
      r := records[j];
    }

    /** dbf.updateAndRefresh(job). */
    method Save(rec: JobRecord)
      modifies this
      ensures records == old(records)[rec.uuid := rec]
      ensures log == old(log) + [RecordSaved(rec)]
    {
      records := records[rec.uuid := rec];
      log := log + [RecordSaved(rec)];
    }

    /** changeState(j, LongJobStateEvent.fail, vo -> vo.setJobResult(result)). */
    method ChangeStateToFailed(j: Uuid, result: JobResult)
      requires j in records
      modifies this
      ensures records == old(records)[j := old(records)[j].(state := Failed, jobResult := Some(result))]
      ensures log == old(log) + [StateChanged(j, Failed, result)]
    {
      records := records[j := records[j].(state := Failed, jobResult := Some(result))];
      log := log + [StateChanged(j, Failed, result)];
    }

    /** evtf.on(IMAGE_TRACK_RESULT_PATH, callback) for job `j`'s callback. */
    method Subscribe(j: Uuid, offTime: int)
      modifies this
      ensures records == old(records) && log == old(log) + [Subscribed(j, offTime)]
    {
      log := log + [Subscribed(j, offTime)];
    }

    /** bus.send(m). */
    method Send(m: Outgoing)
      modifies this
      ensures records == old(records) && log == old(log) + [Sent(m)]
    {
      log := log + [Sent(m)];
    }

    /** The completion given to start of job `j`, called with `o`. */
    method Complete(j: Uuid, o: Outcome)
      modifies this
      ensures records == old(records) && log == old(log) + [Delivered(j, o)]
    {
      log := log + [Delivered(j, o)];
    }

    /** The completion given to cancel of job `j`, called with `a`. */
    method AnswerCancel(j: Uuid, a: CancelAnswer)
      modifies this
      ensures records == old(records) && log == old(log) + [CancelAnswered(j, a)]
    {
      log := log + [CancelAnswered(j, a)];
    }

    /** logger.warn about a failed deletion after a restart. */
    method Warn(resourceUuid: Option<Uuid>)
      modifies this
      ensures records == old(records) && log == old(log) + [DeleteFailedWarning(resourceUuid)]
    {
      log := log + [DeleteFailedWarning(resourceUuid)];
    }
  }

  /** LongJobVO, the object start receives and changes in place. */
  class LongJobVO {
    const uuid: Uuid
    const apiId: Uuid
    var jobData: AddImageMsg
    var targetResourceUuid: Option<Uuid>
    var state: LongJobState
    var jobResult: Option<JobResult>

    constructor (r: JobRecord)
      ensures Record() == r
    {
      uuid, apiId := r.uuid, r.apiId;
      jobData, targetResourceUuid := r.jobData, r.targetResourceUuid;
      state, jobResult := r.state, r.jobResult;
    }

    function Record(): JobRecord
      reads this
    {
      JobRecord(uuid, apiId, jobData, targetResourceUuid, state, jobResult)
    }
  }

  /** AddImageCompletion: the first-wins guard around start's completion. */
  class AddImageCompletion {
    const env: Env
    var event: AddImageEvent
    var job: JobRecord
    var done: bool
    /** The tracking callback's deadline, once startTrack has registered it. */
    var offTime: Option<int>

    ghost predicate Valid()
      reads this, env
    {
      env.Holds(job.uuid)
    }

    function State(): GuardState
      reads this
    {
      GuardState(done, event)
    }

    /** From state `s0`, job row `job0`, trace `log0` and table `records0`, this guard took
        step `r`: its state is `r.next`, the step's effects were appended to the trace, its
        result write was applied to the table, and `job` is the refreshed row if one was written. */
    ghost predicate Took(s0: GuardState, job0: JobRecord, log0: seq<Effect>, records0: map<Uuid, JobRecord>, r: StepResult)
      reads this, env
    {
      && State() == r.next
      && job.uuid == job0.uuid
      && env.log == log0 + Effects(job0.uuid, r)
      && env.records == ApplyResults(records0, Effects(job0.uuid, r))
      && job == (if r.persisted.Some? && job0.uuid in env.records then env.records[job0.uuid] else job0)
    }

    constructor (event: AddImageEvent, job: JobRecord, env: Env)
      requires env.Holds(job.uuid)
      ensures Valid() && this.env == env && this.job == job
      ensures State() == GuardState(false, event) && offTime == None
    {
      this.env := env;
      this.event := event;
      this.job := job;
      done := false;
      offTime := None;
    }

    /** success: if the flag was clear, set it, put the inventory in the event, write the
        serialised event as the job result, then call the completion with the event. */
    method Success(inv: ImageInventory)
      requires Valid()
      modifies this, env
      ensures Valid() && offTime == old(offTime)
      ensures Took(old(State()), old(job), old(env.log), old(env.records), Step(old(State()), CallSuccess(inv)))
    {
      ApplyStepEffects(env.records, job.uuid, Step(State(), CallSuccess(inv)));
      if !done {
        done := true;
        event := event.(inventory := Some(inv));
        var j := job.uuid;
        job := env.UpdateJobResult(j, EventJson(event));
        env.Complete(j, SinkSuccess(event));
      }
    }

    /** fail: if the flag was clear, set it, write the wrapped error as the job result,
        then call the completion with the error. */
    method Fail(err: ErrorCode)
      requires Valid()
      modifies this, env
      ensures Valid() && offTime == old(offTime)
      ensures Took(old(State()), old(job), old(env.log), old(env.records), Step(old(State()), CallFail(err)))
    {
      ApplyStepEffects(env.records, job.uuid, Step(State(), CallFail(err)));
      if !done {
        done := true;
        var j := job.uuid;
        job := env.UpdateJobResult(j, WrappedError(err));
        env.Complete(j, SinkFail(err));
      }
    }

    /** track: while the flag is clear, put the inventory in the event and write the
        serialised event as the job result, leaving the job running. */
    method Track(inv: ImageInventory)
      requires Valid()
      modifies this, env
      ensures Valid() && offTime == old(offTime)
      ensures Took(old(State()), old(job), old(env.log), old(env.records), Step(old(State()), CallTrack(inv)))
    {
      ApplyStepEffects(env.records, job.uuid, Step(State(), CallTrack(inv)));
      if !done {
        event := event.(inventory := Some(inv));
        job := env.UpdateJobResult(job.uuid, EventJson(event));
      }
    }

    /** startTrack: compute the deadline and register the tracking callback. */
    method StartTrack(nowMs: int, timeoutSeconds: int)
      requires Valid()
      modifies this`offTime, env
      ensures Valid() && offTime == Some(OffTime(nowMs, timeoutSeconds))
      ensures env.log == old(env.log) + [Subscribed(job.uuid, OffTime(nowMs, timeoutSeconds))]
      ensures env.records == old(env.records)
    {
      offTime := Some(OffTime(nowMs, timeoutSeconds));
      env.Subscribe(job.uuid, offTime.value);
    }

    /** The registered tracking callback, run on one event at wall-clock time `nowMs`. */
    method OnTrackEvent(data: TrackData, nowMs: int) returns (returned: bool)
      requires Valid() && offTime.Some?
      modifies this, env
      ensures Valid() && offTime == old(offTime)
      ensures var d := Decide(data, old(job).targetResourceUuid, offTime.value, nowMs);
              && returned == d.returned
              && Took(old(State()), old(job), old(env.log), old(env.records),
                      if d.call.Some? then Step(old(State()), d.call.value) else StepResult(old(State()), None, None))
    {
      if Some(data.uuid) == job.targetResourceUuid {
        if data.success {
          Success(data.inventory);
        } else {
          Fail(data.error);
        }
        returned := true;
      } else {
        returned := offTime.value > nowMs;
        assert Effects(job.uuid, StepResult(State(), None, None)) == [];
      }
    }
  }

  /** AddImageLongJob: the long job for APIAddImageMsg. */
  class AddImageLongJob {
    const env: Env
    var auditResourceUuid: Option<Uuid>

    constructor (env: Env)
      ensures this.env == env && auditResourceUuid == None
    {
      this.env := env;
      auditResourceUuid := None;
    }

    /** start: give the request a resource uuid if it has none (saving it into the job data and
        the target resource uuid), build the guard, register tracking if asked, send the add
        request; the returned callback handles its reply. */
    method Start(job: LongJobVO, freshUuid: Uuid, nowMs: int, timeoutSeconds: int)
      returns (completion: AddImageCompletion, callback: AddImageCallback)
      requires job.jobData.resourceUuid.None? || env.Holds(job.uuid)
      modifies job, env
      ensures job.Record() == StartedRecord(old(job.Record()), freshUuid)
      ensures env.records ==
                if old(job.jobData.resourceUuid).None? then old(env.records)[job.uuid := job.Record()]
                else old(env.records)
      ensures env.log == old(env.log) + StartTrace(old(job.Record()), freshUuid, nowMs, timeoutSeconds)
      ensures fresh(completion) && completion.env == env && completion.Valid()
      ensures completion.State() == GuardState(false, AddImageEvent(job.apiId, None))
      ensures completion.job == job.Record()
      ensures completion.offTime == if job.jobData.needTrack then Some(OffTime(nowMs, timeoutSeconds)) else None
      ensures fresh(callback) && callback.Valid()
      ensures callback.owner == this && callback.completion == completion
      ensures callback.msg == job.jobData && callback.jobUuid == job.uuid
    {
      var msg := job.jobData;
      if msg.resourceUuid.None? {
        msg := msg.(resourceUuid := Some(freshUuid));
        job.jobData := msg;
        job.targetResourceUuid := msg.resourceUuid;
        env.Save(job.Record());
      }
      var evt := AddImageEvent(job.apiId, None);
      completion := new AddImageCompletion(evt, job.Record(), env);
      if msg.needTrack {
        completion.StartTrack(nowMs, timeoutSeconds);
      }
      env.Send(AddImageRequest(msg));
      callback := new AddImageCallback(this, msg, completion, job.uuid);
    }

    /** cleanImage: send the forced deletion; its callback then fails the guard with `err`. */
    method CleanImage(msg: AddImageMsg, completion: AddImageCompletion, err: ErrorCode)
      returns (callback: CleanImageCallback)
      modifies env
      ensures env.records == old(env.records)
      ensures env.log == old(env.log) + [Sent(BuildDeletionMsg(msg))]
      ensures fresh(callback) && callback.completion == completion && callback.err == err
    {
      env.Send(BuildDeletionMsg(msg));
      callback := new CleanImageCallback(completion, err);
    }

    /** resume: send the forced deletion of the job's resource; its callback fails the job. */
    method Resume(job: LongJobVO) returns (callback: ResumeCallback)
      modifies env
      ensures env.records == old(env.records)
      ensures env.log == old(env.log) + [Sent(BuildDeletionMsg(job.jobData))]
      ensures fresh(callback) && callback.env == env
      ensures callback.msg == job.jobData && callback.jobUuid == job.uuid
    {
      env.Send(BuildDeletionMsg(job.jobData));
      callback := new ResumeCallback(env, job.jobData, job.uuid);
    }

    /** cancel: send the cancel request; its callback answers cancel's completion. */
    method Cancel(job: LongJobVO) returns (callback: CancelCallback)
      modifies env
      ensures env.records == old(env.records)
      ensures env.log == old(env.log) + [Sent(CancelRequest(job.Record()))]
      ensures fresh(callback) && callback.env == env && callback.jobUuid == job.uuid
    {
      env.Send(CancelRequest(job.Record()));
      callback := new CancelCallback(env, job.uuid);
    }
  }

  /** The callback start registers with the add request. */
  class AddImageCallback {
    const owner: AddImageLongJob
    const msg: AddImageMsg
    const completion: AddImageCompletion
    const jobUuid: Uuid

    ghost predicate Valid()
      reads this, completion, completion.env
    {
      completion.env == owner.env && completion.Valid() && completion.job.uuid == jobUuid
    }

    constructor (owner: AddImageLongJob, msg: AddImageMsg, completion: AddImageCompletion, jobUuid: Uuid)
      ensures this.owner == owner && this.msg == msg && this.completion == completion && this.jobUuid == jobUuid
    {
      this.owner := owner;
      this.msg := msg;
      this.completion := completion;
      this.jobUuid := jobUuid;
    }

    /** The reply to the add request. `cancelled` is what jobCanceled reports at this moment,
        `cancelErr` what cancelErr builds. Records the audit uuid, then fails, cleans up,
        tracks or succeeds as OnAddReply chooses. */
    method Run(reply: Reply<ImageInventory>, cancelled: bool, cancelErr: ErrorCode)
      returns (cleanup: CleanImageCallback?)
      requires Valid()
      modifies owner, completion, owner.env
      ensures Valid() && completion.offTime == old(completion.offTime)
      ensures owner.auditResourceUuid == AuditUuid(msg, reply)
      ensures owner.env.log == old(owner.env.log) + ReplyEffects(old(completion.State()), jobUuid, msg, reply, cancelled)
      ensures var b := OnAddReply(reply, cancelled, msg.needTrack);
              if b.CleanUp? then
                && cleanup != null && fresh(cleanup)
                && cleanup.completion == completion && cleanup.err == cancelErr
                && completion.State() == old(completion.State()) && completion.job == old(completion.job)
                && owner.env.records == old(owner.env.records)
              else
                && cleanup == null
                && completion.Took(old(completion.State()), old(completion.job), old(owner.env.log),
                                   old(owner.env.records), Step(old(completion.State()), b.call))
    {
      match reply
      case ReplyErr(err) =>
        owner.auditResourceUuid := msg.resourceUuid;
        completion.Fail(err);
        cleanup := null;
      case ReplyOk(inv) =>
        owner.auditResourceUuid := Some(inv.uuid);
        if cancelled {
          cleanup := owner.CleanImage(msg, completion, cancelErr);
        } else if msg.needTrack {
          completion.Track(inv);
          cleanup := null;
        } else {
          completion.Success(inv);
          cleanup := null;
        }
    }
  }

  /** The callback cleanImage registers with the deletion. */
  class CleanImageCallback {
    const completion: AddImageCompletion
    const err: ErrorCode

    constructor (completion: AddImageCompletion, err: ErrorCode)
      ensures this.completion == completion && this.err == err
    {
      this.completion := completion;
      this.err := err;
    }

    /** Whatever the deletion's reply, fail the guard with the cancellation error. */
    method Run(reply: Reply<()>)
      requires completion.Valid()
      modifies completion, completion.env
      ensures completion.Valid() && completion.offTime == old(completion.offTime)
      ensures completion.Took(old(completion.State()), old(completion.job), old(completion.env.log),
                              old(completion.env.records), Step(old(completion.State()), CallFail(err)))
    {
      completion.Fail(err);
    }
  }

  /** The callback resume registers with the deletion. */
  class ResumeCallback {
    const env: Env
    const msg: AddImageMsg
    const jobUuid: Uuid

    constructor (env: Env, msg: AddImageMsg, jobUuid: Uuid)
      ensures this.env == env && this.msg == msg && this.jobUuid == jobUuid
    {
      this.env := env;
      this.msg := msg;
      this.jobUuid := jobUuid;
    }

    /** Warn if the deletion failed, then, whatever the reply, fail the job with the restart text. */
    method Run(reply: Reply<()>)
      requires jobUuid in env.records
      modifies env
      ensures env.records == old(env.records)[jobUuid := RestartFailedRecord(old(env.records)[jobUuid])]
      ensures env.log == old(env.log) + ResumeReplyEffects(jobUuid, msg, reply)
    {
      if reply.ReplyErr? {
        env.Warn(msg.resourceUuid);
      }
      env.ChangeStateToFailed(jobUuid, Text(RESTART_FAILURE_TEXT));
    }
  }

  /** The callback cancel registers with the cancel request. */
  class CancelCallback {
    const env: Env
    const jobUuid: Uuid

    constructor (env: Env, jobUuid: Uuid)
      ensures this.env == env && this.jobUuid == jobUuid
    {
      this.env := env;
      this.jobUuid := jobUuid;
    }

    /** success(false) on a success reply, fail with the reply's error otherwise. */
    method Run(reply: Reply<()>)
      modifies env
      ensures env.records == old(env.records)
      ensures env.log == old(env.log) + [CancelAnswered(jobUuid, CancelAnswerFor(reply))]
    {
      if reply.ReplyOk? {
        env.AnswerCancel(jobUuid, CancelSinkSuccess(false));
      } else {
        env.AnswerCancel(jobUuid, CancelSinkFail(reply.error));
      }
    }
  }
}
