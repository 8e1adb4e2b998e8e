/** Values the add-image long job reads, sends and stores: the request decoded from the
    job data, the replies and events it receives, and the job record. */
module ImageTypes {

  datatype Option<T> = None | Some(value: T)

  /** Uuids are opaque strings to the job; it only compares them for equality. */
  type Uuid = string

  datatype ErrorCode = ErrorCode(code: string, description: string)

  /** ImageInventory: the job looks only at the image's uuid; the rest is carried unexamined. */
  datatype ImageInventory = ImageInventory(uuid: Uuid, details: string)

  /** AddImageMsg as decoded from the job data. `None` stands for a null resource uuid;
      `details` carries the fields the job never looks at (name, url, format, ...). */
  datatype AddImageMsg = AddImageMsg(
    resourceUuid: Option<Uuid>,
    backupStorageUuids: seq<Uuid>,
    needTrack: bool,
    details: string)

  /** APIAddImageEvent: built from the job's api id, inventory unset until the guard sets it. */
  datatype AddImageEvent = AddImageEvent(apiId: Uuid, inventory: Option<ImageInventory>)

  /** What the job-result column holds: the serialised event, the default wrapping of an
      error code, or a fixed text. */
  datatype JobResult =
    | EventJson(event: AddImageEvent)
    | WrappedError(error: ErrorCode)
    | Text(text: string)

  datatype LongJobState = Pending | Running | Succeeded | Failed | Cancelled

  /** One row of the long-job table (LongJobVO). */
  datatype JobRecord = JobRecord(
    uuid: Uuid,
    apiId: Uuid,
    jobData: AddImageMsg,
    targetResourceUuid: Option<Uuid>,
    state: LongJobState,
    jobResult: Option<JobResult>)

  /** Where the bus delivers a message: the image service, on the node chosen by a resource uuid. */
  datatype Route = ImageService(resourceUuid: Option<Uuid>)

  /** ImageDeletionMsg. */
  datatype DeletionMsg = DeletionMsg(
    imageUuid: Option<Uuid>,
    forceDelete: bool,
    backupStorageUuids: seq<Uuid>,
    deletionPolicy: string)

  /** CancelAddImageMsg. */
  datatype CancelMsg = CancelMsg(msg: AddImageMsg, imageUuid: Option<Uuid>, cancellationApiId: Uuid)

  /** A message handed to the bus, with the route the bus was told to use. */
  datatype Outgoing =
    | AddImage(add: AddImageMsg, route: Route)
    | ImageDeletion(deletion: DeletionMsg, route: Route)
    | CancelAddImage(cancel: CancelMsg, route: Route)

  /** A bus reply: success with a payload, or an error code. */
  datatype Reply<T> = ReplyOk(value: T) | ReplyErr(error: ErrorCode)

  /** What the caller's completion of `start` is called with. */
  datatype Outcome = SinkSuccess(event: AddImageEvent) | SinkFail(error: ErrorCode)

  /** What the caller's completion of `cancel` is called with. */
  datatype CancelAnswer = CancelSinkSuccess(value: bool) | CancelSinkFail(error: ErrorCode)
}
