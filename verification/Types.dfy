/** Values shared by the API server, the processor and the storage clients. */
module Types {

  type JobId = string

  datatype Option<+T> = None | Some(value: T)

  /** The status names of the OpenAI Batch object. */
  datatype BatchStatus =
    | Validating
    | Failed
    | InProgress
    | Finalizing
    | Completed
    | Expired
    | Cancelling
    | Cancelled
  {
    predicate IsFinal() {
      Completed? || Failed? || Expired? || Cancelled?
    }
  }

  /** The dynamic part of a batch; `others` stands for the fields no modelled code touches. */
  datatype BatchStatusInfo = BatchStatusInfo(
    status: BatchStatus,
    cancelledAt: Option<int>,
    cancellingAt: Option<int>,
    others: string)

  /** A serialized value: bytes that decode to a value, or bytes that do not decode. */
  datatype Bytes<+T> = Encoded(value: T) | Undecodable(raw: string)
  {
    predicate IsEmpty() {
      Undecodable? && raw == ""
    }
  }

  /** A record of the job database. */
  datatype BatchJob = BatchJob(
    id: JobId,
    slo: int,
    ttl: int,
    tags: seq<string>,
    spec: Bytes<string>,
    status: Bytes<BatchStatusInfo>)
  {
    /** The batch's status, when the record decodes. */
    function StatusOf(): Option<BatchStatus> {
      if spec.Encoded? && status.Encoded? then Some(status.value.status) else None
    }

    predicate SameStatic(other: BatchJob) {
      id == other.id && slo == other.slo && ttl == other.ttl && spec == other.spec
    }
  }

  /** An entry of the priority queue. */
  datatype BatchJobPriority = BatchJobPriority(id: JobId, slo: int)
}
