/** Job types, the two tables that map them to queues, and the payloads handed to the queues. */
module Queues {
  import opened Common
  import opened Workflows

  datatype QueueName = MediaJobs | EtlJobs | MlJobs | EmailJobs | ReportJobs

  datatype JobRef = FlowJob(flow: nat, index: nat) | SingleJob(id: nat)

  datatype Payload = Payload(job: JobRef, jobType: string, tenant: nat, queueName: QueueName, retries: nat, priority: Priority)

  datatype QueueError = UnknownJobType | EnqueueFailed

  // ---------- resolveQueueName ----------

  function Alias(jobType: string): Option<QueueName> {
    if jobType == "media-jobs" then Some(MediaJobs)
    else if jobType == "ml-jobs" then Some(MlJobs)
    else if jobType == "email-jobs" then Some(EmailJobs)
    else if jobType == "etl-jobs" then Some(EtlJobs)
    else if jobType == "report-jobs" then Some(ReportJobs)
    else None
  }

  function ResolveQueueName(jobType: string): Result<QueueName, QueueError> {
    if Alias(jobType).Some? then Ok(Alias(jobType).value)
    else if jobType in ["image_resize", "video_transcode", "audio_transcode"] then Ok(MediaJobs)
    else if jobType in ["etl_import", "csv_parse", "etl-jobs"] then Ok(EtlJobs)
    else if jobType in ["model_inference", "embedding_generate", "text_summarization", "classification", "ocr", "ml-jobs"] then Ok(MlJobs)
    else if jobType in ["send_email", "email_notification", "email-jobs"] then Ok(EmailJobs)
    else if jobType in ["report_generate", "pdf_export", "report-jobs"] then Ok(ReportJobs)
    else Err(UnknownJobType)
  }

  // ---------- QueueService.getQueueName ----------

  const QUEUE_MAP: seq<(QueueName, seq<string>)> := [
    (MediaJobs, ["video_transcode", "audio_transcode", "image_resize"]),
    (EtlJobs, ["etl-jobs", "etl_import", "csv_parse"]),
    (MlJobs, ["ml-jobs", "model_inference", "embedding_generate", "text_summarization", "classification", "ocr"]),
    (EmailJobs, ["email-jobs", "send_email", "email_notification"]),
    (ReportJobs, ["report-jobs", "report_generate", "pdf_export"])
  ]

  function FindQueue(table: seq<(QueueName, seq<string>)>, jobType: string): Option<QueueName> {
    if table == [] then None
    else if jobType in table[0].1 then Some(table[0].0)
    else FindQueue(table[1..], jobType)
  }

  function GetQueueName(jobType: string): Option<QueueName> {
    FindQueue(QUEUE_MAP, jobType)
  }

  lemma QueueByList(jobType: string)
    ensures GetQueueName(jobType) ==
      if jobType in QUEUE_MAP[0].1 then Some(MediaJobs)
      else if jobType in QUEUE_MAP[1].1 then Some(EtlJobs)
      else if jobType in QUEUE_MAP[2].1 then Some(MlJobs)
      else if jobType in QUEUE_MAP[3].1 then Some(EmailJobs)
      else if jobType in QUEUE_MAP[4].1 then Some(ReportJobs)
      else None
  {
    var t := QUEUE_MAP;
    assert t[1..][0] == t[1] && t[1..][1..] == t[2..];
    assert t[2..][0] == t[2] && t[2..][1..] == t[3..];
    assert t[3..][0] == t[3] && t[3..][1..] == t[4..];
    assert t[4..][0] == t[4] && t[4..][1..] == [];
    assert FindQueue(t[4..], jobType) == if jobType in t[4].1 then Some(ReportJobs) else None;
    assert FindQueue(t[3..], jobType) == if jobType in t[3].1 then Some(EmailJobs) else FindQueue(t[4..], jobType);
    assert FindQueue(t[2..], jobType) == if jobType in t[2].1 then Some(MlJobs) else FindQueue(t[3..], jobType);
    assert FindQueue(t[1..], jobType) == if jobType in t[1].1 then Some(EtlJobs) else FindQueue(t[2..], jobType);
  }

  /** The two tables agree, name for name and refusal for refusal, on every job type but one. */
  lemma TablesAgreeExceptOnce(jobType: string)
    ensures (match ResolveQueueName(jobType)
             case Ok(q) => GetQueueName(jobType) == Some(q)
             case Err(_) => GetQueueName(jobType) == None) <==> jobType != "media-jobs"
    ensures GetQueueName(jobType).Some? ==> ResolveQueueName(jobType) == Ok(GetQueueName(jobType).value)
  {
    QueueByList(jobType);
  }

  /** Which queue a job type goes to. */
  lemma QueueOfType(jobType: string)
    ensures ResolveQueueName(jobType) == Ok(MediaJobs) <==>
      jobType in {"media-jobs", "image_resize", "video_transcode", "audio_transcode"}
    ensures ResolveQueueName(jobType) == Ok(EtlJobs) <==> jobType in {"etl-jobs", "etl_import", "csv_parse"}
    ensures ResolveQueueName(jobType) == Ok(MlJobs) <==>
      jobType in {"ml-jobs", "model_inference", "embedding_generate", "text_summarization", "classification", "ocr"}
    ensures ResolveQueueName(jobType) == Ok(EmailJobs) <==> jobType in {"email-jobs", "send_email", "email_notification"}
    ensures ResolveQueueName(jobType) == Ok(ReportJobs) <==> jobType in {"report-jobs", "report_generate", "pdf_export"}
  {
  }

  /** Both tables accept the payload's type, and the payload carries the queue they name. */
  predicate Routable(p: Payload) {
    GetQueueName(p.jobType) == Some(p.queueName)
  }

  predicate Resolved(p: Payload) {
    ResolveQueueName(p.jobType) == Ok(p.queueName)
  }
}
