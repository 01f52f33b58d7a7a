/** The records the coordinator and the workers exchange (src/server/models.py),
    the job document pushed onto a worker queue, and the error replies. */
module Models {

  /** An untyped dictionary (gpu_info, params, the executor's output). The
      coordinator and the consumer only carry it along, so its values are kept
      as opaque text. */
  type Dict = map<string, string>

  datatype Option<T> = None | Some(value: T)

  /** A registered worker, stored under worker:{workerId}. */
  datatype Worker = Worker(workerId: string, gpuInfo: Dict, supportedModels: seq<string>)

  datatype InferenceRequest = InferenceRequest(model: string, prompt: string, params: Dict)

  datatype InferenceResponse = InferenceResponse(requestId: string, message: string)

  /** The record stored under result:{requestId}. */
  datatype InferenceResult = InferenceResult(requestId: string, result: Dict)

  /** The body register_worker answers with. */
  datatype RegisterReply = RegisterReply(message: string, workerId: string)

  /** The job document the coordinator pushes onto queue:{workerId}. */
  datatype Job = Job(requestId: string, model: string, prompt: string, params: Dict)

  /** A list entry as the consumer reads it: a job document, or text that is
      not valid JSON or lacks one of the job's keys. */
  datatype Payload = JobPayload(job: Job) | Malformed(raw: string)

  /** What the inference executor gives back: its output, or the exception it raised. */
  datatype ExecOutcome = Succeeded(output: Dict) | Failed(reason: string)

  datatype HttpError = HttpError(status: int, detail: string)

  /** A handler's answer: the response body, or the HTTPException it raises. */
  datatype Result<T> = Ok(value: T) | Err(error: HttpError)

  const RegisteredMessage := "Worker registered successfully"
  const JobQueuedMessage := "Inference job queued successfully"
  const NoAvailableWorker := HttpError(400, "No available worker for the requested model")
  const ResultNotFound := HttpError(404, "Result not found")
}
