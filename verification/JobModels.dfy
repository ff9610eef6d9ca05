/** Data classes of the coding-job tracker. Times are `real` seconds; 0.0 means "not yet". */
module JobModels {

  datatype JobStatus = Pending | Decomposing | Running | Completed | Failed | Cancelled

  datatype PhaseStatus = PhasePending | PhaseRunning | PhaseCompleted | PhaseFailed

  /** A job id and a step. */
  type PhaseKey = (string, int)

  datatype PhaseInfo = PhaseInfo(
    step: int,
    title: string,
    status: PhaseStatus,
    startedAt: real,
    finishedAt: real,
    duration: real,
    output: string,
    filesChanged: seq<string>)

  datatype JobInfo = JobInfo(
    jobId: string,
    project: string,
    agent: string,
    prompt: string,
    status: JobStatus,
    phases: seq<PhaseInfo>,
    currentPhase: int,
    totalPhases: int,
    startedAt: real,
    finishedAt: real,
    duration: real,
    sessionId: string,
    error: string,
    user: string,
    channel: string)
}
