/** The settings of a job by name: which key of which schema holds what. */
module Keys {
  /** The keys the stages of a job exchange. All but the last are declared; the wait stage writes the last. */
  datatype Key =
    | ConfigureDone
    | CreateDone | CreatedNodes | FailedNodes
    | BootStarted | BootstrappedNodes | BootstrapDone
    | SystemId
    | ScheduleStarted | ScheduleCompleted | ScheduleIndex
    | TotalProcesses | TotalScheduledProcs | TotalRescheduledProcs
    | ScheduledNodes | RescheduledNodes
    | CurrentProcesses | AllProcesses | Procs2bRescheduled
    | ExecutedProcs
    | RunsLeft | ErrorNodes | FinishedNodes | InitialNumbfile
    | Transformed | Converged | RunFinished
    | ScheduledStarted
}
