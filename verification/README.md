# Chiminey jobs, verified

Chiminey runs a computation on a cloud or a cluster as a persistent state machine. A periodic driver loads the
settings of a job, tries the nine stages Configure, Create, Bootstrap, Schedule, Execute, Wait, Transform, Converge
and Destroy, runs the first one whose trigger holds, and stores what it wrote. A job whose driver pass runs no stage
is marked deleted. The stages never call one another: they agree only through the stored process tables
(`current_processes`, `all_processes`, `finished_nodes`, `procs_2b_rescheduled`) and counters (`schedule_index`,
`total_scheduled_procs`, `initial_numbfile`, `runs_left`). This project states how those must agree and proves that
they do, in every run, whatever the machines answer.

`dafny verify dfyconfig.toml` checks everything.

## Layout

| file | content |
|---|---|
| `records.dfy`, `processes.dfy` | process records as values, and as the shared objects a running stage holds |
| `sweep.dfy` | cartesian product enumeration, run counters, and the counts the scheduler takes |
| `scheduler.dfy` | round robin, confirmation of nodes, the reschedule round, on values |
| `jobstate.dfy` | the settings, the nine triggers, what each stage writes, the driver pass |
| `tables.dfy`, `invariant.dfy`, `steps.dfy` | the phases of a job and one lemma a stage: every step leads from phase to phase |
| `runs.dfy`, `progress.dfy` | the theorems about whole runs: safety, numbering, termination |
| `effects.dfy` | what each step of a run does and when it raises, in terms of nodes, records, machines and the sweep map only |
| `ftmanager.dfy`, `waitpass.dfy`, `wait.dfy` | failure handling and the polling pass over shared records |
| `schedule.dfy`, `execute.dfy`, `stages.dfy`, `driver.dfy` | the stages and the driver as the objects and loops of Chiminey, proved to compute `jobstate.dfy` |
| `reschedule.dfy` | a reschedule round as a machine of its own, and in the steps of the schedule and the execute stage |
| `stories.dfy` | runs that exist: one that ends, and two that fail in the ways the theorems speak of |
| `workers.dfy` | concurrent driver and delete tasks under the advisory lock and the row lock |
| `settings.dfy`, `store.dfy` | the settings dictionary and the store behind it |
| `keys.dfy`, `encoding.dfy` | the settings of a job in that dictionary: its keys, what the schemas declare of them, and what is read back |
| `trees.dfy`, `storage.dfy`, `copying.dfy` | the two directory walks |
| `timeparse.dfy` | time expressions: the four formats as regular expressions, and what their pieces match |
| `timetexts.dfy` | which texts read as how many seconds, and the round trip through the printed form |

## How the model is built

Every stage exists twice. `JobState` says on values when the stage is triggered and what it writes; the classes
(`WaitStage.Wait`, `ScheduleStage.Schedule`, `ExecuteStage.Execute`, `SmallStages`) run the loops of Chiminey over
lists of shared record objects and are proved to compute exactly that. `Driver.Context.ProcessContext` is the loop of
the driver over those objects. It reads the settings from the rows of a store and hands what a stage writes back to
the store, which may raise half way; what is in the store afterwards is `JobState.Drive`, the function all theorems
about runs are about. The outside world is a parameter of every step (`JobState.Env`): which machines exist, which
nodes answer, which launches succeed, which processes have finished or cannot be reached, how far the store comes
before it raises, and whether the stage body raises for a reason of its own. Nothing is assumed about it, so a theorem
about runs holds of all of its behaviours.

`StageEffects` says the same once more from outside: what becomes of every key in a step of a run, which process goes
to which node, how many there are, and exactly when a step raises, without the functions of `JobState` and `Scheduler`
that the stages are proved to compute. `StageEffects.TriggersAre` does so for the nine triggers.

Counts are stored as decimal text and lists as their printed form. How a list is printed and read is a parameter
(`Encoding.Codec`), of which only is used that reading undoes printing; a stored list that cannot be read, which
Chiminey mostly treats like an absent key, therefore does not occur. Ids are numbers in the model.

## What the code turned out to do

- The wait stage writes the key `scheduled_started` when it has collected failed processes
  (`chiminey/corestages/wait.py:392`), but only `schedule_started` is declared
  (`chiminey/initialisation/chimineyinitial.py:746`). The store accepts a job's settings if and only if they lack that
  key (`Encoding.DeclaredExactly`); with it, storing raises (`chiminey/smartconnectorscheduler/models.py:562-568`),
  the driver swallows the exception (`chiminey/smartconnectorscheduler/tasks.py:266-286`), no other stage is
  triggered, and the job is marked deleted, together with whatever rows were written by then. So a single lost
  connection ends a job, and the driver never enters the rescheduling mode (`JobRuns.FailedPollDeletes`,
  `JobRuns.NeverReschedules`); `JobStories.UnreachableDeletes` is such a run, and `JobStories.OnlyMisspelt` says that
  a round would be due if the key were spelt as it is declared. For the same reason any exception in a stage body
  deletes the job (`JobRuns.DeletedExactly`).
- `runs_left` is computed from list lengths. It is the number of running processes if and only if no process that was
  already flagged failed in a polling pass is reported finished later in the same pass (`WaitPass.RunsLeftAfterPass`);
  otherwise it can be negative (`WaitPass.RunsLeftNegative`).
- With input directories a second launch pass in one iteration never finds a process for its counters and raises
  (`JobRuns.NumberingAligned`); `JobStories.SecondPassDeletes` is such a run.
- In the middle of a reschedule round the schedule and the execute stage are triggered together as soon as a process
  is ready (`RescheduleRound.MidRoundTriggers`), and the order in which the store lists the stages is irrelevant if
  and only if none is (`RescheduleRound.MidRoundOrders`); `RescheduleRound.OrderMatters` is a state in which it is
  not.
- `copy_directories` takes the right relative paths if and only if the source, less one slash at each end, is not
  empty and does not end in a slash (`Trees.SliceUndoesJoin`, `Copying.CutsAreRelative`).
- `validate_timedelta` rejects the printed form of the zero time difference (`TimeTexts.ZeroRejected`).
- A setting reads back as written if and only if it has its declared type (`ContextRows.StoreRoundTrip`).

## Model

| member | source | states |
|---|---|---|
| JobRuns.RunInvariant | chiminey/smartconnectorscheduler/tasks.py:202-286 | In every state of every run of the driver that is not deleted the job is in one of twelve phases, whatever the outside world answers and in whatever order the stages are listed |
| JobRuns.ExactlyOneTrigger | chiminey/smartconnectorscheduler/tasks.py:225-286 | In every such state exactly one of the nine triggers holds until the job has ended, and none after that |
| JobRuns.OrderIrrelevant | chiminey/smartconnectorscheduler/tasks.py:204-210 | The unordered query for the stages cannot change a run: any two complete orders lead to the same context |
| JobRuns.DeletedExactly | chiminey/smartconnectorscheduler/tasks.py:179-289 | A step deletes a context if and only if the job has ended or the triggered stage raised; the settings stay as they were, unless a wait pass with a failed poll came to storing: then some of the keys that pass writes hold what it handed to the store |
| JobRuns.DeletedForGood | chiminey/smartconnectorscheduler/tasks.py:182-199 | A deleted context never changes again |
| JobRuns.FailedPollDeletes | chiminey/corestages/wait.py:390-394 | A wait pass with a running process that cannot be reached ends the job |
| JobRuns.NeverReschedules | chiminey/corestages/schedule.py:79-96 | In no state of a run that is not deleted is a process to be rescheduled, a failed node or a failed record stored, so the driver never enters the rescheduling mode; a deleted context may be left with them |
| JobRuns.TablesAgree | chiminey/corestages/strategies/clusterschedulestrategy.py:163-172 | In every state the history table is completed records followed by the current table record for record, the ids of the whole table are exactly 1..schedule_index, and runs_left is the number of running records |
| JobRuns.RunsLeftExact | chiminey/corestages/wait.py:342-379 | With everything launched, runs_left is 0 if and only if all current processes are completed; the finished list holds exactly the completed records until it is cleared at 0 |
| JobRuns.ScheduleCompletesExactly | chiminey/corestages/schedule.py:257-263 | After every completion poll the stored total is the number of current processes whose node has confirmed, no node twice, and the schedule is complete if and only if every process's node has confirmed |
| JobRuns.NumberingAligned | chiminey/corestages/execute.py:475-512 | For jobs with inputs and a stable sweep, initial_numbfile is schedule_index + 1 whenever an iteration starts; a launch pass finds a process for every counter if and only if it is the first of its iteration, and a later one ends the job |
| JobRuns.CountersAreIds | chiminey/corestages/execute.py:360-392 | On the first launch pass of an iteration the generated counters are the ids of the current table, each once and in order |
| JobRuns.AllLaunchesAlign | chiminey/corestages/execute.py:475-512 | In a run in which all launches succeed every launch pass is the first of its iteration; with inputs and a stable sweep every counter of every launch pass then has its process, so the branch without one is never taken |
| JobRuns.DriveKeepsInv | chiminey/smartconnectorscheduler/tasks.py:225-286 | One driver pass over any list of stages keeps the job in a phase or deletes it |
| StageEffects.StepEffect | chiminey/smartconnectorscheduler/tasks.py:225-286 | Every step of every run changes every key as the triggered stage promises: machines become running nodes, those that answer are confirmed, as many processes as there are combinations (for each input directory if there are any) are dealt to the nodes with the next ids, launched ones run, reported ones are completed, and the counts are those of the records |
| StageEffects.StepFails | chiminey/smartconnectorscheduler/tasks.py:225-286 | A step of a run deletes the context if and only if the stage body raises for a reason of its own, or there is nothing to schedule (an empty range, or inputs without a directory), or a variation has no process, or a running process is unreachable |
| StageEffects.HandsEffect | chiminey/corestages/schedule.py:202-222 | A first schedule step: the new records, totalProcesses and the growth of the index are the combinations of the sweep map, times the input directories with inputs, and record i is on the node at its place |
| JobSteps.Counted | chiminey/corestages/parent.py:71-128 | The number to schedule is the number of combinations, whatever the directories, without inputs, and times the directories with inputs; it is 0 if and only if a range is empty, or there are inputs and no directory |
| StageEffects.DestroysEffect | chiminey/corestages/strategies/cloudstrategy.py:129-142 | On a cloud every running node in the three lists is terminated and all else about the nodes stays; on a cluster the lists stay as they are |
| StageEffects.RehandsEffect | chiminey/corestages/schedule.py:202-222 | The first schedule step of a round, key by key |
| StageEffects.ReconfirmsEffect | chiminey/corestages/schedule.py:224-255 | Every other schedule step of a round, key by key |
| StageEffects.TriggersAre | chiminey/corestages/execute.py:62-113 | Each trigger, of any settings, as a condition on running nodes, ready processes and counts |
| JobInvariant.PhaseTriggers | chiminey/corestages/schedule.py:47-141 | In each phase a stage is triggered if and only if it is the one of the phase |
| JobSteps.StartStep | chiminey/corestages/strategies/clusterschedulestrategy.py:146-173 | Starting a schedule raises if and only if some range of the sweep map is empty, or the job has inputs and there is no input directory; else it leads to a confirming phase with agreeing tables |
| JobSteps.CompleteStep | chiminey/corestages/schedule.py:224-264 | A completion poll keeps the job confirming or starts launching |
| JobSteps.ExecuteStep | chiminey/corestages/execute.py:233-260 | A launch pass keeps the two tables in step and runs_left the number of running records |
| JobSteps.WaitCounts | chiminey/corestages/wait.py:337-379 | A pass without failures stores as runs_left the number of records still running, and finished records exactly |
| JobSteps.WaitStep | chiminey/corestages/wait.py:216-394 | A wait pass raises if and only if some poll fails, and else leads to waiting or to the end of the iteration |
| JobSteps.ConvergeStep | chiminey/corestages/converge.py:202-260 | Converge never fails to delete its keys in a run, and leads to the next iteration with an all-completed history, or to the end |
| JobProgress.StepMoves | chiminey/smartconnectorscheduler/tasks.py:225-286 | A lexicographic measure (iterations left, stage flags left, nodes, launches or processes pending) shrinks on every step that is not an unproductive poll or launch, and never grows |
| JobProgress.NeverGrows | chiminey/smartconnectorscheduler/tasks.py:225-286 | Over any stretch of a run the measure does not grow unless the job ends |
| JobProgress.FairRunsEnd | chiminey/corestages/converge.py:202-260 | Every run without exceptions that converges within a bounded number of iterations and always has some later productive step reaches its end, and the next step deletes the context |
| JobStories.FairRunsExist | chiminey/smartconnectorscheduler/tasks.py:178-289 | For every job there is such a run: when everything answers the job is finished after eleven steps and deleted by the twelfth |
| JobStories.UnreachableDeletes | chiminey/corestages/wait.py:390-394 | For every job there is a run that reaches waiting and is deleted by one unreachable process, with that process left in the store as one to be rescheduled |
| JobStories.LostStored | chiminey/corestages/wait.py:216-394 | What that run's last pass hands to the store is what the wait stage hands over |
| JobStories.SecondPassDeletes | chiminey/corestages/execute.py:475-512 | For every job with inputs there is a run with a stable sweep that is deleted by its second launch pass |
| JobStories.OnlyMisspelt | chiminey/corestages/wait.py:390-394 | Whatever a waiting job's pass with a lost process hands to the store, a reschedule round would be due in it if the key were spelt as declared |
| TableLemmas.LaunchAllSuffix | chiminey/corestages/execute.py:324-343 | Marking the first ready record with each launched id in the history changes exactly the twins of the launched records |
| TableLemmas.PollAllTogether | chiminey/corestages/wait.py:253-335 | Polling process by process equals completing all reported processes at once in all tables |
| Driver.Context.ProcessContext | chiminey/smartconnectorscheduler/tasks.py:178-289 | From the rows of a store to the rows of a store, the driver loop over stage objects computes the driver pass and keeps the job in a phase; rows a failed wait pass has written before the store raised stay, and are those of a pass as `PassStored` describes it |
| Driver.Context.RunStage | chiminey/smartconnectorscheduler/tasks.py:225-266 | Testing, processing and output of one stage object give the settings of the stage's step, or those of a wait pass with a failed poll, which hold the misspelt key |
| Driver.Context.Store | chiminey/smartconnectorscheduler/tasks.py:258 | The store raises if and only if the settings hold the misspelt key; otherwise they are what the stages read next, and if it raises some of their keys are |
| Encoding.DeclaredExactly | chiminey/initialisation/chimineyinitial.py:656-811 | With the keys the stage schemas declare, the store accepts a job's settings if and only if they lack `scheduled_started` |
| Encoding.DecodeEncode | chiminey/runsettings/run_settings.py:57-106 | What a job's keys are set to in the dictionary is what the stages read from it, whatever else it holds |
| Encoding.NodesKept | chiminey/initialisation/chimineyinitial.py:656-811 | Under which schema and key each list of nodes is kept |
| Encoding.TablesKept | chiminey/initialisation/chimineyinitial.py:656-811 | Each list of processes |
| Encoding.CountersKept | chiminey/initialisation/chimineyinitial.py:656-811 | The flags and counters of a schedule |
| Encoding.RunsKept | chiminey/initialisation/chimineyinitial.py:656-811 | The counters of a run |
| Encoding.FlagsKept | chiminey/initialisation/chimineyinitial.py:656-811 | The flags of the other stages |
| Encoding.ReadsWritten | chiminey/smartconnectorscheduler/models.py:504-588 | What the stages read back from the rows after an update that does not raise is what was written |
| Encoding.ReadsHalfWritten | chiminey/smartconnectorscheduler/models.py:525-588 | After an update that raises, the rows can still be read, and every key reads as before or as it was to be written |
| Encoding.ConvergeDeletes | chiminey/corestages/converge.py:221-229 | The converge step's condition and result are those of the two deletions on the job's dictionary, where a missing schema is caught and a missing key is not |
| Scheduler.RoundRobinIds | chiminey/corestages/strategies/clusterschedulestrategy.py:189-247 | A round robin hands out exactly the next P ids in order |
| Scheduler.RoundRobinFair | chiminey/corestages/strategies/clusterschedulestrategy.py:189-214 | Exactly the first min(N,P) nodes are used, each gets a process, loads differ by at most one, larger loads come first |
| Scheduler.RoundRobinAt | chiminey/corestages/strategies/clusterschedulestrategy.py:189-247 | Which process goes to which node: with q and r the quotient and the remainder of the processes by the nodes used, the first r nodes take q + 1 consecutive processes each, in order, and the others q each |
| Scheduler.ConfirmKeeps | chiminey/corestages/strategies/clusterbootstrapstrategy.py:145-183 | A poll adds only nodes that answer, each address once, with its id and region and in order, and misses none that does |
| Scheduler.ConfirmPlaces | chiminey/corestages/strategies/clusterbootstrapstrategy.py:145-183 | Behind the nodes confirmed before stand, in order and now running, exactly the nodes that answer and are not confirmed yet, of several with one address the first, each with its id, address and region |
| Scheduler.AddConfirmedCounts | chiminey/corestages/strategies/clusterschedulestrategy.py:129-135 | Adding up the processes of each newly confirmed node keeps the total equal to the processes covered |
| Scheduler.CoveredAll | chiminey/corestages/schedule.py:257-263 | The covered processes are all processes if and only if every process's node is confirmed |
| ScheduleStage.NextIds | chiminey/corestages/strategies/clusterschedulestrategy.py:317-325 | The ids of a first schedule are consecutive after the index |
| ScheduleStage.PopIds | chiminey/corestages/strategies/clusterschedulestrategy.py:326-335 | The ids of a reschedule are popped from the front of the list |
| ScheduleStage.ConstructLookupTable | chiminey/corestages/strategies/clusterschedulestrategy.py:356-362 | One new record an id is appended and the others stay |
| ScheduleStage.StartRoundRobinSchedule | chiminey/corestages/strategies/clusterschedulestrategy.py:189-247 | The loop hands out the round robin and the index P further, or nothing at all for no node or no process |
| ScheduleStage.StartRoundRobinReschedule | chiminey/corestages/strategies/clusterschedulestrategy.py:250-314 | The loop appends the rescheduled records to the current table; the list it pops from never runs empty |
| ScheduleStage.AppendProcesses | chiminey/corestages/strategies/clusterschedulestrategy.py:365-370 | The new records join the history |
| ScheduleStage.AppendWaiting | chiminey/corestages/strategies/clusterschedulestrategy.py:371-374 | On a reschedule only the waiting records join the history |
| ScheduleStage.WaitingToReady | chiminey/corestages/strategies/clusterschedulestrategy.py:377-381 | Every waiting record becomes ready and no other changes |
| ScheduleStage.Schedule.CompleteSchedule | chiminey/corestages/strategies/clusterschedulestrategy.py:76-143 | One poll of all nodes, over shared records, in both modes |
| ScheduleStage.Schedule.IsTriggered | chiminey/corestages/schedule.py:47-141 | The trigger, and what it leaves in the fields |
| ScheduleStage.Schedule.Process | chiminey/corestages/schedule.py:168-222 | Starting and completing in both modes lead to the schedule step's settings |
| ScheduleStage.Schedule.Run | chiminey/corestages/schedule.py:47-264 | The whole stage raises and writes exactly as the schedule step says |
| ScheduleStage.Schedule.TotalProcesses | chiminey/corestages/parent.py:71-80 | The number to schedule is the length of the product of the ranges, times the input directories with inputs |
| RescheduleRound.HandedOut | chiminey/corestages/strategies/clusterschedulestrategy.py:250-314 | Every failed process is handed out once, first in first out, waiting, to the node a first schedule of as many would choose |
| RescheduleRound.HandedOutAt | chiminey/corestages/strategies/clusterschedulestrategy.py:250-314 | Which listed process goes to which node, said by itself with the same quotient and remainder |
| RescheduleRound.PollRoundExact | chiminey/corestages/strategies/clusterschedulestrategy.py:76-143 | One poll of a round: the waiting records on the nodes it confirms become ready, in the history all waiting ones as soon as one node is confirmed, and the total grows by the records that became ready |
| RescheduleRound.PollKeepsRound | chiminey/corestages/strategies/clusterschedulestrategy.py:117-135 | A completion poll keeps confirmed plus waiting equal to the list, and the two tables twins |
| RescheduleRound.LaunchKeepsRound | chiminey/corestages/execute.py:324-343 | So does launching confirmed processes in between, although the history runs ahead |
| RescheduleRound.RoundTheorem | chiminey/corestages/strategies/clusterschedulestrategy.py:76-143 | After any sequence of polls and launches: confirmed plus waiting is the list, old records are untouched, new ones carry the listed ids once and in order in both tables, the round is over if and only if none waits, and then statuses agree |
| RescheduleRound.RoundResets | chiminey/corestages/schedule.py:244-255 | The stage resets the round if and only if its poll leaves no waiting record |
| RescheduleRound.RoundEnters | chiminey/corestages/schedule.py:202-222 | Where a round is due schedule alone is triggered, and its step enters the round |
| RescheduleRound.ExecuteInRound | chiminey/corestages/execute.py:312-358 | An execute step in a round does not raise, is the round's launch and keeps it |
| RescheduleRound.RoundOverSteps | chiminey/corestages/schedule.py:224-264 | Through any sequence of schedule and execute steps from there: as long as the list is not cleared the round goes on with list and old records untouched, and what clears it is its end, with the tables as in the theorem |
| RescheduleRound.MidRoundTriggers | chiminey/corestages/execute.py:62-113 | In the middle of a round schedule is triggered, and execute as well if and only if a process is ready |
| RescheduleRound.MidRoundOrders | chiminey/smartconnectorscheduler/tasks.py:202-266 | In the middle of a round, where execute does not raise, every order of the stages has the same result in every environment if and only if no process is ready |
| RescheduleRound.OrderMatters | chiminey/smartconnectorscheduler/tasks.py:202-266 | A state in the middle of a round in which two orders have different results |
| FaultTolerance.FTManager.FlagAllProcesses | chiminey/reliabilityframework/ftmanager.py:56-61 | Running records on the address fail in every list, no other record changes |
| FaultTolerance.FTManager.FlagThisProcess | chiminey/reliabilityframework/ftmanager.py:63-69 | Only the running records with the address and the id fail |
| FaultTolerance.FTManager.GetTotalFailedProcesses | chiminey/reliabilityframework/ftmanager.py:71-76 | The count is that of the failed records |
| FaultTolerance.FTManager.DecreaseMaxRetry | chiminey/reliabilityframework/ftmanager.py:78-85 | Only the given process may lose retries, and never below 0 |
| FaultTolerance.FTManager.CollectFailedProcesses | chiminey/reliabilityframework/ftmanager.py:39-43 | Failed records are appended unless an equal one is there |
| FaultTolerance.CollectsOnce | chiminey/reliabilityframework/ftmanager.py:39-43 | Because the lists share their objects, collecting again leaves every failed record of the table exactly once in the list |
| Records.KnownIp | chiminey/reliabilityframework/failuredetection.py:57-60 | An address is recorded if and only if some failed node has it |
| FaultTolerance.FTManager.ManageFailedProcess | chiminey/reliabilityframework/ftmanager.py:87-102 | The whole treatment of one failure: which records fail, the count, the collected list, and no second entry for an address |
| WaitPass.OnlyFromRunning | chiminey/reliabilityframework/ftmanager.py:56-69 | A pass moves a record only from running to completed or failed |
| WaitPass.FailsWithNode | chiminey/reliabilityframework/ftmanager.py:94-100 | No running record is left on a node found gone; where every process was reached none fails |
| WaitPass.StatusAfterPass | chiminey/corestages/wait.py:253-335 | The status of every process after a pass in closed form, depending on what was found out before its turn |
| WaitPass.ReportsCount | chiminey/corestages/wait.py:301-324 | Completed records grow by the reports less the late ones |
| WaitPass.RunsLeftAfterPass | chiminey/corestages/wait.py:342-379 | runs_left falls short of the running records by the late reports; it is right if and only if there is none, and then 0 if and only if nothing runs |
| WaitPass.RunsLeftNegative | chiminey/corestages/wait.py:345-356 | A pass in which runs_left comes out as -1 |
| WaitPass.FinishedAfterPass | chiminey/corestages/wait.py:314 | Without late reports the finished list holds exactly the completed records |
| WaitPass.PassWithoutFailures | chiminey/corestages/wait.py:253-335 | Without failures the pass does to every list what the job's wait step says |
| WaitPass.PassKeepsTables | chiminey/corestages/wait.py:315-324 | Even when processes fail, a pass leaves a completed history alone and lets twin records evolve alike |
| WaitStage.StoredTablesAgree | chiminey/corestages/wait.py:374-379 | Whatever fails in a waiting job's pass, the history it stores is the old history of completed records followed by the current table it stores, on id, address and status, with ids 1 up to the schedule index |
| WaitStage.RaisesMeans | chiminey/corestages/strategies/asynchronouswaitstrategy.py:65-77 | A pass raises if and only if the poll of a running process fails for another reason than a lost connection, or its connection is lost and no created node has its address |
| WaitStage.Wait.IsTriggered | chiminey/corestages/wait.py:51-134 | The trigger, and what it loads into the lists |
| WaitStage.Wait.IsJobFinished | chiminey/corestages/strategies/asynchronouswaitstrategy.py:36-77 | Finished, not finished, lost connection handed to the failure manager, or raised |
| WaitStage.Wait.PollOne | chiminey/corestages/wait.py:253-324 | The body of the polling loop on all shared records |
| WaitStage.Wait.Process | chiminey/corestages/wait.py:216-335 | Over any sequence of failures in a pass: it raises if and only if some poll does; every record of every list evolves as said; the finished list, the failed count, the collected processes and the failed nodes, as they were created, are exact |
| WaitStage.Wait.Run | chiminey/corestages/wait.py:51-394 | The whole stage stores the wait step's settings if no poll fails, and raises or writes the undeclared key if one does; in both cases tables, runs_left, the finished list, the failed nodes and the rescheduling list are exact and no other key changes |
| ExecuteStage.Execute.IsTriggered | chiminey/corestages/execute.py:62-113 | The trigger, and what it loads |
| ExecuteStage.Execute.RunMultiTask | chiminey/corestages/execute.py:312-358 | Launched processes become running in the current table and, first ready match only, in the history |
| ExecuteStage.Execute.MarkFirst | chiminey/corestages/execute.py:337-343 | The search stops at the first ready record with the id |
| ExecuteStage.Execute.UploadInputDirVariations | chiminey/corestages/execute.py:424-518 | Variation n goes to the process whose id is its counter and is the n-th variation; it raises if and only if some counter has no process |
| ExecuteStage.Execute.PrepareInputs | chiminey/corestages/execute.py:394-422 | Over all directories the counters run on; it raises if and only if there is no directory or some counter has no ready process |
| ExecuteStage.Execute.Run | chiminey/corestages/execute.py:62-260 | The whole stage raises and writes exactly as the execute step says, and uploads every variation to its process |
| SmallStages.ConfigureStage.Run | chiminey/corestages/configure.py:56-65 | Triggered until done; sets the done flag |
| SmallStages.CreateStage.Run | chiminey/corestages/create.py:44-124 | Triggered once after configure; records the machines handed out as running nodes |
| SmallStages.BootstrapStage.CompleteBootstrap | chiminey/corestages/strategies/clusterbootstrapstrategy.py:145-183 | The loop adds exactly the created nodes that answer, each address once |
| SmallStages.BootstrapStage.Run | chiminey/corestages/bootstrap.py:47-144 | Starts, then polls; done when all running nodes are bootstrapped |
| SmallStages.TransformStage.Run | chiminey/corestages/transform.py:53-112 | Triggered when no run is left and nothing is transformed or converged yet |
| SmallStages.ConvergeStage.Output | chiminey/corestages/converge.py:202-260 | Resets the iteration and deletes its keys on the dictionary, or marks convergence; an absent key of a stored schema raises |
| SmallStages.ConvergeStage.DeleteRunKeys | chiminey/corestages/converge.py:221-229 | The two deletions, run on the dictionary, raise if and only if one of the two keys is missing from a stored schema |
| SmallStages.ConvergeStage.Run | chiminey/corestages/converge.py:58-260 | The whole stage raises and writes exactly as the converge step says |
| SmallStages.DestroyStage.Run | chiminey/corestages/destroy.py:45-140 | Triggered after convergence until finished; a cloud's running nodes are terminated |
| Sweep.ExpandVariations | chiminey/corestages/sweep.py:502-527 | Every map's block lists its combinations with counters from 0 on without a gap, each key bound to the entry at its mixed-radix digit and the template's values elsewhere |
| Sweep.GetVariationContexts | chiminey/corestages/execute.py:360-392 | The same, counting on from initial_numbfile, with the generator counter of the template |
| Sweep.ProductAt | chiminey/corestages/sweep.py:517 | Tuple n of the product picks in each range the entry at the mixed-radix digit of n |
| Sweep.DigitClosedForm | chiminey/corestages/sweep.py:517 | The digit is n divided by the later combinations, modulo the range's length |
| Sweep.EnumerationInjective | chiminey/corestages/sweep.py:517-526 | Two counters never stand for the same choice |
| Sweep.EnumerationSurjective | chiminey/corestages/sweep.py:517-526 | Every choice of one entry a range has a counter, namely the number its positions are the digits of |
| Sweep.ProcsFromMapVariations | chiminey/corestages/parent.py:113-128 | The loop count is the number of combinations |
| Sweep.ProcsFromInputDirs | chiminey/corestages/parent.py:100-111 | The multiplied count is the number of combinations of the last map times the directories |
| Sweep.CountsAgree | chiminey/corestages/parent.py:82-128 | For one map the multiplied count, the loop count and the lengths of both enumerations are one number |
| Workers.NoLostUpdate | chiminey/smartconnectorscheduler/tasks.py:293-311 | For every interleaving of driver and delete tasks, however often the advisory lock expires: at most one is inside a step, it works on what is stored, and what is stored is some sequential run of the completed operations |
| Workers.DeletedStays | chiminey/smartconnectorscheduler/tasks.py:59-83 | Once the context is deleted nothing changes what is stored |
| Workers.ConcurrentInvariant | chiminey/smartconnectorscheduler/tasks.py:178-198 | What concurrent workers store is always a phase of a job, or deleted |
| Workers.DriverTaskSteps | chiminey/smartconnectorscheduler/tasks.py:293-311 | A driver task left alone takes the context one driver pass further and gives both locks back |
| Workers.DeleteTaskDeletes | chiminey/smartconnectorscheduler/tasks.py:59-83 | A delete task left alone deletes the context |
| Workers.OthersWait | chiminey/smartconnectorscheduler/tasks.py:178-198 | While one worker is in the row a driver task that begins gives up without a step and a deletion does not begin |
| Workers.ReleaseFrees | chiminey/smartconnectorscheduler/tasks.py:293-311 | A worker that leaves frees the advisory lock whoever holds it by then |
| RunSettings.PathParts | chiminey/runsettings/run_settings.py:71-73 | A key written as schema, slash, name is taken apart into just these |
| RunSettings.KeyParts | chiminey/runsettings/run_settings.py:71-73 | The same with any number of slashes in between, and without a schema |
| RunSettings.GetSet | chiminey/runsettings/run_settings.py:57-106 | Reading after setting gives the value for the same key and leaves every other key alone |
| RunSettings.GetDelete | chiminey/runsettings/run_settings.py:115-117 | A deleted key is gone and every other stays |
| RunSettings.RunContext.Setval | chiminey/runsettings/run_settings.py:57-76 | Creates the schema if needed and sets the one entry |
| RunSettings.RunContext.Setvals | chiminey/runsettings/run_settings.py:79-82 | In whatever order they are set, every given key has its value afterwards, or that of another given key which names the same setting, and all other settings are unchanged |
| RunSettings.SetApart | chiminey/runsettings/run_settings.py:79-82 | So given keys that name different settings all have their own values |
| RunSettings.RunContext.Delkey | chiminey/runsettings/run_settings.py:108-117 | Deletes the key, or reports whether the schema or the key is missing |
| RunSettings.RunContext.Update | chiminey/runsettings/run_settings.py:124-136 | Copies all keys in order or fails if and only if one is missing |
| RunSettings.UpdatedAt | chiminey/runsettings/run_settings.py:124-136 | Of several copied keys with one name the last counts |
| RunSettings.Transfer | chiminey/smartconnectorscheduler/jobs.py:186-196 | The two-level merge: a new entry wins, every other old one stays, and no schema appears without an entry |
| ContextRows.ParseRender | chiminey/smartconnectorscheduler/models.py:158-163 | An integer survives text, whatever its sign |
| ContextRows.ParsesExactly | chiminey/smartconnectorscheduler/models.py:158-163 | Which texts read as which integer: digits with at most one sign, and space around |
| ContextRows.ValueRoundTrip | chiminey/smartconnectorscheduler/models.py:152-176 | A value reads back as itself if and only if it has the declared type |
| ContextRows.StoreRoundTrip | chiminey/smartconnectorscheduler/models.py:504-588 | Reading after a declared update gives exactly the written dictionary on every written schema if and only if it is well typed, and every other schema as before |
| ContextRows.DeletedKeyGone | chiminey/smartconnectorscheduler/models.py:545-554 | A key dropped from the dictionary is gone from the store |
| ContextRows.ReadBetween | chiminey/smartconnectorscheduler/models.py:525-588 | Rows an update has left half written can be read, each key as before or as the update's declared new value |
| ContextRows.ContextStore.UpdateRunSettings | chiminey/smartconnectorscheduler/models.py:525-588 | Raises if and only if a schema or key is undeclared; then every row is the old one or already the new one and no undeclared key has one; otherwise exactly the given keys are stored in the given schemas |
| ContextRows.ContextStore.GetContext | chiminey/smartconnectorscheduler/models.py:504-523 | Reads all rows by their declared types, or fails if and only if one does not fit |
| ContextRows.ContextStore.WriteAndRead | chiminey/smartconnectorscheduler/models.py:504-588 | One driver step on the store |
| Storage.ListAllFiles | chiminey/storage/storage.py:366-394 | Nothing for a missing source; else every directory is listed exactly once and the result is the permutation of the paths of all files in which each is a prefix of the next or smaller at the first place where they differ |
| Storage.LeMeans | chiminey/storage/storage.py:394 | The order is the lexicographic one: a prefix, or smaller at the first place where the two differ |
| Trees.FilesNoTwice | chiminey/storage/storage.py:379-381 | No two files of a tree get the same path |
| Trees.DirsNoTwice | chiminey/storage/storage.py:382-384 | No two directories of a tree get the same path |
| Trees.FilesAreRelative | chiminey/storage/storage.py:379-384 | The joined paths are the source, one slash, and the relative path |
| Trees.RelMeans | chiminey/storage/storage.py:379-384 | A relative path is the name of a file, or the name of a subdirectory, a slash and a path relative to that |
| Trees.SliceUndoesJoin | chiminey/storage/storage.py:497 | Cutting the source off gives the relative path back if and only if the source is not empty and does not end in a slash |
| Copying.CutsAreRelative | chiminey/storage/storage.py:491-499 | With a good source all cut paths are right, with any other every one is wrong |
| Copying.UrlMeans | chiminey/storage/storage.py:499-530 | The address of a path is the prefix, one slash, the path and the suffix; a path that starts with a slash loses the prefix |
| Copying.Trimmed | chiminey/storage/storage.py:472-477 | One slash at either end of a source is dropped, and no more |
| Copying.Destination.GetWithRetries | chiminey/storage/storage.py:505-525 | Fails if and only if attempts 1 to 9 all fail |
| Copying.Destination.PutWithRetries | chiminey/storage/storage.py:532-553 | Writes once, or fails if and only if attempts 1 to 9 all do |
| Copying.Destination.CopyDirectories | chiminey/storage/storage.py:472-570 | The walk ends; it raises if and only if some file cannot be copied; from a good source the destination gets every file under its relative path with its content and nothing else |
| TimeTexts.TextReads | chiminey/smartconnectorscheduler/timeparse.py:54-70 | A list of quantities, or a list of quantities in front of a clock, is read if and only if its words stand for smaller and smaller units and the clock has some hours and two digits of minutes and seconds; whatever way the formats match it, it comes to what its numbers come to |
| TimeTexts.WholeTexts | chiminey/smartconnectorscheduler/timeparse.py:103-110 | With whole numbers it reads as the sum of each number times 604800, 86400, 3600, 60 or 1, and of the clock, and as nothing else |
| TimeTexts.UnitReads | chiminey/smartconnectorscheduler/timeparse.py:38-42 | A number and a word are read if and only if the word is one of the five words for a unit, in any case, and then as the number times what the unit is worth |
| TimeTexts.MinuteClockTexts | chiminey/smartconnectorscheduler/timeparse.py:44 | One or two digits of minutes, a colon, and two digits of seconds with or without a fraction are read, and nothing else of that shape |
| TimeTexts.MinuteClockReads | chiminey/smartconnectorscheduler/timeparse.py:44 | Digits, a colon and digits are read if and only if there are one or two digits of minutes and two of seconds, as 60 times the one and the other |
| TimeTexts.MinutesSeconds | chiminey/smartconnectorscheduler/timeparse.py:92-93 | m:ss reads as 60 * m + s and as nothing else |
| TimeTexts.DayClockTexts | chiminey/smartconnectorscheduler/timeparse.py:46-47 | The same of days, two digits of hours, two of minutes, and seconds with or without a fraction |
| TimeTexts.DayClockReads | chiminey/smartconnectorscheduler/timeparse.py:46-47 | Four runs of digits are read if and only if there are some days and two digits of hours, of minutes and of seconds, as 86400, 3600, 60 and 1 times these |
| TimeTexts.DaysClock | chiminey/smartconnectorscheduler/timeparse.py:68-69 | d:hh:mm:ss reads as 86400 * d + 3600 * h + 60 * m + s and as nothing else |
| TimeTexts.FractionReads | chiminey/smartconnectorscheduler/timeparse.py:111-123 | A quantity with a point reads as its value cut down to whole seconds; seconds with a point read only if they are whole |
| TimeTexts.PointAndSeconds | chiminey/smartconnectorscheduler/timeparse.py:112-119 | Whole seconds are added to what is cut down |
| TimeTexts.PointsTogether | chiminey/smartconnectorscheduler/timeparse.py:117-118 | Two quantities with points are added up before they are cut down |
| TimeTexts.TwoPoints | chiminey/smartconnectorscheduler/timeparse.py:117-118 | A number with two points has no reading |
| TimeTexts.NothingReads | chiminey/smartconnectorscheduler/timeparse.py:105 | Spaces alone have no reading |
| TimeTexts.Documented | chiminey/smartconnectorscheduler/timeparse.py:92-101 | "1:24", "1 minute, 24 secs" and "1m24s" read as 84 and "1.2 minutes" as 72 and as nothing else, and "1.2 seconds" as no whole number |
| TimeTexts.PrintedAs | chiminey/smartconnectorscheduler/serverside_validators.py:337-345 | A time difference is printed as its days, if there are any, and its clock |
| TimeTexts.PrintedReadsBack | chiminey/smartconnectorscheduler/timeparse.py:82-110 | For every whole number of seconds, the printed text reads as that number and as no other |
| TimeTexts.PrintedValidates | chiminey/smartconnectorscheduler/serverside_validators.py:337-345 | The printed form of n seconds is valid if and only if 0 < n < 86400000000000, and then validates to itself |
| TimeTexts.ValidatedStays | chiminey/smartconnectorscheduler/serverside_validators.py:337-345 | Validation is idempotent on every text it accepts with a whole result, with fractions in its fields or without |
| TimeTexts.ZeroRejected | chiminey/smartconnectorscheduler/serverside_validators.py:340-345 | The printed zero is not valid |

## Left out

- WaitStage.Wait.Run: requires distinct ids in the current table and a finished list that is exact, which every state a run reaches has; what a pass does to other tables is not said.
- WaitStage.Wait.Process: requires distinct ids and an exact finished list as well; tables with repeated ids, as after a reschedule round, are not covered, since equal records would count as collected already.
- SmallStages.BootstrapStage.CompleteBootstrap: a machine that fails during the poll counts as a stage body that raises.
- SmallStages.ConfigureStage.Run: of the settings the stage writes only its flag is modelled.
- Driver.Context.ProcessContext: starts from a phase of a job, which every state a run reaches is in.
- FaultTolerance.FTManager.DecreaseMaxRetry: Chiminey compares addresses by object identity, so which matching records lose a retry is left open; retries never decide anything.
- TimeTexts.TextReads: covers texts made of numbers, words, separators and clocks; of other texts only blank ones are said not to be read.
- TimeTexts.PrintedReadsBack: the library's choice among several ways to match is left open and the statement holds of all.
- TimeTexts.ValidatedStays: results with a fraction of a second are not modelled, and sums of fractions are exact where the program rounds them.
- Copying.Destination.CopyDirectories: whether an attempt succeeds depends on the address and the attempt number. From a good source no address is read or written for two files, so this leaves every behaviour of the storage open; from a bad one two files may share an address.
- JobRuns.NumberingAligned: assumes that the sweep map and the number of input directories do not change between the schedule and the launch of an iteration; without inputs no counters are matched.
- JobProgress.FairRunsEnd: assumes that no stage body raises; a step that raises deletes the job (JobRuns.DeletedExactly).
- Driver.Context.Store: only the keys the stages exchange are set and deleted; the settings of the stages themselves, which each step merges into the dictionary, and changes to other schemas are not modelled.
- RescheduleRound.MidRoundOrders: requires that execute does not raise, which holds without inputs and wherever a record has failed.
- Multi-round rescheduling: records that failed in an earlier round would be collected again; the driver never gets there.
- The cloud variant of rescheduling formats four arguments into three places and raises; only the cluster variant is modelled. The cloud variant's skipping of machines that are not running is part of which nodes answer.
- The branches without a payload of the cluster and Hadoop strategies and the Jenkins strategy, which assign constants.
- Bodies of configure, create, transform and destroy beyond the settings they write, templates, data curation, and the files of an input directory other than that each variation reaches its process.
- SSH, SFTP, EC2, MyTardis, Redis, Celery and Django themselves: answers, two locks and a map of rows stand for them.
- `make_stage_transitions`, `progress_context_broken`, `trigger_schedule`, `trigger_reschedule` and the command runners, which the driver does not call.
- Views, forms, other validators, presets, logging, user messages and sleeping.
