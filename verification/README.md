# Verification of fms-lm-eval-service

A Dafny 4.11 model of the service that runs language-model evaluations as
Kubernetes jobs, with proofs of what its parts guarantee together. Check it with
`dafny verify dfyconfig.toml`.

## What is modelled

**The life of an LMEvalJob.** Four parties share one versioned job record: the
reconcile worker, the gRPC status handler, the driver in the job's pod, and the
users. No handler is atomic: each reads the job, talks to the API server, and
writes conditionally.

- `Handlers.dfy` and `Calls.dfy` give each handler as an automaton: at every
  point the one request it makes, and what it does with the answer.
- `Conversations.dfy` says outright what each handler asks for, stores and returns
  after which answers, and proves that the automata hold exactly these
  conversations.
- `Controller.dfy`, `StatusService.dfy` and `Driver.dfy` are the handlers in
  their own imperative form, on a job object whose fields they assign. They are
  proved to hold these conversations whatever they are answered (`ApiServer.dfy` is
  the client that may answer anything).
- `Protocol.dfy` composes the same automata with the API server, the work queue,
  the driver, the kubelet and the users into a labelled step system. A worker can
  be interrupted between any two of its requests.
- `Snapshots.dfy`, `Commits.dfy`, `Lifecycle.dfy`, `Cleanup.dfy`, `DriverEvidence.dfy`,
  `Verdict.dfy` and `Wakeup.dfy` build the invariants; `Guarantees.dfy`,
  `Refinement.dfy`, `Origins.dfy`, `Termination.dfy` and `Liveness.dfy` state the
  results.
  `Failures.dfy` says exactly by which steps a job is stranded, a false success
  stored, a pod never recorded, a verdict overwritten, a pod left behind, a
  cancellation stored as a failure or a cancel request lost; `Anomalies.dfy` has
  concrete runs in which that happens.

**What the controller prints and others parse.** `CommandLine.dfy`,
`Admission.dfy` and `DriverFlags.dfy` cover the evaluation command, the admitted
limits and the driver's flags; `PodManifest.dfy` the pod's environment, volumes
and TLS mode.

**The Flask service.** `JobTable.dfy` has submission, cancellation and the
background thread; `JobRaces.dfy` lets any number of threads race with cancel
requests.

## Environment assumptions

- `Update` and `Status().Update` succeed only on the stored version, and touch
  only metadata or only the status. A write that changes nothing leaves the
  version alone and raises no event; every other write to the job queues it.
- Every request may also be refused, or take effect while its answer is lost.
- The fetch at the start of a reconcile or call is fresh; there is one worker.
- Status messages are the driver's own (Running, then Complete with Succeeded or
  Failed) and requests with state Cancelled and any reason, text and results.
  Each is handled at most once, at any later time, even after its sender is gone.
- A pod is named after its job, runs once, and disappears at once when deleted. A
  pod of that name that somebody else created does not carry the job's owner
  reference. Only the controller removes its finalizer.
- The driver's container may die at any time with a non-zero exit code. The
  kubelet reports an exit code only when the driver has exited with it.
- The controller may restart at any time; it then queues every job.
- A range variable is new in every iteration (Go 1.22, go.mod:3), so each secret
  volume refers to its own secret.
- In `Termination.dfy`, from some moment on only the controller and the clock
  move, no request is refused, and a pending controller eventually moves. In
  `Liveness.dfy` nobody but the controller, the driver and the kubelet ever moves,
  and no request of the controller fails.

## Findings

- A pod the controller created is lost to it exactly when the creation's answer is
  lost, the recording write is refused or overtaken, or the controller stops before
  it (`OrphanedExactly`). Scheduling is then never recorded while the pod exists
  (`OrphanIsNeverRecorded`). Even if nobody interferes and no request fails, the
  driver's own Running message may overtake that write (`DriverOvertakesRecording`);
  scheduling gets recorded exactly if it does not and the pod's name is free
  (`ScheduledExactly`).
- The controller takes every job without a recorded scheduling for a new one. A
  proven success is then overwritten by the failure of a second creation
  (`UnrecordedSuccessIsOverwritten`), or, if the first pod is gone, by the
  scheduling of a second one (`UnrecordedSuccessIsRerun`). Apart from status calls
  that take effect, the verdict of a Complete job changes in no other way, and once
  scheduling is recorded not at all (`OverwrittenExactly`, `VerdictStands`).
- For the same reason a cancel request stored before the scheduling is lost and the
  pod started nevertheless (`EarlyCancelIsLost`). A stored request is lost exactly
  in this way or by a driver's message that takes effect after it
  (`CancelLeftExactly`).
- A second pod can turn a reported failure into a stored success
  (`SecondPodFakesSuccess`): exit code 0 of the driver says that its report was
  accepted, not that the evaluation succeeded. A false success is stored by the
  exit-code branch of `checkScheduledPod` and by nothing else
  (`FalseSuccessExactly`).
- `handleComplete` ignores its write error, which strands the job if nothing else
  is pending (`SwallowedErrorLosesWakeup`); this is the only way for a job to be
  stranded (`StrandedExactly`).
- `handleCancel` takes every error of its lookup for a missing pod. It stores a
  cancellation as Complete/Cancelled exactly if the lookup of the same round worked
  and found the job's pod (`CancelledExactly`). So a cancellation ends as Complete/Failed when
  an overtaken write is retried after the pod's deletion
  (`CancellationEndsAsFailure`), and also when the lookup fails for another reason,
  a timeout say, while the pod and its driver run on
  (`CancellationLeavesPodRunning`).
- `handleDeletion` removes the finalizer although the pod's deletion was refused
  (`RefusedDeletionLeavesPod`); every recorded pod that outlives its job goes back
  to such a round (`PodSurvivesExactly`, `LeftBehindExactly`, `LeftoverOrigin`).
- Not every job finishes once all but the controller are silent: exactly those
  that are deleted, or scheduled and cancelled, complete or without a live driver,
  or about to be, and not stranded (`FairRunsFinish`).
- The gRPC server is started in the background and sets the TLS mode only then. A
  pod created before gets no TLS variables, so its driver does not speak the mode
  of a TLS server unless the job's own secrets say so (`PodsAroundStart`,
  `EarlyPodsNeedNoTLS`).
- A cancel request between the thread's two checks leaves a Flask job "running"
  forever (`LateCancelLosesTask`); arguments without a value are put on the
  command line twice (`CommandArgsInOrder`).
- `ValidateLimit` admits every 64-bit integer, also negative ones and 0
  (`IntegersAreAdmitted`). Its error text does not exclude them, but only a float
  is checked to lie above 0 and up to 1.

## Model

| member | source | states |
|---|---|---|
| Controller.LMEvalJobReconciler.Reconcile | backend/controller/lmevaljob_controller.go:132-171 | For all answers of the API server, the requests made, the jobs in them and the result are those written out for a deleted, new, scheduled, complete, cancelled or missing job, a missing one being no error |
| Conversations.ReconcilesExactly | backend/controller/lmevaljob_controller.go:132-171 | The automaton the protocol runs returns a result after exactly these conversations |
| Controller.LMEvalJobReconciler.HandleDeletion | backend/controller/lmevaljob_controller.go:358-382 | Deletes the pod unless the job was stored as cancelled, then removes the finalizer whatever the deletion answered |
| Controller.LMEvalJobReconciler.HandleNewCR | backend/controller/lmevaljob_controller.go:384-402 | Either only attaches the finalizer, or reads the clock before creating the pod |
| Controller.LMEvalJobReconciler.SchedulePod | backend/controller/lmevaljob_controller.go:403-431 | Records the pod and the clock's time, or the creation's failure, and returns the creation error even if that could be stored |
| Controller.LMEvalJobReconciler.CheckScheduledPod | backend/controller/lmevaljob_controller.go:433-484 | Requeues until the main container has ended, then stores its end; a missing pod is stored and returned as an error |
| Controller.LMEvalJobReconciler.GetPod | backend/controller/lmevaljob_controller.go:486-500 | Yields the pod only if one of its owner references names the job |
| Controller.LMEvalJobReconciler.HandleComplete | backend/controller/lmevaljob_controller.go:523-537 | Asks for the time, stores exactly that as the completion time, only if there is none yet, and swallows the write's error |
| Controller.LMEvalJobReconciler.HandleCancel | backend/controller/lmevaljob_controller.go:539-565 | Deletes the pod before it stores Complete/Cancelled, stores Complete/Failed after any error of the lookup, and stores nothing if the deletion fails |
| Controller.PodFor | backend/controller/lmevaljob_controller.go:593-612 | The created pod carries the job's name and an owner reference the owner check accepts |
| Controller.MainIndex | backend/controller/lmevaljob_controller.go:459-465 | The first container called main, with none of that name before it; -1 exactly if there is none at all |
| StatusService.UpdateStatusServer.UpdateJob | backend/controller/lmevaljob_controller.go:259-291 | Rejects blank names before any request, else looks the job up and stores exactly the message's change, where no text keeps the message and no results keep the results |
| StatusService.UpdateStatusServer.UpdateStatus | backend/controller/grpc_server.go:106-119 | Code, text and error agree, and the error is the call's outcome, so the driver hears of every failure |
| StatusService.UpdatesExactly | backend/controller/lmevaljob_controller.go:267-290 | The automaton of a call answers after exactly these conversations, so without an error only after an acknowledged write |
| Driver.JobDriver.Run | backend/driver/driver.go:107-123 | Announces Running, runs the program only if that was accepted, then reports; its error is the report's |
| Driver.JobDriver.RunToExit | cmd/driver/main.go:94-100 | The exit code is 0 exactly if Run had no error |
| Driver.JobDriver.UpdateCompleteStatus | backend/driver/driver.go:250-283 | Reports a success exactly if the program and the walk went well, with exactly the gathered text, also an empty one, and else a failure with their error |
| Driver.RunsExactly | backend/driver/driver.go:107-123 | The driver's automaton exits after exactly the conversations of Run, with 0 exactly if Run had no error |
| Driver.GetResults | backend/driver/driver.go:285-312 | The loop over the directory computes the content of the last readable match, or the first error |
| Driver.GatheredIsLast | backend/driver/driver.go:296-304 | Earlier matches and unreadable files do not matter |
| Driver.GatheredExactly | backend/driver/driver.go:285-312 | The walk comes to its first error, or else to the last readable match, or else to nothing |
| Handlers.DriveCoherent | backend/controller/lmevaljob_controller.go:132-171 | After any answers a handler holds the job it fetched with only its own branch's edits |
| Snapshots.JobAdvances | backend/controller/lmevaljob_controller.go:259-291 | No step of any party moves the stored job back to an earlier version |
| Snapshots.SnapshotsStep | backend/controller/lmevaljob_controller.go:132-171 | Every snapshot in use is of the stored job or of an older version, over every step |
| Commits.WorkerCommits | backend/controller/lmevaljob_controller.go:408-420 | A worker's write lands only on the job it had read; a working server turns it down only if the job has moved on |
| Commits.WorkerLands | backend/controller/lmevaljob_controller.go:408-420 | A write that changes something lands exactly if it is not refused and the job is still the one that was read |
| Commits.CallCommits | backend/controller/lmevaljob_controller.go:277-290 | A status call's write lands only on the job it had read, and then is the message applied to it |
| Refinement.InterleavingRefinesAtomic | backend/controller/lmevaljob_controller.go:132-171 | Every interleaved run stores the same sequence of jobs as the run in which each committing handler executes atomically on the job stored at its commit, in commit order, with the pod and clock answers it was given |
| Refinement.EachTrailStep | backend/controller/lmevaljob_controller.go:259-291 | Each change of the stored job is a whole handler run on the job stored at that moment |
| Guarantees.NoFalseSuccess | backend/driver/driver.go:250-283 | With one pod creation, a stored success is a driver's report sent after its program succeeded, and the stored results are the one text that was gathered |
| Guarantees.ExitZeroIsTooLate | backend/controller/lmevaljob_controller.go:468-478 | Exit code 0 presupposes an accepted report, so the controller's own success write never commits and always ends in an error |
| Origins.EffectOfCall | backend/controller/lmevaljob_controller.go:277-286 | A call that takes effect stores state and reason, keeps the message without a text and the results without results, and leaves pod name and times |
| Origins.ResultsChangeExactly | backend/controller/lmevaljob_controller.go:282-284 | Stored results change exactly when a call carrying others takes effect, and by no step of the controller |
| Origins.ResultsOrigin | backend/controller/lmevaljob_controller.go:282-284 | In every run stored results came with a call that took effect |
| Origins.ReportOrigin | backend/driver/driver.go:250-283 | In every run a failure report carries the error the program or the walk ended with, and a success report the text the walk ended with |
| Origins.CompletionTimeIsRead | backend/controller/lmevaljob_controller.go:530-532 | In every run a stored completion time was read off the clock by the same handler while the same, already complete job was stored |
| Origins.ScheduleTimeIsRead | backend/controller/lmevaljob_controller.go:402-418 | In every run a stored schedule time was read off the clock by the same handler, before the creation, while the same job was stored |
| Guarantees.VerdictStands | backend/controller/lmevaljob_controller.go:277-286 | Once scheduling is recorded no controller step changes the verdict of a Complete job, whatever was created or cancelled; with one creation and no cancellation it is the driver's report |
| Guarantees.StampsAreWriteOnce | backend/controller/lmevaljob_controller.go:146-155 | Over any run both times are written once and in order, New is never stored, and no pod is created after scheduling is stored |
| Guarantees.FinalizerGuardsCreation | backend/controller/lmevaljob_controller.go:384-404 | At every creation the stored job exists, holds the finalizer and is unscheduled, and the new pod passes the owner check |
| Guarantees.PodsAreCleanedUp | backend/controller/lmevaljob_controller.go:417-420 | PodName is set exactly with the schedule time, and a stored cancellation has no pod left; a recorded pod outlives its job only after a refused deletion |
| Failures.PodSurvivesExactly | backend/controller/lmevaljob_controller.go:365-371 | handleDeletion goes on with the recorded pod still there exactly if the pod's deletion was refused |
| Failures.LeftBehindExactly | backend/controller/lmevaljob_controller.go:373-376 | A step leaves a recorded pod without its job exactly if it is the accepted removal of the finalizer while the pod exists |
| Failures.LeftoverOrigin | backend/controller/lmevaljob_controller.go:358-382 | In every run a recorded pod without its job goes back to one round of handleDeletion that had the pod's deletion refused and removed the finalizer |
| Failures.FalseSuccessExactly | backend/controller/lmevaljob_controller.go:466-478 | However many pods are created, a step stores a false success exactly if it stores the driver's exit code 0 on the job it read, with results nobody gathered |
| Failures.FalseSuccessOrigin | backend/controller/lmevaljob_controller.go:466-478 | In every run a false success goes back to such a step, and a second pod was created |
| Failures.OverwrittenExactly | backend/controller/lmevaljob_controller.go:404-423 | A step changes the verdict of a Complete job exactly if a status call that says otherwise takes effect, or the controller stores a creation or a different creation failure on the job it read, which is then unscheduled |
| Failures.RecordedExactly | backend/controller/lmevaljob_controller.go:416-423 | The recording write stores the schedule time exactly if it is not refused and the job is still the one that was read |
| Failures.OrphanedExactly | backend/controller/lmevaljob_controller.go:402-423 | A pod becomes an orphan exactly by a lost creation answer, a refused or overtaken recording write, or a restart before it |
| Failures.LookupDecides | backend/controller/lmevaljob_controller.go:541-555 | handleCancel goes on to the deletion exactly if its lookup worked and found the job's pod, and otherwise to storing a failure |
| Failures.CancelledExactly | backend/controller/lmevaljob_controller.go:539-565 | In every run a cancellation is stored as Cancelled exactly if the lookup of the same round worked and found the job's pod, and otherwise as Failed |
| Failures.CancelLeftExactly | backend/controller/lmevaljob_controller.go:146-155 | A stored cancel request gives way to another state exactly if handleCancel completes it, the controller takes the unscheduled job for a new one, or a driver's message takes effect |
| Failures.StrandedExactly | backend/controller/lmevaljob_controller.go:214-239 | In every run a job that needs work has nothing pending exactly if handleComplete's write was refused with nothing else pending and nothing has queued the job since |
| Guarantees.ControllerWritesAreBounded | backend/controller/lmevaljob_controller.go:152-168 | After scheduling, the controller's status writes plus the rank still open are at most two more than the calls' writes |
| Termination.FairRunsFinish | backend/controller/lmevaljob_controller.go:384-565 | Once the others are silent, a fair run ends for good in removal or Complete with its time exactly if the job is deleted, or scheduled and cancelled, complete or without a live driver, or about to be so, and not stranded |
| Termination.MoveDecreases | backend/controller/lmevaljob_controller.go:433-565 | In every such run each controller move makes the measure of state rank, wasted rounds and steps left smaller |
| Termination.WaitingStep | backend/controller/lmevaljob_controller.go:433-457 | In every other one no controller move makes the job ready |
| Termination.FinishedIsLeftAlone | backend/controller/lmevaljob_controller.go:135-139 | A reconcile of a job that is gone or finished ends at its fetch and asks for nothing more |
| Termination.FinishedRunsGoQuiet | backend/controller/lmevaljob_controller.go:135-168 | Once the others are silent, a fair run whose job is gone or finished has nothing pending from some moment on |
| Liveness.ScheduledExactly | backend/controller/lmevaljob_controller.go:384-431 | In a fair run from the job's creation without interference or failing requests of the controller, scheduling gets recorded exactly if the pod's name is free and the recording write is never overtaken |
| Liveness.CalmRunsComplete | backend/controller/lmevaljob_controller.go:384-537 | Such a run brings the job to Complete with its time, for good, once the driver has halted and its end is known |
| DriverEvidence.ReportsProvenStep | backend/driver/driver.go:250-283 | Over every step, success reports exist only after a successful program with gathered results |
| DriverEvidence.KnownStep | backend/driver/driver.go:107-123 | With one pod creation, the report exists only after the Running message took effect, and exit 0 only after the report did |
| Cleanup.ReachesClean | backend/controller/lmevaljob_controller.go:547-554 | A handler reaches the cancellation write or the finalizer's removal only with the pod gone |
| Wakeup.AcknowledgedWrite | backend/controller/lmevaljob_controller.go:404-423 | A write that is not refused queues the job or removes it, unless it is the write of a failed creation and changes nothing |
| Lifecycle.StoredStep | backend/controller/lmevaljob_controller.go:416-423 | Each committed write leaves ordered times, the finalizer on scheduled jobs and a pod name exactly on them |
| Failures.OrphanIsNeverRecorded | backend/controller/lmevaljob_controller.go:402-423 | Over every run, scheduling and completion of an orphan's job are never recorded while the pod exists |
| Anomalies.SecondPodFakesSuccess | backend/controller/lmevaljob_controller.go:466-478 | A run with two creations that stores a success although no program succeeded |
| Anomalies.UnrecordedSuccessIsOverwritten | backend/controller/lmevaljob_controller.go:402-413 | A run that overwrites a proven, stored success by a failure |
| Anomalies.UnrecordedSuccessIsRerun | backend/controller/lmevaljob_controller.go:416-423 | A run that overwrites a proven, stored success by the scheduling of a second pod |
| Anomalies.EarlyCancelIsLost | backend/controller/lmevaljob_controller.go:146-155 | A run that loses an accepted cancel request and starts the pod |
| Anomalies.DriverOvertakesRecording | backend/controller/lmevaljob_controller.go:402-423 | A run without interference in which the driver's Running message lands first and the pod becomes an orphan |
| Anomalies.SwallowedErrorLosesWakeup | backend/controller/lmevaljob_controller.go:532-536 | A run that strands a job without its completion time |
| Anomalies.RefusedDeletionLeavesPod | backend/controller/lmevaljob_controller.go:365-371 | A run in which the job is gone and its recorded pod is not |
| Anomalies.CancellationEndsAsFailure | backend/controller/lmevaljob_controller.go:541-556 | A run whose cancellation is stored as Complete/Failed after the controller deleted the pod itself |
| Anomalies.CancellationLeavesPodRunning | backend/controller/lmevaljob_controller.go:541-545 | A run whose cancellation is stored as Complete/Failed while the pod and its driver run on |
| CommandLine.ArgsToString | backend/controller/lmevaljob_controller.go:723-732 | The loop prints the arguments as name=value, separated by commas |
| CommandLine.GenerateArgs | backend/controller/lmevaljob_controller.go:672-705 | The appended words are the line the round trip is about, handed to the shell |
| CommandLine.LineRoundTrip | backend/controller/lmevaljob_controller.go:672-705 | A spec can be read back from its command line, by lm_eval's own option names, exactly if its fields are free of separators and print as something |
| CommandLine.EveryOptionIsNamed | backend/controller/lmevaljob_controller.go:677-702 | In every line, readable or not, each field stands after the name lm_eval has for it, exactly if the field is there |
| CommandLine.LineInjective | backend/controller/lmevaljob_controller.go:672-705 | Clean specs with the same line are the same, up to an explicit false |
| CommandLine.SeparatorsCollide | backend/controller/lmevaljob_controller.go:685 | Two different specs, one with a comma in a task, print the same line |
| Text.SplitJoin | backend/controller/lmevaljob_controller.go:731 | Splitting undoes joining for parts free of the separator |
| Text.FieldsJoin | backend/controller/lmevaljob_controller.go:704 | The words of a line joined from words are those words |
| Text.ParseItoa | backend/controller/lmevaljob_controller.go:688 | Printed integers, also negative ones, read back |
| Admission.AdmittedLimitIsPlain | api/v1beta1/lmevaljob_webhook.go:91-105 | Every admitted limit consists of letters, digits, signs, points and underscores and stays one word |
| Admission.AdmittedJobReadsBack | api/v1beta1/lmevaljob_webhook.go:91-105 | With an admitted limit, a job's command line reads back exactly if its other fields allow it |
| Admission.IntegersAreAdmitted | api/v1beta1/lmevaljob_webhook.go:96-99 | Printed integers are admitted as integers exactly within the signed 64-bit range, negative ones too, without the float parser |
| Admission.OthersAreFractions | api/v1beta1/lmevaljob_webhook.go:100-104 | What is no 64-bit integer is admitted exactly if it parses as a float above 0 and up to 1 |
| DriverFlags.FlagRoundTrip | cmd/driver/main.go:38-59 | Parsing the pod's command recovers namespace, name, service, port and path and leaves exactly the user program, for all strings |
| DriverFlags.PodRunsTheJob | cmd/driver/main.go:57-85 | The main container's driver runs the job's evaluation line, and the init container copies itself to where the command expects it |
| DriverFlags.NothingToRun | cmd/driver/main.go:72-75 | Without a program after the flags the driver runs nothing |
| DriverFlags.PortReads | backend/controller/lmevaljob_controller.go:717 | The printed port is read back in base ten |
| PodManifest.GenerateEnvs | backend/controller/lmevaljob_controller.go:734-753 | One variable for each secret with a source, in order, plain text before a reference |
| PodManifest.EnvAt | backend/controller/lmevaljob_controller.go:734-753 | A secret with a source has its variable at its turn, holding the plain text even if there is a reference too |
| PodManifest.PatchGrpcTLS | backend/controller/lmevaljob_controller.go:755-847 | Appends the mode's variables, volumes and mounts and nothing else |
| PodManifest.PatchFileSecrets | backend/controller/lmevaljob_controller.go:849-870 | The loop numbers volumes and mounts alike and gives each its own secret and path |
| PodManifest.CreatePod | backend/controller/lmevaljob_controller.go:567-591 | Secrets' variables come before the mode's; volumes and mounts are shared, TLS, files, in that order |
| PodManifest.NamesAreDistinct | backend/controller/lmevaljob_controller.go:854-867 | The decimal numbering keeps secret volumes apart from each other and from the fixed volumes |
| PodManifest.VolumesAreConsistent | backend/controller/lmevaljob_controller.go:849-870 | Volume names are pairwise distinct, mounts match volumes in order, and each secret volume serves its own secret |
| PodManifest.CertificatesAreMounted | backend/controller/lmevaljob_controller.go:755-847 | The TLS variables name the client's key and certificate in the volume with the client's secret, and the CA in the one with the server's |
| PodManifest.MountsAreReadOnly | backend/controller/lmevaljob_controller.go:778-830 | Everything but the shared volume, and the CA in plain TLS mode, is mounted read-only |
| PodManifest.PodsAroundStart | backend/controller/grpc_server.go:36-64 | A driver in a pod created after the server's start speaks the mode of the server's variables exactly if the job's secrets leave the deciding variables alone; in a pod created before, exactly if the secrets happen to say the same |
| PodManifest.EarlyPodsNeedNoTLS | backend/controller/lmevaljob_controller.go:204-206 | With secrets that do not set the server's CA, a pod created before the start agrees exactly with a server without TLS |
| PodManifest.OtherNamesAreHarmless | backend/controller/lmevaljob_controller.go:734-753 | Secrets with other names leave a variable unset |
| JobRaces.Jobs.SubmitJob | server/app.py:84-91 | Performs the submission step the races are about; the new task's arguments are the provided fields in order, two places each |
| JobRaces.Jobs.CancelJob | server/app.py:150-162 | Performs the cancellation step the races are about, or reports that there is no such task |
| JobTable.FlattenAt | server/app.py:77-82 | Each provided argument fills two places, name and value, or the name twice if it takes no value |
| JobTable.ProvidedExactly | server/app.py:79-80 | An argument is kept exactly if the request provides it, each once and in the order of the list |
| JobTable.CommandArgsInOrder | server/app.py:77-82 | Each provided argument stands at twice the number of provided ones before it, name then value, and nothing else is on the line |
| JobTable.FieldIsOnLine | server/app.py:51-82 | A field of the request stands on the command line after the option of its own name |
| JobTable.BackgroundTask | server/app.py:164-204 | Whatever it reads, the thread does what the automaton prescribes, and ends once the process does |
| JobTable.RunProcess | server/app.py:177-191 | The loop waits until it sees the flag or a return code; a cancelled process is killed before the status is set |
| JobRaces.StatusIsDecidedOnce | server/app.py:189-204 | In every run of any number of tasks, a status leaves running at most once and a cancel request is never lost |
| JobRaces.StatusIsTruthful | server/app.py:180-204 | Complete means return code 0, error a known non-zero one, cancelled a request and a dead process; at most one wait ends after the flag is raised |
| JobRaces.FailureIsExplained | server/app.py:194-202 | In every run the error of a failed task whose thread is done is the stderr text that thread read |
| JobRaces.OthersUntouched | server/app.py:84-90 | No thread, submission or cancellation touches another task |
| JobRaces.StuckExactlyBetweenChecks | server/app.py:189-194 | A finished thread's job is running, for good, exactly if the flag was first raised between the two checks |
| JobRaces.CloseNeverBlocks | server/app.py:177-191 | Leaving the with block never waits for a live process |
| JobRaces.LateCancelLosesTask | server/app.py:189-194 | A run that leaves a task with exit code 0 running for good |

## Left out

- Certificates, TLS handshakes, sockets, gRPC transport and viper beyond "is this variable set".
- The Kubernetes client, caches and work-queue code: replaced by the assumptions above; a stale cache beyond a snapshot held during one reconcile is not modelled.
- A job deleted and created again under the same name: the model follows one job object; the owner check ignores the UID.
- Garbage collection of pods whose owner is gone: the created pod carries an owner reference, so a pod left behind may disappear some time after its job; here that is a deletion of the pod by someone else.
- Graceful termination of pods: a deleted pod and its driver disappear in one step.
- Loss of the calls in flight at a controller restart: covered only as calls that are refused later.
- The shell's quoting and metacharacters: the command line is read back by blanks, commas and equals signs.
- Integer flags with a leading 0 (other bases): the controller never prints one, and the model rejects them.
- The zap logging flags of the driver: the pod's command sets none.
- InterleavingRefinesAtomic: the atomic run uses the pod lookups and clock readings the handler was given earlier in its round; asked again at the commit they could differ, because the pod is not part of the versioned record.
- IEEE rounding in `ParseFloat`: its result is a parameter, its accepted literals a grammar.
- `constructOptionsFromConfigMap`, `checkSecrets`, `CopyExec`, stdout and stderr handling, security contexts, image names and manifests: constants or plain input and output.
- Flask routing, JSON and the reading routes; I/O exceptions in the background thread.
- Events, logs, metrics, health probes and leader election.
