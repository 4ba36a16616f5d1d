# ConstructFlow protocols, modelled and proved in Dafny

ConstructFlow is a set of Go services around a PostgreSQL database, a Redis key store, a RabbitMQ broker, MinIO and
Elasticsearch. Most of it is plumbing. What is hard is a handful of small protocols over shared keys that expire, over
whole-row database writes, and over messages that may be delivered again. This project models those protocols as the
code runs them and proves what they guarantee in every reachable state of every run, with any number of callers in any
interleaving, with crashes, and with remote calls whose reply is lost whether or not they took effect. Where a promise
of the code or its comments does not hold, the project proves exactly when it does.

`dafny verify dfyconfig.toml` checks everything.

## How the model is built

* **Protocols** (`TaskProtocol`, `RateLimit`, `CronLock`, `Broker`, `Notifications`, `Reports`, `FileTiers`) are state
  machines. A caller is a program counter with private copies, one step is one remote command, and `Next` gives the
  state after a step. `Runs` defines runs of any such machine, hypotheses about all steps of a run (`Always`) and the
  number of steps of a kind (`Count`). A remote call has a `Fate`: answered, or lost with or without effect.
* **Services** (`TaskService`, `RateLimit.Gateway`, `CronLock.Scheduler`, `NotificationService`, `ReportService`,
  `FileService`, `SearchIndex.Indexer`, `Pagination.TaskTable`) are the code itself: classes whose methods do what the
  Go functions do, statement by statement, on fields they update in place. Before every remote command other callers may
  take any steps. Each use case is proved to be one run of the protocol in which the caller takes only its own steps and
  ends as its answer says, so everything proved of runs holds of the code under interference.
* **Results** about runs are in the protocol's module or in a module beside it (`TaskLineage`, `TaskLock`, `TaskSerial`,
  `TaskEvents`, `TaskTour`, `TaskNotifications`, `ReportSettlement`, `ReportDeadLetters`, `ReportAnnouncements`).
* Bookkeeping fields (the history of a row, the ticket of a lock, the attempt that inserted a notification) are written
  by the model and never read by the code's branches.

Status `Completed` stands for the code's `done`. Times are integers in seconds, in the rate limiter in milliseconds.

## What is proved

* **Tasks.** Whatever is stored is the result of a legal sequential history of committed calls, each at most once, even
  with lost updates; no update is lost exactly when every save overwrites the version it read, and disjoint
  read-to-save windows suffice. Every stored status is reached from todo over the five moves of the transition map, and
  every path over these moves whose reopenings are asked for by managers and admins can be walked: after any such walk
  the next move is granted exactly if it lengthens it. Assignees and projects stay inside the tenant.
* **Assignment lock.** The callers inside the critical section of a task number at most one plus the overruns of its
  lock; the bound is reached for every number of overruns. Without overruns assignments are atomic in lock order. A
  crashed owner's lock opens after five seconds.
* **Status events.** If every saved change is announced, the events of a task are its first saved changes in save order
  if and only if no event is sent while that of an earlier save is still to be sent; with disjoint read-to-save windows
  they then chain old to new from todo to the current status. Disjoint windows alone do not rule overtaking out, and a
  run shows it; disjoint read-to-publish spans do.
* **Rate limiter.** At most ceil(L / 60) * N + N - 1 admissions in any interval of L seconds (so 2N - 1 a minute, one
  less than twice the limit), plus the fail-open ones; at most ceil(L / 60) * N where the last minute is a single
  instant. The bound is reached for every length. A used-up counter without a deadline admits nobody until an EXPIRE
  lands, and shuts its client out for good if and only if no request of the client has its EXPIRE still to send; one
  lost EXPIRE, or one lost reply of the INCR that opens a counter, leads there for every limit. The comment in the
  middleware promises a sliding window with at most N a minute: the code keeps that promise if and only if N is at most
  1. Clients are independent: each is answered as if there were no other, so each has its own quota.
* **Cron lock.** At most one run per fire interval if claims land in the interval of their clock reading; a second run
  is possible exactly when the lock does not outlive its interval. If claims are prompt, every interval with an answered
  attempt runs the job or follows one that ran it, and of two consecutive ones one runs it, if and only if a claim whose
  reply is lost cannot take the lock; a run shows an interval idled by such a claim. Jobs are independent of each other.
* **Delivery.** Messages are conserved; retries are limited to 3 requeues and 7 seconds if the broker counts every
  redelivery, a run reaches these limits, and retrying ends at all exactly when some redelivery would carry a count at
  the limit. The queues of the notification and report consumers are runs of that broker, so the limit holds of them.
* **Notifications.** An acknowledged event has its notification or its key was taken in vain. The claims of one day lead
  to at most one notification plus one per key-store error, and this holds exactly when the key store's client does not
  report an occupied key as an error. Counted by the time they are stored, the interval grows by the latency from claim
  to insert: a day can store two unless that latency is nil, and a run shows it. A retry after a failed insert is
  acknowledged without a row. Every notification of a relayed event tells its user of a committed assignment to that
  user in the user's own company, and if the event of an assignment is acknowledged its own assignee was notified or the
  key taken in vain.
* **Reports.** A ready job has its own report under its own key; keys never change; a report.completed event names
  whoever asked and leads to the report asked for. Provided that no job's message is posted twice: a ready job whose
  message is settled stays ready if and only if no consumer is left that could still unmark it, and a job that is not
  ready and whose message is dead-lettered stays so if and only if no consumer is left that could still mark it ready. A
  delivery at the retry limit that is not lost, whose status writes report their outcome truly and whose job nobody else
  works on, leaves the job ready if and only if the job was ready when it began and neither of its status writes took
  effect. If some redelivery reaches the limit, no run dead-letters a message and has its job ready if and only if
  consumers may not outlive their deliveries, deliveries may not be lost after their ready mark, and status writes may
  not take effect unawares; a run for each shows it.
* **Storage tiers.** No file is too young for its tier under any overlap. With targets that the policy knows a step
  moves a tier other than to the next exactly if it is the update of a sweep to standard_ia that reaches a file in
  glacier; that never happens if no two sweeps from the standard tier overlap, and a run with three overlapping sweeps
  shows it. Under any interference a sweep's count is the number of files it moved if and only if it counted as many
  files that were deleted or in the target tier by then as it moved with the reply lost. Two sweeps in order meet the
  age policy if and only if no earlier sweep put an active file into an unknown tier, which the service accepts as a
  target; in the other order, if besides nothing is more than two years old.
* **Search index.** A document is the last event that names its id by the field of its kind, and there are no others;
  two processing orders give the same index exactly when each document's last events agree; replaying any suffix changes
  nothing.
* **Listing.** For any requested page size the pages together are exactly the rows with the given company, project and
  filters, each once and in the table's order.

## Code and documentation

* `apps/gw-gateway/api/http/middleware/rate_limit.go:12-13` describes a sliding window; the code is a fixed window that
  starts with a request. The code is modelled.
* The architecture documents give the cron lock a TTL of 55 seconds (`docs/architecture.md:459`); the code computes it
  from the schedule. The code is modelled.
* The storage service passes the requested target tier to the sweep unchecked
  (`apps/file-service/api/grpc/controller/file_controller.go:125-126`), so a sweep can target a tier the policy does not
  know; such targets are modelled.
* Whether the Redis client reports an occupied key as an error is not decided by the repository, so it is a parameter of
  both clients. In assignment either answer refuses entry: to the protocol an error is a claim whose reply was lost. In
  notifications everything depends on it.
* The retry count is read from the `x-death` header while retries are requeues. Whether requeues are counted is the
  broker's business, so the count after any number of deliveries is a parameter (`stamp`).

## Model

| member | source | states |
|---|---|---|
| TaskModel.MovesFormPath | apps/task-service/use-case/update_task_status/update_task_status.go:51-73 | the status moves of any legal history are a path of the transition map from the created status to the current one |
| TaskModel.PathCounts | apps/task-service/use-case/update_task_status/update_task_status.go:13-24 | on a path from todo every move is one of todo to in_progress, in_progress to done or blocked, blocked or done to in_progress; nothing re-enters todo, and done and blocked are entered once more than left exactly while the task is in them |
| TaskModel.StatusRules | apps/task-service/use-case/update_task_status/update_task_status.go:58-70 | a status change is an invalid transition exactly if its move is none of the five, forbidden exactly if it reopens a done task for neither a manager nor an admin, and otherwise changes the status and nothing else |
| TaskModel.PathChains | apps/task-service/use-case/update_task_status/update_task_status.go:76-84 | consecutive moves of a path chain old to new status |
| TaskModel.ReopenersAreManagers | apps/task-service/use-case/update_task_status/update_task_status.go:63-68 | every change out of done in a legal history goes to in_progress and was asked for by a manager or an admin |
| TaskModel.ReopeningsAreExits | apps/task-service/use-case/update_task_status/update_task_status.go:20-24 | the exits from done are exactly the manager or admin reopenings of the history |
| TaskTour.UndisturbedChange | apps/task-service/use-case/update_task_status/update_task_status.go:46-87 | a status change nobody interferes with, on any existing row of the company, is answered, stored and announced by the five moves and the role that reopening takes |
| TaskTour.EveryPathIsWalked | apps/task-service/use-case/update_task_status/update_task_status.go:13-24 | from the start, every path over the five moves whose reopenings are asked for by managers and admins is walked: each call answered Ok, stored and announced with its old and new status |
| TaskTour.TheNextMoveIsGrantedIff | apps/task-service/use-case/update_task_status/update_task_status.go:58-70 | at the end of every such walk the next call is answered Ok exactly if it lengthens the walk; a reopening by anybody else is forbidden and every other move is invalid, with the task left where it is |
| TaskTour.FiveMovesInARow | apps/task-service/use-case/update_task_status/update_task_status.go:63-68 | todo, in_progress, blocked, in_progress, done is walked by a member, and the fifth move back to in_progress is granted to a manager and an admin and forbidden to any other role |
| TaskTour.CrashedOwnersLockOpensAfterFiveSeconds | apps/task-service/use-case/assign_task/assign_task.go:51-64 | a lock whose owner crashed right after its claim refuses the next claim of the task for five seconds, and admits one from then on |
| TaskProtocol.LockKeysDiffer | apps/task-service/use-case/assign_task/assign_task.go:51-54 | lock keys of different tasks differ |
| TaskLineage.StoredRowsHaveLegalHistories | apps/task-service/repository/sql/task_repository.go:25-38 | in every reachable state, each stored row is what a fully validated sequential history of committed calls, each at most once, makes of the row a committed create asked for, lost updates allowed |
| TaskLineage.AnswersAreTruthful | apps/task-service/use-case/update_task_status/update_task_status.go:46-87 | success means the edit is among the task's saves; any failure but a storage failure or a crash means nothing was saved |
| TaskLineage.NothingLostIffSavesFresh | apps/task-service/repository/sql/task_repository.go:36-38 | no committed update of a task is missing from its row's history if and only if no save overwrote a version it had not read |
| TaskLineage.DisjointWindowsSaveFresh | apps/task-service/use-case/update_task_status/update_task_status.go:51-73 | if read-to-save windows on a task never overlap, every save overwrites the version it read |
| TaskLineage.StatusesFollowTheTransitionMap | apps/task-service/use-case/update_task_status/update_task_status.go:46-87 | on every run a task's statuses are a path from todo, each move one of the five, todo is never re-entered, entries into done equal reopenings plus the current one, entries into blocked equal resumptions plus the current one; with disjoint windows the path consists of all saves |
| TaskLineage.RowsStayInsideTheirTenant | apps/task-service/use-case/assign_task/assign_task.go:66-78 | every stored row and every copy in flight names a project and an assignee of its own company, even with overruns |
| TaskLock.OverrunsBoundTheCriticalSection | apps/task-service/use-case/assign_task/assign_task.go:51-64 | with crashes, failed DELs and DELs of another caller's lock, the calls inside the critical section number at most one plus the overruns |
| TaskLock.NoOverrunMeansMutualExclusion | apps/task-service/use-case/assign_task/assign_task.go:51-64 | without an overrun at most one call is inside |
| TaskLock.TheBoundIsReached | apps/task-service/use-case/assign_task/assign_task.go:61-64 | for every n a run with n overruns has n + 1 calls inside |
| TaskSerial.AssignmentsAreAtomicInLockOrder | apps/task-service/use-case/assign_task/assign_task.go:64-93 | without overruns and with assignments only: nothing is lost, the row is the commits replayed in the order in which they got the lock, the assignee is the last committed one, and the task.assigned events are a subsequence of the commits in order |
| TaskEvents.EventsFollowSavesIffNoneOvertakes | apps/task-service/use-case/update_task_status/update_task_status.go:70-84 | on every run on which each saved change is announced, lost updates allowed: the status events of a task are its first saved changes in save order if and only if no event was sent while that of an earlier save was still to be sent |
| TaskEvents.StatusEventsTellTheStory | apps/task-service/use-case/update_task_status/update_task_status.go:70-84 | with disjoint read-to-save windows besides: the events are the moves the task's history begins with, start at todo, chain old to new, and end in the current status once nobody is about to publish |
| TaskEvents.DisjointSpansDoNotOvertake | apps/task-service/use-case/update_task_status/update_task_status.go:51-84 | if read-to-publish spans do not overlap, no event overtakes another |
| TaskEvents.DisjointWindowsCanCrossEvents | apps/task-service/use-case/update_task_status/update_task_status.go:70-84 | disjoint read-to-save windows do not rule overtaking out: a run from the start whose events arrive in the wrong order |
| TaskService.RedisLock.SetNX | apps/task-service/service/redis_lock.go:23-29 | acquired exactly when answered and free; failed when unanswered, or occupied if the client reports that as an error; the key changes exactly when the command took effect |
| TaskService.RedisLock.Del | apps/task-service/service/redis_lock.go:31-33 | removes the key whoever holds it |
| TaskService.TaskRepository.FindByID | apps/task-service/repository/sql/task_repository.go:25-34 | finds the row of the company and no other company's |
| TaskService.TaskRepository.Create | apps/task-service/repository/sql/task_repository.go:21-23 | inserts under an unused id only |
| TaskService.TaskRepository.Update | apps/task-service/repository/sql/task_repository.go:36-38 | overwrites every column, whatever the row holds by now |
| TaskService.MoveStatus | apps/task-service/use-case/update_task_status/update_task_status.go:58-70 | invalid exactly if the move is none of the five, forbidden exactly if it reopens a done task for neither manager nor admin, else the row with the new status |
| TaskService.ApplyForm | apps/task-service/api/grpc/controller/task_controller.go:184-199 | sets exactly the given fields, keeps each other, and fails exactly on a bad due date |
| TaskService.BuildTask | apps/task-service/use-case/create_task/create_task.go:32-57 | the created row field by field: todo, medium priority by default, no assignee |
| TaskService.Service.AssignTask | apps/task-service/use-case/assign_task/assign_task.go:46-96 | one run of the protocol under any interference, in which the call takes only its own steps and ends with the answer it returns; invalid input exactly if one of the four ids is empty; success returns the row with the requested assignee |
| TaskService.Service.ClaimLock | apps/task-service/use-case/assign_task/assign_task.go:51-60 | the claim as one step of the protocol: locked, failed or inside; an occupied key reported as an error is a claim whose reply was lost |
| TaskService.Service.AssignLocked | apps/task-service/use-case/assign_task/assign_task.go:66-96 | the part between claim and release, which always reaches the release; success leaves task.assigned with its three ids on the bus if the publish took effect |
| TaskService.Service.UpdateTaskStatus | apps/task-service/use-case/update_task_status/update_task_status.go:46-87 | one run of the protocol: unlocked read, validate, save, announce; invalid input exactly if a field is empty, else the answer is what the read, the five moves, the role and the save make of it, and success leaves status_changed with the status as read and the new one on the bus if the publish took effect |
| TaskService.Service.SaveChange | apps/task-service/use-case/update_task_status/update_task_status.go:70-87 | its second part: fails exactly if the save is not answered, whatever happens to the event |
| TaskService.Service.UpdateTask | apps/task-service/api/grpc/controller/task_controller.go:179-204 | one run of the protocol: unlocked read, set the given fields, save |
| TaskService.Service.CreateTask | apps/task-service/use-case/create_task/create_task.go:22-64 | one run of the protocol: check the project, build the row, insert it; invalid input if a required field is empty, and else only for a bad due date |
| RateLimit.IntervalsAreBounded | apps/gw-gateway/api/http/middleware/rate_limit.go:20-39 | for any number of gateways with EXPIREs late, lost or repeated, any interval admits at most its quota plus the fail-open requests: a full counter for every minute and, unless the last minute is one instant, one more counter less one request |
| RateLimit.DecisionsAreBounded | apps/gw-gateway/api/http/middleware/rate_limit.go:32-39 | the same by the time of the decision, with the interval grown by the latency |
| RateLimit.QuotaIsReached | apps/gw-gateway/api/http/middleware/rate_limit.go:20-39 | for every positive limit and every length, an interval of some run admits exactly its quota |
| RateLimit.AMinuteCanAdmitTheQuota | apps/gw-gateway/api/http/middleware/rate_limit.go:27-37 | for every positive limit N some minute of some run admits 2N - 1 requests |
| RateLimit.AMinuteAdmitsNoMore | apps/gw-gateway/api/http/middleware/rate_limit.go:27-37 | and no sixty seconds of any run admit more than 2N - 1 |
| RateLimit.NoExpireNoAdmission | apps/gw-gateway/api/http/middleware/rate_limit.go:27-37 | from a used-up counter without a deadline, over any run on which no EXPIRE lands, no new request is admitted by its count and the counter stays used up |
| RateLimit.ShutOutForGoodIffNobodyExpires | apps/gw-gateway/api/http/middleware/rate_limit.go:20-37 | from every state with such a counter, no run in which each EXPIRE is one that a gateway sends admits a new request by its count, if and only if no request of the client has its EXPIRE still to send |
| RateLimit.OneLostExpireShutsOut | apps/gw-gateway/api/http/middleware/rate_limit.go:27-30 | for every positive limit N, from every state with no counter running and no EXPIRE to come, the start included: one lost EXPIRE and N - 1 more requests shut the client out for good |
| RateLimit.OneLostReplyShutsOut | apps/gw-gateway/api/http/middleware/rate_limit.go:20-25 | likewise one INCR that opens a counter and whose reply is lost |
| RateLimit.MinutePromiseHoldsIffLimitIsOne | apps/gw-gateway/api/http/middleware/rate_limit.go:12-13 | at most N in any minute holds if and only if N is at most 1 |
| RateLimit.KeysDiffer | apps/gw-gateway/api/http/middleware/rate_limit.go:17-17 | two clients have one key if and only if they are one |
| RateLimit.ClientsAreIndependent | apps/gw-gateway/api/http/middleware/rate_limit.go:15-20 | however the requests of many clients mix in one store, each client's counter and answers are what they would be if its own requests were all |
| RateLimit.EveryClientHasItsOwnQuota | apps/gw-gateway/api/http/middleware/rate_limit.go:15-39 | hence no interval admits more of a client's requests than its own quota, whatever the other clients send |
| RateLimit.Gateway.Handle | apps/gw-gateway/api/http/middleware/rate_limit.go:15-40 | one request is exactly its INCR, an EXPIRE if it counted 1, and a decision, under any interference; refused, passed or failed open as the protocol says, leaving what the store holds under ratelimit: and any other address as it was |
| RateLimit.Gateway.Complete | apps/gw-gateway/api/http/middleware/rate_limit.go:27-39 | the part after a counted INCR: an EXPIRE exactly if the count is 1, then passed exactly if the count is within the limit |
| RateLimit.Gateway.Incr | apps/gw-gateway/api/http/middleware/rate_limit.go:20-20 | counts on, starting at 1 without a deadline if the key is gone |
| RateLimit.Gateway.SetExpiry | apps/gw-gateway/api/http/middleware/rate_limit.go:27-30 | gives an existing key a minute from now |
| CronLock.AtMostOncePerInterval | apps/scheduler-service/bootstrap/scheduler.go:49-65 | if every take landed in the interval of its clock reading, no interval sees two takes |
| CronLock.SecondRunIffLockTooShort | apps/scheduler-service/bootstrap/scheduler.go:49-65 | while the owner's interval lasts, the job can run in it again if and only if its lock does not outlive the interval |
| CronLock.EveryIntervalRunsIffNoSilentTakes | apps/scheduler-service/bootstrap/scheduler.go:54-66 | on all runs with prompt takes, an interval in which an attempt got an answer ran the job or directly follows one that ran it, if and only if a claim whose reply is lost cannot take the lock |
| CronLock.NoTwoIdleIffNoSilentTakes | apps/scheduler-service/bootstrap/scheduler.go:54-66 | likewise of two consecutive intervals with answered attempts at least one ran the job |
| CronLock.SilentTakeIdlesAnInterval | apps/scheduler-service/bootstrap/scheduler.go:54-62 | for any schedule, a run with prompt takes on which an attempt finds the lock held while neither its interval nor the one before ran the job |
| CronLock.SilentTakesIdleTwoIntervals | apps/scheduler-service/bootstrap/scheduler.go:54-62 | and one with two idle intervals in a row |
| CronLock.KeysDiffer | apps/scheduler-service/bootstrap/scheduler.go:42-42 | two jobs have one lock key if and only if they are one |
| CronLock.JobsAreIndependent | apps/scheduler-service/bootstrap/scheduler.go:39-66 | however the firings of many jobs mix in one store, each job's run as they would if there were no other job |
| CronLock.Scheduler.AddJob | apps/scheduler-service/bootstrap/scheduler.go:38-72 | a job enters the registry exactly when its schedule parses |
| CronLock.Scheduler.FireJob | apps/scheduler-service/bootstrap/scheduler.go:39-66 | one firing is a clock reading and a claim with the TTL of that reading; the job runs exactly when the claim was answered yes, its key then holding until the next fire time is as far off as it was at the reading; no other job's key is touched |
| CronLock.Scheduler.ClaimLock | apps/scheduler-service/bootstrap/scheduler.go:53-62 | the claim as one step of the protocol: yes means an answer and the key stored with the TTL; no other key is touched |
| Broker.MessagesAreConserved | apps/notification-service/consumer/task_assigned_consumer.go:71-126 | every published message is ready, in one consumer's hands, acknowledged or dead-lettered, and only one of these |
| Broker.SettledForGood | apps/notification-service/consumer/task_assigned_consumer.go:101-125 | settled messages stay settled, a settled or dropped delivery never becomes outstanding again, no message disappears |
| Broker.VerdictTakesEffect | apps/notification-service/consumer/task_assigned_consumer.go:101-125 | in every reachable state a settlement puts its message in exactly the place its verdict names |
| Broker.RetriesAreLimited | apps/notification-service/consumer/task_assigned_consumer.go:108-123 | if every redelivery raises the count, on every run: at most 3 requeues, 4 deliveries plus one per lost channel, and 7 seconds of backoff |
| Broker.FourFailuresReachTheLimits | apps/notification-service/consumer/task_assigned_consumer.go:114-121 | where redeliveries are counted one by one these limits are reached: a message that fails four times is dead-lettered after 3 requeues, 4 deliveries and 7 seconds |
| Broker.RetriesEndIffSomeCountReachesTheLimit | apps/notification-service/consumer/task_assigned_consumer.go:114-121 | whatever the broker counts, deliveries of undropped messages are bounded if and only if some count reaches 3 |
| Broker.RetryCountFromHeaders | apps/notification-service/consumer/task_assigned_consumer.go:129-147 | the first 64-bit count in the death records, 0 if there is none |
| Broker.FirstCountIsOfTheFirstRecord | apps/report-service/consumer/report_requested_consumer.go:173-191 | records without a count are skipped, later ones ignored |
| Notifications.AckedMeansNotifiedOrTakenInVain | apps/notification-service/consumer/task_assigned_consumer.go:92-126 | over every schedule an acknowledged message was well-formed and its event id has a notification, for the assignee and company of the event that stored it, or an attempt took its key and its insert failed or is not done; the latter only if an occupied key is no error |
| Notifications.AckedMeansItsOwnNotification | apps/notification-service/consumer/task_assigned_consumer.go:92-126 | if messages of one event id carry one event, that notification is exactly the acknowledged message's own |
| Notifications.ConsumersRetriesAreLimited | apps/notification-service/consumer/task_assigned_consumer.go:108-123 | if every redelivery raises the count, every message of every run of the consumers keeps within 3 requeues, 4 deliveries plus one per lost channel, and 7 seconds: their queue is a run of the broker |
| Notifications.DeadMeansMalformedOrExhausted | apps/notification-service/consumer/task_assigned_consumer.go:77-90 | a dead-lettered message was malformed, or an attempt at the retry limit failed on an incomplete event or an insert |
| Notifications.RetryWithinTheDayIsAckedWithoutARow | apps/notification-service/use-case/create_notification/create_notification.go:46-56 | from every reachable state with the event's key held, another attempt is acknowledged and inserts nothing |
| Notifications.RowsPerDay | apps/notification-service/use-case/create_notification/create_notification.go:43-66 | counted by the time of the claim: the claims of any n days lead to at most n notifications of an event plus one per key-store error |
| Notifications.OneRowADayIffOccupiedIsNotAnError | apps/notification-service/use-case/create_notification/create_notification.go:47-56 | the claims of one day lead to one notification, key-store errors aside, on all runs if and only if the client does not report an occupied key as an error |
| Notifications.StoredRowsAreBounded | apps/notification-service/use-case/create_notification/create_notification.go:43-66 | counted by the time of storing: in any time at most one notification of an event for each day of that time lengthened by the latency from claim to insert, plus one per key-store error |
| Notifications.OneStoredADayIffInsertsAreImmediate | apps/notification-service/use-case/create_notification/create_notification.go:47-66 | no day stores two notifications of an event, key-store errors aside, on all runs of a given latency if and only if that latency is 0 |
| Notifications.TwoRowsInADay | apps/notification-service/use-case/create_notification/create_notification.go:47-66 | a run without errors that stores two notifications of one event less than a day apart, for every lag from a second to a day; at a lag of a day, at the same instant |
| Notifications.RedeliveredInOneDay | apps/notification-service/use-case/create_notification/create_notification.go:51-53 | otherwise one message can give any number of notifications in a day |
| Notifications.KeyTellsEvent | apps/notification-service/use-case/create_notification/create_notification.go:45-46 | different events have different keys |
| Notifications.RunKeeps | apps/notification-service/consumer/task_assigned_consumer.go:71-127 | in every reachable state claims, inserts, settlements and the queue agree: takes of a key are a day apart, refusals had a holder, rows are where attempts say, and messages are conserved |
| TaskNotifications.NotificationsTellOfAssignments | apps/task-service/use-case/assign_task/assign_task.go:78-93 | whatever happens to tasks and consumers, every stored notification of a relayed event tells its user of an assignment to that user that is among the saves of its task, in the company of both |
| TaskNotifications.AcknowledgedAssigneesAreNotified | apps/notification-service/consumer/task_assigned_consumer.go:92-126 | if the message of an assignment's event is acknowledged, its own assignee has the notification of that very assignment, or the event's key was taken in vain; the latter only if an occupied key is no error |
| NotificationService.Consumer.Execute | apps/notification-service/use-case/create_notification/create_notification.go:38-67 | a run of the protocol under interference; refused exactly if the id, the assignee or the company is empty, a duplicate only on an answered claim, success exactly the notification to the assignee stored; the error says how the attempt will be settled |
| NotificationService.Consumer.Claim | apps/notification-service/use-case/create_notification/create_notification.go:43-56 | the claim as one step of the protocol: a yes stores the event's key for 86400 seconds |
| NotificationService.Consumer.InsertNote | apps/notification-service/use-case/create_notification/create_notification.go:58-66 | the insert as one step of the protocol, which stores the assignee's notification with its title and message exactly if it takes effect |
| NotificationService.Consumer.ProcessMessage | apps/notification-service/consumer/task_assigned_consumer.go:71-127 | one delivery is taken to its settlement: acknowledged if processed, dead-lettered if malformed, and a failure requeued after 1, 2 and 4 seconds at the counts 0, 1 and 2 and dead-lettered from 3 on |
| NotificationService.Consumer.Start | apps/notification-service/consumer/task_assigned_consumer.go:44-69 | the receive loop is a run of the protocol and settles every delivery it received |
| Reports.ReadyJobsHaveTheirReport | apps/report-service/consumer/report_requested_consumer.go:126-161 | under redelivery and any number of consumers: ready means key company/reports/job.json, the report of its own kind and params stored there and a URL; failed means an error message |
| Reports.KeysNeverChange | apps/report-service/repository/sql/report_repository.go:58-75 | a key once set never changes and its report stays |
| Reports.KeyTellsJob | apps/report-service/consumer/report_requested_consumer.go:143-143 | a report key belongs to one company and job |
| Reports.UploadLeavesOtherReports | apps/report-service/consumer/report_requested_consumer.go:142-146 | an upload leaves every other job's report in place |
| ReportAnnouncements.CompletedNamesWhoeverAsked | apps/report-service/consumer/report_requested_consumer.go:163-168 | on every run, every report.completed names the company and the person of an earlier request for that job, the report asked for is stored under the row's key, and the event's URL leads there |
| ReportAnnouncements.RowsSayWhoAsked | apps/report-service/use-case/request_report/request_report.go:31-37 | in every reachable state each row was put there by a request and still names its company, requester, kind and params |
| ReportAnnouncements.RowsAreQueuedUntilMarked | apps/report-service/use-case/request_report/request_report.go:31-39 | in every reachable state a queued row holds nothing but its request, and a download URL leads to the row's own report |
| ReportSettlement.AckedJobsStayReady | apps/report-service/consumer/report_requested_consumer.go:105-123 | with one message per job and no consumer outliving its delivery, an acknowledged job is ready for the rest of the run |
| ReportSettlement.SettledJobStaysReadyIffUnthreatened | apps/report-service/consumer/report_requested_consumer.go:105-161 | on any run with one message per job, a ready job whose message is acknowledged or dead-lettered stays ready if and only if no consumer is left that could still unmark it |
| ReportDeadLetters.DeadLetteredJobStaysUnreadyIff | apps/report-service/consumer/report_requested_consumer.go:105-161 | on any run with one message per job, consumers outliving their deliveries included: a job that is not ready and whose message is dead-lettered stays so for good if and only if no consumer is left that could still mark it ready |
| ReportDeadLetters.DeadLetterLeavesReadyIff | apps/report-service/consumer/report_requested_consumer.go:105-117 | from every state of such a run in which a consumer holds a delivery at the retry limit and nobody else works on its job, over anything that does not lose that delivery or misreport its status writes, until it is dead-lettered: the job is ready then if and only if it was ready when the delivery began and neither status write took effect |
| ReportDeadLetters.DeadMeansNotReadyIffNoLeave | apps/report-service/consumer/report_requested_consumer.go:105-161 | if some redelivery reaches the limit: on all runs with one message per job a dead-lettered message leaves its job not ready, if and only if consumers may not outlive their deliveries, deliveries may not be lost after their ready mark, and status writes may not take effect with the reply lost |
| ReportDeadLetters.ReadyJobCanBeDeadLettered | apps/report-service/consumer/report_requested_consumer.go:111-115 | for every count that reaches the limit, a run from the start on which a job is marked ready, its delivery lost, and the redelivery dead-lettered with the job still ready, as neither status write landed |
| ReportDeadLetters.OutlivingConsumerReadiesADeadLetteredJob | apps/report-service/consumer/report_requested_consumer.go:105-161 | a run from the start on which a consumer that lost its delivery marks the job ready after its message was dead-lettered |
| ReportDeadLetters.LostReplyReadiesADeadLetteredJob | apps/report-service/consumer/report_requested_consumer.go:111-158 | a run from the start on which the ready mark at the limit takes effect, its reply is lost, and the message is dead-lettered with the job ready |
| ReportSettlement.ConsumersRetriesAreLimited | apps/report-service/consumer/report_requested_consumer.go:111-119 | if every redelivery raises the count, every message of every run of the consumers keeps within 3 requeues, 4 deliveries plus one per lost channel, and 7 seconds: their queue is a run of the broker |
| ReportSettlement.OneMessageRunsAreSound | apps/report-service/consumer/report_requested_consumer.go:84-124 | with one message per job, in every reachable state rows, deliveries and the queue agree and messages are conserved |
| ReportService.ReportRepository.UpdateStatus | apps/report-service/repository/sql/report_repository.go:58-75 | writes the status and the non-empty columns of an existing row, and nothing else |
| ReportService.ReportRepository.Create | apps/report-service/repository/sql/report_repository.go:23-25 | inserts under an unused id only |
| ReportService.ReportRepository.FindByID | apps/report-service/repository/sql/report_repository.go:27-36 | finds the company's row only |
| ReportService.Service.RequestReport | apps/report-service/use-case/request_report/request_report.go:30-50 | exactly an insert and, if it succeeded, a post of the row's own message; failing to post is no failure; an accepted job's row names the company, the requester, the kind and the params |
| ReportService.Service.StoreJob | apps/report-service/use-case/request_report/request_report.go:31-41 | the insert: a stored job is queued with no key, URL or error |
| ReportService.Service.Generate | apps/report-service/consumer/report_requested_consumer.go:126-171 | a run of the protocol: mark, upload, sign, mark ready, announce; fails exactly if one of the first four is not answered, and then as its retry count says |
| ReportService.Service.Publicise | apps/report-service/consumer/report_requested_consumer.go:154-171 | its last part: mark ready with the signed URL, then announce, which cannot fail the generation |
| ReportService.Service.Announce | apps/report-service/consumer/report_requested_consumer.go:163-168 | a publish that takes effect names the requester in the job's row |
| ReportService.Service.Store | apps/report-service/consumer/report_requested_consumer.go:142-152 | upload and sign under interference |
| ReportService.Service.GiveUpOrRetry | apps/report-service/consumer/report_requested_consumer.go:105-119 | requeues after 1, 2 and 4 seconds at the counts 0, 1 and 2; from 3 on marks the job failed and dead-letters |
| ReportService.Service.ProcessMessage | apps/report-service/consumer/report_requested_consumer.go:84-124 | one delivery is taken to its settlement: acknowledged if processed, dead-lettered if malformed, and a failure requeued after 1, 2 and 4 seconds at the counts 0, 1 and 2 and dead-lettered from 3 on |
| FileTiers.NoFileIsTooYoungForItsTier | apps/file-service/use-case/migrate_storage/migrate_storage.go:12-66 | however sweeps overlap and whatever they target, a file past standard is over 180 days old and one in glacier over 730 |
| FileTiers.TierAdvancesIffNotBroughtBack | apps/file-service/use-case/migrate_storage/migrate_storage.go:43-66 | on every run with sweeps to standard_ia or glacier, with any overlaps and failures, a step keeps a file's tier or moves it to the next if and only if it is not the update of a sweep to standard_ia that reaches an undeleted file in glacier |
| FileTiers.TiersOnlyAdvance | apps/file-service/use-case/migrate_storage/migrate_storage.go:43-66 | that never happens if no two sweeps from standard of one company overlap, a sweep that died being over: each step keeps each tier or moves it to the next |
| FileTiers.OverlappingSweepsMoveBack | apps/file-service/repository/sql/file_repository.go:68-72 | a run from the start on which two overlapping sweeps to standard_ia around one to glacier bring a file back from glacier |
| FileTiers.SweepCountsAddUp | apps/file-service/use-case/migrate_storage/migrate_storage.go:54-66 | under any interference, however far a sweep gets: its count plus the files it moved while an update reported a failure equals the files it moved plus those it counted without moving them |
| FileTiers.SweepCountIsExactIff | apps/file-service/use-case/migrate_storage/migrate_storage.go:49-66 | under any interference the count is the number of files the sweep moved if and only if it handled with success as many files that were deleted or in the target tier by then, as its updates of other files took effect with the reply lost |
| FileTiers.SweepCountIsExactIffDeletionsMatchLostReplies | apps/file-service/use-case/migrate_storage/migrate_storage.go:49-66 | with no two overlapping sweeps from one tier of one company and another target than standard: if and only if the files deleted since listing that it handled with success are as many as its updates of undeleted files that took effect with the reply lost |
| FileTiers.CountsUnmovedIff | apps/file-service/use-case/migrate_storage/migrate_storage.go:59-63 | in every reachable state a file is counted unmoved if and only if it was deleted since it was listed or is in the target tier already |
| FileTiers.OnlyDeletedFilesAreCountedUnmoved | apps/file-service/use-case/migrate_storage/migrate_storage.go:49-63 | with no two overlapping sweeps from one tier of one company, a sweep to another tier than standard counts a file unmoved if and only if it was deleted since it was listed |
| FileTiers.DeletedFileIsCounted | apps/file-service/use-case/migrate_storage/migrate_storage.go:55-66 | a run from the start on which a sweep returns 1 and moves nothing |
| FileTiers.SweepHandlesItsListInOrder | apps/file-service/use-case/migrate_storage/migrate_storage.go:55-66 | a sweep's steps handle its list in order, each entry once, until the list or the sweep ends |
| FileTiers.SweepCountsWhatItMovedIffRepliesAreTrue | apps/file-service/use-case/migrate_storage/migrate_storage.go:55-66 | the count of an undisturbed sweep to standard_ia or glacier, with any failures, is at most the number of files moved, and equal to it if and only if no update landed while reporting a failure |
| FileTiers.GoodSweepMovesWhatIsDue | apps/file-service/use-case/migrate_storage/migrate_storage.go:49-66 | an undisturbed sweep without failures moves every due file and no other and counts them |
| FileTiers.TwoSweepsMeetThePolicyIff | apps/file-service/use-case/migrate_storage/migrate_storage.go:12-66 | from every reachable state, whatever sweeps went before: standard_ia then glacier at one instant puts every active file of the company in exactly the tier of its age if and only if none of them is in an unknown tier; in any case it leaves nothing due and changes no other company's, pending or deleted file |
| FileTiers.UnknownTargetIsForGood | apps/file-service/api/grpc/controller/file_controller.go:125-126 | a run from the start on which one sweep to an unknown tier puts the policy out of reach |
| FileTiers.TwoSweepsMeetThePolicy | apps/file-service/use-case/migrate_storage/migrate_storage.go:12-19 | hence the policy is met from every state reached by sweeps to standard_ia and glacier only |
| FileTiers.OtherOrderMeetsThePolicyIff | apps/file-service/use-case/migrate_storage/migrate_storage.go:12-66 | from every reachable state, glacier then standard_ia does so if and only if, besides, no active standard file of the company is over 730 days old |
| FileService.FileRepository.ListForLifecycleMigration | apps/file-service/repository/sql/file_repository.go:84-91 | lists exactly the company's active files of the tier created before the cutoff, each once |
| FileService.FileRepository.UpdateStorageTier | apps/file-service/repository/sql/file_repository.go:68-72 | sets the tier of an undeleted row whatever it is by now, and nothing else |
| FileService.FileRepository.UpdateStatus | apps/file-service/repository/sql/file_repository.go:58-66 | sets the status, the size only if positive, and touches no other row |
| FileService.FileRepository.FindByID | apps/file-service/repository/sql/file_repository.go:27-36 | finds the company's undeleted row only |
| FileService.FileRepository.Create | apps/file-service/repository/sql/file_repository.go:23-25 | inserts under an unused id only |
| FileService.Service.PresignUpload | apps/file-service/use-case/presign_upload/presign_upload.go:43-79 | incomplete input is refused; success leaves a pending standard row, field by field, under the returned key company/id/name; failure without effect leaves the table alone |
| FileService.Service.ConfirmUpload | apps/file-service/use-case/confirm_upload/confirm_upload.go:20-36 | finds a pending row of the company, and after whatever others do in between makes it active by id; succeeds exactly if it was found pending and the update was answered, with the row as found and the reported size; not found exactly if the company has no such undeleted row |
| FileService.Service.ActivateFile | apps/file-service/use-case/confirm_upload/confirm_upload.go:29-31 | the update as one step under interference |
| FileService.Service.MigrateFile | apps/file-service/use-case/migrate_storage/migrate_storage.go:56-63 | one file of a sweep under interference, moved to the target if both commands take effect and counted exactly when both reported success |
| FileService.Service.MigrateFiles | apps/file-service/use-case/migrate_storage/migrate_storage.go:55-66 | the loop is exactly one move for each listed file, in order, under interference, and counts those that reported success |
| FileService.Service.Execute | apps/file-service/use-case/migrate_storage/migrate_storage.go:31-67 | a sweep is a listing followed by a move for each listed file, whatever others do in between, and returns its count; it lists exactly the company's active standard files older than 180 days, or for glacier its standard_ia files older than 730 |
| SearchIndex.IndexHoldsTheLastEvent | apps/search-service/consumer/indexer_consumer.go:92-128 | a document is there exactly if some event wrote it, and is the last such event's |
| SearchIndex.DocumentsAreTheLastEventsNamingThem | apps/search-service/consumer/indexer_consumer.go:92-128 | after any log: tasks holds a document of an id exactly if some event whose type begins with task carries it as text task_id, and it is the stamped payload of the last such event; likewise files by file_id and reports by job_id |
| SearchIndex.NoOtherIndexHasDocuments | apps/search-service/consumer/indexer_consumer.go:110-128 | no other index holds any document, and no document has an empty id |
| SearchIndex.LogsGiveTheSameIndexIff | apps/search-service/consumer/indexer_consumer.go:60-90 | two ways of processing events, in any order and with repetitions, give the same index but for indexed_at if and only if each document's last events agree |
| SearchIndex.ReplayedSuffixChangesNothing | apps/search-service/consumer/indexer_consumer.go:92-108 | replaying any suffix in order leaves the index unchanged but for indexed_at |
| SearchIndex.LastFor | apps/search-service/consumer/indexer_consumer.go:110-128 | the last entry routed to a document, if any |
| SearchIndex.Indexer.IndexDocument | apps/search-service/service/elastic/client.go:23-46 | replaces the whole document; an empty id is refused |
| SearchIndex.Indexer.IndexEvent | apps/search-service/consumer/indexer_consumer.go:92-108 | indexed exactly if answered with the id its type asks for, skipped exactly for a type beginning with none of task, file and report, refused for a broken payload, a missing id or a lost reply; a null payload ends the process |
| SearchIndex.Indexer.ProcessMessage | apps/search-service/consumer/indexer_consumer.go:60-90 | acknowledged exactly if indexed or of a type that is not indexed; malformed dead-lettered at once, a refused event requeued after 1, 2 and 4 seconds at the counts 0, 1 and 2 and dead-lettered exactly from 3 on |
| SearchIndex.Indexer.Start | apps/search-service/consumer/indexer_consumer.go:34-58 | the loop applies the entries of all messages up to the first that ends the process |
| Pagination.PagesMakeUpTheList | apps/task-service/api/grpc/controller/task_controller.go:156-177 | for any requested size, pages 1 to the last concatenate to the whole list, each row once, and later pages are empty |
| Pagination.AllPagesAreTheRowsAskedFor | apps/task-service/repository/sql/task_repository.go:53-76 | all pages together are the rows with the given company, project, status, assignee and priority, each once and in the table's order |
| Pagination.NormalizePage | apps/task-service/api/grpc/controller/task_controller.go:289-297 | a page below 1 becomes 1, a size outside 1 to 100 becomes 20, and legal ones stay |
| Pagination.ToInt32 | apps/task-service/api/grpc/controller/task_controller.go:171-176 | the reported total is the real one exactly below 2^31 |
| Pagination.TaskTable.ListByProject | apps/task-service/repository/sql/task_repository.go:53-76 | the total is the number of rows with the given company, project, status, assignee and priority, and the tasks are those of them, in the table's order, that fall on the page |
| Pagination.TaskTable.ListTasks | apps/task-service/api/grpc/controller/task_controller.go:156-177 | the same for the requested page, or page 1 and size 20 where these are illegal; every returned task has what was asked for |

## Left out

- Soft delete of tasks racing with a whole-row save: it depends on how the ORM treats deleted rows on save, which the repository does not show; tasks are never deleted in the model. Files can be deleted at any time.
- UpdatedAt and CreatedAt of tasks, completed_at of report jobs, indexed_at beyond its being ignored: no branch reads them.
- The exchange between the task service and the notification queue: that every readable message carries an event of the bus, under an id of its own, is a hypothesis of TaskNotifications.
- A job that fails or crashes after it got the cron lock, and jobs that outlast their interval: what a job does is not part of the model.
- Claims, reads and writes that a client library retries on its own: each remote call takes effect at most once in the model. Only EXPIRE may be repeated by others, so that the rate limiter's upper bounds hold of that too; what is said of shut-out clients is said of the gateways' own EXPIREs.
- A consumer's backoff sleep is a number in the broker's ledger and takes no time; time may pass at any step.
- The report consumer's receive loop: it is the notification consumer's, which is modelled.
- Reading the job's row before announcing a report and publishing the announcement are one step: the row's requester never changes.
- A failed database read in ConfirmUpload, ListTasks and the report announcement: it ends the call, or is ignored, without effect.
- FileService.Service.Execute: needs a script with as many entries as there are files, one for each file it may list.
- SearchIndex.Indexer.Start: takes a finite list of messages, as does every part of the source's loop, which runs until its context ends.
- NotificationService.Consumer.Start: takes a finite list of arrivals, as does every part of the source's loop, which runs until its context ends.
- Pagination.PagesMakeUpTheList: page numbers beyond 32 bits cannot be requested; the order of rows is fixed while a client pages.
- Status-changed notifications, whose payload carries no user id, and the audit consumer, which repeats the settlement protocol.
- Projects, users and reports listing, HTTP and gRPC wiring, authentication and role policies: wiring or easy members only.
