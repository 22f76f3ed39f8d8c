# Bodhrik service booking platform: a verified model

The platform lets customers book providers, moves bookings through a status machine, notifies the
participants, collects reviews, runs two periodic jobs over the bookings, and computes review
summaries in a Redis-backed worker. This project models that core in Dafny and proves what its
functions promise together, over every input and every run.

## How the model is built

* **Tables.** `Domain` holds the rows of the four tables and the constraints of the schema.
  Instants and ids are integers; averages are in hundredths.
* **Sessions.** `Sessions.Session` is a database session: the transaction's own view of the tables,
  one changed object whose statement has not been issued (autoflush is off), and a connection that is
  lost after any given number of round trips, either before the request of the next trip reaches the
  server or after the server has applied it and only its reply is missing. Commit is atomic; closing a
  session discards the rest.
* **Services.** `BookingService`, `ReviewService`, `NotificationService`, `ReviewSummary`,
  `SummaryWorker` and `ReviewWorker` are the service functions as methods, statement by statement in
  the source's order. Each is proved to serve a function on the store (`BookingSpec`, `ReviewSpec`, `NotificationSpec`,
  `Ratings`) for every point at which the connection can fail (`Requests.Serves`).
* **Engine.** `Engine` makes those functions the steps of one state machine; `Invariants`, `Runs`,
  `Counting`, `ProviderCalendar` and `Reminders` prove what holds of all its runs, starting from any
  users and empty tables. `Platform` closes the circle: the service methods, driven by any requests
  over any connections, move one database only through the states of such a run.
* **Requirements.** `Acceptance` says in so many words which requests succeed, which error the others
  meet and what a success stores; `Contents` reads every column of every booking and review off the
  requests of a run alone; `Overdues` does the same for the overdue notices and `Reminders` for the
  reminders. What they say names none of the functions the services are proved to serve.
* **Queue.** `QueueProtocol` is the summary queue as a step protocol with any number of enqueuers and
  workers and a crash between any two commands. The enqueuer and the worker in `SummaryWorker`
  and `ReviewWorker` are proved to be runs of it: the Redis object carries the run as ghost state.
  `FailedRecords` settles when a failed record holds a result.
* **Scheduler, races and pages.** `SchedulerProtocol` and `Scheduler`; `ReviewRace` and `BookingRace`,
  where check and insert of reviews and of bookings interleave; `Paging`.

## Assumptions

* The engine's booking requests are serial transactions. DESIGN_NOTE.md:28 speaks of
  `SELECT ... FOR UPDATE`, but app/services/booking_service.py:190-207 takes no lock; `BookingRace`
  states exactly what interleaved creations do to the calendar. Review uniqueness is proved without
  this assumption, since the unique constraint backs it.
* A notification is named by the columns of its unique key instead of its UUID.
* One instant per request serves for all its reads of the clock.
* Each Redis command happens once or not at all: one that raises has had no effect. Job ids are fresh.
  A record's time to live is an expiry step that may come at any time.
* Rounding to two decimals is any function to a nearest hundredth, whichever way ties fall.
* In `ReviewWorker` other processes act between a worker's turns; between any two commands they do in
  `QueueProtocol`.
* The reviews a worker's turn sees are those of one committed store, which may differ between turns.
* The signal that stops a worker, and the stop of a scheduler loop, come after a given number of turns.
* The routing layer lets through only paging parameters with `skip >= 0` and `limit >= 1`.

## Where the code does not do what one might read into it

* A database request can be answered with an error although its effects are permanent, in exactly two cases:
  the commit was applied and its reply lost, or the connection was lost between the commit and the
  reload of the row (`Requests.AllOrNothing`, an if-and-only-if over every failure point; both cases for
  a booking: `BookingService.ErrorWithEffects`).
* A rescheduled booking keeps the reminder of an earlier start: over every run, a participant gets a
  reminder after a reschedule if and only if a run since then found the booking due and no run before
  had (`Reminders.RemindedSince`; runs without a new one: `Reminders.RescheduledIsNotRemindedAgain`,
  and at short notice `Reminders.MovedAtShortNotice`).
* Overlapping bookings are possible: over every interleaving of checks and inserts, the calendar stays
  disjoint if and only if no booking is inserted whose slot an active booking committed since its check
  overlaps (`BookingRace.CalendarSurvives`; two customers booked into one slot:
  `BookingRace.DoubleBooking`).
* A failed job record holds a result if and only if a write of the job's completed record raised
  (`FailedRecords.ResultSurvivesExactly` over every run, `SummaryWorker.ProcessedIsExact` for one job; a
  run with such a record: `FailedRecords.FailedWithResult`).
* The worker's return value is documented as the number of jobs successfully processed; it is the number
  of completed plus the number of failed records. It counts the successes alone if and only if none of
  the tasks its inputs make it take meets the conditions under which a failure is recorded
  (`ReviewWorker.RunWorker`); for a worker whose Redis commands succeed, if and only if every taken
  task's provider is one and every connection lasted (`ReviewWorker.NothingIsLost`). One failed job that
  is counted: `ReviewWorker.CountedFailure`.
* A start keeps the one-loop guarantee if and only if no stop is in progress, whether or not the loop
  the stop waits for has ended; otherwise completing the stop leaves a loop that the scheduler has
  forgotten (`SchedulerProtocol.StartDuringStop`; runs: `SchedulerProtocol.ForgottenLoop`,
  `SchedulerProtocol.ForgottenAfterEnd`).

## Model

| member | source | states |
|---|---|---|
| Sessions.Session.Flush | app/db/session.py:15-19 | the pending object's statement is issued as a whole or the constraint violation or lost connection is reported; queries before it do not see the object |
| Sessions.Session.InsertNotification | app/services/notification_service.py:13-48 | insert-or-ignore on the unique key: true exactly when the key is new, an existing row is kept as it was, the transaction is never poisoned by a duplicate |
| Sessions.Session.Commit | app/services/booking_service.py:219-225 | the tables change to exactly what the transaction saw after its flush, or not at all; with an error they have changed exactly when the server applied the commit and its reply was lost |
| Sessions.Session.CommitAndRefresh | app/services/booking_service.py:385-391 | the store changes exactly when the commit is applied; the answer is an error also when only its reply or the reload after it is lost |
| Requests.AllOrNothing | app/db/session.py:22-28 | a request takes effect as a whole or not at all; success means it did; an error with effects occurs exactly when the reply to the applied commit is lost, or the connection between commit and reload |
| Platform.Platform.Handle | app/db/session.py:22-28 | one request or job over any connection leaves no trace or is the next event of the engine's run, and is the latter whenever it is not answered with an error; a job that is answered answers the growth of its rows; every precondition of the services holds for the reached database |
| Platform.Platform.HandleAll | app/api/deps.py:18-60 | over any sequence of requests and connections the committed store passes only through the states of one run of the engine, whose events are a subsequence of the requests in order with every request answered without error; what the jobs answered adds up to at most the growth of their rows, to exactly it if all were answered |
| Rules.TransitionCheckIsExact | app/services/booking_service.py:18-130 | the transition check admits exactly the unchanged status of a live booking and three written-out changes: pending to confirmed and confirmed to completed by provider or admin, live to cancelled by anyone; each lowers the rank; 403 exactly when a customer confirms or completes, else 400 |
| BookingService.NotifyCancellation | app/services/booking_service.py:47-67 | adds CANCELLED for exactly the participants other than the actor, and can only fail by a lost connection |
| BookingService.CheckProviderConflict | app/services/booking_service.py:133-158 | 409 exactly when an active booking of the provider, other than the excluded one, overlaps the slot |
| BookingService.CreateBooking | app/services/booking_service.py:161-225 | serves `BookingSpec.Create` at every failure point: first failing check decides the error and nothing is stored; otherwise booking and CREATED notification appear together |
| BookingService.ErrorWithEffects | app/services/booking_service.py:219-225 | every valid request whose commit reply is lost, or whose connection is lost before the reload, is answered with an error and its booking and notification are stored |
| BookingService.MoveStatus | app/services/booking_service.py:331-358 | step 1 of an update: error of the transition check, or the new status and exactly its audience's notifications in the transaction |
| BookingService.MoveTimes | app/services/booking_service.py:360-379 | step 2 of an update: missing ends default to the present ones, 400 for an empty interval before 409 for an overlap with another booking, else the new times |
| BookingService.UpdateBooking | app/services/booking_service.py:289-391 | serves `BookingSpec.Update`: although status and notifications are issued before the reschedule checks, a later 400 or 409, or a connection lost before the commit is applied, leaves the committed store unchanged, and success makes all effects appear together |
| BookingService.GetBookingById | app/services/booking_service.py:228-258 | 404, then access exactly for admins, the booking's customer as customer and its provider as provider |
| BookingService.CancelBooking | app/services/booking_service.py:394-416 | serves `BookingSpec.Cancel` at every failure point |
| BookingService.DeleteBooking | app/services/booking_service.py:419-484 | serves `BookingSpec.Delete` at every failure point; it has no reload, so an error comes with effects only when the reply to an applied commit is lost |
| Acceptance.CreateAnswers | app/services/booking_service.py:161-225 | creating succeeds iff the provider is another user with that role, its slot is free of bookings not cancelled, and the row meets the constraints; each error iff its condition; a success stores and answers the customer, provider, service and times asked for, pending |
| Acceptance.UpdateAnswers | app/services/booking_service.py:289-391 | each error of an update iff its condition, in the order of the checks; a success stores and answers the booking with exactly the given fields replaced |
| Acceptance.CancelAnswers | app/services/booking_service.py:228-258 | reading is granted and cancelling succeeds iff written-out conditions on caller and status; only the status changes |
| Acceptance.DeleteAnswers | app/services/booking_service.py:419-484 | deleting succeeds iff the booking is pending and the caller its customer or an admin; each error iff its condition |
| Acceptance.ReviewAnswers | app/services/review_service.py:19-88 | writing a review: each error iff its condition; a success stores and answers the rating and comment given, of the booking's participants |
| Acceptance.ReviewUpdateAnswers | app/services/review_service.py:206-241 | editing a review: author only, exactly the given fields replaced |
| Acceptance.ReviewDeleteAnswers | app/services/review_service.py:244-276 | deleting a review: author or admin, exactly that review |
| Acceptance.MarkReadAnswers | app/services/notification_service.py:70-105 | 404, 403, or the notification read with its first reading time |
| Contents.BookingsAreAsAskedFor | app/services/booking_service.py:197-206 | in every state of every run a booking exists iff it was asked for, and customer, provider, service, start, end and status are those of its creation, overwritten by exactly the fields later successful requests gave |
| Contents.ReviewsAreAsWritten | app/services/review_service.py:69-76 | in every state of every run a review is live iff written and not deleted, and its rating, comment, booking and author are those of its creation, overwritten by exactly what later successful updates gave |
| Contents.OnlyAuthorsEdit | app/services/review_service.py:223-276 | over every run a review changes only by its author's request and disappears only by that or an admin's |
| Contents.MarkedStaysRead | app/services/notification_service.py:95-134 | after a successful request to mark a notification, or all, it is read in every later state |
| Stories.BookedToReviewed | app/services/booking_service.py:331-358 | for every rating and comment a run from empty tables in which a booking is created, confirmed, completed and reviewed, with the final rows |
| BookingSpec.CancelIsPatchToCancelled | app/services/booking_service.py:394-416 | cancelling equals updating with only status=cancelled: same answer, same error, same store, for every state and caller |
| BookingSpec.DeleteIsRestrictedCancel | app/services/booking_service.py:419-484 | deleting succeeds exactly when cancelling would, the booking is pending and the caller no provider, with the same resulting store |
| ReviewService.CreateReview | app/services/review_service.py:19-88 | serves `ReviewSpec.Create`: checks in order, then the insert with every constraint violation answered 409; all or nothing |
| ReviewService.UpdateReview | app/services/review_service.py:206-241 | serves `ReviewSpec.Update`: author only, omitted fields keep their value, all or nothing |
| ReviewService.DeleteReview | app/services/review_service.py:244-276 | serves `ReviewSpec.Delete`: author or admin removes exactly that review |
| NotificationService.MarkNotificationAsRead | app/services/notification_service.py:70-105 | serves `NotificationSpec.MarkRead`: 404, 403, or read with a reading time; an already read one is answered unchanged and without a commit |
| NotificationService.MarkAllAsRead | app/services/notification_service.py:108-134 | serves `NotificationSpec.MarkAll` in one statement and one commit |
| NotificationService.AnnounceRows | app/jobs/booking_jobs.py:38-70 | the counting loop of both jobs: after it the ledger holds both participants of every row, and the counter is exactly the number of keys that were not there before, in whatever order the rows come |
| NotificationService.RunBookingReminderJob | app/jobs/booking_jobs.py:12-71 | serves `NotificationSpec.Remind`: confirmed bookings with now < start <= now + window; a failure anywhere before the commit is applied leaves no trace |
| NotificationService.RunOverdueBookingJob | app/jobs/booking_jobs.py:74-127 | serves `NotificationSpec.Chase`: confirmed bookings with end < now; statuses are never touched |
| Engine.BookingStep | app/services/booking_service.py:161-484 | every step of the platform leaves the bookings alone, opens one pending booking in a free slot, or revises one live booking by a permitted status and a free or unchanged slot |
| Engine.LedgerStep | app/services/booking_service.py:332-358 | the ledger grows by exactly the notifications an event earns, read off the stores before and after; none ever leaves |
| Invariants.CalendarKept | app/services/booking_service.py:189-207 | pairwise disjointness of each provider's active bookings is kept by every step, reschedules included |
| Invariants.TerminalFrozen | app/services/booking_service.py:320-329 | no step changes any column of a completed or cancelled booking |
| Invariants.ReviewsKept | app/services/review_service.py:40-88 | every step keeps: reviews satisfy the table constraints and refer to a completed booking with the same customer and provider |
| Invariants.ReceiptStep | app/services/notification_service.py:95-105 | a step creates a notification unread, leaves it, or opens an unread one once, for its owner only |
| Invariants.LedgerKept | app/services/booking_service.py:332-358 | every step keeps: CREATED to the provider; CONFIRMED never while pending and always once confirmed; COMPLETED iff completed; CANCELLED only and at least once if cancelled; REMINDER and OVERDUE to both or neither and only of bookings once confirmed |
| Runs.EveryStateIsSound | app/models/booking.py:32-43 | in every state of every run all table constraints, the calendar, the ledger, the reviews and the read marks are sound |
| Runs.StatusRuns | app/services/booking_service.py:18-44 | over any run and through all entry points a booking's history starts pending, is a path of the transition table taken by roles it allows, ends at its status, and has at most two changes |
| Runs.TerminalForever | app/services/booking_service.py:320-329 | once completed or cancelled, a booking is the same row in every later state of the run |
| Runs.LedgerMatchesHistory | app/services/booking_service.py:209-217 | a lifecycle notification exists exactly when the booking's history contains the change it reports and its user is in that change's audience; for a cancellation the participants but the actor of that change |
| Runs.EveryNotificationIsEarned | app/jobs/booking_jobs.py:39-70 | a notification of any kind exists exactly when some earlier step earned it; a reminder when a reminder run found the booking due |
| Counting.AtMostEightNotifications | app/models/notification.py:33-42 | in every reachable state a booking has at most eight notifications |
| Counting.JobCount | app/jobs/booking_jobs.py:38-71 | a job returns twice the selected bookings less the keys already present, which is how much the ledger grew; bookings are unchanged |
| Counting.JobIsIdempotent | app/services/notification_service.py:27-32 | a rerun of either job at the same instant returns 0 and changes nothing |
| Counting.JobAccounts | app/jobs/booking_jobs.py:12-127 | over any run, reschedules included, the numbers the jobs count add up to the reminders and overdue notices there are, at most four per booking |
| Counting.StatusChangesAreBounded | app/services/booking_service.py:18-23 | the status changes of a whole run are at most two per booking, less the ranks still left |
| Counting.ReviewsNeedCompletedBookings | app/services/review_service.py:47-67 | in every reachable state a provider has no more reviews than completed bookings |
| Counting.MarkAllIsExact | app/services/notification_service.py:108-134 | returns inbox less read, leaves the whole inbox read, and changes no row of another user and none already read |
| Counting.ReadMarksAreFinal | app/services/notification_service.py:70-105 | in every reachable state read iff there is a reading time, the time never changes, and no notification disappears |
| ProviderCalendar.AvailabilityIsExact | app/services/provider_service.py:57-81 | for a nonempty slot and any exclusion the overlap query is true iff no instant of the slot lies in an active booking of the provider other than the excluded one |
| ProviderCalendar.AvailabilityPredictsBooking | app/services/provider_service.py:84-107 | the availability endpoint says "not available" exactly when a booking request by another user would get 409, and gives the same 404 or 400 |
| ProviderCalendar.CancellationFreesTheSlot | app/services/booking_service.py:394-484 | create followed by cancel or delete restores the availability answer for every provider, slot and exclusion |
| ProviderCalendar.CalendarCapacity | app/services/booking_service.py:361-379 | in every reachable state the active bookings of a provider clipped to any window add up to at most its length, and no instant lies in two of them |
| Reminders.JobReachesBooking | app/jobs/booking_jobs.py:28-35 | with runs at most the window apart, a steady confirmed booking has both reminders after a run in [start - window, start) |
| Reminders.MissedBooking | app/jobs/booking_jobs.py:28-35 | for every interval longer than the window there is a run in which a confirmed booking is stepped over |
| Reminders.CoverageThreshold | app/core/config.py:34-35 | coverage is guaranteed over all runs and bookings exactly when the interval is no longer than the window; equality suffices |
| Reminders.RemindedSince | app/services/notification_service.py:33-48 | over every run, whatever is rescheduled: a participant gets a reminder at or after a step iff a run since then found the booking due and none before had |
| Reminders.MovedAtShortNotice | app/services/booking_service.py:361-379 | a reachable run whose booking was moved inside the window of its new start: its only reminder lies in that window and is of the earlier start |
| Reminders.ReminderIsOfThisStart | app/jobs/booking_jobs.py:28-48 | the covered case: with runs at most the window apart and the booking steady throughout the window of its start, both participants hold a reminder after a run in [start - window, start), and a participant's was written in that window iff no run before the window had found the booking due at the start it then had |
| Reminders.RescheduledIsNotRemindedAgain | app/services/booking_service.py:361-379 | a reachable run, with coverage as promised, whose rescheduled booking has only the reminder of its earlier start |
| Overdues.OverdueWhenPastEnd | app/jobs/booking_jobs.py:86-92 | over every run a participant holds an overdue notice iff an earlier run of the job came strictly after the end the booking then had while it was confirmed |
| Overdues.PastEndTellsBoth | app/jobs/booking_jobs.py:94-127 | a run after the end of a confirmed booking leaves both participants a notice in every later state |
| Overdues.UpToEndTellsNobody | app/jobs/booking_jobs.py:88-91 | a run at or before the end, or of a booking not confirmed, writes no notice of it |
| Ratings.AggregationIsExact | app/services/review_service.py:184-196 | every GROUP BY bucket is the plain count of its rating along the provider's reviews in any order, the buckets sum to the review count, and weighted to the sum of the ratings |
| Ratings.AverageIsClose | app/services/review_service.py:169-182 | the reported average is within half a hundredth of the exact one and between 1 and 5, or 0 without reviews |
| Ratings.RaisedRatingIsNotWorse | app/services/review_summary_service.py:169-194 | raising any review's rating never lowers any provider's reported average or sentiment band |
| Ratings.GoodReviewIsNotWorse | app/services/review_summary_service.py:149-194 | adding a review rated at least the exact current average never lowers the reported average or the sentiment band |
| Ratings.GoodRequestIsNotWorse | app/services/review_service.py:69-76 | the same of the request that writes a review with such a rating |
| Ratings.SentimentFitsAverage | app/services/review_summary_service.py:169-194 | the sentiment against the exact average: positive above 4.495 and not below, favorable and mixed likewise from 3.495 and 2.495, none iff there are no reviews |
| ReviewSummary.SelectStats | app/services/review_service.py:170-175 | count and sum over the rows, in whatever order, are the number of reviews and the weighted sum of the buckets |
| ReviewSummary.GroupRatings | app/services/review_service.py:185-192 | grouping any list of ratings yields one group for each rating that occurs, with its plain count |
| ReviewSummary.SelectGroups | app/services/review_service.py:185-192 | one group for each rating that occurs among the provider's reviews, with its exact count |
| ReviewSummary.Distribute | app/services/review_service.py:194-196 | the loop fills every rating from 1 to 5, zero where no group exists, whatever the order of the groups |
| ReviewSummary.GetProviderReviewSummary | app/services/review_service.py:151-203 | answers the specified metrics or the specified 404 or 400, and the lost connection exactly when it ends before the trips that answer takes |
| FailedRecords.ResultSurvivesExactly | app/services/review_summary_service.py:207-220 | in every state of every run a failed record holds a result iff an earlier write of that job's completed record raised |
| FailedRecords.FailedWithResult | app/services/review_summary_service.py:207-220 | for every job and report there is a run that stores a failed record holding the report |
| QueueProtocol.InvKept | app/services/review_summary_service.py:56-67 | every step of enqueuers, workers, crashes and expiry keeps: list order and conservation, each job in one place, each record at its job's stage |
| QueueProtocol.QueueConservesOrder | app/workers/review_worker.py:78-87 | in every run what was pushed is what was popped followed by what waits, in that order, and no job is pushed or popped twice |
| QueueProtocol.PushedJobsPartition | app/workers/review_worker.py:78-101 | every pushed job is waiting, in the hands of exactly one worker, done, or lost |
| QueueProtocol.RecordsNeverGoBack | app/services/review_summary_service.py:109-139 | a record's stage only grows from queued over processing to finished, whatever expires, crashes or fails, and a finished record never changes |
| QueueProtocol.RecordsAreWellFormed | app/services/review_summary_service.py:207-220 | in every run a completed record has a result and no error, a failed one an error, a queued or processing one neither |
| RecordProviders.RecordsNameTheirProvider | app/services/review_summary_service.py:46-67 | in every state of every run a live record of a pushed job names the provider the item was pushed for |
| SummaryWorker.EnqueueSummaryJob | app/services/review_summary_service.py:27-75 | exact answer, record and list for every failure: the record is stored before the item is pushed, and a failed push leaves a queued record without item; a run of the protocol |
| SummaryWorker.Compute | app/services/review_summary_service.py:125-205 | metrics and sentiment band of the present reviews, or the provider's error, and the lost connection exactly when it ends before the trips that answer takes |
| SummaryWorker.Conclude | app/services/review_summary_service.py:207-220 | what is stored and returned for every combination of computation outcome and failing writes, as steps of the protocol |
| SummaryWorker.ProcessSummaryJob | app/services/review_summary_service.py:100-220 | the stored record and the answer as a function of the found record, the reviews, the connection and the failing commands; the job ends done or lost; a run of the protocol |
| SummaryWorker.ProcessedIsExact | app/services/review_summary_service.py:109-220 | exactly which failing commands and answers leave a completed record, a failed one, a failed one with a result, or none |
| SummaryWorker.StoredReportIsExact | app/services/review_summary_service.py:141-211 | the record stored without faults against the plain list of ratings: count, occurrences of each rating, average within half a hundredth, sentiment of the exact average |
| SummaryWorker.RefusalsAreRecorded | app/services/review_summary_service.py:126-139 | a missing provider and a user who is none: the endpoint's 404 or 400 and the failed record's error |
| SummaryWorker.ErrorsAreRecorded | app/services/review_summary_service.py:126-220 | which error a failed record gives, for every answer and failing commands |
| SummaryWorker.SynchronousAndQueuedAgree | app/services/review_summary_service.py:141-205 | without faults the queued job records the metrics the synchronous endpoint answers on the same state with the band of their average, or the corresponding error |
| ReviewWorker.VerdictIsExact | app/services/review_summary_service.py:109-220 | a taken task leaves a completed record iff its provider is one, its connection lasts for the queries and no command fails; a failed one iff a failure occurs and can still be written |
| ReviewWorker.WorkerTurn | app/workers/review_worker.py:78-107 | after any steps of others, one turn takes the first item unless the pop fails or the list is empty; deployment, remaining faults and log are those of `AfterTurn`; it counts exactly when a record was left |
| ReviewWorker.RunWorker | app/workers/review_worker.py:34-110 | with any steps of others between its turns, what it takes, stores and counts is a function of deployment, failing commands, turns and limit, stopping at the first turn that reaches the limit; every taken task is done with its record or lost; the return value is the number of completed plus failed records, and of the completed ones iff no task it takes meets the conditions of a recorded failure |
| ReviewWorker.NothingIsLost | app/workers/review_worker.py:78-107 | while its Redis commands succeed, whatever others do, every task it takes is counted, and the count is that of successes iff every provider is one and every connection lasts |
| ReviewWorker.AloneCountsAll | app/workers/review_worker.py:70-76 | a worker alone whose Redis commands succeed counts the least of the list's length, the turns and the limit |
| ReviewWorker.CountedFailure | app/workers/review_worker.py:95-99 | for every store and one-item list: a job whose database connection is lost at once is counted, and its record is failed |
| SchedulerProtocol.AtMostOneLoop | app/jobs/scheduler.py:31-72 | over any starts, endings and stops with no start inside a stop: at most one live loop, `is_running` tells of it, none after a stop |
| SchedulerProtocol.StartDuringStop | app/jobs/scheduler.py:40-71 | after a start, every continuation without a start inside a stop keeps at most one live loop and a truthful `is_running`, iff no stop was in progress; otherwise completing the stop leaves a live loop that is forgotten; two loops are live at once already iff the awaited one had not ended |
| SchedulerProtocol.ForgottenLoop | app/jobs/scheduler.py:63-71 | a run with a start while the awaited loop is live: a live loop that `is_running` denies, and two loops after the next start |
| SchedulerProtocol.ForgottenAfterEnd | app/jobs/scheduler.py:66-71 | the same with a start after the awaited loop has ended and before the stop resumes |
| Scheduler.BackgroundJobScheduler.Start | app/jobs/scheduler.py:35-56 | is the protocol's start on the object's fields, keeps the invariant, and leaves the scheduler running when there is an event loop |
| Scheduler.BackgroundJobScheduler.Stop | app/jobs/scheduler.py:58-72 | is the protocol's stop, after which no loop is live |
| Scheduler.BackgroundJobScheduler.RunLoop | app/jobs/scheduler.py:74-89 | the store after any number of ticks, each job of each tick failing or not on its own; nothing once stopped |
| Scheduler.ExecuteJobs | app/jobs/scheduler.py:91-113 | a job that raises, at any round trip, leaves no trace unless its commit was applied, and does not keep the other from its whole effect |
| Scheduler.TickRunsBoth | app/jobs/scheduler.py:91-113 | with lasting connections a tick is the reminder job followed by the overdue job; when one is lost at once, the other alone |
| Scheduler.LoopIsItsCommittedRuns | app/jobs/scheduler.py:74-113 | the loop's effect is that of exactly the job runs whose commit was applied, as events of the engine, so what is proved of runs applies to it; bookings are unchanged |
| Paging.OrderIsUnique | app/services/booking_service.py:281-285 | two listings of the same bookings in (start, id) order are equal |
| Paging.ListBookings | app/services/booking_service.py:261-286 | a page of the one ordered list of exactly the rows the role and the status filter select |
| Paging.PageIsWindow | app/services/booking_service.py:281-285 | a page is the window of at most `limit` rows from `skip` on |
| Paging.PagesShowExactlyTheVisible | app/services/booking_service.py:241-286 | the pages at 0, L, 2L, ... join to the one list, ascending by start and then id, of exactly the bookings `get_booking_by_id` would grant the caller, under the filter, each once |
| ReviewRace.OneReviewPerBooking | app/models/review.py:41-48 | with checks and inserts of any requests interleaved among all other steps, no booking has two live reviews, and every review is rated 1 to 5 and belongs to its completed booking's participants |
| ReviewRace.ConflictIsDuplicate | app/services/review_service.py:78-88 | under any interleaving, with validated ratings, inserting a checked review under a new id is answered 409 iff its booking has a review by then, and succeeds otherwise |
| ReviewRace.CreateConflictIsDuplicate | app/services/review_service.py:57-88 | a validated request with a new id is answered 409 iff it is a second review of the customer's own completed booking |
| ReviewRace.CheckThenInsertIsCreate | app/services/review_service.py:57-88 | a check directly followed by its insert is the serial request |
| BookingRace.InsertNeedsNoOvertaking | app/services/booking_service.py:190-207 | the insert of a checked booking keeps the calendar iff no active booking committed since its check overlaps its slot |
| BookingRace.CalendarSurvives | app/services/booking_service.py:189-225 | over every interleaving of checks, inserts and other requests, all calendars up to a state are disjoint iff no insert up to it was overtaken after its check |
| BookingRace.DoubleBooking | app/services/booking_service.py:190-207 | for every slot and provider there is such a run with two overlapping active bookings |
| BookingRace.CheckThenInsertIsCreate | app/services/booking_service.py:161-225 | a check directly followed by its insert is the serial request and is never overtaken |

## Left out

- Routing, request schemas, exception handlers, health probes, authentication, registration and login: plumbing and cryptography over libraries; the caller is a given user with a role, and an event in the name of a user that does not exist changes nothing.
- Concurrent updates and cancellations of bookings: `BookingRace` interleaves creations only, the other booking writes are serial.
- Message and title texts, name and email search, JSON encoding, logging, `created_at` and `updated_at` of bookings, reviews and job records: no decision depends on them.
- `list_notifications`, `list_reviews`, `list_providers`, `get_review_by_id` and `get_summary_job`: plain reads that would repeat what is shown for listing and reading bookings.
- Cascading deletion of users or bookings, and notifications without a booking: no service operation causes either.
- Float representation of averages: averages are rationals, rounded to a nearest hundredth.
- A Redis command that times out after taking effect and is sent again (`app/core/redis.py:22`): it can push an item twice.
- Malformed queue items, a session that cannot be opened and keyboard interrupts in the worker: a turn here starts from a well-formed item.
- The wait between the ticks of the scheduler loop: `Reminders` states coverage over the distances between committed runs.
- Two stops in progress at once: the protocol has one stop at a time.
- Several changed objects in one session: no modelled request has more than one, so the session holds one.
- Sessions.Session.Flush: a flush with nothing pending still counts as a round trip, as the commit that follows it does, so that one budget covers both.
- Scheduler.BackgroundJobScheduler.Stop: a stop that completes without a start in between; the interleaved case is `SchedulerProtocol.StartDuringStop`.
- Engine.BookingStep: lets a user of any role create a booking, as the service function does; what the routes add can only remove runs.
