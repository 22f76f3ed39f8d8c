/** Redis as the service uses it, the enqueuer, and the worker: each of their runs is a run of the
    queue protocol. */
module SummaryWorker {
  import opened Counting
  import opened Domain
  import opened Listing
  import opened Ratings
  import opened ReviewSummary
  import opened SummaryJobs
  import opened Sessions
  import Q = QueueProtocol

  predicate Fault(faults: seq<bool>, n: nat) {
    n < |faults| && faults[n]
  }

  /** The faults left after `n` more commands. */
  function Rest(faults: seq<bool>, n: nat): seq<bool> {
    if |faults| <= n then [] else faults[n..]
  }

  /** A step that a process other than worker `w` can take. */
  predicate Foreign(q: Q.State, w: Id, st: Q.Step) {
    Q.Enabled(q, st) && Q.Actor(st) != Some(w)
  }

  /** What other processes than `w` do, as far as they can. */
  function Meanwhile(q: Q.State, w: Id, others: seq<Q.Step>): Q.State {
    if others == [] then q
    else
      var before, st := Meanwhile(q, w, others[..|others| - 1]), others[|others| - 1];
      if Foreign(before, w, st) then Q.Next(before, st) else before
  }

  /** Other processes do take the steps they can. */
  lemma MeanwhileMoves(q: Q.State, w: Id, others: seq<Q.Step>, st: Q.Step)
    requires Q.Enabled(Meanwhile(q, w, others), st) && Q.Actor(st) != Some(w)
    ensures Meanwhile(q, w, others + [st]) == Q.Next(Meanwhile(q, w, others), st)
  {
    assert (others + [st])[..|others|] == others;
  }

  class Redis {
    var records: map<Id, Record>
    var queue: seq<Task>
    var faults: seq<bool>  // which of the next commands fail; those after them succeed
    var now: Q.State  // the whole deployment, which no process sees
    ghost var states: seq<Q.State>
    ghost var steps: seq<Q.Step>

    /** What the data structures hold is where a run of the protocol has arrived. */
    ghost predicate Valid()
      reads this
    {
      Arrived() && now.records == records && now.queue == queue
    }

    ghost predicate Arrived()
      reads this
    {
      Q.Run(states, steps) && states[|steps|] == now
    }

    constructor ()
      ensures Valid() && now == Q.INITIAL && faults == []
    {
      records, queue, faults, now := map[], [], [], Q.INITIAL;
      states, steps := [Q.INITIAL], [];
    }

    method Advance(st: Q.Step)
      requires Arrived() && Q.Enabled(now, st)
      modifies this`now, this`states, this`steps
      ensures Arrived() && now == Q.Next(old(now), st)
    {
      Q.RunGrowsBy(states, steps, st);
      now := Q.Next(now, st);
      states, steps := states + [now], steps + [st];
    }

    /** What the other processes do in the meantime. */
    method PassTime(w: Id, others: seq<Q.Step>)
      requires Valid()
      modifies this`records, this`queue, this`now, this`states, this`steps
      ensures Valid() && now == Meanwhile(old(now), w, others)
    {
      for n := 0 to |others|
        invariant Arrived() && now == Meanwhile(old(now), w, others[..n])
      {
        assert others[..n + 1][..n] == others[..n];
        if Foreign(now, w, others[n]) {
          Advance(others[n]);
        }
      }
      assert others[..|others|] == others;
      records, queue := now.records, now.queue;
    }

    method Command() returns (r: Result<()>)
      modifies this`faults
      ensures r == if Fault(old(faults), 0) then Failure(Unavailable) else Success(())
      ensures faults == Rest(old(faults), 1)
    {
      r := if Fault(faults, 0) then Failure(Unavailable) else Success(());
      faults := Rest(faults, 1);
    }

    /** GET, as the step `st` of the protocol. */
    method Get(job: Id, st: Q.Step) returns (r: Result<Option<Record>>)
      requires Valid() && Q.Enabled(now, st)
      requires Q.Next(now, st).records == records && Q.Next(now, st).queue == queue
      modifies this`faults, this`now, this`states, this`steps
      ensures faults == Rest(old(faults), 1)
      ensures Valid()
      ensures Fault(old(faults), 0) ==> r == Failure(Unavailable) && now == old(now)
      ensures !Fault(old(faults), 0) ==>
                && r == Success(if job in records then Some(records[job]) else None)
                && now == Q.Next(old(now), st)
    {
      var _ :- Command();
      Advance(st);
      return Success(if job in records then Some(records[job]) else None);
    }

    /** SET with an expiry, as the step `st` of the protocol. */
    method Set(job: Id, record: Record, st: Q.Step) returns (r: Result<()>)
      requires Valid() && Q.Enabled(now, st)
      requires Q.Next(now, st).records == records[job := record] && Q.Next(now, st).queue == queue
      modifies this`records, this`faults, this`now, this`states, this`steps
      ensures faults == Rest(old(faults), 1)
      ensures Valid()
      ensures Fault(old(faults), 0) ==> r == Failure(Unavailable) && now == old(now) && records == old(records)
      ensures !Fault(old(faults), 0) ==>
                r == Success(()) && now == Q.Next(old(now), st) && records == old(records)[job := record]
    {
      var _ :- Command();
      Advance(st);
      records := records[job := record];
      return Success(());
    }

    /** RPUSH. */
    method PushBack(task: Task) returns (r: Result<()>)
      requires Valid() && task in now.staged
      modifies this`queue, this`faults, this`now, this`states, this`steps
      ensures Valid()
      ensures Fault(old(faults), 0) ==> r == Failure(Unavailable) && now == old(now)
      ensures !Fault(old(faults), 0) ==> r == Success(()) && now == Q.Next(old(now), Q.Push(task))
    {
      var _ :- Command();
      Advance(Q.Push(task));
      queue := queue + [task];
      return Success(());
    }

    /** BLPOP: the first item, removed; none when the wait times out on an empty list. */
    method PopFront(w: Id) returns (r: Result<Option<Task>>)
      requires Valid() && w !in now.hands
      modifies this`queue, this`faults, this`now, this`states, this`steps
      ensures faults == Rest(old(faults), 1)
      ensures Valid()
      ensures Fault(old(faults), 0) ==> r == Failure(Unavailable) && now == old(now)
      ensures !Fault(old(faults), 0) && old(queue) == [] ==> r == Success(None) && now == old(now)
      ensures !Fault(old(faults), 0) && old(queue) != [] ==>
                r == Success(Some(old(queue)[0])) && now == Q.Next(old(now), Q.Pop(w))
    {
      var _ :- Command();
      if queue == [] {
        return Success(None);
      }
      var first := queue[0];
      Advance(Q.Pop(w));
      queue := queue[1..];
      return Success(Some(first));
    }
  }

  predicate IsProvider(s: Store, id: Id) {
    id in s.users && s.users[id].role == Provider
  }

  /** Validates the provider, stores the queued record, then pushes the item. A push that fails leaves
      a queued record that no worker will ever see. */
  method EnqueueSummaryJob(redis: Redis, db: Session, provider: Id, job: Id) returns (r: Result<Record>)
    requires redis.Valid() && job !in redis.now.place
    modifies redis, db`budget
    ensures redis.Valid()
    ensures r == if old(db.budget) == 0 then Failure(Unavailable)
                 else if provider !in db.tx.users then Failure(NotFound)
                 else if !IsProvider(db.tx, provider) then Failure(BadRequest)
                 else if Fault(old(redis.faults), 0) || Fault(old(redis.faults), 1) then Failure(Unavailable)
                 else Success(NewRecord(provider))
    ensures redis.queue == if r.Success? then old(redis.queue) + [Task(job, provider)] else old(redis.queue)
    ensures redis.records == if old(db.budget) > 0 && IsProvider(db.tx, provider) && !Fault(old(redis.faults), 0)
                             then old(redis.records)[job := NewRecord(provider)] else old(redis.records)
    ensures r.Success? ==> redis.now.place == old(redis.now).place[job := Q.Waiting]
  {
    var found :- db.GetUser(provider);
    if found.None? {
      return Failure(NotFound);
    }
    if found.value.role != Provider {
      return Failure(BadRequest);
    }
    var task := Task(job, provider);
    var _ :- redis.Set(job, NewRecord(provider), Q.SetRecord(task));
    var pushed := redis.PushBack(task);
    if pushed.Failure? {
      redis.Advance(Q.Abandon(task));
      return Failure(Unavailable);
    }
    return Success(NewRecord(provider));
  }

  // ---------- One job ----------

  /** The stored record and the worker's result, given the record found, the computation's answer and
      which of its (at most four) commands fail: the GET, the write as processing, the write of the
      outcome, the write of a failure. */
  function Processed(found: Option<Record>, provider: Id, answer: Result<Report>,
                     faults: seq<bool>): (Option<Record>, Result<Record>) {
    if Fault(faults, 0) || Fault(faults, 1) then (found, Failure(Unavailable)) else
    var data := Started(found, provider);
    if Computed(answer) then
      if !Fault(faults, 2) then (Some(Finished(data, answer)), Success(Finished(data, answer)))
      else if !Fault(faults, 3) then (Some(Aborted(Finished(data, answer))), Success(Aborted(Finished(data, answer))))
      else (Some(data), Failure(Unavailable))
    else if !Fault(faults, 2) then (Some(Aborted(data)), Success(Aborted(data)))
    else (Some(data), Failure(Unavailable))
  }

  /** How many commands that takes. */
  function Commands(answer: Result<Report>, faults: seq<bool>): nat {
    if Fault(faults, 0) then 1
    else if Fault(faults, 1) then 2
    else if Computed(answer) && Fault(faults, 2) then 4
    else 3
  }

  /** Where it leaves the job: done, or lost before or after its record said that it is processing. */
  function Left(result: Result<Record>, faults: seq<bool>): Q.Place {
    if result.Success? then Q.Done else Q.Lost(if Fault(faults, 0) || Fault(faults, 1) then 0 else 1)
  }

  function Stored(records: map<Id, Record>, job: Id): Option<Record> {
    if job in records then Some(records[job]) else None
  }

  /** The answer a job's computation reaches on a state. */
  function Reported(s: Store, provider: Id, round: real -> int): Result<Report> {
    if provider !in s.users then Failure(NotFound)
    else if s.users[provider].role != Provider then Failure(BadRequest)
    else Success(ReportOf(s, provider, round))
  }

  /** The computation of a job, without its writes; a lost database connection raises. */
  method Compute(db: Session, provider: Id, round: real -> int) returns (r: Result<Report>)
    requires ReviewTable(db.tx)
    modifies db`budget
    ensures r == Answered(Reported(db.tx, provider, round), old(db.budget))
  {
    var found :- db.GetUser(provider);
    if found.None? {
      return Failure(NotFound);
    }
    if found.value.role != Provider {
      return Failure(BadRequest);
    }
    var summary :- Aggregate(db, provider, round);
    var sentiment;
    if summary.count == 0 {
      sentiment := NoReviews;
    } else if summary.average >= 450 {
      sentiment := Positive;
    } else if summary.average >= 350 {
      sentiment := Favorable;
    } else if summary.average >= 250 {
      sentiment := Mixed;
    } else {
      sentiment := Dissatisfied;
    }
    return Success(Report(summary, sentiment));
  }

  /** The worker has let go of the job; nothing else moved. */
  ghost predicate Released(q: Q.State, q': Q.State, w: Id, job: Id, place: Q.Place) {
    && q'.hands == q.hands - {w}
    && q'.popped == q.popped && q'.pushed == q.pushed && q'.staged == q.staged
    && q'.place == q.place[job := place]
  }

  /** The worker now holds `h`; nothing else moved. */
  ghost predicate Holds(q: Q.State, q': Q.State, w: Id, h: Q.Hand) {
    && q'.hands == q.hands[w := h]
    && q'.popped == q.popped && q'.pushed == q.pushed && q'.staged == q.staged
    && q'.place == q.place
  }

  method MarkAsProcessing(redis: Redis, w: Id, task: Task, data: Record) returns (r: Result<Record>)
    requires redis.Valid()
    requires w in redis.now.hands && redis.now.hands[w] == Q.Loaded(task, data)
    modifies redis
    ensures redis.Valid() && redis.queue == old(redis.queue)
    ensures redis.faults == Rest(old(redis.faults), 1)
    ensures r == if Fault(old(redis.faults), 0) then Failure(Unavailable) else Success(data)
    ensures redis.records == if r.Success? then old(redis.records)[task.job := data] else old(redis.records)
    ensures r.Failure? ==> Released(old(redis.now), redis.now, w, task.job, Q.Lost(0))
    ensures r.Success? ==> Holds(old(redis.now), redis.now, w, Q.Working(task, data))
  {
    var marked := redis.Set(task.job, data, Q.MarkProcessing(w));
    if marked.Failure? {
      redis.Advance(Q.Drop(w));
      return Failure(Unavailable);
    }
    return Success(data);
  }

  /** Reads the record and writes it as processing; a failed command loses the job. */
  method TakeUp(redis: Redis, w: Id, task: Task) returns (r: Result<Record>)
    requires redis.Valid()
    requires w in redis.now.hands && redis.now.hands[w] == Q.Popped(task)
    modifies redis
    ensures redis.Valid() && redis.queue == old(redis.queue)
    ensures redis.faults == Rest(old(redis.faults), if Fault(old(redis.faults), 0) then 1 else 2)
    ensures r.Failure? <==> Fault(old(redis.faults), 0) || Fault(old(redis.faults), 1)
    ensures r.Failure? ==>
              && r == Failure(Unavailable)
              && redis.records == old(redis.records)
              && Released(old(redis.now), redis.now, w, task.job, Q.Lost(0))
    ensures r.Success? ==>
              && r.value == Started(Stored(old(redis.records), task.job), task.provider)
              && redis.records == old(redis.records)[task.job := r.value]
              && Holds(old(redis.now), redis.now, w, Q.Working(task, r.value))
  {
    var found := redis.Get(task.job, Q.Read(w));
    if found.Failure? {
      redis.Advance(Q.Drop(w));
      return Failure(Unavailable);
    }
    r := MarkAsProcessing(redis, w, task, Started(found.value, task.provider));
  }

  /** The exception handler: writes the failure, or loses the job. */
  method RecordFailure(redis: Redis, w: Id, task: Task, data: Record) returns (r: Result<Record>)
    requires redis.Valid()
    requires w in redis.now.hands && redis.now.hands[w] == Q.Failing(task, data)
    modifies redis
    ensures redis.Valid() && redis.queue == old(redis.queue)
    ensures r == if Fault(old(redis.faults), 0) then Failure(Unavailable) else Success(data)
    ensures redis.faults == Rest(old(redis.faults), 1)
    ensures redis.records == if r.Success? then old(redis.records)[task.job := data] else old(redis.records)
    ensures Released(old(redis.now), redis.now, w, task.job, if r.Success? then Q.Done else Q.Lost(1))
  {
    var written := redis.Set(task.job, data, Q.WriteFailure(w));
    if written.Failure? {
      redis.Advance(Q.Drop(w));
      return Failure(Unavailable);
    }
    return Success(data);
  }

  /** Writes the outcome; when that raises, or the computation did, writes the failure. */
  method Conclude(redis: Redis, w: Id, task: Task, current: Record, computed: Result<Report>)
    returns (r: Result<Record>)
    requires redis.Valid()
    requires w in redis.now.hands && redis.now.hands[w] == Q.Working(task, current)
    modifies redis
    ensures redis.Valid() && redis.queue == old(redis.queue)
    ensures r == if Computed(computed) then
                   if !Fault(old(redis.faults), 0) then Success(Finished(current, computed))
                   else if !Fault(old(redis.faults), 1) then Success(Aborted(Finished(current, computed)))
                   else Failure(Unavailable)
                 else if !Fault(old(redis.faults), 0) then Success(Aborted(current)) else Failure(Unavailable)
    ensures redis.records == if r.Success? then old(redis.records)[task.job := r.value] else old(redis.records)
    ensures redis.faults == Rest(old(redis.faults), if Computed(computed) && Fault(old(redis.faults), 0) then 2 else 1)
    ensures Released(old(redis.now), redis.now, w, task.job, if r.Success? then Q.Done else Q.Lost(1))
  {
    var data := current;
    if Computed(computed) {
      data := Finished(data, computed);
      var written := redis.Set(task.job, data, Q.WriteOutcome(w, computed));
      if written.Success? {
        return Success(data);
      }
      redis.Advance(Q.OutcomeFails(w, computed));
    } else {
      redis.Advance(Q.QueryFails(w));
    }
    r := RecordFailure(redis, w, task, Aborted(data));
  }

  method ProcessSummaryJob(redis: Redis, db: Session, w: Id, task: Task, round: real -> int)
    returns (r: Result<Record>)
    requires redis.Valid() && ReviewTable(db.tx)
    requires w in redis.now.hands && redis.now.hands[w] == Q.Popped(task)
    modifies redis, db`budget
    ensures redis.Valid() && redis.queue == old(redis.queue)
    ensures var answer := Answered(Reported(db.tx, task.provider, round), old(db.budget));
            var (record, result) := Processed(Stored(old(redis.records), task.job), task.provider, answer,
                old(redis.faults));
            && r == result
            && redis.records == if record.Some? then old(redis.records)[task.job := record.value]
                  else old(redis.records)
    ensures var answer := Answered(Reported(db.tx, task.provider, round), old(db.budget));
            && redis.faults == Rest(old(redis.faults), Commands(answer, old(redis.faults)))
            && Released(old(redis.now), redis.now, w, task.job, Left(r, old(redis.faults)))
  {
    r := TakeUp(redis, w, task);
    if r.Failure? {
      assert old(redis.records) ==
             if task.job in old(redis.records) then old(redis.records)[task.job := old(redis.records)[task.job]]
                 else old(redis.records);
      return;
    }
    var computed := Compute(db, task.provider, round);
    r := Conclude(redis, w, task, r.value, computed);
  }

  /** What became of a job whose computation gave `answer`: completed, failed, or lost. A failed record
      holds a result exactly when the computation succeeded, the write of its outcome raised, and the
      write of the failure did not. */
  lemma ProcessedIsExact(found: Option<Record>, provider: Id, answer: Result<Report>, faults: seq<bool>)
    requires found.Some? ==> WellFormed(found.value) && found.value.status == JobQueued
    ensures var r, taken := Processed(found, provider, answer, faults).1, !Fault(faults, 0) && !Fault(faults, 1);
            && (r.Success? && r.value.status == JobCompleted <==> taken && answer.Success? && !Fault(faults, 2))
            && (r.Success? && r.value.status == JobFailed <==>
                  && taken
                  && (if answer.Success? then Fault(faults, 2) && !Fault(faults, 3)
                      else !Fault(faults, 2) || (Computed(answer) && !Fault(faults, 3))))
            && (r.Success? && r.value.status == JobFailed && r.value.result.Some? <==>
                  taken && answer.Success? && Fault(faults, 2) && !Fault(faults, 3))
            && (r.Success? ==> Stage(r.value.status) == 2 && WellFormed(r.value))
  {
  }

  /** The completed record a job stores whose commands succeed and whose connection lasts, against the
      plain list of the provider's ratings in any order: their number, how often each occurs, an average
      within half a hundredth of the exact one, and the sentiment of the exact average. */
  lemma StoredReportIsExact(s: Store, found: Option<Record>, provider: Id, round: real -> int, budget: nat,
                            order: seq<Id>)
    requires ReviewTable(s) && IsProvider(s, provider) && budget >= 3 && Nearest(round)
    requires Lists(order, ReviewsFor(s, provider))
    ensures var record := Processed(found, provider, Answered(Reported(s, provider, round), budget), []).0;
            && record.Some? && record.value.status == JobCompleted
            && record.value.result.Some? && record.value.error == None
            && var report, ratings := record.value.result.value, RatingsOf(s.reviews, order);
               && report.summary.count == |ratings|
               && (forall v :: v in report.summary.distribution <==> 1 <= v <= 5)
               && (forall v :: 1 <= v <= 5 ==> report.summary.distribution[v] == CountOf(ratings, v))
               && Sum(ratings) >= 0
               && FitsAverage(report.sentiment, Sum(ratings), |ratings|)
               && if |ratings| == 0 then report.summary.average == 0
                  else
                    -0.5 <= report.summary.average as real - 100.0 * (Sum(ratings) as real / |ratings| as real) <= 0.5
  {
    AggregationIsExact(s, provider, order);
    SentimentFitsAverage(s, provider, round);
    AverageIsClose(s, provider, round);
  }

  /** A missing provider and a user who is none: what the endpoint answers and what the record says. */
  lemma RefusalsAreRecorded(s: Store, found: Option<Record>, provider: Id, round: real -> int, budget: nat)
    requires !IsProvider(s, provider) && budget > 0
    ensures var record := Processed(found, provider, Answered(Reported(s, provider, round), budget), []).0;
            && Answered(Summarise(s, provider, round), budget) ==
               Failure(if provider in s.users then BadRequest else NotFound)
            && record.Some? && record.value.status == JobFailed
            && record.value.error == Some(if provider in s.users then NotAProvider else ProviderNotFound)
  {
  }

  /** The error a failed record gives: what the computation found wrong with the provider, if that could
      be written, and an exception otherwise. */
  lemma ErrorsAreRecorded(found: Option<Record>, provider: Id, answer: Result<Report>, faults: seq<bool>)
    requires found.Some? ==> WellFormed(found.value) && found.value.status == JobQueued
    ensures var record := Processed(found, provider, answer, faults).0;
            record.Some? && record.value.status == JobFailed ==>
              record.value.error == Some(if Fault(faults, 2) then Raised
                                         else if answer == Failure(NotFound) then ProviderNotFound
                                         else if answer == Failure(BadRequest) then NotAProvider
                                         else Raised)
  {
  }

  /** Without faults, a finished job's record says what the synchronous endpoint answers on the same
      state: the same metrics, with the band of their average, or the corresponding error. */
  lemma SynchronousAndQueuedAgree(s: Store, found: Option<Record>, provider: Id, round: real -> int)
    requires found.Some? ==> WellFormed(found.value) && found.value.status == JobQueued
    ensures var answer := Summarise(s, provider, round);
            var (record, result) := Processed(found, provider, Reported(s, provider, round), []);
            && result.Success? && record == Some(result.value) && WellFormed(result.value)
            && (forall m :: answer == Success(m) <==>
                  && result.value.status == JobCompleted
                  && result.value.result == Some(Report(m, Band(m.count, m.average))))
            && (answer == Failure(NotFound) <==> result.value.error == Some(ProviderNotFound))
            && (answer == Failure(BadRequest) <==> result.value.error == Some(NotAProvider))
  {
  }
}
