/** The worker's loop, and what its return value counts. */
module ReviewWorker {
  import opened Domain
  import opened Ratings
  import opened ReviewSummary
  import opened Sessions
  import opened SummaryJobs
  import opened SummaryWorker
  import Q = QueueProtocol

  /** One turn of the loop: what other processes do before it, the committed store its session sees, the
      time, and how many round trips its connection lasts. */
  datatype Turn = Turn(others: seq<Q.Step>, store: Store, now: Instant, budget: nat)

  /** A task the worker took: its turn, the record it found, and which of the commands from then on
      fail. */
  datatype Handled = Handled(task: Task, turn: Turn, found: Option<Record>, faults: seq<bool>) {
    function Answer(round: real -> int): Result<Report> {
      Answered(Reported(turn.store, task.provider, round), turn.budget)
    }

    /** The record left in Redis, and what the processing returned unless an exception lost the job. */
    function Outcome(round: real -> int): (Option<Record>, Result<Record>) {
      Processed(found, task.provider, Answer(round), faults)
    }

    predicate Counts(round: real -> int) {
      Outcome(round).1.Success?
    }

    predicate Stores(status: JobStatus, round: real -> int) {
      Counts(round) && Outcome(round).1.value.status == status
    }

    predicate FoundQueued() {
      found.Some? ==> WellFormed(found.value) && found.value.status == JobQueued
    }

    /** The summary can be computed. */
    predicate Computable() {
      IsProvider(turn.store, task.provider) && turn.budget >= 3
    }

    /** The provider is missing or no provider, and the session lives to see it. */
    predicate Refused() {
      !IsProvider(turn.store, task.provider) && turn.budget > 0
    }

    /** The job fails, and its failure can still be written. */
    predicate FailsOnRecord() {
      && !Fault(faults, 0) && !Fault(faults, 1)
      && if Computable() then Fault(faults, 2) && !Fault(faults, 3)
         else !Fault(faults, 2) || (Refused() && !Fault(faults, 3))
    }
  }

  /** Which record a task leaves is decided by the provider, the connection and the failing commands. */
  lemma VerdictIsExact(h: Handled, round: real -> int)
    requires h.FoundQueued()
    ensures h.Stores(JobFailed, round) <==> h.FailsOnRecord()
    ensures h.Stores(JobCompleted, round) <==>
            !Fault(h.faults, 0) && !Fault(h.faults, 1) && h.Computable() && !Fault(h.faults, 2)
    ensures h.Counts(round) <==> h.Stores(JobCompleted, round) || h.Stores(JobFailed, round)
  {
    ProcessedIsExact(h.found, h.task.provider, h.Answer(round), h.faults);
  }

  // ---------- The loop as a function of its inputs ----------

  /** Where the worker has arrived: the deployment, the faults still to come, and the tasks taken. */
  datatype Progress = Progress(q: Q.State, faults: seq<bool>, log: seq<Handled>)

  /** The task at the front of the list. */
  function Front(q: Q.State, turn: Turn, faults: seq<bool>): Handled
    requires q.queue != []
  {
    Handled(q.queue[0], turn, Stored(q.records, q.queue[0].job), faults)
  }

  /** The deployment after the worker has taken the front task and let go of it. */
  function AfterTask(q: Q.State, h: Handled, round: real -> int): Q.State
    requires q.queue != []
  {
    var (record, result) := h.Outcome(round);
    q.(queue := q.queue[1..],
       popped := q.popped + [h.task],
       records := if record.Some? then q.records[h.task.job := record.value] else q.records,
       place := q.place[h.task.job := Left(result, h.faults)])
  }

  function AfterTurn(p: Progress, w: Id, turn: Turn, round: real -> int): Progress {
    var q, rest := Meanwhile(p.q, w, turn.others), Rest(p.faults, 1);
    if Fault(p.faults, 0) || q.queue == [] then Progress(q, rest, p.log)
    else
      var h := Front(q, turn, rest);
      Progress(AfterTask(q, h, round), Rest(rest, Commands(h.Answer(round), rest)), p.log + [h])
  }

  /** How many of the tasks are counted. */
  function Count(log: seq<Handled>, round: real -> int): nat {
    if log == [] then 0 else Count(log[..|log| - 1], round) + if log[|log| - 1].Counts(round) then 1 else 0
  }

  predicate Full(log: seq<Handled>, limit: Option<nat>, round: real -> int) {
    limit.Some? && Count(log, round) >= limit.value
  }

  /** The first `n` turns one after the other. */
  function AfterTurns(p: Progress, w: Id, turns: seq<Turn>, n: nat, round: real -> int): Progress
    requires n <= |turns|
  {
    if n == 0 then p else AfterTurn(AfterTurns(p, w, turns, n - 1, round), w, turns[n - 1], round)
  }

  /** After `n` turns, and not before, the worker stops: the limit is reached, or no turn is left. */
  ghost predicate StopsAfter(start: Progress, w: Id, turns: seq<Turn>, n: nat, limit: Option<nat>, round: real -> int) {
    && n <= |turns|
    && (n < |turns| ==> Full(AfterTurns(start, w, turns, n, round).log, limit, round))
    && NotFullBefore(start, w, turns, n, limit, round)
  }

  ghost predicate NotFullBefore(start: Progress, w: Id, turns: seq<Turn>, n: nat, limit: Option<nat>,
                                round: real -> int)
    requires n <= |turns|
  {
    forall m :: 0 <= m < n ==> !Full(AfterTurns(start, w, turns, m, round).log, limit, round)
  }

  // ---------- The records behind the count ----------

  function Recorded(log: seq<Handled>, status: JobStatus, round: real -> int): nat {
    if log == [] then 0
    else Recorded(log[..|log| - 1], status, round) + if log[|log| - 1].Stores(status, round) then 1 else 0
  }

  ghost predicate NoneFails(log: seq<Handled>) {
    forall n :: 0 <= n < |log| ==> !log[n].FailsOnRecord()
  }

  ghost predicate AllQueued(log: seq<Handled>) {
    forall n :: 0 <= n < |log| ==> log[n].FoundQueued()
  }

  /** The count is that of the completed plus that of the failed records, and that of the completed ones
      alone exactly when no task fails on record. */
  lemma {:induction false} CountIsOfRecords(log: seq<Handled>, round: real -> int)
    requires AllQueued(log)
    ensures Count(log, round) == Recorded(log, JobCompleted, round) + Recorded(log, JobFailed, round)
    ensures Recorded(log, JobFailed, round) == 0 <==> NoneFails(log)
  {
    if log != [] {
      var earlier := log[..|log| - 1];
      CountIsOfRecords(earlier, round);
      VerdictIsExact(log[|log| - 1], round);
      assert NoneFails(log) <==> NoneFails(earlier) && !log[|log| - 1].FailsOnRecord() by {
        forall n | 0 <= n < |log| - 1
          ensures log[n] == earlier[n]
        {
        }
      }
    }
  }

  /** The entry's job is done, with the record it left unless that has expired, or lost. */
  ghost predicate Entry(q: Q.State, h: Handled, round: real -> int) {
    && h.FoundQueued()
    && h.task.job in q.place
    && if h.Counts(round) then
         && q.place[h.task.job] == Q.Done
         && (h.task.job in q.records ==> q.records[h.task.job] == h.Outcome(round).1.value)
       else q.place[h.task.job].Lost?
  }

  ghost predicate Entries(q: Q.State, log: seq<Handled>, round: real -> int) {
    forall n :: 0 <= n < |log| ==> Entry(q, log[n], round)
  }

  /** Settled jobs stay settled, with their records unless expired. */
  ghost predicate SettledStay(q: Q.State, q': Q.State) {
    forall j :: j in q.place && Q.Settled(q.place[j]) ==>
                  && j in q'.place && q'.place[j] == q.place[j]
                  && (j in q'.records ==> j in q.records && q'.records[j] == q.records[j])
  }

  lemma ForeignKeeps(q: Q.State, w: Id, st: Q.Step)
    requires Q.Inv(q) && Foreign(q, w, st)
    ensures var q' := Q.Next(q, st); Q.Inv(q') && (w !in q.hands ==> w !in q'.hands) && SettledStay(q, q')
  {
    Q.InvKept(q, st);
    OthersHands(q, w, st);
    forall j | j in q.place
      ensures Q.Forward(q, Q.Next(q, st), j)
    {
      Q.StepForward(q, st, j);
    }
  }

  lemma OthersHands(q: Q.State, w: Id, st: Q.Step)
    requires Foreign(q, w, st)
    ensures w !in q.hands ==> w !in Q.Next(q, st).hands
  {
  }

  lemma {:induction false} MeanwhileKeeps(q: Q.State, w: Id, others: seq<Q.Step>)
    requires Q.Inv(q)
    ensures var q' := Meanwhile(q, w, others); Q.Inv(q') && (w !in q.hands ==> w !in q'.hands) && SettledStay(q, q')
  {
    if others != [] {
      var earlier, st := others[..|others| - 1], others[|others| - 1];
      MeanwhileKeeps(q, w, earlier);
      if Foreign(Meanwhile(q, w, earlier), w, st) {
        ForeignKeeps(Meanwhile(q, w, earlier), w, st);
      }
    }
  }

  lemma EntriesMeanwhile(q: Q.State, w: Id, others: seq<Q.Step>, log: seq<Handled>, round: real -> int)
    requires Q.Inv(q) && Entries(q, log, round)
    ensures Entries(Meanwhile(q, w, others), log, round)
  {
    MeanwhileKeeps(q, w, others);
    forall n | 0 <= n < |log|
      ensures Entry(Meanwhile(q, w, others), log[n], round)
    {
      assert Entry(q, log[n], round);
    }
  }

  /** The front task is new, and its record, unless expired, is a queued one. */
  lemma FrontIsQueued(q: Q.State, turn: Turn, faults: seq<bool>)
    requires Q.Inv(q) && q.queue != []
    ensures Front(q, turn, faults).FoundQueued()
    ensures Q.At(q, q.queue[0], Q.Waiting)
  {
  }

  lemma EntriesAfterTask(q: Q.State, log: seq<Handled>, turn: Turn, faults: seq<bool>, round: real -> int)
    requires Q.Inv(q) && q.queue != [] && Entries(q, log, round)
    ensures var h := Front(q, turn, faults); Entries(AfterTask(q, h, round), log + [h], round)
  {
    var h := Front(q, turn, faults);
    var q' := AfterTask(q, h, round);
    FrontIsQueued(q, turn, faults);
    forall n | 0 <= n < |log|
      ensures Entry(q', log[n], round)
    {
      assert Entry(q, log[n], round);
    }
    NewEntry(q, h, round);
  }

  lemma NewEntry(q: Q.State, h: Handled, round: real -> int)
    requires q.queue != [] && h.FoundQueued()
    ensures Entry(AfterTask(q, h, round), h, round)
  {
    assert h.Counts(round) ==> h.Outcome(round).0 == Some(h.Outcome(round).1.value);
  }

  lemma EntriesAfterTurn(p: Progress, w: Id, turn: Turn, round: real -> int)
    requires Q.Inv(p.q) && Entries(p.q, p.log, round)
    ensures var r := AfterTurn(p, w, turn, round); Entries(r.q, r.log, round)
  {
    var q := Meanwhile(p.q, w, turn.others);
    MeanwhileKeeps(p.q, w, turn.others);
    EntriesMeanwhile(p.q, w, turn.others, p.log, round);
    if !Fault(p.faults, 0) && q.queue != [] {
      EntriesAfterTask(q, p.log, turn, Rest(p.faults, 1), round);
    }
  }

  lemma EntriesAreQueued(q: Q.State, log: seq<Handled>, round: real -> int)
    requires Entries(q, log, round)
    ensures AllQueued(log)
  {
    forall n | 0 <= n < |log|
      ensures log[n].FoundQueued()
    {
      assert Entry(q, log[n], round);
    }
  }

  // ---------- The loop ----------

  /** The list is not empty: pop, process, let go. */
  method HandleFront(redis: Redis, w: Id, turn: Turn, round: real -> int) returns (processed: bool)
    requires redis.Valid() && w !in redis.now.hands && ReviewTable(turn.store)
    requires !Fault(redis.faults, 0) && redis.queue != []
    modifies redis
    ensures redis.Valid()
    ensures var rest := Rest(old(redis.faults), 1);
            var h := Front(old(redis.now), turn, rest);
            && redis.now == AfterTask(old(redis.now), h, round)
            && redis.faults == Rest(rest, Commands(h.Answer(round), rest))
            && processed == h.Counts(round)
  {
    ghost var q := redis.now;
    ghost var h := Front(q, turn, Rest(redis.faults, 1));
    var item := redis.PopFront(w);
    var task := item.value.value;
    var base := new Database(turn.store);
    var db := new Session(base, turn.now, Link(turn.budget, false));
    var done := ProcessSummaryJob(redis, db, w, task, round);
    TaskLetGo(q, redis.now, w, h, round);
    return done.Success?;
  }

  lemma TaskLetGo(q: Q.State, q': Q.State, w: Id, h: Handled, round: real -> int)
    requires Q.Enabled(q, Q.Pop(w)) && h.task == q.queue[0] && h.found == Stored(q.records, h.task.job)
    requires Released(Q.Next(q, Q.Pop(w)), q', w, h.task.job, Left(h.Outcome(round).1, h.faults))
    requires q'.queue == q.queue[1..]
    requires var record := h.Outcome(round).0;
             q'.records == if record.Some? then q.records[h.task.job := record.value] else q.records
    ensures q' == AfterTask(q, h, round)
  {
    assert q'.hands == q.hands[w := Q.Popped(h.task)] - {w} == q.hands;
    assert q'.place == q.place[h.task.job := Left(h.Outcome(round).1, h.faults)];
  }

  /** One turn. A failed pop and a timeout take nothing; the turn is counted exactly when the task it
      took left a record. */
  method WorkerTurn(redis: Redis, w: Id, turn: Turn, round: real -> int, ghost log: seq<Handled>)
    returns (processed: bool, ghost longer: seq<Handled>)
    requires redis.Valid() && w !in redis.now.hands && ReviewTable(turn.store)
    modifies redis
    ensures redis.Valid() && w !in redis.now.hands
    ensures Q.Inv(old(redis.now))
    ensures Progress(redis.now, redis.faults, longer) ==
            AfterTurn(Progress(old(redis.now), old(redis.faults), log), w, turn, round)
    ensures Count(longer, round) == Count(log, round) + if processed then 1 else 0
  {
    Q.InvAt(redis.states, redis.steps, |redis.steps|);
    MeanwhileKeeps(redis.now, w, turn.others);
    redis.PassTime(w, turn.others);
    if redis.queue == [] || Fault(redis.faults, 0) {
      var item := redis.PopFront(w);
      return false, log;
    }
    ghost var h := Front(redis.now, turn, Rest(redis.faults, 1));
    processed := HandleFront(redis, w, turn, round);
    longer := log + [h];
    assert longer[..|log|] == log;
  }

  /** Where the worker has arrived after each turn. */
  ghost predicate Trace(ps: seq<Progress>, w: Id, turns: seq<Turn>, round: real -> int) {
    && 1 <= |ps| <= |turns| + 1
    && forall n :: 0 <= n < |ps| - 1 ==> Stepped(ps, w, turns, round, n)
  }

  ghost predicate Stepped(ps: seq<Progress>, w: Id, turns: seq<Turn>, round: real -> int, n: nat)
    requires n < |turns| && n + 1 < |ps|
  {
    ps[n + 1] == AfterTurn(ps[n], w, turns[n], round)
  }

  lemma TraceGrows(ps: seq<Progress>, w: Id, turns: seq<Turn>, round: real -> int, p: Progress)
    requires Trace(ps, w, turns, round) && |ps| <= |turns|
    requires p == AfterTurn(ps[|ps| - 1], w, turns[|ps| - 1], round)
    ensures Trace(ps + [p], w, turns, round)
  {
    var longer := ps + [p];
    forall n | 0 <= n < |longer| - 1
      ensures Stepped(longer, w, turns, round, n)
    {
      if n < |ps| - 1 {
        assert Stepped(ps, w, turns, round, n);
      }
    }
  }

  lemma {:induction false} TraceIsTurns(ps: seq<Progress>, w: Id, turns: seq<Turn>, round: real -> int, n: nat)
    requires Trace(ps, w, turns, round) && n < |ps|
    ensures ps[n] == AfterTurns(ps[0], w, turns, n, round)
  {
    if n > 0 {
      TraceIsTurns(ps, w, turns, round, n - 1);
      assert Stepped(ps, w, turns, round, n - 1);
    }
  }

  /** Until the last turn of the trace, the limit is not reached. */
  ghost predicate BelowLimit(ps: seq<Progress>, limit: Option<nat>, round: real -> int) {
    forall n :: 0 <= n < |ps| - 1 ==> !Full(ps[n].log, limit, round)
  }

  /** One turn, with its place in the trace. */
  method PollOnce(redis: Redis, w: Id, turns: seq<Turn>, n: nat, round: real -> int, ghost ps: seq<Progress>)
    returns (processed: bool, ghost longer: seq<Progress>)
    requires redis.Valid() && w !in redis.now.hands && n < |turns| && ReviewTable(turns[n].store)
    requires Trace(ps, w, turns, round) && |ps| == n + 1
    requires ps[n].q == redis.now && ps[n].faults == redis.faults && Entries(redis.now, ps[n].log, round)
    modifies redis
    ensures redis.Valid() && w !in redis.now.hands
    ensures Trace(longer, w, turns, round) && |longer| == n + 2 && longer[..n + 1] == ps
    ensures var p := longer[n + 1];
            p.q == redis.now && p.faults == redis.faults && Entries(redis.now, p.log, round)
    ensures Count(longer[n + 1].log, round) == Count(ps[n].log, round) + if processed then 1 else 0
  {
    ghost var log;
    processed, log := WorkerTurn(redis, w, turns[n], round, ps[n].log);
    ghost var p := Progress(redis.now, redis.faults, log);
    EntriesAfterTurn(ps[n], w, turns[n], round);
    TraceGrows(ps, w, turns, round, p);
    longer := ps + [p];
  }

  /** The polling loop. */
  method Poll(redis: Redis, w: Id, maxJobs: Option<nat>, turns: seq<Turn>, round: real -> int)
    returns (processed: nat, ghost ps: seq<Progress>)
    requires redis.Valid() && w !in redis.now.hands
    requires forall n :: 0 <= n < |turns| ==> ReviewTable(turns[n].store)
    modifies redis
    ensures redis.Valid() && w !in redis.now.hands
    ensures Trace(ps, w, turns, round) && ps[0] == Progress(old(redis.now), old(redis.faults), [])
    ensures var p := ps[|ps| - 1];
            && p.q == redis.now && p.faults == redis.faults && Entries(redis.now, p.log, round)
            && processed == Count(p.log, round)
    ensures BelowLimit(ps, maxJobs, round)
    ensures |ps| <= |turns| ==> maxJobs.Some? && processed >= maxJobs.value
    ensures maxJobs.Some? ==> processed <= maxJobs.value
  {
    processed, ps := 0, [Progress(redis.now, redis.faults, [])];
    var n := 0;
    while n < |turns|
      invariant 0 <= n <= |turns| && |ps| == n + 1
      invariant redis.Valid() && w !in redis.now.hands
      invariant Trace(ps, w, turns, round) && ps[0] == Progress(old(redis.now), old(redis.faults), [])
      invariant ps[n].q == redis.now && ps[n].faults == redis.faults && Entries(redis.now, ps[n].log, round)
      invariant processed == Count(ps[n].log, round)
      invariant BelowLimit(ps, maxJobs, round)
      invariant maxJobs.Some? ==> processed <= maxJobs.value
    {
      if maxJobs.Some? && processed >= maxJobs.value {
        break;
      }
      var done;
      done, ps := PollOnce(redis, w, turns, n, round, ps);
      if done {
        processed := processed + 1;
      }
      n := n + 1;
    }
  }

  lemma TraceStops(ps: seq<Progress>, w: Id, turns: seq<Turn>, limit: Option<nat>, round: real -> int)
    requires Trace(ps, w, turns, round) && BelowLimit(ps, limit, round)
    requires |ps| <= |turns| ==> Full(ps[|ps| - 1].log, limit, round)
    ensures StopsAfter(ps[0], w, turns, |ps| - 1, limit, round)
    ensures ps[|ps| - 1] == AfterTurns(ps[0], w, turns, |ps| - 1, round)
  {
    forall n | 0 <= n < |ps|
      ensures ps[n] == AfterTurns(ps[0], w, turns, n, round)
    {
      TraceIsTurns(ps, w, turns, round, n);
    }
  }

  /** Polls until the limit is reached or, after the given turns, a signal stops the worker, with any
      steps of other processes between the turns. What it takes, stores and returns is a function of the
      deployment, the failing commands, the turns and the limit. Every entry of its log is settled: done,
      with the record it left unless expired, or lost. The number returned is the number of completed
      plus the number of failed records; it is the number of completed ones exactly when no task it
      takes meets the conditions under which a failure is recorded. */
  method RunWorker(redis: Redis, w: Id, ready: bool, maxJobs: Option<nat>, turns: seq<Turn>, round: real -> int)
    returns (processed: nat, ghost used: nat)
    requires redis.Valid() && w !in redis.now.hands
    requires forall n :: 0 <= n < |turns| ==> ReviewTable(turns[n].store)
    modifies redis
    ensures redis.Valid() && w !in redis.now.hands
    ensures ready ==>
              var start := Progress(old(redis.now), old(redis.faults), []);
              && StopsAfter(start, w, turns, used, maxJobs, round)
              && var p := AfterTurns(start, w, turns, used, round);
                 && redis.now == p.q && redis.faults == p.faults
                 && Entries(p.q, p.log, round)
                 && processed == Count(p.log, round)
                 && processed == Recorded(p.log, JobCompleted, round) + Recorded(p.log, JobFailed, round)
                 && (processed == Recorded(p.log, JobCompleted, round) <==> NoneFails(p.log))
    ensures maxJobs.Some? ==> processed <= maxJobs.value
    ensures !ready ==> processed == 0 && redis.now == old(redis.now)
  {
    processed, used := 0, 0;
    if !ready {
      return;
    }
    ghost var ps;
    processed, ps := Poll(redis, w, maxJobs, turns, round);
    used := |ps| - 1;
    TraceStops(ps, w, turns, maxJobs, round);
    EntriesAreQueued(redis.now, ps[used].log, round);
    CountIsOfRecords(ps[used].log, round);
  }

  // ---------- Workers whose Redis commands succeed ----------

  ghost predicate Faultless(log: seq<Handled>) {
    forall n :: 0 <= n < |log| ==> log[n].faults == []
  }

  /** Without a failing Redis command no task is lost, whatever other processes do; the count is that of
      the completed jobs exactly when every task's provider is one and its connection lasted. */
  lemma {:induction false} NothingIsLost(start: Progress, w: Id, turns: seq<Turn>, n: nat, round: real -> int)
    requires n <= |turns| && start.faults == [] && start.log == []
    ensures var p := AfterTurns(start, w, turns, n, round);
            && p.faults == [] && Faultless(p.log)
            && Count(p.log, round) == |p.log|
            && (NoneFails(p.log) <==> forall k :: 0 <= k < |p.log| ==> p.log[k].Computable())
  {
    if n > 0 {
      NothingIsLost(start, w, turns, n - 1, round);
      FaultlessTurn(AfterTurns(start, w, turns, n - 1, round), w, turns[n - 1], round);
    }
    FaultlessFails(AfterTurns(start, w, turns, n, round).log);
  }

  lemma FaultlessFails(log: seq<Handled>)
    requires Faultless(log)
    ensures NoneFails(log) <==> forall k :: 0 <= k < |log| ==> log[k].Computable()
  {
    forall k | 0 <= k < |log|
      ensures log[k].FailsOnRecord() <==> !log[k].Computable()
    {
    }
  }

  lemma FaultlessTurn(p: Progress, w: Id, turn: Turn, round: real -> int)
    requires p.faults == [] && Faultless(p.log) && Count(p.log, round) == |p.log|
    ensures var r := AfterTurn(p, w, turn, round);
            r.faults == [] && Faultless(r.log) && Count(r.log, round) == |r.log|
  {
    var q := Meanwhile(p.q, w, turn.others);
    if q.queue != [] {
      var h := Front(q, turn, []);
      assert (p.log + [h])[..|p.log|] == p.log;
      assert h.Counts(round);
    }
  }

  function Least(a: nat, b: nat): nat {
    if a < b then a else b
  }

  ghost predicate Alone(turns: seq<Turn>) {
    forall n :: 0 <= n < |turns| ==> turns[n].others == []
  }

  /** `log` took the first tasks of the list, one in each turn, and `queue` is left. */
  ghost predicate TookFront(list: seq<Task>, turns: seq<Turn>, n: nat, log: seq<Handled>, queue: seq<Task>) {
    && |log| == Least(|list|, n) && n <= |turns|
    && queue == list[|log|..]
    && forall k :: 0 <= k < |log| ==> log[k].task == list[k] && log[k].turn == turns[k]
  }

  lemma {:induction false} TraceOfTurns(start: Progress, w: Id, turns: seq<Turn>, n: nat, round: real -> int)
    returns (ps: seq<Progress>)
    requires n <= |turns|
    ensures Trace(ps, w, turns, round) && |ps| == n + 1 && ps[0] == start
  {
    if n == 0 {
      ps := [start];
    } else {
      ps := TraceOfTurns(start, w, turns, n - 1, round);
      var p := AfterTurn(ps[n - 1], w, turns[n - 1], round);
      TraceGrows(ps, w, turns, round, p);
      ps := ps + [p];
    }
  }

  lemma {:induction false} TraceTakesFront(ps: seq<Progress>, w: Id, turns: seq<Turn>, n: nat, round: real -> int)
    requires Trace(ps, w, turns, round) && n < |ps|
    requires ps[0].faults == [] && ps[0].log == [] && Alone(turns)
    ensures TookFront(ps[0].q.queue, turns, n, ps[n].log, ps[n].q.queue) && ps[n].faults == []
  {
    if n > 0 {
      TraceTakesFront(ps, w, turns, n - 1, round);
      assert Stepped(ps, w, turns, round, n - 1);
      TakesOneMore(ps[0].q.queue, ps[n - 1], w, turns, n - 1, round, ps[n]);
    }
  }

  lemma TakesFront(start: Progress, w: Id, turns: seq<Turn>, n: nat, round: real -> int)
    requires n <= |turns| && start.faults == [] && start.log == [] && Alone(turns)
    ensures var p := AfterTurns(start, w, turns, n, round); TookFront(start.q.queue, turns, n, p.log, p.q.queue)
  {
    var ps := TraceOfTurns(start, w, turns, n, round);
    TraceTakesFront(ps, w, turns, n, round);
    TraceIsTurns(ps, w, turns, round, n);
  }

  lemma TakesOneMore(list: seq<Task>, p: Progress, w: Id, turns: seq<Turn>, n: nat, round: real -> int, r: Progress)
    requires n < |turns| && r == AfterTurn(p, w, turns[n], round) && p.faults == [] && turns[n].others == []
    requires TookFront(list, turns, n, p.log, p.q.queue)
    ensures TookFront(list, turns, n + 1, r.log, r.q.queue) && r.faults == []
  {
    assert Meanwhile(p.q, w, []) == p.q;
  }

  /** A worker alone, without failing Redis commands, counts as many tasks as the list, the turns and
      the limit allow. */
  lemma AloneCountsAll(start: Progress, w: Id, turns: seq<Turn>, n: nat, limit: Option<nat>, round: real -> int)
    requires start.faults == [] && start.log == [] && Alone(turns)
    requires StopsAfter(start, w, turns, n, limit, round)
    ensures Count(AfterTurns(start, w, turns, n, round).log, round) ==
            Least(Least(|start.q.queue|, |turns|), if limit.Some? then limit.value else |turns|)
  {
    TakesFront(start, w, turns, n, round);
    NothingIsLost(start, w, turns, n, round);
    if n > 0 {
      TakesFront(start, w, turns, n - 1, round);
      NothingIsLost(start, w, turns, n - 1, round);
    }
  }

  lemma FailedTask(q: Q.State, task: Task, turn: Turn, round: real -> int)
    requires Q.Inv(q) && q.queue == [task] && turn.budget == 0
    ensures var h := Front(q, turn, []);
            var q' := AfterTask(q, h, round);
            Count([h], round) == 1 && task.job in q'.records && q'.records[task.job].status == JobFailed
  {
    var h := Front(q, turn, []);
    FrontIsQueued(q, turn, []);
    VerdictIsExact(h, round);
    NewEntry(q, h, round);
    assert [h][..0] == [];
  }

  lemma OneTurn(q: Q.State, w: Id, task: Task, turn: Turn, round: real -> int)
    requires q.queue == [task] && turn.others == []
    ensures var h := Front(q, turn, []);
            AfterTurn(Progress(q, [], []), w, turn, round) == Progress(AfterTask(q, h, round), [], [h])
  {
    assert Meanwhile(q, w, []) == q;
  }

  /** The return value counts a job whose database connection was lost at once and whose record is
      failed: for every worker, store and list of one task. */
  method CountedFailure(redis: Redis, w: Id, task: Task, turn: Turn, round: real -> int) returns (processed: nat)
    requires redis.Valid() && w !in redis.now.hands && redis.queue == [task] && redis.faults == []
    requires ReviewTable(turn.store) && turn.budget == 0 && turn.others == []
    modifies redis
    ensures processed == 1
    ensures task.job in redis.records && redis.records[task.job].status == JobFailed
  {
    ghost var q, start := redis.now, Progress(redis.now, redis.faults, []);
    Q.InvAt(redis.states, redis.steps, |redis.steps|);
    ghost var used;
    processed, used := RunWorker(redis, w, true, None, [turn], round);
    FailedTask(q, task, turn, round);
    OneTurn(q, w, task, turn, round);
    OneTurnIsAll(start, w, turn, used, round);
  }

  lemma OneTurnIsAll(start: Progress, w: Id, turn: Turn, used: nat, round: real -> int)
    requires StopsAfter(start, w, [turn], used, None, round)
    ensures used == 1
    ensures AfterTurns(start, w, [turn], used, round) == AfterTurn(start, w, turn, round)
  {
    assert AfterTurns(start, w, [turn], 0, round) == start;
  }
}
