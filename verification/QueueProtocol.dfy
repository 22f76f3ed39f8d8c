/** Enqueuers, the Redis list, any number of workers, and crashes between any two commands. Each
    Redis command either happens once or has no effect. */
module QueueProtocol {
  import opened Domain
  import opened Ratings
  import opened SummaryJobs

  /** What a worker that has popped a task is about to do. */
  datatype Hand =
    | Popped(task: Task)  // read the record
    | Loaded(task: Task, data: Record)  // write it as processing
    | Working(task: Task, data: Record)  // compute, and write the outcome
    | Failing(task: Task, data: Record)  // write the failure, in the exception handler

  /** Where a job is: history kept for the statements, not stored by the program. */
  datatype Place = Staged | Abandoned | Waiting | InFlight(worker: Id) | Done | Lost(stage: nat)

  datatype State = State(records: map<Id, Record>,
                         staged: set<Task>,  // record written, item not yet pushed
                         queue: seq<Task>,
                         hands: map<Id, Hand>,  // the workers that hold a task
                         pushed: seq<Task>,
                         popped: seq<Task>,
                         place: map<Id, Place>)

  const INITIAL := State(map[], {}, [], map[], [], [], map[])

  datatype Step =
    | SetRecord(task: Task)
    | Push(task: Task)
    | Abandon(task: Task)  // the push failed, or the enqueuer died before it
    | Pop(worker: Id)
    | Read(worker: Id)
    | MarkProcessing(worker: Id)
    | WriteOutcome(worker: Id, answer: Result<Report>)
    | OutcomeFails(worker: Id, answer: Result<Report>)  // the write of the outcome raised
    | QueryFails(worker: Id)  // the computation raised
    | WriteFailure(worker: Id)
    | Drop(worker: Id)  // the worker died, or a command outside the handler raised
    | Expire(job: Id)

  predicate Enabled(q: State, st: Step) {
    match st
    case SetRecord(task) => task.job !in q.place
    case Push(task) => task in q.staged
    case Abandon(task) => task in q.staged
    case Pop(w) => w !in q.hands && q.queue != []
    case Read(w) => w in q.hands && q.hands[w].Popped?
    case MarkProcessing(w) => w in q.hands && q.hands[w].Loaded?
    case WriteOutcome(w, answer) => w in q.hands && q.hands[w].Working? && Computed(answer)
    case OutcomeFails(w, answer) => w in q.hands && q.hands[w].Working? && Computed(answer)
    case QueryFails(w) => w in q.hands && q.hands[w].Working?
    case WriteFailure(w) => w in q.hands && q.hands[w].Failing?
    case Drop(w) => w in q.hands
    case Expire(job) => job in q.records
  }

  /** The worker that takes the step; enqueuers and the clock are none. */
  function Actor(st: Step): Option<Id> {
    match st
    case Pop(w) => Some(w)
    case Read(w) => Some(w)
    case MarkProcessing(w) => Some(w)
    case WriteOutcome(w, _) => Some(w)
    case OutcomeFails(w, _) => Some(w)
    case QueryFails(w) => Some(w)
    case WriteFailure(w) => Some(w)
    case Drop(w) => Some(w)
    case _ => None
  }

  function HandStage(h: Hand): nat {
    if h.Popped? || h.Loaded? then 0 else 1
  }

  /** Worker `w` writes `data` to its job's record and is free again. */
  function Complete(q: State, w: Id, data: Record): State
    requires w in q.hands
  {
    var job := q.hands[w].task.job;
    q.(records := q.records[job := data], hands := q.hands - {w}, place := q.place[job := Done])
  }

  function Next(q: State, st: Step): State
    requires Enabled(q, st)
  {
    match st
    case SetRecord(task) =>
      q.(records := q.records[task.job := NewRecord(task.provider)],
         staged := q.staged + {task},
         place := q.place[task.job := Staged])
    case Push(task) =>
      q.(staged := q.staged - {task}, queue := q.queue + [task], pushed := q.pushed + [task],
         place := q.place[task.job := Waiting])
    case Abandon(task) =>
      q.(staged := q.staged - {task}, place := q.place[task.job := Abandoned])
    case Pop(w) =>
      q.(queue := q.queue[1..], popped := q.popped + [q.queue[0]], hands := q.hands[w := Popped(q.queue[0])],
         place := q.place[q.queue[0].job := InFlight(w)])
    case Read(w) =>
      var task := q.hands[w].task;
      var found := if task.job in q.records then Some(q.records[task.job]) else None;
      q.(hands := q.hands[w := Loaded(task, Started(found, task.provider))])
    case MarkProcessing(w) =>
      var h := q.hands[w];
      q.(records := q.records[h.task.job := h.data], hands := q.hands[w := Working(h.task, h.data)])
    case WriteOutcome(w, answer) => Complete(q, w, Finished(q.hands[w].data, answer))
    case OutcomeFails(w, answer) =>
      var h := q.hands[w];
      q.(hands := q.hands[w := Failing(h.task, Aborted(Finished(h.data, answer)))])
    case QueryFails(w) =>
      var h := q.hands[w];
      q.(hands := q.hands[w := Failing(h.task, Aborted(h.data))])
    case WriteFailure(w) => Complete(q, w, q.hands[w].data)
    case Drop(w) =>
      var h := q.hands[w];
      q.(hands := q.hands - {w}, place := q.place[h.task.job := Lost(HandStage(h))])
    case Expire(job) => q.(records := q.records - {job})
  }

  // ---------- Invariant ----------

  /** First in, first out, and no job twice. */
  ghost predicate Fifo(q: State) {
    && q.pushed == q.popped + q.queue
    && (forall m, n :: 0 <= m < n < |q.pushed| ==> q.pushed[m].job != q.pushed[n].job)
  }

  predicate PlacePushed(p: Place) {
    p.Waiting? || PlacePopped(p)
  }

  predicate PlacePopped(p: Place) {
    p.InFlight? || p.Done? || p.Lost?
  }

  ghost predicate At(q: State, task: Task, p: Place) {
    task.job in q.place && q.place[task.job] == p
  }

  ghost predicate WasPushed(pushed: seq<Task>, job: Id) {
    exists n :: 0 <= n < |pushed| && pushed[n].job == job
  }

  lemma PushedOneMore(pushed: seq<Task>, task: Task, job: Id)
    ensures WasPushed(pushed + [task], job) <==> WasPushed(pushed, job) || task.job == job
  {
    var longer := pushed + [task];
    assert longer[|pushed|] == task;
    if WasPushed(pushed, job) {
      var n :| 0 <= n < |pushed| && pushed[n].job == job;
      assert longer[n].job == job;
    }
  }

  /** The history agrees with the queue and the workers, in both directions. */
  ghost predicate Placed(q: State) {
    && (forall t :: t in q.staged ==> At(q, t, Staged))
    && (forall n :: 0 <= n < |q.queue| ==> At(q, q.queue[n], Waiting))
    && (forall n :: 0 <= n < |q.popped| ==> q.popped[n].job in q.place && PlacePopped(q.place[q.popped[n].job]))
    && (forall w :: w in q.hands ==> At(q, q.hands[w].task, InFlight(w)))
    && (forall j :: j in q.place && q.place[j].InFlight? ==>
          q.place[j].worker in q.hands && q.hands[q.place[j].worker].task.job == j)
    && (forall j :: j in q.place && PlacePushed(q.place[j]) ==> WasPushed(q.pushed, j))
    && (forall t, u :: t in q.staged && u in q.staged && t.job == u.job ==> t == u)
  }

  function PlaceStage(q: State, j: Id): nat
    requires j in q.place
  {
    match q.place[j]
    case InFlight(w) => if w in q.hands then HandStage(q.hands[w]) else 0
    case Done => 2
    case Lost(stage) => stage
    case _ => 0
  }

  predicate HandSound(h: Hand) {
    match h
    case Popped(_) => true
    case Loaded(_, data) => data.status == JobProcessing && WellFormed(data)
    case Working(_, data) => data.status == JobProcessing && WellFormed(data)
    case Failing(_, data) => data.status == JobFailed && WellFormed(data)
  }

  /** Every stored record is well formed and at the stage its job has reached. */
  ghost predicate RecordsSound(q: State) {
    && (forall j :: j in q.records ==>
          j in q.place && WellFormed(q.records[j]) && Stage(q.records[j].status) == PlaceStage(q, j))
    && (forall w :: w in q.hands ==> HandSound(q.hands[w]))
  }

  ghost predicate Inv(q: State) {
    Fifo(q) && Placed(q) && RecordsSound(q)
  }

  /** A staged job has not been pushed. */
  lemma StagedIsNew(q: State, task: Task)
    requires Fifo(q) && Placed(q) && task in q.staged
    ensures forall n :: 0 <= n < |q.pushed| ==> q.pushed[n].job != task.job
  {
    forall n | 0 <= n < |q.pushed|
      ensures q.pushed[n].job != task.job
    {
      if n < |q.popped| {
        assert q.pushed[n] == q.popped[n];
      } else {
        assert q.pushed[n] == q.queue[n - |q.popped|];
      }
    }
  }

  lemma PushFifo(q: State, task: Task)
    requires Fifo(q) && Placed(q) && task in q.staged
    ensures Fifo(Next(q, Push(task)))
  {
    var q' := Next(q, Push(task));
    StagedIsNew(q, task);
    assert q'.pushed == q'.popped + q'.queue;
  }

  lemma PopFifo(q: State, w: Id)
    requires Fifo(q) && w !in q.hands && q.queue != []
    ensures Fifo(Next(q, Pop(w)))
  {
    var q' := Next(q, Pop(w));
    assert q'.pushed == q'.popped + q'.queue;
  }

  lemma SameFifo(q: State, q': State)
    requires Fifo(q) && q'.pushed == q.pushed && q'.popped == q.popped && q'.queue == q.queue
    ensures Fifo(q')
  {
  }

  lemma FifoKept(q: State, st: Step)
    requires Fifo(q) && Placed(q) && Enabled(q, st)
    ensures Fifo(Next(q, st))
  {
    match st
    case Push(task) => PushFifo(q, task);
    case Pop(w) => PopFifo(q, w);
    case _ => SameFifo(q, Next(q, st));
  }

  lemma QueueDistinct(q: State)
    requires Fifo(q)
    ensures forall m, n :: 0 <= m < n < |q.queue| ==> q.queue[m].job != q.queue[n].job
  {
    forall m, n | 0 <= m < n < |q.queue|
      ensures q.queue[m].job != q.queue[n].job
    {
      assert q.pushed[|q.popped| + m] == q.queue[m] && q.pushed[|q.popped| + n] == q.queue[n];
    }
  }

  lemma SetRecordPlaced(q: State, task: Task)
    requires Inv(q) && task.job !in q.place
    ensures Placed(Next(q, SetRecord(task)))
  {
  }

  lemma PushPlaced(q: State, task: Task)
    requires Inv(q) && task in q.staged
    ensures Placed(Next(q, Push(task)))
  {
    var q' := Next(q, Push(task));
    forall j | j in q'.place && PlacePushed(q'.place[j])
      ensures WasPushed(q'.pushed, j)
    {
      PushedOneMore(q.pushed, task, j);
    }
  }

  lemma AbandonPlaced(q: State, task: Task)
    requires Inv(q) && task in q.staged
    ensures Placed(Next(q, Abandon(task)))
  {
  }

  lemma PopPlaced(q: State, w: Id)
    requires Inv(q) && w !in q.hands && q.queue != []
    ensures Placed(Next(q, Pop(w)))
  {
    var q' := Next(q, Pop(w));
    QueueDistinct(q);
    assert q.pushed[|q.popped|] == q.queue[0];
    forall j | j in q'.place && PlacePushed(q'.place[j])
      ensures WasPushed(q'.pushed, j)
    {
      if j == q.queue[0].job {
        assert q'.pushed[|q.popped|].job == j;
      }
    }
  }

  /** A worker's next command leaves its task where it is. */
  lemma HandPlaced(q: State, q': State, w: Id)
    requires Placed(q) && w in q.hands && w in q'.hands
    requires q'.hands == q.hands[w := q'.hands[w]] && q'.hands[w].task == q.hands[w].task
    requires q'.place == q.place && q'.staged == q.staged && q'.queue == q.queue
    requires q'.pushed == q.pushed && q'.popped == q.popped
    ensures Placed(q')
  {
  }

  /** A worker that lets go of its task leaves it done or lost. */
  lemma ReleasePlaced(q: State, q': State, w: Id, p: Place)
    requires Inv(q) && w in q.hands && (p.Done? || p.Lost?)
    requires q'.hands == q.hands - {w} && q'.place == q.place[q.hands[w].task.job := p]
    requires q'.staged == q.staged && q'.queue == q.queue && q'.pushed == q.pushed && q'.popped == q.popped
    ensures Placed(q')
  {
  }

  lemma PlacedKept(q: State, st: Step)
    requires Inv(q) && Enabled(q, st)
    ensures Placed(Next(q, st))
  {
    match st
    case SetRecord(task) => SetRecordPlaced(q, task);
    case Push(task) => PushPlaced(q, task);
    case Abandon(task) => AbandonPlaced(q, task);
    case Pop(w) => PopPlaced(q, w);
    case Read(w) => HandPlaced(q, Next(q, st), w);
    case MarkProcessing(w) => HandPlaced(q, Next(q, st), w);
    case OutcomeFails(w, _) => HandPlaced(q, Next(q, st), w);
    case QueryFails(w) => HandPlaced(q, Next(q, st), w);
    case WriteOutcome(w, _) => ReleasePlaced(q, Next(q, st), w, Done);
    case WriteFailure(w) => ReleasePlaced(q, Next(q, st), w, Done);
    case Drop(w) => ReleasePlaced(q, Next(q, st), w, Lost(HandStage(q.hands[w])));
    case Expire(_) =>
  }

  /** One worker, one job: no other hand is at the stage of this job. */
  lemma HandRecords(q: State, q': State, w: Id)
    requires Inv(q) && w in q.hands && w in q'.hands
    requires q'.hands == q.hands[w := q'.hands[w]] && q'.hands[w].task == q.hands[w].task && HandSound(q'.hands[w])
    requires q'.place == q.place
    requires var j := q.hands[w].task.job;
             || (q'.records == q.records && HandStage(q'.hands[w]) == HandStage(q.hands[w]))
             || (&& j in q'.records && q'.records == q.records[j := q'.records[j]]
                 && WellFormed(q'.records[j]) && Stage(q'.records[j].status) == HandStage(q'.hands[w]))
    ensures RecordsSound(q')
  {
  }

  lemma CompleteRecords(q: State, w: Id, data: Record)
    requires Inv(q) && w in q.hands && WellFormed(data) && Stage(data.status) == 2
    ensures RecordsSound(Complete(q, w, data))
  {
  }

  lemma DropRecords(q: State, w: Id)
    requires Inv(q) && w in q.hands
    ensures RecordsSound(Next(q, Drop(w)))
  {
  }

  lemma QueueRecords(q: State, st: Step)
    requires Inv(q) && Enabled(q, st)
    requires st.SetRecord? || st.Push? || st.Abandon? || st.Pop? || st.Expire?
    ensures RecordsSound(Next(q, st))
  {
  }

  lemma RecordsKept(q: State, st: Step)
    requires Inv(q) && Enabled(q, st)
    ensures RecordsSound(Next(q, st))
  {
    match st
    case Read(w) => HandRecords(q, Next(q, st), w);
    case MarkProcessing(w) => HandRecords(q, Next(q, st), w);
    case OutcomeFails(w, _) => HandRecords(q, Next(q, st), w);
    case QueryFails(w) => HandRecords(q, Next(q, st), w);
    case WriteOutcome(w, answer) => CompleteRecords(q, w, Finished(q.hands[w].data, answer));
    case WriteFailure(w) => CompleteRecords(q, w, q.hands[w].data);
    case Drop(w) => DropRecords(q, w);
    case _ => QueueRecords(q, st);
  }

  lemma InvKept(q: State, st: Step)
    requires Inv(q) && Enabled(q, st)
    ensures Inv(Next(q, st))
  {
    FifoKept(q, st);
    PlacedKept(q, st);
    RecordsKept(q, st);
  }

  // ---------- Runs ----------

  ghost predicate Run(qs: seq<State>, sts: seq<Step>) {
    && |qs| == |sts| + 1
    && qs[0] == INITIAL
    && forall n :: 0 <= n < |sts| ==> Taken(qs, sts, n)
  }

  ghost predicate Taken(qs: seq<State>, sts: seq<Step>, n: nat)
    requires n < |sts| && n + 1 < |qs|
  {
    Enabled(qs[n], sts[n]) && qs[n + 1] == Next(qs[n], sts[n])
  }

  lemma RunGrowsBy(qs: seq<State>, sts: seq<Step>, st: Step)
    requires Run(qs, sts) && Enabled(qs[|sts|], st)
    ensures Run(qs + [Next(qs[|sts|], st)], sts + [st])
  {
    var longer, steps := qs + [Next(qs[|sts|], st)], sts + [st];
    forall n | 0 <= n < |steps|
      ensures Taken(longer, steps, n)
    {
      if n < |sts| {
        assert Taken(qs, sts, n);
      }
    }
  }

  lemma {:induction false} InvAt(qs: seq<State>, sts: seq<Step>, n: nat)
    requires Run(qs, sts) && n < |qs|
    ensures Inv(qs[n])
  {
    if n > 0 {
      InvAt(qs, sts, n - 1);
      assert Taken(qs, sts, n - 1);
      InvKept(qs[n - 1], sts[n - 1]);
    }
  }

  /** Whatever enqueuers, workers and crashes do: what was pushed is what was popped followed by what
      waits, in that order, and no job was pushed or popped twice. */
  lemma QueueConservesOrder(qs: seq<State>, sts: seq<Step>, n: nat)
    requires Run(qs, sts) && n < |qs|
    ensures qs[n].pushed == qs[n].popped + qs[n].queue
    ensures forall i, j :: 0 <= i < j < |qs[n].pushed| ==> qs[n].pushed[i].job != qs[n].pushed[j].job
    ensures forall i, j :: 0 <= i < j < |qs[n].popped| ==> qs[n].popped[i].job != qs[n].popped[j].job
  {
    InvAt(qs, sts, n);
    forall i, j | 0 <= i < j < |qs[n].popped|
      ensures qs[n].popped[i].job != qs[n].popped[j].job
    {
      assert qs[n].pushed[i] == qs[n].popped[i] && qs[n].pushed[j] == qs[n].popped[j];
    }
  }

  ghost predicate Queued(q: State, job: Id) {
    exists n :: 0 <= n < |q.queue| && q.queue[n].job == job
  }

  ghost predicate Held(q: State, job: Id) {
    exists w :: w in q.hands && q.hands[w].task.job == job
  }

  /** Every pushed job is in exactly one of four places: waiting in the list, in the hands of exactly
      one worker, finished, or lost. */
  lemma PushedJobsPartition(qs: seq<State>, sts: seq<Step>, n: nat, i: nat)
    requires Run(qs, sts) && n < |qs| && i < |qs[n].pushed|
    ensures var q, job := qs[n], qs[n].pushed[i].job;
            && job in q.place && PlacePushed(q.place[job])
            && (Queued(q, job) <==> q.place[job].Waiting?)
            && (Held(q, job) <==> q.place[job].InFlight?)
            && (forall v, w :: v in q.hands && w in q.hands && q.hands[v].task.job == job == q.hands[w].task.job ==>
                  v == w)
  {
    InvAt(qs, sts, n);
    PushedPlace(qs[n], i);
  }

  lemma PushedPlace(q: State, i: nat)
    requires Fifo(q) && Placed(q) && i < |q.pushed|
    ensures var job := q.pushed[i].job;
            && job in q.place && PlacePushed(q.place[job])
            && (Queued(q, job) <==> q.place[job].Waiting?)
            && (Held(q, job) <==> q.place[job].InFlight?)
            && (forall v, w :: v in q.hands && w in q.hands && q.hands[v].task.job == job == q.hands[w].task.job ==>
                  v == w)
  {
    if i < |q.popped| {
      assert q.pushed[i] == q.popped[i];
    } else {
      assert q.pushed[i] == q.queue[i - |q.popped|];
    }
  }

  // ---------- The life of a record ----------

  /** A job never goes back a stage; once done, lost or abandoned it stays so, and its record is never
      written again. */
  ghost predicate Forward(q: State, q': State, j: Id)
    requires j in q.place
  {
    && j in q'.place
    && PlaceStage(q, j) <= PlaceStage(q', j) <= PlaceStage(q, j) + 1
    && (Settled(q.place[j]) ==>
          q'.place[j] == q.place[j] && (j in q'.records ==> j in q.records && q'.records[j] == q.records[j]))
  }

  predicate Settled(p: Place) {
    p.Done? || p.Lost? || p.Abandoned?
  }

  lemma WorkerForward(q: State, st: Step, w: Id, j: Id)
    requires Inv(q) && Enabled(q, st) && j in q.place && w in q.hands
    requires st == Read(w) || st == MarkProcessing(w) || st == WriteFailure(w) || st == Drop(w) || st == QueryFails(w)
             || (st.WriteOutcome? && st.worker == w) || (st.OutcomeFails? && st.worker == w)
    ensures Forward(q, Next(q, st), j)
  {
    assert At(q, q.hands[w].task, InFlight(w));
  }

  lemma QueueForward(q: State, st: Step, j: Id)
    requires Inv(q) && Enabled(q, st) && j in q.place
    requires st.SetRecord? || st.Push? || st.Abandon? || st.Pop? || st.Expire?
    ensures Forward(q, Next(q, st), j)
  {
    match st
    case Push(task) => assert At(q, task, Staged);
    case Abandon(task) => assert At(q, task, Staged);
    case Pop(_) => assert At(q, q.queue[0], Waiting);
    case _ =>
  }

  lemma StepForward(q: State, st: Step, j: Id)
    requires Inv(q) && Enabled(q, st) && j in q.place
    ensures Forward(q, Next(q, st), j)
  {
    match st
    case Read(w) => WorkerForward(q, st, w, j);
    case MarkProcessing(w) => WorkerForward(q, st, w, j);
    case WriteOutcome(w, _) => WorkerForward(q, st, w, j);
    case OutcomeFails(w, _) => WorkerForward(q, st, w, j);
    case QueryFails(w) => WorkerForward(q, st, w, j);
    case WriteFailure(w) => WorkerForward(q, st, w, j);
    case Drop(w) => WorkerForward(q, st, w, j);
    case _ => QueueForward(q, st, j);
  }

  lemma {:induction false} ForwardAcross(qs: seq<State>, sts: seq<Step>, m: nat, n: nat, j: Id)
    requires Run(qs, sts) && m <= n < |qs| && j in qs[m].place
    ensures j in qs[n].place && PlaceStage(qs[m], j) <= PlaceStage(qs[n], j)
    ensures Settled(qs[m].place[j]) ==> qs[n].place[j] == qs[m].place[j]
    ensures Settled(qs[m].place[j]) && j in qs[n].records ==> j in qs[m].records && qs[n].records[j] == qs[m].records[j]
  {
    if m < n {
      ForwardAcross(qs, sts, m, n - 1, j);
      InvAt(qs, sts, n - 1);
      assert Taken(qs, sts, n - 1);
      StepForward(qs[n - 1], sts[n - 1], j);
    }
  }

  /** Over any run, with expiry, crashes and failed commands anywhere: a record read earlier is never
      at a later stage than one read later, so no status is ever reset; and a completed or failed
      record never changes again. */
  lemma RecordsNeverGoBack(qs: seq<State>, sts: seq<Step>, m: nat, n: nat, j: Id)
    requires Run(qs, sts) && m <= n < |qs|
    requires j in qs[m].records && j in qs[n].records
    ensures Stage(qs[m].records[j].status) <= Stage(qs[n].records[j].status)
    ensures Stage(qs[m].records[j].status) == 2 ==> qs[n].records[j] == qs[m].records[j]
  {
    InvAt(qs, sts, m);
    InvAt(qs, sts, n);
    TerminalIsDone(qs[m], j);
    ForwardAcross(qs, sts, m, n, j);
  }

  lemma TerminalIsDone(q: State, j: Id)
    requires RecordsSound(q) && Placed(q) && j in q.records
    ensures j in q.place && Stage(q.records[j].status) == PlaceStage(q, j)
    ensures PlaceStage(q, j) == 2 ==> Settled(q.place[j])
  {
  }

  /** In every state of every run a completed record has a result and no error, a failed one has an
      error, and a queued or processing one has neither. */
  lemma RecordsAreWellFormed(qs: seq<State>, sts: seq<Step>, n: nat, j: Id)
    requires Run(qs, sts) && n < |qs| && j in qs[n].records
    ensures WellFormed(qs[n].records[j])
  {
    InvAt(qs, sts, n);
  }
}
