/** Failed job records that still hold a result: exactly when, over every run of the queue protocol. */
module FailedRecords {
  import opened Domain
  import opened Ratings
  import opened SummaryJobs
  import opened QueueProtocol

  /** In step `st` the write of job `j`'s completed record raises. */
  predicate Spoils(q: State, st: Step, j: Id) {
    st.OutcomeFails? && st.answer.Success? && st.worker in q.hands && q.hands[st.worker].task.job == j
  }

  /** The jobs whose completed record could not be written in the first `n` steps. */
  ghost function Spoiled(qs: seq<State>, sts: seq<Step>, n: nat): set<Id>
    requires n <= |sts| < |qs|
  {
    if n == 0 then {} else SpoiledAfter(qs[n - 1], sts[n - 1], Spoiled(qs, sts, n - 1))
  }

  function SpoiledAfter(q: State, st: Step, spoiled: set<Id>): set<Id> {
    if st.OutcomeFails? && st.answer.Success? && st.worker in q.hands then spoiled + {q.hands[st.worker].task.job}
        else spoiled
  }

  lemma {:induction false} SpoiledSince(qs: seq<State>, sts: seq<Step>, n: nat, j: Id)
    requires n <= |sts| < |qs|
    ensures j in Spoiled(qs, sts, n) <==> exists m :: 0 <= m < n && Spoils(qs[m], sts[m], j)
  {
    if n > 0 {
      SpoiledSince(qs, sts, n - 1, j);
      assert j in Spoiled(qs, sts, n) <==> j in Spoiled(qs, sts, n - 1) || Spoils(qs[n - 1], sts[n - 1], j);
    }
  }

  /** Failed records, and failures about to be written, hold a result exactly for the spoiled jobs;
      every other job in the hands of a worker is not spoiled. */
  ghost predicate Kept(q: State, spoiled: set<Id>) {
    && (forall w :: w in q.hands ==>
          (q.hands[w].task.job in spoiled <==> q.hands[w].Failing? && q.hands[w].data.result.Some?))
    && (forall j :: j in q.records && q.records[j].status == JobFailed ==>
          (q.records[j].result.Some? <==> j in spoiled))
    && (forall j :: j in spoiled ==> j in q.place && PlacePopped(q.place[j]))
  }

  /** A worker moves on with its task; no record turns into a failed one. */
  lemma HandKept(q: State, q': State, w: Id, spoiled: set<Id>, spoiled': set<Id>)
    requires Inv(q) && Kept(q, spoiled) && w in q.hands && w in q'.hands
    requires q'.hands == q.hands[w := q'.hands[w]] && q'.hands[w].task == q.hands[w].task && q'.place == q.place
    requires var j := q.hands[w].task.job;
             && (q'.records == q.records ||
                 (j in q'.records && q'.records == q.records[j := q'.records[j]] && q'.records[j].status != JobFailed))
             && (spoiled' == spoiled || spoiled' == spoiled + {j})
             && (j in spoiled' <==> q'.hands[w].Failing? && q'.hands[w].data.result.Some?)
    ensures Kept(q', spoiled')
  {
    var j := q.hands[w].task.job;
    assert At(q, q.hands[w].task, InFlight(w));
    assert j in q.records ==> Stage(q.records[j].status) == HandStage(q.hands[w]) <= 1;
  }

  lemma CompleteKept(q: State, w: Id, data: Record, spoiled: set<Id>)
    requires Inv(q) && Kept(q, spoiled) && w in q.hands
    requires data.status == JobFailed ==> (data.result.Some? <==> q.hands[w].task.job in spoiled)
    ensures Kept(Complete(q, w, data), spoiled)
  {
    assert At(q, q.hands[w].task, InFlight(w));
  }

  lemma QueueKept(q: State, st: Step, spoiled: set<Id>)
    requires Inv(q) && Enabled(q, st) && Kept(q, spoiled)
    requires st.SetRecord? || st.Push? || st.Abandon? || st.Pop? || st.Expire? || st.Drop?
    ensures Kept(Next(q, st), spoiled)
  {
    match st
    case Push(task) => assert At(q, task, Staged);
    case Abandon(task) => assert At(q, task, Staged);
    case Pop(_) => assert At(q, q.queue[0], Waiting);
    case Drop(w) => assert At(q, q.hands[w].task, InFlight(w));
    case _ =>
  }

  lemma KeptStep(q: State, st: Step, spoiled: set<Id>)
    requires Inv(q) && Enabled(q, st) && Kept(q, spoiled)
    ensures Kept(Next(q, st), SpoiledAfter(q, st, spoiled))
  {
    match st
    case Read(w) => HandKept(q, Next(q, st), w, spoiled, spoiled);
    case MarkProcessing(w) => HandKept(q, Next(q, st), w, spoiled, spoiled);
    case QueryFails(w) => HandKept(q, Next(q, st), w, spoiled, spoiled);
    case OutcomeFails(w, answer) =>
      FailedRecordKeepsResult(q.hands[w].data, answer);
      HandKept(q, Next(q, st), w, spoiled, SpoiledAfter(q, st, spoiled));
    case WriteOutcome(w, answer) => CompleteKept(q, w, Finished(q.hands[w].data, answer), spoiled);
    case WriteFailure(w) => CompleteKept(q, w, q.hands[w].data, spoiled);
    case _ => QueueKept(q, st, spoiled);
  }

  lemma {:induction false} KeptAt(qs: seq<State>, sts: seq<Step>, n: nat)
    requires Run(qs, sts) && n < |qs|
    ensures Kept(qs[n], Spoiled(qs, sts, n))
  {
    if n > 0 {
      KeptAt(qs, sts, n - 1);
      InvAt(qs, sts, n - 1);
      assert Taken(qs, sts, n - 1);
      KeptStep(qs[n - 1], sts[n - 1], Spoiled(qs, sts, n - 1));
    }
  }

  /** In every state of every run a failed record holds a result exactly when an earlier write of that
      job's completed record raised. */
  lemma ResultSurvivesExactly(qs: seq<State>, sts: seq<Step>, n: nat, j: Id)
    requires Run(qs, sts) && n < |qs|
    requires j in qs[n].records && qs[n].records[j].status == JobFailed
    ensures qs[n].records[j].result.Some? <==> exists m :: 0 <= m < n && Spoils(qs[m], sts[m], j)
  {
    KeptAt(qs, sts, n);
    SpoiledSince(qs, sts, n, j);
  }

  /** The run in which a job is stored, pushed, popped, read and marked by worker `w`. */
  lemma WorkingRun(task: Task, w: Id) returns (qs: seq<State>, sts: seq<Step>)
    ensures Run(qs, sts)
    ensures qs[|sts|].hands == map[w := Working(task, Started(Some(NewRecord(task.provider)), task.provider))]
  {
    qs, sts := [INITIAL], [];
    qs, sts := Grown(qs, sts, SetRecord(task));
    qs, sts := Grown(qs, sts, Push(task));
    qs, sts := Grown(qs, sts, Pop(w));
    qs, sts := Grown(qs, sts, Read(w));
    qs, sts := Grown(qs, sts, MarkProcessing(w));
  }

  lemma Grown(qs: seq<State>, sts: seq<Step>, st: Step) returns (qs': seq<State>, sts': seq<Step>)
    requires Run(qs, sts) && Enabled(qs[|sts|], st)
    ensures Run(qs', sts') && qs'[|sts'|] == Next(qs[|sts|], st)
  {
    RunGrowsBy(qs, sts, st);
    qs', sts' := qs + [Next(qs[|sts|], st)], sts + [st];
  }

  /** For every job and report there is such a run: the failed record holds the report. */
  lemma FailedWithResult(task: Task, w: Id, report: Report) returns (qs: seq<State>, sts: seq<Step>)
    ensures Run(qs, sts) && task.job in qs[|sts|].records
    ensures var r := qs[|sts|].records[task.job]; r.status == JobFailed && r.result == Some(report)
  {
    qs, sts := WorkingRun(task, w);
    qs, sts := Grown(qs, sts, OutcomeFails(w, Success(report)));
    qs, sts := Grown(qs, sts, WriteFailure(w));
  }
}
