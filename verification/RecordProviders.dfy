/** The provider a job record names is the one its item was pushed for, over every run of the queue
    protocol. */
module RecordProviders {
  import opened Domain
  import opened SummaryJobs
  import opened QueueProtocol

  ghost predicate Listed(tasks: seq<Task>, task: Task) {
    exists n :: 0 <= n < |tasks| && tasks[n] == task
  }

  /** The record of `task`'s job, if there is one, names `task`'s provider. */
  predicate Names(q: State, task: Task) {
    task.job in q.records ==> q.records[task.job].provider == task.provider
  }

  ghost predicate Agree(q: State) {
    && (forall t :: t in q.staged ==> Names(q, t))
    && (forall n :: 0 <= n < |q.pushed| ==> Names(q, q.pushed[n]))
    && (forall w :: w in q.hands ==>
          && Listed(q.pushed, q.hands[w].task)
          && (q.hands[w].Popped? || q.hands[w].data.provider == q.hands[w].task.provider))
  }

  lemma ListedOneMore(tasks: seq<Task>, more: Task, task: Task)
    requires Listed(tasks, task)
    ensures Listed(tasks + [more], task)
  {
    var n :| 0 <= n < |tasks| && tasks[n] == task;
    assert (tasks + [more])[n] == task;
  }

  /** Nothing staged or pushed has the job of a task in a worker's hands but that task. */
  lemma HandIsOnly(q: State, w: Id)
    requires Inv(q) && Agree(q) && w in q.hands
    ensures forall t :: t in q.staged ==> t.job != q.hands[w].task.job
    ensures forall n :: 0 <= n < |q.pushed| && q.pushed[n].job == q.hands[w].task.job ==> q.pushed[n] == q.hands[w].task
  {
    var m :| 0 <= m < |q.pushed| && q.pushed[m] == q.hands[w].task;
    forall t | t in q.staged
      ensures t.job != q.hands[w].task.job
    {
      assert At(q, t, Staged) && At(q, q.hands[w].task, InFlight(w));
    }
    forall n | 0 <= n < |q.pushed| && q.pushed[n].job == q.hands[w].task.job
      ensures q.pushed[n] == q.hands[w].task
    {
      assert n == m;
    }
  }

  /** A worker writes a record that names its task's provider. */
  lemma WriteAgrees(q: State, q': State, w: Id)
    requires Inv(q) && Agree(q) && w in q.hands
    requires q'.staged == q.staged && q'.pushed == q.pushed
    requires var j := q.hands[w].task.job;
             q'.records == q.records ||
             (j in q'.records && q'.records == q.records[j := q'.records[j]] &&
              q'.records[j].provider == q.hands[w].task.provider)
    requires forall v :: v in q'.hands ==>
               && v in q.hands && q'.hands[v].task == q.hands[v].task
               && (|| q'.hands[v] == q.hands[v] || q'.hands[v].Popped?
                   || q'.hands[v].data.provider == q.hands[v].task.provider)
    ensures Agree(q')
  {
    HandIsOnly(q, w);
  }

  lemma QueueAgrees(q: State, st: Step)
    requires Inv(q) && Agree(q) && Enabled(q, st)
    requires st.SetRecord? || st.Push? || st.Abandon? || st.Pop? || st.Expire? || st.Drop?
    ensures Agree(Next(q, st))
  {
    var q' := Next(q, st);
    match st
    case SetRecord(task) => SetAgrees(q, task);
    case Push(task) =>
      forall w | w in q.hands
        ensures Listed(q'.pushed, q.hands[w].task)
      {
        ListedOneMore(q.pushed, task, q.hands[w].task);
      }
    case Pop(w) =>
      assert q.pushed[|q.popped|] == q.queue[0];
    case _ =>
  }

  lemma SetAgrees(q: State, task: Task)
    requires Inv(q) && Agree(q) && Enabled(q, SetRecord(task))
    ensures Agree(Next(q, SetRecord(task)))
  {
    forall n | 0 <= n < |q.pushed|
      ensures q.pushed[n].job != task.job
    {
      if n < |q.popped| {
        assert q.pushed[n] == q.popped[n];
      } else {
        assert q.pushed[n] == q.queue[n - |q.popped|];
        assert At(q, q.queue[n - |q.popped|], Waiting);
      }
    }
    forall t | t in q.staged
      ensures t.job != task.job
    {
      assert At(q, t, Staged);
    }
  }

  lemma ReadAgrees(q: State, w: Id)
    requires Inv(q) && Agree(q) && Enabled(q, Read(w))
    ensures Agree(Next(q, Read(w)))
  {
    var n :| 0 <= n < |q.pushed| && q.pushed[n] == q.hands[w].task;
    assert Names(q, q.pushed[n]);
    WriteAgrees(q, Next(q, Read(w)), w);
  }

  lemma StepAgrees(q: State, st: Step)
    requires Inv(q) && Agree(q) && Enabled(q, st)
    ensures Agree(Next(q, st))
  {
    match st
    case Read(w) => ReadAgrees(q, w);
    case MarkProcessing(w) => WriteAgrees(q, Next(q, st), w);
    case WriteOutcome(w, _) => WriteAgrees(q, Next(q, st), w);
    case OutcomeFails(w, _) => WriteAgrees(q, Next(q, st), w);
    case QueryFails(w) => WriteAgrees(q, Next(q, st), w);
    case WriteFailure(w) => WriteAgrees(q, Next(q, st), w);
    case _ => QueueAgrees(q, st);
  }

  lemma {:induction false} AgreeAt(qs: seq<State>, sts: seq<Step>, n: nat)
    requires Run(qs, sts) && n < |qs|
    ensures Agree(qs[n])
  {
    if n > 0 {
      AgreeAt(qs, sts, n - 1);
      InvAt(qs, sts, n - 1);
      assert Taken(qs, sts, n - 1);
      StepAgrees(qs[n - 1], sts[n - 1]);
    }
  }

  /** In every state of every run, the record of a pushed job, while it lives, names the provider the
      item was pushed for. */
  lemma RecordsNameTheirProvider(qs: seq<State>, sts: seq<Step>, n: nat, i: nat)
    requires Run(qs, sts) && n < |qs| && i < |qs[n].pushed|
    requires qs[n].pushed[i].job in qs[n].records
    ensures qs[n].records[qs[n].pushed[i].job].provider == qs[n].pushed[i].provider
  {
    AgreeAt(qs, sts, n);
    assert Names(qs[n], qs[n].pushed[i]);
  }
}
