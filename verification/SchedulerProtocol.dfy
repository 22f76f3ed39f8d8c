/** The in-process scheduler: its loop tasks over any sequence of starts, stops and endings. */
module SchedulerProtocol {
  import opened Domain

  /** `task` and `running` are the scheduler's two fields; `live` are the loop tasks of the event loop
      that have not ended, `created` how many there have been; `awaited` is the task a stop in
      progress is waiting for. */
  datatype State = State(task: Option<nat>, running: bool, live: set<nat>, created: nat, awaited: Option<nat>)

  const INITIAL := State(None, false, {}, 0, None)

  function IsRunning(q: State): bool {
    q.running && q.task.Some? && q.task.value in q.live
  }

  datatype Step =
    | Start(hasLoop: bool)  // start(), with or without a running event loop
    | BeginStop  // stop(), up to its await
    | EndStop  // the awaited task has ended
    | Ends(task: nat)  // a loop task ends on its own

  predicate Enabled(q: State, st: Step) {
    match st
    case Start(_) => true
    case BeginStop => q.awaited.None?
    case EndStop => q.awaited.Some?
    case Ends(t) => t in q.live
  }

  function Next(q: State, st: Step): State
    requires Enabled(q, st)
  {
    match st
    case Start(hasLoop) =>
      if IsRunning(q) || !hasLoop then q
      else q.(running := true, task := Some(q.created), live := q.live + {q.created}, created := q.created + 1)
    case BeginStop =>
      if !q.running && q.task.None? then q else q.(running := false, awaited := q.task)
    case EndStop =>
      q.(live := q.live - {q.awaited.value}, task := None, awaited := None)
    case Ends(t) => q.(live := q.live - {t})
  }

  /** At most one loop is live, and it is the one the scheduler knows. */
  ghost predicate OneLoop(q: State) {
    forall t :: t in q.live ==> q.task == Some(t)
  }

  ghost predicate Inv(q: State) {
    && OneLoop(q)
    && (q.task.Some? ==> q.task.value < q.created)
    && (q.awaited.Some? ==> q.task == q.awaited && !q.running)
    && (q.awaited.None? && q.live != {} ==> q.running)
    && (q.running ==> q.task.Some?)
  }

  /** A start that would take effect while a stop is still waiting. */
  predicate Interleaved(q: State, st: Step) {
    st == Start(true) && q.awaited.Some?
  }

  lemma InvKept(q: State, st: Step)
    requires Inv(q) && Enabled(q, st) && !Interleaved(q, st)
    ensures Inv(Next(q, st))
  {
    var q' := Next(q, st);
    if st.EndStop? || st.Ends? {
      NothingElseLive(q, q');
    } else if st.Start? && q' != q && q.awaited.None? {
      Agreement(q);
      assert q.live == {};
    }
  }

  lemma NothingElseLive(q: State, q': State)
    requires q'.live <= q.live
    ensures q.live == {} ==> q'.live == {}
  {
    if q.live == {} {
      NoMembers(q'.live);
    }
  }

  ghost predicate Path(from: State, qs: seq<State>, sts: seq<Step>) {
    && |qs| == |sts| + 1
    && qs[0] == from
    && forall n :: 0 <= n < |sts| ==> Enabled(qs[n], sts[n]) && qs[n + 1] == Next(qs[n], sts[n])
  }

  ghost predicate Run(qs: seq<State>, sts: seq<Step>) {
    Path(INITIAL, qs, sts)
  }

  lemma {:induction false} InvAt(from: State, qs: seq<State>, sts: seq<Step>, n: nat)
    requires Inv(from) && Path(from, qs, sts) && n < |qs|
    requires forall m :: 0 <= m < n ==> !Interleaved(qs[m], sts[m])
    ensures Inv(qs[n])
  {
    if n > 0 {
      InvAt(from, qs, sts, n - 1);
      InvKept(qs[n - 1], sts[n - 1]);
    }
  }

  /** Over any sequence of starts, endings and stops in which no start falls inside a stop: at most one
      loop is live and the scheduler knows it; outside a stop, `is_running` tells whether there is
      one; and right after a stop has completed there is none. */
  lemma AtMostOneLoop(qs: seq<State>, sts: seq<Step>, n: nat)
    requires Run(qs, sts) && n < |qs|
    requires forall m :: 0 <= m < n ==> !Interleaved(qs[m], sts[m])
    ensures forall t, u :: t in qs[n].live && u in qs[n].live ==> t == u
    ensures qs[n].awaited.None? ==> (IsRunning(qs[n]) <==> qs[n].live != {})
    ensures n > 0 && sts[n - 1].EndStop? ==> qs[n].live == {} && qs[n].task == None && !qs[n].running
  {
    InvAt(INITIAL, qs, sts, n);
    if qs[n].awaited.None? {
      Agreement(qs[n]);
    }
    if n > 0 && sts[n - 1].EndStop? {
      InvAt(INITIAL, qs, sts, n - 1);
      StoppedIsEmpty(qs[n - 1]);
    }
  }

  lemma Agreement(q: State)
    requires Inv(q) && q.awaited.None?
    ensures IsRunning(q) <==> q.live != {}
  {
    if q.live != {} {
      var t := Element(q.live);
      assert q.task == Some(t);
    }
  }

  lemma StoppedIsEmpty(q: State)
    requires Inv(q) && q.awaited.Some?
    ensures Next(q, EndStop).live == {} && Next(q, EndStop).task == None && !Next(q, EndStop).running
  {
    NoMembers(Next(q, EndStop).live);
  }

  /** At most one live loop and, outside a stop, `is_running` tells whether there is one. */
  ghost predicate Truthful(q: State) {
    && (forall t, u :: t in q.live && u in q.live ==> t == u)
    && (q.awaited.None? ==> (IsRunning(q) <==> q.live != {}))
  }

  /** So it stays on every continuation in which no further start falls inside a stop. */
  ghost predicate Guaranteed(q: State) {
    forall qs, sts, n ::
      Path(q, qs, sts) && 0 <= n < |qs| && (forall m :: 0 <= m < n ==> !Interleaved(qs[m], sts[m])) ==>
        Truthful(qs[n])
  }

  /** A start keeps the guarantee exactly when no stop is in progress, whether or not the loop that
      the stop waits for has ended. If one is, completing it leaves a loop that the scheduler has
      forgotten and `is_running` denies; two loops are live at once already after the start exactly
      when the awaited one has not ended. */
  lemma StartDuringStop(q: State)
    requires Inv(q)
    ensures Guaranteed(Next(q, Start(true))) <==> q.awaited.None?
    ensures q.awaited.Some? ==>
              var q' := Next(Next(q, Start(true)), EndStop);
              q.created in q'.live && q'.task == None && q'.awaited == None && !IsRunning(q')
    ensures OneLoop(Next(q, Start(true))) <==> !(q.awaited.Some? && q.awaited.value in q.live)
  {
    if q.awaited.None? {
      InvKept(q, Start(true));
      InvIsGuaranteed(Next(q, Start(true)));
    } else {
      StartIsForgotten(q);
    }
  }

  lemma InvIsGuaranteed(q: State)
    requires Inv(q)
    ensures Guaranteed(q)
  {
    forall qs: seq<State>, sts: seq<Step>, n | Path(q, qs, sts) && 0 <= n < |qs|
          && (forall m :: 0 <= m < n ==> !Interleaved(qs[m], sts[m]))
      ensures Truthful(qs[n])
    {
      InvAt(q, qs, sts, n);
      if qs[n].awaited.None? {
        Agreement(qs[n]);
      }
    }
  }

  lemma StartIsForgotten(q: State)
    requires Inv(q) && q.awaited.Some?
    ensures var q' := Next(Next(q, Start(true)), EndStop);
            q.created in q'.live && q'.task == None && q'.awaited == None && !IsRunning(q')
    ensures !Guaranteed(Next(q, Start(true)))
    ensures OneLoop(Next(q, Start(true))) <==> q.awaited.value !in q.live
  {
    var q1 := Next(q, Start(true));
    var q2 := Next(q1, EndStop);
    assert q1.task == Some(q.created) && q.created in q1.live;
    assert q.created in q2.live;
    var qs, sts := [q1, q2], [EndStop];
    assert Path(q1, qs, sts) && !Truthful(qs[1]);
    if q.awaited.value in q.live {
      assert q.awaited.value in q1.live;
    } else {
      forall t | t in q1.live
        ensures q1.task == Some(t)
      {
      }
    }
  }

  /** Such a run: start, begin to stop, start again, finish stopping. A loop is live that the scheduler
      has forgotten, `is_running` denies it, and the next start adds a second one. */
  lemma ForgottenLoop() returns (qs: seq<State>, sts: seq<Step>)
    ensures Run(qs, sts) && |sts| == 5
    ensures qs[4].live == {1} && qs[4].task == None && qs[4].awaited == None && !IsRunning(qs[4])
    ensures 1 in qs[5].live && 2 in qs[5].live
  {
    sts := [Start(true), BeginStop, Start(true), EndStop, Start(true)];
    var q1 := State(Some(0), true, {0}, 1, None);
    var q2 := State(Some(0), false, {0}, 1, Some(0));
    var q3 := State(Some(1), true, {0, 1}, 2, Some(0));
    var q4 := State(None, true, {1}, 2, None);
    var q5 := State(Some(2), true, {1, 2}, 3, None);
    assert Next(INITIAL, Start(true)).live == q1.live;
    assert Next(q2, Start(true)).live == q3.live;
    assert Next(q3, EndStop).live == q4.live;
    assert Next(q4, Start(true)).live == q5.live;
    qs := [INITIAL, q1, q2, q3, q4, q5];
  }

  /** No two loops need be live for it: the awaited loop ends, a start comes before the stop resumes,
      and the stop forgets the new loop. The next start then adds a second one. */
  lemma ForgottenAfterEnd() returns (qs: seq<State>, sts: seq<Step>)
    ensures Run(qs, sts) && |sts| == 6
    ensures sts[3] == Start(true) && qs[3].awaited == Some(0) && qs[3].live == {}
    ensures qs[5].live == {1} && qs[5].task == None && qs[5].awaited == None && !IsRunning(qs[5])
    ensures 1 in qs[6].live && 2 in qs[6].live
  {
    sts := [Start(true), BeginStop, Ends(0), Start(true), EndStop, Start(true)];
    var q1 := State(Some(0), true, {0}, 1, None);
    var q2 := State(Some(0), false, {0}, 1, Some(0));
    var q3 := State(Some(0), false, {}, 1, Some(0));
    var q4 := State(Some(1), true, {1}, 2, Some(0));
    var q5 := State(None, true, {1}, 2, None);
    var q6 := State(Some(2), true, {1, 2}, 3, None);
    assert Next(INITIAL, Start(true)).live == q1.live;
    assert Next(q2, Ends(0)).live == q3.live;
    assert Next(q3, Start(true)).live == q4.live;
    assert Next(q4, EndStop).live == q5.live;
    assert Next(q5, Start(true)).live == q6.live;
    qs := [INITIAL, q1, q2, q3, q4, q5, q6];
  }
}
