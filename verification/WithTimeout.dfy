/**
 withTimeout: a race between an operation and a deadline, with a callback for an operation that settles after
 its caller has been answered. Promise reactions run from a microtask queue, and a timer callback starts only
 when that queue is empty.
 */
module WithTimeout {
  import opened Wrappers

  datatype Underlying = Pending | Fulfilled | Failed
  datatype Timer = Armed | Fired | Cleared
  datatype Winner = Operation | Deadline

  // The reactions in play: underlying.then, the race resolving, and finally().
  datatype Task = OnSettled | ResolveRace(winner: Winner) | OnRaced

  datatype State = State(
    underlying: Underlying,
    timer: Timer,
    timedOut: bool,
    race: Option<Winner>,
    answer: Option<Winner>,    // what the caller's await has seen
    lateSettles: nat,          // calls of onLateSettle
    queue: seq<Task>
  )

  datatype Event = Settle(ok: bool) | Expire | Microtask

  function Begin(): State { State(Pending, Armed, false, None, None, 0, []) }

  function RunTask(s: State, t: Task): State {
    match t
    case OnSettled => if s.timedOut then s.(lateSettles := s.lateSettles + 1) else s
    case ResolveRace(winner) => if s.race.None? then s.(race := Some(winner), queue := s.queue + [OnRaced]) else s
    case OnRaced => s.(timer := if s.timer.Armed? then Cleared else s.timer, answer := s.race)
  }

  function Step(s: State, e: Event): State {
    match e
    case Settle(ok) =>
      if s.underlying.Pending?
      then s.(underlying := if ok then Fulfilled else Failed, queue := s.queue + [OnSettled, ResolveRace(Operation)])
      else s
    case Expire =>
      if s.timer.Armed? && s.queue == []
      then s.(timer := Fired, timedOut := true, queue := s.queue + [ResolveRace(Deadline)])
      else s
    case Microtask =>
      if s.queue == [] then s else RunTask(s.(queue := s.queue[1..]), s.queue[0])
  }

  function Run(s: State, es: seq<Event>): State
    decreases |es|
  {
    if es == [] then s else Run(Step(s, es[0]), es[1..])
  }

  // How far the two answers and the late callback have got, by what is still queued.
  ghost predicate RaceOk(s: State) {
    && (s.timedOut <==> s.timer.Fired?)
    && (s.timedOut ==> s.race.Some? || (s.queue != [] && s.queue[0] == ResolveRace(Deadline)))
    && (s.race == Some(Deadline) ==> s.timedOut)
    && (s.race == Some(Operation) ==> !s.underlying.Pending? && !s.timedOut && OnSettled !in s.queue)
    && (OnSettled in s.queue ==> !s.underlying.Pending?)
    && (ResolveRace(Deadline) in s.queue ==> s.timedOut)
    && (ResolveRace(Operation) in s.queue ==> !s.underlying.Pending?)
    && (!s.underlying.Pending? ==> s.race.Some? || ResolveRace(Operation) in s.queue)
    && (s.race.Some? ==> s.answer == s.race || OnRaced in s.queue)
    && (s.answer.Some? ==> s.answer == s.race && !s.timer.Armed?)
    && (OnRaced in s.queue ==> s.race.Some?)
  }

  // The late callback: none without a timeout; after one, exactly one once the operation has settled.
  ghost predicate LateOk(s: State) {
    && multiset(s.queue)[OnSettled] <= 1
    && s.lateSettles == (if s.timedOut && !s.underlying.Pending? && OnSettled !in s.queue then 1 else 0)
  }

  ghost predicate Inv(s: State) {
    RaceOk(s) && LateOk(s)
  }

  // Before the deadline's turn nothing can slip between an operation's settlement and its race.
  ghost predicate Ordered(s: State) {
    forall i, j | 0 <= i < |s.queue| && 0 <= j < |s.queue| &&
           s.queue[i] == OnSettled && s.queue[j] == ResolveRace(Operation) ::
      i < j
  }

  lemma SettleKeepsInv(s: State, ok: bool)
    requires Inv(s) && Ordered(s)
    ensures Inv(Step(s, Settle(ok))) && Ordered(Step(s, Settle(ok)))
  {
  }

  lemma ExpireKeepsInv(s: State)
    requires Inv(s) && Ordered(s)
    ensures Inv(Step(s, Expire)) && Ordered(Step(s, Expire))
  {
  }

  // The head task comes off the queue before it runs.
  ghost predicate Headed(s: State, t: Task, rest: seq<Task>) {
    s.queue == [t] + rest
  }

  lemma OrderKept(s: State, t: Task, rest: seq<Task>)
    requires Ordered(s) && Headed(s, t, rest)
    ensures Ordered(Step(s, Microtask))
  {
  }

  lemma LateKept(s: State, t: Task, rest: seq<Task>)
    requires LateOk(s) && Headed(s, t, rest)
    requires t == OnSettled ==> !s.underlying.Pending?
    ensures LateOk(Step(s, Microtask))
  {
  }

  lemma MicrotaskKeepsRace(s: State, t: Task, rest: seq<Task>)
    requires RaceOk(s) && Headed(s, t, rest)
    requires t == ResolveRace(Operation) ==> OnSettled !in rest
    ensures RaceOk(Step(s, Microtask))
  {
  }

  lemma MicrotaskKeepsInv(s: State)
    requires Inv(s) && Ordered(s)
    ensures Inv(Step(s, Microtask)) && Ordered(Step(s, Microtask))
  {
    if s.queue != [] {
      var t, rest := s.queue[0], s.queue[1..];
      forall i | 0 <= i < |rest| && t == ResolveRace(Operation)
        ensures rest[i] != OnSettled
      {
        assert s.queue[i + 1] == rest[i];
      }
      assert Headed(s, t, rest);
      OrderKept(s, t, rest);
      LateKept(s, t, rest);
      MicrotaskKeepsRace(s, t, rest);
    }
  }

  lemma StepKeepsInv(s: State, e: Event)
    requires Inv(s) && Ordered(s)
    ensures Inv(Step(s, e)) && Ordered(Step(s, e))
  {
    match e {
      case Settle(ok) => SettleKeepsInv(s, ok);
      case Expire => ExpireKeepsInv(s);
      case Microtask => MicrotaskKeepsInv(s);
    }
  }

  lemma {:induction false} RunKeepsInv(s: State, es: seq<Event>)
    requires Inv(s) && Ordered(s)
    ensures Inv(Run(s, es)) && Ordered(Run(s, es))
    decreases |es|
  {
    if es != [] {
      StepKeepsInv(s, es[0]);
      RunKeepsInv(Step(s, es[0]), es[1..]);
    }
  }

  /**
   Whenever the microtask queue has drained, for every order of settling, expiring and reacting: the caller
   was answered by the operation, by the deadline, or waits for both; and the late callback has been called
   exactly once if the deadline answered and the operation has since settled, and never otherwise.
   */
  lemma ExactlyOnce(es: seq<Event>)
    requires Run(Begin(), es).queue == []
    ensures var s := Run(Begin(), es);
            && (s.answer == None <==> s.underlying.Pending? && !s.timedOut)
            && (s.answer == Some(Operation) <==> !s.underlying.Pending? && !s.timedOut)
            && (s.answer == Some(Deadline) <==> s.timedOut)
            && s.lateSettles == (if s.answer == Some(Deadline) && !s.underlying.Pending? then 1 else 0)
            && (s.answer.Some? ==> !s.timer.Armed?)
  {
    RunKeepsInv(Begin(), es);
    var s := Run(Begin(), es);
    assert forall t: Task :: t !in s.queue;
    assert s.race.Some? ==> s.race.value.Operation? || s.race.value.Deadline?;
  }

  /** Hence an answer, once given, is never changed and an operation's own answer silences the callback for good. */
  lemma {:induction false} AnswerStands(s: State, es: seq<Event>)
    requires Inv(s) && Ordered(s) && s.answer.Some?
    ensures Run(s, es).answer == s.answer
    ensures s.answer == Some(Operation) ==> Run(s, es).lateSettles == 0
    decreases |es|
  {
    if es != [] {
      StepKeepsInv(s, es[0]);
      AnswerStands(Step(s, es[0]), es[1..]);
    }
  }

  function Microtasks(n: nat): seq<Event> {
    if n == 0 then [] else [Microtask] + Microtasks(n - 1)
  }

  // The race may add one reaction to the queue, once.
  lemma {:induction false} QueueDrains(s: State, n: nat)
    requires n >= |s.queue| + if s.race.None? then 1 else 0
    ensures Run(s, Microtasks(n)).queue == []
    ensures var s' := Run(s, Microtasks(n)); s'.underlying == s.underlying && s'.timedOut == s.timedOut
    decreases n
  {
    if n > 0 {
      assert Microtasks(n)[1..] == Microtasks(n - 1);
      if s.queue == [] {
        EmptyStaysEmpty(s, n);
      } else {
        QueueDrains(Step(s, Microtask), n - 1);
      }
    }
  }

  lemma {:induction false} EmptyStaysEmpty(s: State, n: nat)
    requires s.queue == []
    ensures Run(s, Microtasks(n)) == s
    decreases n
  {
    if n > 0 {
      assert Microtasks(n)[1..] == Microtasks(n - 1);
      EmptyStaysEmpty(s, n - 1);
    }
  }

  /**
   Nobody waits for ever: when the operation settles, or the deadline's timer fires, first, the caller is answered
   by it once the microtasks have run, with the operation's own outcome; and an operation that settles after the
   deadline's answer has its late callback.
   */
  lemma FirstAnswers(ok: bool, n: nat)
    requires n >= 4
    ensures var s := Run(Step(Begin(), Settle(ok)), Microtasks(n));
            && s.answer == Some(Operation) && s.underlying == (if ok then Fulfilled else Failed) && s.timer == Cleared
            && s.lateSettles == 0 && s.queue == []
    ensures var s := Run(Step(Begin(), Expire), Microtasks(n));
            && s.answer == Some(Deadline) && s.underlying == Pending && s.timer == Fired && s.queue == []
            && var late := Run(Step(s, Settle(ok)), Microtasks(n));
               && late.answer == Some(Deadline) && late.lateSettles == 1
               && late.underlying == if ok then Fulfilled else Failed
  {
    assert Inv(Begin()) && Ordered(Begin());
    var a := Step(Begin(), Settle(ok));
    StepKeepsInv(Begin(), Settle(ok));
    AnsweredOnceDrained(a, n);
    TimerOfAnswered(a, n);
    var b := Step(Begin(), Expire);
    StepKeepsInv(Begin(), Expire);
    AnsweredOnceDrained(b, n);
    var s := Run(b, Microtasks(n));
    TimerOfAnswered(b, n);
    StepKeepsInv(s, Settle(ok));
    AnsweredOnceDrained(Step(s, Settle(ok)), n);
  }

  lemma AnsweredOnceDrained(s: State, n: nat)
    requires Inv(s) && Ordered(s) && n >= |s.queue| + if s.race.None? then 1 else 0
    ensures var s' := Run(s, Microtasks(n));
            && Inv(s') && Ordered(s') && s'.queue == [] && s'.underlying == s.underlying && s'.timedOut == s.timedOut
            && (s'.answer == Some(Deadline) <==> s.timedOut)
            && (s'.answer == Some(Operation) <==> !s.underlying.Pending? && !s.timedOut)
            && s'.lateSettles == (if s.timedOut && !s.underlying.Pending? then 1 else 0)
            && (s'.answer.Some? ==> s'.race.Some?)
  {
    QueueDrains(s, n);
    RunKeepsInv(s, Microtasks(n));
    var s' := Run(s, Microtasks(n));
    assert forall t: Task :: t !in s'.queue;
    assert s'.race.Some? ==> s'.race.value.Operation? || s'.race.value.Deadline?;
  }

  // A fired timer stays so, and an armed one is cleared with the answer.
  lemma {:induction false} TimerOfAnswered(s: State, n: nat)
    requires Inv(s) && Ordered(s)
    ensures var s' := Run(s, Microtasks(n));
            && (s.timer.Fired? ==> s'.timer.Fired?) && (!s.timer.Fired? && s'.answer.Some? ==> s'.timer.Cleared?)
            && (!s.timer.Fired? ==> !s'.timer.Fired?)
    decreases n
  {
    if n > 0 {
      assert Microtasks(n)[1..] == Microtasks(n - 1);
      StepKeepsInv(s, Microtask);
      TimerOfAnswered(Step(s, Microtask), n - 1);
    }
  }

  /** One call of withTimeout; each method is one of its callbacks. */
  class TimedCall {
    var underlying: Underlying
    var timer: Timer
    var timedOut: bool
    var race: Option<Winner>
    var answer: Option<Winner>
    var lateSettles: nat
    var queue: seq<Task>

    function Now(): State
      reads this
    {
      State(underlying, timer, timedOut, race, answer, lateSettles, queue)
    }

    constructor ()
      ensures Now() == Begin()
    {
      underlying, timer, timedOut := Pending, Armed, false;
      race, answer, lateSettles, queue := None, None, 0, [];
    }

    method OnOperationSettled(ok: bool)
      requires underlying.Pending?
      modifies this
      ensures Now() == Step(old(Now()), Settle(ok))
    {
      underlying := if ok then Fulfilled else Failed;
      queue := queue + [OnSettled, ResolveRace(Operation)];
    }

    method OnTimer()
      requires timer.Armed? && queue == []
      modifies this
      ensures Now() == Step(old(Now()), Expire)
    {
      timer := Fired;
      timedOut := true;
      queue := queue + [ResolveRace(Deadline)];
    }

    method RunMicrotask()
      requires queue != []
      modifies this
      ensures Now() == Step(old(Now()), Microtask)
    {
      var t := queue[0];
      queue := queue[1..];
      match t {
        case OnSettled =>
          if timedOut {
            lateSettles := lateSettles + 1;
          }
        case ResolveRace(winner) =>
          if race.None? {
            race := Some(winner);
            queue := queue + [OnRaced];
          }
        case OnRaced =>
          if timer.Armed? {
            timer := Cleared;
          }
          answer := race;
      }
    }
  }
}
