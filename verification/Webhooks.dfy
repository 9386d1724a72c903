/**
 * Idempotent webhook handling: check the processed-event table, run the handler, record the event. Each of the three
 * is its own step, and any number of deliveries of any events interleave.
 */
module Webhooks {
  import opened Runs

  type Id = nat

  datatype Delivery = Idle | Handling(event: Id) | Recording(event: Id)

  datatype Answer = Answer(event: Id, processed: bool)   // processed, or duplicate

  datatype State = State(
    recorded: set<Id>,
    deliveries: map<nat, Delivery>,
    handled: multiset<Id>,            // handler calls that completed
    answers: seq<Answer>)

  datatype Step = Check(actor: nat, event: Id) | Handle(actor: nat, succeeds: bool) | Record(actor: nat)

  function At(s: State, actor: nat): Delivery {
    if actor in s.deliveries then s.deliveries[actor] else Idle
  }

  function Becomes(s: State, actor: nat, next: Delivery): State {
    s.(deliveries := s.deliveries[actor := next])
  }

  function Answered(s: State, event: Id, processed: bool): State {
    s.(answers := s.answers + [Answer(event, processed)])
  }

  /** A handler that fails throws: the event stays unrecorded. A record that finds the event recorded answers duplicate. */
  function Apply(s: State, step: Step): State {
    match step
    case Check(a, event) =>
      if !At(s, a).Idle? then s
      else if event in s.recorded then Answered(s, event, false)
      else Becomes(s, a, Handling(event))
    case Handle(a, succeeds) =>
      if !At(s, a).Handling? then s
      else if !succeeds then Becomes(s, a, Idle)
      else Becomes(s, a, Recording(At(s, a).event)).(handled := s.handled + multiset{At(s, a).event})
    case Record(a) =>
      if !At(s, a).Recording? then s
      else
        var event := At(s, a).event;
        if event in s.recorded then Becomes(Answered(s, event, false), a, Idle)
        else Becomes(Answered(s, event, true), a, Idle).(recorded := s.recorded + {event})
  }

  function Run(s: State, steps: seq<Step>): State
    decreases |steps|
  {
    if steps == [] then s else Run(Apply(s, steps[0]), steps[1..])
  }

  const START := State({}, map[], multiset{}, [])

  function ProcessedAnswers(answers: seq<Answer>, event: Id): nat {
    if answers == [] then 0
    else
      ProcessedAnswers(answers[..|answers| - 1], event)
      + if answers[|answers| - 1] == Answer(event, true) then 1 else 0
  }

  predicate Inv(s: State) {
    && (forall a :: a in s.deliveries && s.deliveries[a].Recording? ==> s.deliveries[a].event in s.handled)
    && (forall event :: event in s.recorded ==> event in s.handled)
    && (forall x :: x in s.answers ==> x.event in s.recorded)
  }

  predicate CountsRecord(s: State, event: Id) {
    ProcessedAnswers(s.answers, event) == if event in s.recorded then 1 else 0
  }

  lemma StepKeepsInv(s: State, step: Step)
    requires Inv(s)
    ensures Inv(Apply(s, step))
  {
  }

  lemma AnswerAppend(answers: seq<Answer>, x: Answer, event: Id)
    ensures ProcessedAnswers(answers + [x], event) == ProcessedAnswers(answers, event) + if x == Answer(event, true) then 1 else 0
  {
    assert (answers + [x])[..|answers|] == answers;
  }

  lemma RecordKeepsCount(s: State, a: nat, event: Id)
    requires CountsRecord(s, event) && At(s, a).Recording?
    ensures CountsRecord(Apply(s, Record(a)), event)
  {
    AnswerAppend(s.answers, Answer(At(s, a).event, At(s, a).event !in s.recorded), event);
  }

  lemma StepKeepsCount(s: State, step: Step, event: Id)
    requires CountsRecord(s, event)
    ensures CountsRecord(Apply(s, step), event)
  {
    if step.Check? {
      AnswerAppend(s.answers, Answer(step.event, false), event);
    } else if step.Record? && At(s, step.actor).Recording? {
      RecordKeepsCount(s, step.actor, event);
    }
  }

  lemma {:induction false} RunKeeps(s: State, steps: seq<Step>, event: Id)
    requires Inv(s) && CountsRecord(s, event)
    ensures Inv(Run(s, steps)) && CountsRecord(Run(s, steps), event)
    decreases |steps|
  {
    if steps == [] {
    } else {
      StepKeepsInv(s, steps[0]);
      StepKeepsCount(s, steps[0], event);
      RunKeeps(Apply(s, steps[0]), steps[1..], event);
    }
  }

  /** In any interleaving, an event is answered as processed at most once, and exactly when it is recorded. */
  lemma ProcessedAtMostOnce(steps: seq<Step>, event: Id)
    ensures ProcessedAnswers(Run(START, steps).answers, event) == if event in Run(START, steps).recorded then 1 else 0
  {
    RunKeeps(START, steps, event);
  }

  /** No event is lost: whatever the answer, processed or duplicate, a handler call for the event has completed. */
  lemma AnsweredMeansHandled(steps: seq<Step>, x: Answer)
    requires x in Run(START, steps).answers
    ensures x.event in Run(START, steps).handled
  {
    RunKeeps(START, steps, x.event);
  }

  /** Recorded, and no delivery that checked before the record is still on its way to the handler. */
  predicate Settled(s: State, event: Id) {
    event in s.recorded && forall a :: a in s.deliveries ==> s.deliveries[a] != Handling(event)
  }

  /** A settled event is never handled again, however often it is redelivered. */
  lemma {:induction false} SettledIsNeverHandledAgain(s: State, steps: seq<Step>, event: Id)
    requires Settled(s, event)
    ensures Settled(Run(s, steps), event) && Run(s, steps).handled[event] == s.handled[event]
    decreases |steps|
  {
    if steps == [] {
    } else {
      assert Settled(Apply(s, steps[0]), event);
      SettledIsNeverHandledAgain(Apply(s, steps[0]), steps[1..], event);
    }
  }

  // ---------- Handled at most once ----------

  /** The delivery has passed its check and is on its way to the handler. */
  predicate OnItsWay(s: State, actor: nat, event: Id) {
    At(s, actor) == Handling(event)
  }

  /** Handled once, or on the way there once, but not both. */
  ghost predicate AtMostOnce(s: State, event: Id) {
    && s.handled[event] <= 1
    && (s.handled[event] == 1 ==> forall a :: !OnItsWay(s, a, event))
    && forall a, b :: OnItsWay(s, a, event) && OnItsWay(s, b, event) ==> a == b
  }

  ghost predicate Untouched(s: State, event: Id) {
    s.handled[event] == 0 && forall a :: !OnItsWay(s, a, event)
  }

  /** A check that lets an event through a second time. */
  ghost predicate LetsThroughAgain(s: State, step: Step, event: Id) {
    step.Check? && step.event == event && At(s, step.actor).Idle? && event !in s.recorded && !Untouched(s, event)
  }

  lemma CheckKeepsOnceIff(s: State, x: nat, event: Id)
    requires AtMostOnce(s, event) && At(s, x).Idle? && event !in s.recorded
    ensures AtMostOnce(Apply(s, Check(x, event)), event) <==> Untouched(s, event)
  {
    var z := Apply(s, Check(x, event));
    assert OnItsWay(z, x, event);
    assert forall a :: a != x ==> (OnItsWay(z, a, event) <==> OnItsWay(s, a, event));
    if !Untouched(s, event) && s.handled[event] == 0 {
      var a :| OnItsWay(s, a, event);
      assert OnItsWay(z, a, event) && a != x;
    }
  }

  lemma OtherStepKeepsOnce(s: State, step: Step, event: Id)
    requires AtMostOnce(s, event)
    requires step.Check? ==> step.event != event || !At(s, step.actor).Idle? || event in s.recorded
    ensures AtMostOnce(Apply(s, step), event)
  {
    var z := Apply(s, step);
    assert forall a :: OnItsWay(z, a, event) ==> OnItsWay(s, a, event);
    if step.Handle? && OnItsWay(s, step.actor, event) {
      assert forall a :: !OnItsWay(z, a, event);
    }
  }

  /** Exactly which steps keep an event from being handled twice. */
  lemma StepKeepsOnceIff(s: State, step: Step, event: Id)
    requires AtMostOnce(s, event)
    ensures AtMostOnce(Apply(s, step), event) <==> !LetsThroughAgain(s, step, event)
  {
    if step.Check? && step.event == event && At(s, step.actor).Idle? && event !in s.recorded {
      CheckKeepsOnceIff(s, step.actor, event);
    } else {
      OtherStepKeepsOnce(s, step, event);
    }
  }

  ghost predicate NeverAgain(s: State, steps: seq<Step>, event: Id)
    decreases |steps|
  {
    steps == [] || (!LetsThroughAgain(s, steps[0], event) && NeverAgain(Apply(s, steps[0]), steps[1..], event))
  }

  /** So over any run in which no check lets the event through again, it is handled at most once. */
  lemma {:induction false} HandledAtMostOnce(s: State, steps: seq<Step>, event: Id)
    requires AtMostOnce(s, event) && NeverAgain(s, steps, event)
    ensures AtMostOnce(Run(s, steps), event) && Run(s, steps).handled[event] <= 1
    decreases |steps|
  {
    if steps == [] {
    } else {
      StepKeepsOnceIff(s, steps[0], event);
      HandledAtMostOnce(Apply(s, steps[0]), steps[1..], event);
    }
  }

  /** And a check that does so costs a second handler call as soon as the deliveries on their way arrive. */
  lemma LettingThroughAgainHandlesTwice(s: State, step: Step, event: Id)
    requires AtMostOnce(s, event) && LetsThroughAgain(s, step, event)
    ensures exists other :: Apply(Apply(Apply(s, step), Handle(other, true)), Handle(step.actor, true)).handled[event] == 2
  {
    var x := step.actor;
    var s1 := Apply(s, step);
    assert OnItsWay(s1, x, event);
    if s.handled[event] == 0 {
      var a :| OnItsWay(s, a, event);
      assert a != x && OnItsWay(s1, a, event);
      var s2 := Apply(s1, Handle(a, true));
      assert OnItsWay(s2, x, event) && Apply(s2, Handle(x, true)).handled[event] == 2;
    } else {
      var s2 := Apply(s1, Handle(x, true));
      assert s2.handled[event] == 2 && Apply(s2, Handle(x, true)) == s2;
    }
  }

  /** From the start: two deliveries of one event both check before either has recorded it, and it is handled twice. */
  lemma TwoDeliveriesHandleTwice(event: Id)
    ensures Run(START, [Check(0, event), Check(1, event), Handle(0, true), Handle(1, true)]).handled[event] == 2
  {
    FourSteps(Run, Apply, START, Check(0, event), Check(1, event), Handle(0, true), Handle(1, true));
    var s2 := START.(deliveries := map[0 := Handling(event), 1 := Handling(event)]);
    assert Apply(Apply(START, Check(0, event)), Check(1, event)) == s2;
  }
}
