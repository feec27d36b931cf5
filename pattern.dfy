/**
 * One pattern instance of the complex-event matcher: the steps it still
 * needs, the contexts currently guarding it and the events it has already
 * consumed, with the checks and the advance the dispatcher applies to it.
 */
module Patterns {

  /** An occurrence the matcher consumes; `value` is the payload predicates inspect. */
  datatype Event = Event(name: string, value: int)

  /** A named guard whose validity is an external check without arguments. */
  datatype Context = Context(name: string, validityCheck: () -> bool)

  /** A condition on the incoming event and the events the instance consumed before it. */
  type Predicate = (Event, seq<Event>) -> bool

  /** One stage of a pattern: the event expected, the predicates it must pass
      and the contexts that guard the instance once the stage is consumed. */
  datatype Step = Step(event: Event, predicates: seq<Predicate>, contextsToActivate: seq<Context>)

  /** A pattern: a template when stored as such, an instance once spawned from one. */
  datatype Pattern = Pattern(nextSteps: seq<Step>, activeContexts: seq<Context>, prevEvents: seq<Event>)

  predicate IsValid(c: Context)
  {
    c.validityCheck()
  }

  predicate IsCompleted(p: Pattern)
  {
    |p.nextSteps| == 0
  }

  /** The event the instance waits for; the source indexes nextSteps[0] without a check. */
  function NextEvent(p: Pattern): Event
    requires !IsCompleted(p)
  {
    p.nextSteps[0].event
  }

  predicate TypeMatches(p: Pattern, e: Event)
    requires !IsCompleted(p)
  {
    e.name == NextEvent(p).name
  }

  /** Every predicate of the current step accepts `e` against the history. */
  ghost predicate PredicatesHold(p: Pattern, e: Event)
    requires !IsCompleted(p)
  {
    forall i :: 0 <= i < |p.nextSteps[0].predicates| ==> p.nextSteps[0].predicates[i](e, p.prevEvents)
  }

  /** What the dispatcher means by "`e` is the event this instance waits for". */
  ghost predicate Matches(p: Pattern, e: Event)
    requires !IsCompleted(p)
  {
    TypeMatches(p, e) && PredicatesHold(p, e)
  }

  /** Every context currently guarding the instance is valid. */
  ghost predicate ContextsHold(p: Pattern)
  {
    forall i :: 0 <= i < |p.activeContexts| ==> IsValid(p.activeContexts[i])
  }

  /**
   * Runs the current step's predicates in declaration order and stops at the
   * first one that rejects `e`. `evaluated` counts the predicates invoked.
   */
  method PredicatesMatch(p: Pattern, e: Event) returns (ok: bool, ghost evaluated: nat)
    requires !IsCompleted(p)
    ensures ok <==> PredicatesHold(p, e)
    ensures |p.nextSteps[0].predicates| == 0 ==> ok
    ensures ok ==> evaluated == |p.nextSteps[0].predicates|
    ensures !ok ==> 0 < evaluated <= |p.nextSteps[0].predicates|
                    && !p.nextSteps[0].predicates[evaluated - 1](e, p.prevEvents)
                    && forall i :: 0 <= i < evaluated - 1 ==> p.nextSteps[0].predicates[i](e, p.prevEvents)
  {
    var predicates := p.nextSteps[0].predicates;
    evaluated := 0;
    for i := 0 to |predicates|
      invariant evaluated == i
      invariant forall k :: 0 <= k < i ==> predicates[k](e, p.prevEvents)
    {
      evaluated := i + 1;
      if !predicates[i](e, p.prevEvents) {
        return false, evaluated;
      }
    }
    ok := true;
  }

  /** The type check first; the predicates run only when the names agree. */
  method EventMatchesCurrentEvent(p: Pattern, e: Event) returns (r: bool)
    requires !IsCompleted(p)
    ensures r <==> Matches(p, e)
    ensures e.name != NextEvent(p).name ==> !r
  {
    r := false;
    if TypeMatches(p, e) {
      ghost var evaluated;
      r, evaluated := PredicatesMatch(p, e);
    }
  }

  /**
   * Checks the active contexts in order, stopping at the first invalid one.
   * The event is part of the signature but plays no part in the answer.
   */
  method ContextsAreValid(p: Pattern, e: Event) returns (ok: bool)
    ensures ok <==> ContextsHold(p)
    ensures |p.activeContexts| == 0 ==> ok
  {
    var contexts := p.activeContexts;
    for i := 0 to |contexts|
      invariant forall k :: 0 <= k < i ==> IsValid(contexts[k])
    {
      if !IsValid(contexts[i]) {
        return false;
      }
    }
    ok := true;
  }

  /** Makes the current step's contexts the active ones, dropping the previous ones. */
  function ActivateContexts(p: Pattern): (q: Pattern)
    requires !IsCompleted(p)
    ensures q.nextSteps == p.nextSteps && q.prevEvents == p.prevEvents
    ensures q.activeContexts == p.nextSteps[0].contextsToActivate
  {
    p.(activeContexts := p.nextSteps[0].contextsToActivate)
  }

  /**
   * Consumes the current step with `e`: its contexts replace the active ones,
   * the step is popped and `e` joins the history.
   */
  function Advance(p: Pattern, e: Event): (q: Pattern)
    requires !IsCompleted(p)
    ensures |q.nextSteps| == |p.nextSteps| - 1 && q.nextSteps == p.nextSteps[1..]
    ensures |q.prevEvents| == |p.prevEvents| + 1
    ensures q.prevEvents[..|p.prevEvents|] == p.prevEvents && q.prevEvents[|p.prevEvents|] == e
    ensures q.activeContexts == p.nextSteps[0].contextsToActivate
  {
    var activated := ActivateContexts(p);
    activated.(nextSteps := activated.nextSteps[1..], prevEvents := activated.prevEvents + [e])
  }

  /** After one advance a multi-step instance waits for the event of its second step. */
  lemma NextEventAfterAdvance(p: Pattern, e: Event)
    requires |p.nextSteps| >= 2
    ensures !IsCompleted(Advance(p, e))
    ensures NextEvent(Advance(p, e)) == p.nextSteps[1].event
  {
  }

  /** Whether an event matches never depends on the contexts guarding the instance. */
  lemma MatchingIgnoresContexts(p: Pattern, e: Event, cs: seq<Context>)
    requires !IsCompleted(p)
    ensures Matches(p.(activeContexts := cs), e) <==> Matches(p, e)
  {
  }

  /** The instance after consuming `es` one event after another. */
  ghost function AdvanceAll(p: Pattern, es: seq<Event>): Pattern
    requires |es| <= |p.nextSteps|
    decreases |es|
  {
    if |es| == 0 then p else AdvanceAll(Advance(p, es[0]), es[1..])
  }

  /**
   * Advancing by k events consumes exactly the first k steps, appends the k
   * events to the history in order, leaves the contexts of the last consumed
   * step active, and completes the instance exactly when k is its step count.
   */
  lemma {:induction false} AdvanceAllConsumes(p: Pattern, es: seq<Event>)
    requires |es| <= |p.nextSteps|
    ensures AdvanceAll(p, es).nextSteps == p.nextSteps[|es|..]
    ensures AdvanceAll(p, es).prevEvents == p.prevEvents + es
    ensures IsCompleted(AdvanceAll(p, es)) <==> |es| == |p.nextSteps|
    ensures 0 < |es| ==> AdvanceAll(p, es).activeContexts == p.nextSteps[|es| - 1].contextsToActivate
    decreases |es|
  {
    if |es| > 0 {
      var q := Advance(p, es[0]);
      AdvanceAllConsumes(q, es[1..]);
      assert q.prevEvents == p.prevEvents + [es[0]];
      assert [es[0]] + es[1..] == es;
    }
  }

  /** An n-step instance is still pending after n - 1 advances and completed after n. */
  lemma CompletesAfterLastStep(p: Pattern, es: seq<Event>)
    requires |es| == |p.nextSteps| > 0
    ensures !IsCompleted(AdvanceAll(p, es[..|es| - 1]))
    ensures IsCompleted(AdvanceAll(p, es))
    ensures AdvanceAll(p, es).prevEvents == p.prevEvents + es
  {
    AdvanceAllConsumes(p, es[..|es| - 1]);
    AdvanceAllConsumes(p, es);
  }
}
