/**
 * The fixtures of the repository's unit tests and the end-to-end scenarios of
 * the matcher, stated as methods and lemmas whose contracts are the expected
 * outcomes.
 */
module Scenarios {
  import opened Patterns
  import opened Matcher

  const EventOne := Event("EventOne", 0)
  const EventTwo := Event("EventTwo", 0)
  const EventThree := Event("EventThree", 0)

  /** Accepts every event. */
  const PredicateTrue: Predicate := (incoming: Event, prevEvents: seq<Event>) => true

  /** Accepts an event whose value equals that of the first event consumed. */
  const PredicateFirstValueMatch: Predicate :=
    (incoming: Event, prevEvents: seq<Event>) => |prevEvents| > 0 && incoming.value == prevEvents[0].value

  const StepOne := Step(EventOne, [], [])
  const StepTwo := Step(EventTwo, [], [])
  const StepThree := Step(EventThree, [], [])

  /** Three plain steps: EventOne, EventTwo, EventThree. */
  const PatternWithSteps := Pattern([StepOne, StepTwo, StepThree], [], [])

  /** One EventTwo step guarded by both predicates, with an EventOne of value 1 already consumed. */
  const PatternWithPredicates :=
    Pattern([Step(EventTwo, [PredicateTrue, PredicateFirstValueMatch], [])], [], [Event("EventOne", 1)])

  const PatternWithSatisfiedContexts :=
    Pattern([StepTwo], [Context("ContextOne", () => true), Context("ContextTwo", () => true)], [])

  const PatternWithUnsatisfiedContexts :=
    Pattern([StepTwo], [Context("ContextOne", () => true), Context("ContextTwo", () => false)], [])

  const PatternWithContextsToActivate :=
    Pattern([Step(EventOne, [], [Context("ContextOne", () => true)])], [], [])

  /** The type check and the predicates accept and reject as the unit tests expect. */
  method MatchingFixtures() returns (typeHit: bool, typeMiss: bool, predicatesHit: bool, predicatesMiss: bool)
    ensures typeHit && !typeMiss
    ensures predicatesHit && !predicatesMiss
  {
    typeHit := EventMatchesCurrentEvent(PatternWithSteps, Event("EventOne", 0));
    typeMiss := EventMatchesCurrentEvent(PatternWithSteps, Event("EventTwo", 0));
    predicatesHit := EventMatchesCurrentEvent(PatternWithPredicates, Event("EventTwo", 1));
    var predicates := PatternWithPredicates.nextSteps[0].predicates;
    assert !predicates[1](Event("EventTwo", 2), PatternWithPredicates.prevEvents);
    predicatesMiss := EventMatchesCurrentEvent(PatternWithPredicates, Event("EventTwo", 2));
  }

  /** Two valid contexts pass the gate; one invalid context among them fails it. */
  method ContextFixtures() returns (satisfied: bool, unsatisfied: bool)
    ensures satisfied && !unsatisfied
  {
    satisfied := ContextsAreValid(PatternWithSatisfiedContexts, EventTwo);
    assert !IsValid(PatternWithUnsatisfiedContexts.activeContexts[1]);
    unsatisfied := ContextsAreValid(PatternWithUnsatisfiedContexts, EventTwo);
  }

  /**
   * Advancing moves the expectation to the following step, appends the event
   * to the history, activates the step's contexts, and completes the pattern
   * with its third event but not with its second.
   */
  lemma AdvanceFixtures()
    ensures NextEvent(PatternWithSteps).name == "EventOne"
    ensures NextEvent(Advance(PatternWithSteps, EventOne)).name == "EventTwo"
    ensures Advance(Advance(PatternWithSteps, EventOne), EventTwo).prevEvents[1].name == "EventTwo"
    ensures Advance(PatternWithContextsToActivate, EventOne).activeContexts[0].name == "ContextOne"
    ensures !IsCompleted(AdvanceAll(PatternWithSteps, [EventOne, EventTwo]))
    ensures IsCompleted(AdvanceAll(PatternWithSteps, [EventOne, EventTwo, EventThree]))
  {
    var es := [EventOne, EventTwo, EventThree];
    CompletesAfterLastStep(PatternWithSteps, es);
    assert es[..2] == [EventOne, EventTwo];
  }

  /** The templates of the three-step scenario: PatternWithSteps, filed under EventOne. */
  const ThreeStepTemplates := map["EventOne" := [PatternWithSteps]]

  lemma ThreeStepTemplatesIndexed()
    ensures WellIndexed(ThreeStepTemplates)
  {
    forall k, i | k in ThreeStepTemplates && 0 <= i < |ThreeStepTemplates[k]|
      ensures WaitsFor(ThreeStepTemplates[k][i], k)
    {
      assert k == "EventOne" && ThreeStepTemplates[k][i] == PatternWithSteps;
    }
  }

  /** The three-step instance after EventOne, and after EventOne and EventTwo. */
  const AfterEventOne := Pattern([StepTwo, StepThree], [], [EventOne])
  const AfterEventTwo := Pattern([StepThree], [], [EventOne, EventTwo])

  /** Each event in turn advances the three-step pattern, and the last one completes it. */
  lemma ThreeStepOutcomes()
    ensures OutcomeOf(PatternWithSteps, EventOne) == Rekeyed(AfterEventOne)
    ensures OutcomeOf(AfterEventOne, EventTwo) == Rekeyed(AfterEventTwo)
    ensures OutcomeOf(AfterEventTwo, EventThree) == Completed([EventOne, EventTwo, EventThree])
  {
    OutcomeCases(PatternWithSteps, EventOne);
    OutcomeCases(AfterEventOne, EventTwo);
    OutcomeCases(AfterEventTwo, EventThree);
    assert [] + [EventOne] == [EventOne];
    assert [EventOne] + [EventTwo] == [EventOne, EventTwo];
  }

  /** EventOne spawns an instance that has consumed EventOne and waits for EventTwo. */
  lemma ThreeStepFirstEvent()
    ensures WellIndexed(ThreeStepTemplates) && WellIndexed(map[])
    ensures Dispatch(ThreeStepTemplates, map[], EventOne) == map["EventTwo" := [AfterEventOne]]
    ensures DispatchCompletions(ThreeStepTemplates, map[], EventOne) == []
  {
    ThreeStepTemplatesIndexed();
    ThreeStepOutcomes();
    DispatchToTemplateOnly(ThreeStepTemplates, map[], EventOne, PatternWithSteps);
  }

  /** EventTwo moves that instance to the EventThree bucket; no template waits for EventTwo. */
  lemma ThreeStepSecondEvent()
    ensures WellIndexed(ThreeStepTemplates) && WellIndexed(map["EventTwo" := [AfterEventOne]])
    ensures Dispatch(ThreeStepTemplates, map["EventTwo" := [AfterEventOne]], EventTwo)
            == map["EventTwo" := [], "EventThree" := [AfterEventTwo]]
    ensures DispatchCompletions(ThreeStepTemplates, map["EventTwo" := [AfterEventOne]], EventTwo) == []
  {
    ThreeStepTemplatesIndexed();
    ThreeStepOutcomes();
    var active := map["EventTwo" := [AfterEventOne]];
    assert WaitsFor(AfterEventOne, "EventTwo");
    assert Lookup(ThreeStepTemplates, "EventTwo") == [];
    DispatchToActiveOnly(ThreeStepTemplates, active, EventTwo, AfterEventOne);
    var emptied := active["EventTwo" := []];
    assert NextEvent(AfterEventTwo).name == "EventThree";
    assert Lookup(emptied, "EventThree") + [AfterEventTwo] == [AfterEventTwo];
    assert SingleStep(active, AfterEventOne, EventTwo, true) == emptied["EventThree" := [AfterEventTwo]];
    ReplaceThenAdd([AfterEventOne], [], [AfterEventTwo], "EventTwo", "EventThree");
  }

  /** Replacing the only key of a one-key map and then adding another gives the two-key display. */
  lemma ReplaceThenAdd<V>(a: V, b: V, c: V, k1: string, k2: string)
    requires k1 != k2
    ensures map[k1 := a][k1 := b][k2 := c] == map[k1 := b, k2 := c]
  {
  }

  /** EventThree completes the instance with the three events as its history. */
  lemma ThreeStepThirdEvent()
    ensures WellIndexed(ThreeStepTemplates) && WellIndexed(map["EventTwo" := [], "EventThree" := [AfterEventTwo]])
    ensures Dispatch(ThreeStepTemplates, map["EventTwo" := [], "EventThree" := [AfterEventTwo]], EventThree)
            == map["EventTwo" := [], "EventThree" := []]
    ensures DispatchCompletions(ThreeStepTemplates, map["EventTwo" := [], "EventThree" := [AfterEventTwo]], EventThree)
            == [[EventOne, EventTwo, EventThree]]
  {
    ThreeStepTemplatesIndexed();
    ThreeStepOutcomes();
    var active := map["EventTwo" := [], "EventThree" := [AfterEventTwo]];
    assert WaitsFor(AfterEventTwo, "EventThree");
    assert Lookup(ThreeStepTemplates, "EventThree") == [];
    DispatchToActiveOnly(ThreeStepTemplates, active, EventThree, AfterEventTwo);
    assert SingleStep(active, AfterEventTwo, EventThree, true) == active["EventThree" := []];
    ReplaceSecond([], [AfterEventTwo], [], "EventTwo", "EventThree");
  }

  /** Replacing the second key of a two-key display gives the display with the new value. */
  lemma ReplaceSecond<V>(a: V, b: V, c: V, k1: string, k2: string)
    requires k1 != k2
    ensures map[k1 := a, k2 := b][k2 := c] == map[k1 := a, k2 := c]
  {
  }

  /**
   * A template with steps EventOne, EventTwo, EventThree fed those three
   * events in order completes exactly once, with the three events as its
   * history, and leaves no instance pending.
   */
  method ThreeStepCompletion() returns (m: PatternMatcher)
    ensures m.completed == [[EventOne, EventTwo, EventThree]]
    ensures m.activePatterns == map["EventTwo" := [], "EventThree" := []]
  {
    ThreeStepFirstEvent();
    m := new PatternMatcher(ThreeStepTemplates);
    m.ProcessEvent(EventOne);
    ThreeStepSecondEvent();
    m.ProcessEvent(EventTwo);
    ThreeStepThirdEvent();
    m.ProcessEvent(EventThree);
  }

  /** Replacing the value of the only key of a one-key map. */
  lemma ReplaceOnly<V>(a: V, b: V, k: string)
    ensures map[k := a][k := b] == map[k := b]
  {
  }

  /** Two templates waiting for EventOne, one continuing with EventTwo and one with EventThree. */
  const TemplateToTwo := Pattern([StepOne, StepTwo], [], [])
  const TemplateToThree := Pattern([StepOne, StepThree], [], [])
  const TwoTemplates := map["EventOne" := [TemplateToTwo, TemplateToThree]]
  const WaitingForTwo := Pattern([StepTwo], [], [EventOne])
  const WaitingForThree := Pattern([StepThree], [], [EventOne])

  lemma TwoTemplatesIndexed()
    ensures WellIndexed(TwoTemplates)
  {
    forall k, i | k in TwoTemplates && 0 <= i < |TwoTemplates[k]|
      ensures WaitsFor(TwoTemplates[k][i], k)
    {
      assert k == "EventOne";
    }
  }

  lemma TwoTemplatesOutcomes()
    ensures OutcomeOf(TemplateToTwo, EventOne) == Rekeyed(WaitingForTwo)
    ensures OutcomeOf(TemplateToThree, EventOne) == Rekeyed(WaitingForThree)
  {
    OutcomeCases(TemplateToTwo, EventOne);
    OutcomeCases(TemplateToThree, EventOne);
    assert [] + [EventOne] == [EventOne];
  }

  /**
   * One EventOne spawns one instance from each template, each filed under its
   * own next event, in template order, and completes nothing.
   */
  lemma TwoTemplatesFirstEvent()
    ensures WellIndexed(TwoTemplates) && WellIndexed(map[])
    ensures Dispatch(TwoTemplates, map[], EventOne) == map["EventTwo" := [WaitingForTwo], "EventThree" := [WaitingForThree]]
    ensures DispatchCompletions(TwoTemplates, map[], EventOne) == []
  {
    TwoTemplatesIndexed();
    TwoTemplatesOutcomes();
    var ps := [TemplateToTwo, TemplateToThree];
    assert Lookup(TwoTemplates, "EventOne") == ps == [TemplateToTwo] + [TemplateToThree];
    PassOverEmpty(map[], EventOne, true);
    TemplatePassSplit(map[], [TemplateToTwo], [TemplateToThree], EventOne);
    assert WaitsFor(TemplateToTwo, "EventOne") && WaitsFor(TemplateToThree, "EventOne");
    PassOverSingleton(map[], TemplateToTwo, EventOne, false);
    var first := map["EventTwo" := [WaitingForTwo]];
    assert Lookup(map[], "EventTwo") + [WaitingForTwo] == [WaitingForTwo];
    assert SingleStep(map[], TemplateToTwo, EventOne, false) == first;
    PassOverSingleton(first, TemplateToThree, EventOne, false);
    assert Lookup(first, "EventThree") + [WaitingForThree] == [WaitingForThree];
    assert SingleStep(first, TemplateToThree, EventOne, false) == first["EventThree" := [WaitingForThree]];
  }

  /** Two templates fed the same event spawn two independent instances. */
  method TwoTemplatesSpawnIndependently() returns (m: PatternMatcher)
    ensures m.activePatterns == map["EventTwo" := [WaitingForTwo], "EventThree" := [WaitingForThree]]
    ensures m.completed == []
  {
    TwoTemplatesFirstEvent();
    m := new PatternMatcher(TwoTemplates);
    m.ProcessEvent(EventOne);
  }

  /** A template whose first step activates a context that is never valid. */
  const ClosedContext := Context("Closed", () => false)
  const GuardedTemplate := Pattern([Step(EventOne, [], [ClosedContext]), StepTwo], [], [])
  const GuardedTemplates := map["EventOne" := [GuardedTemplate]]
  const GuardedInstance := Pattern([StepTwo], [ClosedContext], [EventOne])

  lemma GuardedIndexed()
    ensures WellIndexed(GuardedTemplates)
  {
    forall k, i | k in GuardedTemplates && 0 <= i < |GuardedTemplates[k]|
      ensures WaitsFor(GuardedTemplates[k][i], k)
    {
      assert k == "EventOne" && GuardedTemplates[k][i] == GuardedTemplate;
    }
  }

  /** EventOne activates the closed context; EventTwo then matches but is cancelled by it. */
  lemma GuardedOutcomes()
    ensures OutcomeOf(GuardedTemplate, EventOne) == Rekeyed(GuardedInstance)
    ensures OutcomeOf(GuardedInstance, EventTwo) == Cancelled
  {
    OutcomeCases(GuardedTemplate, EventOne);
    OutcomeCases(GuardedInstance, EventTwo);
    assert [] + [EventOne] == [EventOne];
    assert !IsValid(GuardedInstance.activeContexts[0]);
  }

  lemma GuardedFirstEvent()
    ensures WellIndexed(GuardedTemplates) && WellIndexed(map[])
    ensures Dispatch(GuardedTemplates, map[], EventOne) == map["EventTwo" := [GuardedInstance]]
    ensures DispatchCompletions(GuardedTemplates, map[], EventOne) == []
  {
    GuardedIndexed();
    GuardedOutcomes();
    DispatchToTemplateOnly(GuardedTemplates, map[], EventOne, GuardedTemplate);
    assert Lookup(map[], "EventTwo") + [GuardedInstance] == [GuardedInstance];
  }

  lemma GuardedSecondEvent()
    ensures WellIndexed(GuardedTemplates) && WellIndexed(map["EventTwo" := [GuardedInstance]])
    ensures Dispatch(GuardedTemplates, map["EventTwo" := [GuardedInstance]], EventTwo) == map["EventTwo" := []]
    ensures DispatchCompletions(GuardedTemplates, map["EventTwo" := [GuardedInstance]], EventTwo) == []
  {
    GuardedIndexed();
    GuardedOutcomes();
    assert WaitsFor(GuardedInstance, "EventTwo");
    assert Lookup(GuardedTemplates, "EventTwo") == [];
    DispatchToActiveOnly(GuardedTemplates, map["EventTwo" := [GuardedInstance]], EventTwo, GuardedInstance);
    ReplaceOnly([GuardedInstance], [], "EventTwo");
  }

  /**
   * An instance whose active context is invalid is cancelled by the event it
   * waits for: it leaves the active index and nothing completes.
   */
  method InvalidContextCancels() returns (m: PatternMatcher)
    ensures m.activePatterns == map["EventTwo" := []]
    ensures m.completed == []
  {
    GuardedFirstEvent();
    m := new PatternMatcher(GuardedTemplates);
    m.ProcessEvent(EventOne);
    GuardedSecondEvent();
    m.ProcessEvent(EventTwo);
  }

  /** A template expecting EventOne twice. */
  const RepeatedTemplate := Pattern([StepOne, StepOne], [], [])
  const RepeatedTemplates := map["EventOne" := [RepeatedTemplate]]
  const HalfwayInstance := Pattern([StepOne], [], [EventOne])

  lemma RepeatedIndexed()
    ensures WellIndexed(RepeatedTemplates)
  {
    forall k, i | k in RepeatedTemplates && 0 <= i < |RepeatedTemplates[k]|
      ensures WaitsFor(RepeatedTemplates[k][i], k)
    {
      assert k == "EventOne" && RepeatedTemplates[k][i] == RepeatedTemplate;
    }
  }

  lemma RepeatedOutcomes()
    ensures OutcomeOf(RepeatedTemplate, EventOne) == Rekeyed(HalfwayInstance)
    ensures OutcomeOf(HalfwayInstance, EventOne) == Completed([EventOne, EventOne])
  {
    OutcomeCases(RepeatedTemplate, EventOne);
    OutcomeCases(HalfwayInstance, EventOne);
    assert [] + [EventOne] == [EventOne];
  }

  /** The instance EventOne spawns waits under EventOne but is not advanced by that same event. */
  lemma RepeatedFirstEvent()
    ensures WellIndexed(RepeatedTemplates) && WellIndexed(map[])
    ensures Dispatch(RepeatedTemplates, map[], EventOne) == map["EventOne" := [HalfwayInstance]]
    ensures DispatchCompletions(RepeatedTemplates, map[], EventOne) == []
  {
    RepeatedIndexed();
    RepeatedOutcomes();
    DispatchToTemplateOnly(RepeatedTemplates, map[], EventOne, RepeatedTemplate);
    assert Lookup(map[], "EventOne") + [HalfwayInstance] == [HalfwayInstance];
  }

  /** The second EventOne completes that instance and the template spawns a fresh one. */
  lemma RepeatedSecondEvent()
    ensures WellIndexed(RepeatedTemplates) && WellIndexed(map["EventOne" := [HalfwayInstance]])
    ensures Dispatch(RepeatedTemplates, map["EventOne" := [HalfwayInstance]], EventOne)
            == map["EventOne" := [HalfwayInstance]]
    ensures DispatchCompletions(RepeatedTemplates, map["EventOne" := [HalfwayInstance]], EventOne)
            == [[EventOne, EventOne]]
  {
    RepeatedIndexed();
    RepeatedOutcomes();
    var active := map["EventOne" := [HalfwayInstance]];
    assert WaitsFor(HalfwayInstance, "EventOne");
    DispatchToBoth(RepeatedTemplates, active, EventOne, HalfwayInstance, RepeatedTemplate);
    var emptied := active["EventOne" := []];
    ReplaceOnly([HalfwayInstance], [], "EventOne");
    assert SingleStep(active, HalfwayInstance, EventOne, true) == map["EventOne" := []];
    assert Lookup(map["EventOne" := []], "EventOne") + [HalfwayInstance] == [HalfwayInstance];
    ReplaceOnly([], [HalfwayInstance], "EventOne");
  }

  /**
   * Active instances are processed before templates: after one EventOne the
   * spawned instance is pending, and only the second EventOne completes it.
   */
  method RepeatedStepNotDoubleAdvanced() returns (m: PatternMatcher)
    ensures m.completed == [[EventOne, EventOne]]
    ensures m.activePatterns == map["EventOne" := [HalfwayInstance]]
  {
    RepeatedFirstEvent();
    m := new PatternMatcher(RepeatedTemplates);
    m.ProcessEvent(EventOne);
    RepeatedSecondEvent();
    m.ProcessEvent(EventOne);
  }
}
