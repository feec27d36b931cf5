# Pattern matcher — a verified model

The repository is a small complex-event pattern matcher written in Go. A
*pattern* is a list of steps. Each step names the event it expects, lists
predicates over that event and the events consumed before it, and lists the
contexts that guard the pattern once the step is consumed. The *pattern
matcher* keeps two indexes from an event name to a list of patterns:

- the templates, which only spawn instances;
- the active instances.

Each entry is filed under the name of the event it waits for next.
`ProcessEvent` runs the active bucket of the incoming event first, then the
template bucket. For each entry the event matches:

- If a guarding context is invalid, the entry is cancelled.
- Otherwise a copy is advanced by the event. The copy either completes or is
  appended under the name of its next event.
- An active entry that matched leaves its bucket.

The model has three modules:

- `Patterns` (`pattern.dfy`) holds the pattern instance. Patterns are values,
  and `Advance` is a datatype update. The early-exit predicate and context
  loops are methods proved against quantified specifications.
- `Matcher` (`pattern_matcher.dfy`) holds the dispatcher. It is a class with
  the two maps as fields. The pass over a bucket is a `while` loop that deletes
  while iterating. Each method is proved against the specification functions
  `PassResult` and `Dispatch`, whose properties are proved as lemmas.
- `Scenarios` (`scenarios.dfy`) holds the unit-test fixtures and end-to-end
  runs of the matcher, stated as contracts.

Completed histories go to a ghost log, `PatternMatcher.completed`, because the
source's completion handler is only a TODO.

## Model

| member | source | states |
|---|---|---|
| Patterns.IsValid | patternMatcher/pattern.go:14-16 | a context is valid when its validity check says so |
| Patterns.IsCompleted | patternMatcher/pattern.go:89-94 | a pattern is completed when no step is left |
| Patterns.NextEvent | patternMatcher/pattern.go:31-33 | the event of the first remaining step, defined only for a pattern that is not completed |
| Patterns.TypeMatches | patternMatcher/pattern.go:42-49 | the event's name equals the name of the event the pattern waits for |
| Patterns.ActivateContexts | patternMatcher/pattern.go:84-87 | the active contexts become exactly the current step's contexts to activate (a replacement, not a union); steps and history are untouched |
| Patterns.PredicatesMatch | patternMatcher/pattern.go:51-63 | the result is true iff every predicate of the current step accepts the event against the history, and it is true for an empty list; on failure exactly the predicates up to the first rejecting one were evaluated, in order |
| Patterns.EventMatchesCurrentEvent | patternMatcher/pattern.go:35-49 | true iff the event's name is the expected one and all predicates hold; a name mismatch gives false whatever the predicates say |
| Patterns.ContextsAreValid | patternMatcher/pattern.go:65-74 | true iff every active context is valid (a conjunction that does not depend on the event); true for no contexts |
| Patterns.Advance | patternMatcher/pattern.go:76-87 | the steps become the old tail, the history gains the event at its end with the old history as prefix, and the active contexts are replaced by the consumed step's contexts |
| Patterns.NextEventAfterAdvance | patternMatcher/pattern.go:31-33 | after one advance a pattern with two or more steps is pending and waits for its second step's event |
| Patterns.MatchingIgnoresContexts | patternMatcher/pattern.go:35-40 | whether an event matches is the same whatever contexts guard the pattern |
| Patterns.AdvanceAllConsumes | patternMatcher/pattern.go:76-94 | k advances consume exactly the first k steps, append the k events in order, leave the last consumed step's contexts active, and complete the pattern iff k is its step count |
| Patterns.CompletesAfterLastStep | patternMatcher/pattern.go:89-94 | an n-step pattern is pending after n-1 advances and completed after n, with all n events as its history |
| Matcher.OutcomeOf | patternMatcher/patternMatcher.go:23-49 | reference definition of one loop iteration: no match leaves the entry alone, a match under an invalid context cancels it, otherwise the advanced copy completes or is re-keyed |
| Matcher.Dispatch | patternMatcher/patternMatcher.go:10-17 | reference definition of one event: the pass over the active bucket, then the pass over the template bucket on its result |
| Matcher.OutcomeCases | patternMatcher/patternMatcher.go:23-49 | an entry is left alone iff the event does not match; cancelled iff it matches under an invalid context; completed iff it matches under valid contexts on its last step, with history plus event; otherwise it becomes the advanced copy, which waits for its next step's event |
| Matcher.Unmatched | patternMatcher/patternMatcher.go:22-23 | the entries a pass keeps from a bucket are never more than it held (instances re-filed under the same key are added separately, see PassBucket) |
| Matcher.UnmatchedSubMultiset | patternMatcher/patternMatcher.go:22-56 | the entries a pass keeps from a bucket are a sub-multiset of what it held: no entry is kept twice or made up |
| Matcher.UnmatchedIsFilter | patternMatcher/patternMatcher.go:22-56 | a visited active bucket keeps only entries the event does not match, and every such entry is kept unchanged |
| Matcher.UnmatchedWaiting | patternMatcher/patternMatcher.go:4-6 | what a bucket keeps still waits for the bucket's key |
| Matcher.KeyedToWaiting | patternMatcher/patternMatcher.go:46-48 | every instance appended under a key waits for that key |
| Matcher.KeyedToIsFilter | patternMatcher/patternMatcher.go:46-48 | an advanced instance lands under key k iff it is pending and waits for k |
| Matcher.EachEntryOnce | patternMatcher/patternMatcher.go:22-58 | every entry of a bucket is counted exactly once: it is kept, cancelled, completed or re-keyed |
| Matcher.SpawnedFromMatches | patternMatcher/patternMatcher.go:26-48 | each re-keyed instance is an entry that matched under valid contexts, advanced once by the event |
| Matcher.CompletionsFromMatches | patternMatcher/patternMatcher.go:41-44 | each completed history is a matched entry's history on its last step, followed by the event |
| Matcher.MatchesSpawn | patternMatcher/patternMatcher.go:40-48 | conversely, every entry matched under valid contexts with a further step left is advanced once and spawned |
| Matcher.MatchesComplete | patternMatcher/patternMatcher.go:40-44 | conversely, every entry matched under valid contexts on its last step hands its history followed by the event to the completion log |
| Matcher.PassBucket | patternMatcher/patternMatcher.go:20-59 | after a pass every bucket holds its old entries in order (for the visited active bucket, only those not matched), followed by the instances re-keyed to it in spawn order |
| Matcher.PassPreservesIndex | patternMatcher/patternMatcher.go:43-48 | a pass keeps the index invariant: every active entry is pending and filed under the name of its next event |
| Matcher.DispatchPreservesIndex | patternMatcher/patternMatcher.go:10-17 | processing an event keeps the index invariant |
| Matcher.PassOverEmpty | patternMatcher/patternMatcher.go:22 | a pass over an empty bucket changes nothing and completes nothing |
| Matcher.PassOverSingleton | patternMatcher/patternMatcher.go:22-56 | the pass over a one-entry bucket equals a direct one-entry definition: the active bucket is emptied if the entry matched, and a pending advanced copy is appended under its next event |
| Matcher.TemplatePassSplit | patternMatcher/patternMatcher.go:22-26 | a template pass over a bucket is the pass over its first part followed by the pass over the rest; the completions concatenate in bucket order |
| Matcher.DispatchToActiveOnly | patternMatcher/patternMatcher.go:14-16 | an event that only one active instance waits for changes the index exactly as that instance's single step does |
| Matcher.DispatchToTemplateOnly | patternMatcher/patternMatcher.go:14-16 | an event that only one template waits for changes the index exactly as that template's single step does |
| Matcher.DispatchToBoth | patternMatcher/patternMatcher.go:14-16 | with one active instance and one template waiting, the active step runs first and the template step runs on its result; completions come active first |
| Matcher.PassAtStep | patternMatcher/patternMatcher.go:22-34 | visiting the entry under the cursor (the next original entry, in insertion order) moves on by exactly one original entry; a removal keeps the cursor in place, so nothing is skipped or revisited |
| Matcher.PassAtEnd | patternMatcher/patternMatcher.go:22 | when the cursor reaches the end, every original entry has been visited and the active bucket holds exactly the unmatched ones |
| Matcher.PatternMatcher.constructor | patternMatcher/patternMatcher.go:3-7 | a matcher starts from a well-indexed template map with no active instance and an empty completion log |
| Matcher.PatternMatcher.ProcessEvent | patternMatcher/patternMatcher.go:10-17 | templates are unchanged, the active index becomes the active-then-template dispatch, the index invariant holds, and the log gains the completions, active ones first |
| Matcher.PatternMatcher.ProcessPatterns | patternMatcher/patternMatcher.go:20-59 | the loop leaves the index equal to the specified pass result and appends the pass's completions to the log |
| Matcher.PatternMatcher.VisitNext | patternMatcher/patternMatcher.go:22-56 | one iteration moves the pass from having visited j entries to j + 1 entries, stepping the cursor only when nothing was removed |
| Matcher.PatternMatcher.ProcessEntry | patternMatcher/patternMatcher.go:23-56 | the entry is removed iff the bucket is active and the event matched; the index and the log change by exactly that entry's outcome |
| Matcher.PatternMatcher.AppendUnderNextEvent | patternMatcher/patternMatcher.go:46-48 | the advanced instance is appended at the end of the bucket of its next event |
| Matcher.PatternMatcher.RemoveFromBucket | patternMatcher/patternMatcher.go:51-55 | the entry at the cursor is dropped from the active bucket, the others keep their order |
| Scenarios.MatchingFixtures | patternMatcher/pattern_test.go:127-170 | the type check accepts EventOne and rejects EventTwo on the three-step pattern; the predicates accept value 1 and reject value 2 |
| Scenarios.ContextFixtures | patternMatcher/pattern_test.go:58-100 | two valid contexts pass the gate; one invalid context among them fails it |
| Scenarios.AdvanceFixtures | patternMatcher/pattern_test.go:116-261 | the next event moves from EventOne to EventTwo, the last consumed event is EventTwo, ContextOne becomes active, and the pattern completes after three events but not after two |
| Scenarios.ThreeStepOutcomes | patternMatcher/patternMatcher.go:23-49 | EventOne, EventTwo and EventThree advance the three-step pattern in turn and the last completes it |
| Scenarios.ThreeStepFirstEvent | patternMatcher/patternMatcher.go:14-16 | EventOne spawns one instance, waiting under EventTwo |
| Scenarios.ThreeStepSecondEvent | patternMatcher/patternMatcher.go:41-56 | EventTwo moves that instance from the EventTwo bucket to the EventThree bucket |
| Scenarios.ThreeStepThirdEvent | patternMatcher/patternMatcher.go:43-44 | EventThree completes it with history EventOne, EventTwo, EventThree |
| Scenarios.ThreeStepCompletion | patternMatcher/patternMatcher.go:10-17 | three events through a real matcher complete the pattern exactly once and leave nothing pending |
| Scenarios.TwoTemplatesFirstEvent | patternMatcher/patternMatcher.go:16 | one event spawns one instance from each of two templates, each filed under its own next event |
| Scenarios.TwoTemplatesSpawnIndependently | patternMatcher/patternMatcher.go:10-17 | the same through a real matcher |
| Scenarios.GuardedOutcomes | patternMatcher/patternMatcher.go:29-38 | a step can activate a context that is never valid; the next matching event then cancels the instance |
| Scenarios.GuardedFirstEvent | patternMatcher/patternMatcher.go:41-48 | the guarded template's instance is filed under EventTwo |
| Scenarios.GuardedSecondEvent | patternMatcher/patternMatcher.go:29-38 | EventTwo empties that bucket and completes nothing |
| Scenarios.InvalidContextCancels | patternMatcher/patternMatcher.go:10-17 | through a real matcher, the cancelled instance leaves the index and nothing completes |
| Scenarios.RepeatedOutcomes | patternMatcher/patternMatcher.go:23-49 | a template expecting EventOne twice is advanced by one EventOne; its half-way instance is completed by the next one |
| Scenarios.RepeatedFirstEvent | patternMatcher/patternMatcher.go:14-16 | the instance spawned by EventOne waits under EventOne but that same event does not advance it |
| Scenarios.RepeatedSecondEvent | patternMatcher/patternMatcher.go:14-16 | the second EventOne completes the waiting instance and the template spawns a fresh one |
| Scenarios.RepeatedStepNotDoubleAdvanced | patternMatcher/patternMatcher.go:14-16 | through a real matcher, two EventOne events complete the pattern once, not twice, and leave one fresh instance pending |

## Left out

- test.go is a scratch program that prints a slice. It is I/O and is not part of this model.
- Predicate and context closures are total Dafny functions, and nothing about their bodies is modelled. `PredicateFirstValueMatch` returns false on an empty history; the Go closure would panic there.
- A context's validity check is a pure function, so its validity is constant per Context value; validity that changes between events (a clock or a session store read by the Go closure) is not modelled.
- The ContextOne fixture in patternMatcher/pattern_test.go:102-114 has no validity check (nil in Go). The model gives it one that always holds. The test only reads its name.
- Matcher.PatternMatcher.ProcessPatterns: in the Go code, `patterns` is a local slice header (patternMatcher/patternMatcher.go:20, 32, 53). The removal of a matched active entry is therefore never written back to `activePatterns[e.name]`. Because the backing array is shared, the stored bucket is left with shifted contents. The comments at lines 31 and 52 say the intent is to remove the pattern from this event's mapping, and the model writes the filtered bucket back. So the model describes the intended dispatcher, not the aliasing behaviour of the Go slices.
- Go aliasing between a template's history and its copies is not modelled. Patterns are values here, so an advanced copy never shares storage with its template.
- The panic on writing into a nil map (a zero-valued matcher) is not modelled. The model's constructor always creates an empty map, and the source has no constructor.
- The completion handler is only a TODO in the source (patternMatcher/patternMatcher.go:44). The model keeps the completed histories in a ghost log, `completed`.
- Indexing `nextSteps[0]` of a completed pattern panics in Go. The model rules that case out by precondition (`!IsCompleted`), and the index invariant, proved preserved, shows the dispatcher never reaches it.
- Templates are compared by value: because `Advance` returns a new value, "a template entry is never advanced in place" needs no statement beyond `templatePatterns == old(templatePatterns)`.
- Concurrency, timeouts and cancellation of stalled instances do not exist in the source.
