/**
 * The dispatcher: templates and active instances, both indexed by the name of
 * the event each entry waits for, and the per-event pass that advances,
 * spawns, completes or cancels entries.
 */
module Matcher {
  import opened Patterns

  /** Event name -> the entries waiting for that event, in insertion order. */
  type Index = map<string, seq<Pattern>>

  /** A missing key reads as an empty bucket, as a lookup in a Go map does. */
  function Lookup(m: Index, k: string): seq<Pattern>
  {
    if k in m then m[k] else []
  }

  ghost predicate AllPending(ps: seq<Pattern>)
  {
    forall i :: 0 <= i < |ps| ==> !IsCompleted(ps[i])
  }

  /** The entry is pending and its next event is named `k`. */
  predicate WaitsFor(p: Pattern, k: string)
  {
    !IsCompleted(p) && NextEvent(p).name == k
  }

  ghost predicate AllWaitingFor(ps: seq<Pattern>, k: string)
  {
    forall i :: 0 <= i < |ps| ==> WaitsFor(ps[i], k)
  }

  /** The index invariant: every entry is pending and sits under the name of its next event. */
  ghost predicate WellIndexed(m: Index)
  {
    forall k, i :: k in m && 0 <= i < |m[k]| ==> WaitsFor(m[k][i], k)
  }

  /** What one event does to one entry of a bucket. */
  datatype Outcome =
    | Unmoved                            // the entry does not match the event
    | Cancelled                          // it matches, but a guarding context is invalid
    | Completed(history: seq<Event>)     // it consumed its last step
    | Rekeyed(instance: Pattern)         // it advanced and waits for a further event

  /** The decision taken for one entry: match, then context gate, then advance. */
  ghost function OutcomeOf(p: Pattern, e: Event): Outcome
    requires !IsCompleted(p)
  {
    if !Matches(p, e) then Unmoved
    else if !ContextsHold(p) then Cancelled
    else
      var q := Advance(p, e);
      if IsCompleted(q) then Completed(q.prevEvents) else Rekeyed(q)
  }

  /**
   * An entry stays where it is exactly when the event does not match it, is
   * cancelled exactly when it matches under an invalid context, completes
   * exactly when it matches under valid contexts with one step left (handing
   * over its history followed by the event), and otherwise is the advanced
   * copy, which waits for the following step's event.
   */
  lemma OutcomeCases(p: Pattern, e: Event)
    requires !IsCompleted(p)
    ensures OutcomeOf(p, e).Unmoved? <==> !Matches(p, e)
    ensures OutcomeOf(p, e).Cancelled? <==> Matches(p, e) && !ContextsHold(p)
    ensures OutcomeOf(p, e).Completed? <==> Matches(p, e) && ContextsHold(p) && |p.nextSteps| == 1
    ensures OutcomeOf(p, e).Completed? ==> OutcomeOf(p, e).history == p.prevEvents + [e]
    ensures OutcomeOf(p, e).Rekeyed? ==>
              OutcomeOf(p, e).instance == Advance(p, e) && !IsCompleted(OutcomeOf(p, e).instance)
              && NextEvent(OutcomeOf(p, e).instance) == p.nextSteps[1].event
  {
  }

  /** The instance an outcome appends to the active index, if any. */
  function SpawnOf(o: Outcome): seq<Pattern>
  {
    if o.Rekeyed? then [o.instance] else []
  }

  /** The history an outcome hands to the completion log, if any. */
  function HistoryOf(o: Outcome): seq<seq<Event>>
  {
    if o.Completed? then [o.history] else []
  }

  /** The entries of a bucket that stay in it, in order. */
  ghost function Unmatched(ps: seq<Pattern>, e: Event): (r: seq<Pattern>)
    requires AllPending(ps)
    ensures |r| <= |ps|
    decreases |ps|
  {
    if |ps| == 0 then []
    else
      var last := ps[|ps| - 1];
      Unmatched(ps[..|ps| - 1], e) + (if OutcomeOf(last, e).Unmoved? then [last] else [])
  }

  /** What a bucket keeps is a sub-multiset of it: no entry is kept twice or made up. */
  lemma {:induction false} UnmatchedSubMultiset(ps: seq<Pattern>, e: Event)
    requires AllPending(ps)
    ensures multiset(Unmatched(ps, e)) <= multiset(ps)
    decreases |ps|
  {
    if |ps| > 0 {
      var init := ps[..|ps| - 1];
      UnmatchedSubMultiset(init, e);
      assert ps == init + [ps[|ps| - 1]];
    }
  }

  /** A bucket keeps exactly the entries the event does not match: nothing else, none lost. */
  lemma {:induction false} UnmatchedIsFilter(ps: seq<Pattern>, e: Event)
    requires AllPending(ps)
    ensures forall i :: 0 <= i < |Unmatched(ps, e)| ==>
              Unmatched(ps, e)[i] in ps && !IsCompleted(Unmatched(ps, e)[i]) && !Matches(Unmatched(ps, e)[i], e)
    ensures forall i :: 0 <= i < |ps| && !Matches(ps[i], e) ==> ps[i] in Unmatched(ps, e)
    decreases |ps|
  {
    if |ps| > 0 {
      var init := ps[..|ps| - 1];
      var last := ps[|ps| - 1];
      UnmatchedIsFilter(init, e);
      assert ps == init + [last];
      forall i | 0 <= i < |ps| && !Matches(ps[i], e) ensures ps[i] in Unmatched(ps, e) {
        if i < |ps| - 1 { assert ps[i] == init[i]; }
      }
    }
  }

  /** The entries a bucket keeps still wait for what the bucket's entries waited for. */
  lemma UnmatchedWaiting(ps: seq<Pattern>, e: Event, k: string)
    requires AllWaitingFor(ps, k)
    ensures AllWaitingFor(Unmatched(ps, e), k)
  {
    UnmatchedIsFilter(ps, e);
    var r := Unmatched(ps, e);
    forall i | 0 <= i < |r| ensures !IsCompleted(r[i]) && NextEvent(r[i]).name == k {
      var j :| 0 <= j < |ps| && ps[j] == r[i];
    }
  }

  /** The advanced, still pending instances a bucket yields, in bucket order. */
  ghost function Spawned(ps: seq<Pattern>, e: Event): seq<Pattern>
    requires AllPending(ps)
    decreases |ps|
  {
    if |ps| == 0 then []
    else
      var last := ps[|ps| - 1];
      Spawned(ps[..|ps| - 1], e) + SpawnOf(OutcomeOf(last, e))
  }

  /** The histories of the instances a bucket completes, in bucket order. */
  ghost function Completions(ps: seq<Pattern>, e: Event): seq<seq<Event>>
    requires AllPending(ps)
    decreases |ps|
  {
    if |ps| == 0 then []
    else
      var last := ps[|ps| - 1];
      Completions(ps[..|ps| - 1], e) + HistoryOf(OutcomeOf(last, e))
  }

  /** The instances of `qs` that wait for `k`, in order. */
  ghost function KeyedTo(qs: seq<Pattern>, k: string): seq<Pattern>
    decreases |qs|
  {
    if |qs| == 0 then []
    else
      var last := qs[|qs| - 1];
      KeyedTo(qs[..|qs| - 1], k) + (if WaitsFor(last, k) then [last] else [])
  }

  /** The instances selected for `k` all wait for `k`. */
  lemma {:induction false} KeyedToWaiting(qs: seq<Pattern>, k: string)
    ensures AllWaitingFor(KeyedTo(qs, k), k)
    decreases |qs|
  {
    if |qs| > 0 {
      KeyedToWaiting(qs[..|qs| - 1], k);
    }
  }

  /** The names the pending instances of `qs` wait for. */
  ghost function SpawnKeys(qs: seq<Pattern>): set<string>
  {
    set i | 0 <= i < |qs| && !IsCompleted(qs[i]) :: NextEvent(qs[i]).name
  }

  /**
   * The active index part-way through a pass that started from `start`: the
   * bucket of an active pass holds `rest`, what is left of it, and every other
   * bucket what it held at the start; each is followed by the instances
   * appended so far that wait for its key.
   */
  ghost function Tracked(start: Index, e: Event, isActive: bool, rest: seq<Pattern>, spawned: seq<Pattern>): Index
  {
    map k | k in start.Keys + SpawnKeys(spawned) ::
      (if isActive && k == e.name then rest else Lookup(start, k)) + KeyedTo(spawned, k)
  }

  /**
   * The active index after one pass over the bucket `ps`: an active bucket
   * loses every entry the event matched, and each advanced instance is
   * appended under the name of its next event.
   */
  ghost function PassResult(active: Index, ps: seq<Pattern>, e: Event, isActive: bool): Index
    requires AllPending(ps)
  {
    Tracked(active, e, isActive, Unmatched(ps, e), Spawned(ps, e))
  }

  /** The active index after an event: the active bucket first, then the template bucket. */
  ghost function Dispatch(templates: Index, active: Index, e: Event): Index
    requires WellIndexed(templates) && WellIndexed(active)
  {
    LookupWaiting(active, e.name);
    LookupWaiting(templates, e.name);
    var afterActive := PassResult(active, Lookup(active, e.name), e, true);
    PassResult(afterActive, Lookup(templates, e.name), e, false)
  }

  /** The histories an event completes, active instances first. */
  ghost function DispatchCompletions(templates: Index, active: Index, e: Event): seq<seq<Event>>
    requires WellIndexed(templates) && WellIndexed(active)
  {
    LookupWaiting(active, e.name);
    LookupWaiting(templates, e.name);
    Completions(Lookup(active, e.name), e) + Completions(Lookup(templates, e.name), e)
  }

  /** Each bucket of a well-indexed map waits for its own key. */
  lemma LookupWaiting(m: Index, k: string)
    requires WellIndexed(m)
    ensures AllWaitingFor(Lookup(m, k), k)
  {
  }

  /** A bucket that is a concatenation of two buckets waiting for `k` waits for `k`. */
  lemma JoinWaiting(a: seq<Pattern>, b: seq<Pattern>, k: string)
    requires AllWaitingFor(a, k) && AllWaitingFor(b, k)
    ensures AllWaitingFor(a + b, k)
  {
    forall i | 0 <= i < |a + b| ensures WaitsFor((a + b)[i], k) {
      if i >= |a| {
        assert (a + b)[i] == b[i - |a|];
      }
    }
  }

  /** A part-way index is well indexed when the start is and what is left of the bucket waits for the event. */
  lemma TrackedWellIndexed(start: Index, e: Event, isActive: bool, rest: seq<Pattern>, spawned: seq<Pattern>)
    requires WellIndexed(start)
    requires isActive ==> AllWaitingFor(rest, e.name)
    ensures WellIndexed(Tracked(start, e, isActive, rest, spawned))
  {
    var r := Tracked(start, e, isActive, rest, spawned);
    forall k | k in r ensures AllWaitingFor(r[k], k) {
      var kept := if isActive && k == e.name then rest else Lookup(start, k);
      LookupWaiting(start, k);
      KeyedToWaiting(spawned, k);
      JoinWaiting(kept, KeyedTo(spawned, k), k);
    }
  }

  /** Each pass keeps the index invariant: every entry sits under the name of its next event. */
  lemma PassPreservesIndex(active: Index, ps: seq<Pattern>, e: Event, isActive: bool)
    requires WellIndexed(active) && AllWaitingFor(ps, e.name)
    ensures WellIndexed(PassResult(active, ps, e, isActive))
  {
    UnmatchedWaiting(ps, e, e.name);
    TrackedWellIndexed(active, e, isActive, Unmatched(ps, e), Spawned(ps, e));
  }

  lemma DispatchPreservesIndex(templates: Index, active: Index, e: Event)
    requires WellIndexed(templates) && WellIndexed(active)
    ensures WellIndexed(Dispatch(templates, active, e))
  {
    LookupWaiting(active, e.name);
    LookupWaiting(templates, e.name);
    PassPreservesIndex(active, Lookup(active, e.name), e, true);
    var afterActive := PassResult(active, Lookup(active, e.name), e, true);
    PassPreservesIndex(afterActive, Lookup(templates, e.name), e, false);
  }

  /** The instances selected for `k` are exactly the entries of `qs` that wait for `k`. */
  lemma {:induction false} KeyedToIsFilter(qs: seq<Pattern>, k: string)
    ensures forall q :: q in KeyedTo(qs, k) <==> q in qs && WaitsFor(q, k)
    decreases |qs|
  {
    if |qs| > 0 {
      var init := qs[..|qs| - 1];
      KeyedToIsFilter(init, k);
      assert qs == init + [qs[|qs| - 1]];
    }
  }

  /** The entries the event cancels: they match, but a guarding context is invalid. */
  ghost function Cancellations(ps: seq<Pattern>, e: Event): nat
    requires AllPending(ps)
    decreases |ps|
  {
    if |ps| == 0 then 0
    else Cancellations(ps[..|ps| - 1], e) + (if OutcomeOf(ps[|ps| - 1], e).Cancelled? then 1 else 0)
  }

  /**
   * Every entry of a bucket is accounted for exactly once: it stays, is
   * cancelled, completes or spawns one advanced instance.
   */
  lemma {:induction false} EachEntryOnce(ps: seq<Pattern>, e: Event)
    requires AllPending(ps)
    ensures |Unmatched(ps, e)| + Cancellations(ps, e) + |Completions(ps, e)| + |Spawned(ps, e)| == |ps|
    decreases |ps|
  {
    if |ps| > 0 {
      EachEntryOnce(ps[..|ps| - 1], e);
    }
  }

  /** `q` is an entry of `ps` that `e` matched under valid contexts, advanced once by `e`. */
  ghost predicate AdvancedFrom(ps: seq<Pattern>, e: Event, q: Pattern)
  {
    exists j :: 0 <= j < |ps| && !IsCompleted(ps[j]) && Matches(ps[j], e) && ContextsHold(ps[j])
                && q == Advance(ps[j], e)
  }

  /** `h` is the history of an entry of `ps` on its last step that `e` matched under valid contexts, followed by `e`. */
  ghost predicate CompletedFrom(ps: seq<Pattern>, e: Event, h: seq<Event>)
  {
    exists j :: 0 <= j < |ps| && !IsCompleted(ps[j]) && Matches(ps[j], e) && ContextsHold(ps[j])
                && |ps[j].nextSteps| == 1 && h == ps[j].prevEvents + [e]
  }

  lemma AdvancedFromPrefix(ps: seq<Pattern>, e: Event, q: Pattern)
    requires |ps| > 0 && AdvancedFrom(ps[..|ps| - 1], e, q)
    ensures AdvancedFrom(ps, e, q)
  {
    var init := ps[..|ps| - 1];
    var j :| 0 <= j < |init| && !IsCompleted(init[j]) && Matches(init[j], e) && ContextsHold(init[j])
             && q == Advance(init[j], e);
    assert ps[j] == init[j];
  }

  lemma CompletedFromPrefix(ps: seq<Pattern>, e: Event, h: seq<Event>)
    requires |ps| > 0 && CompletedFrom(ps[..|ps| - 1], e, h)
    ensures CompletedFrom(ps, e, h)
  {
    var init := ps[..|ps| - 1];
    var j :| 0 <= j < |init| && !IsCompleted(init[j]) && Matches(init[j], e) && ContextsHold(init[j])
             && |init[j].nextSteps| == 1 && h == init[j].prevEvents + [e];
    assert ps[j] == init[j];
  }

  /** Each instance a bucket spawns is one of its matched entries, advanced once by the event. */
  lemma {:induction false} SpawnedFromMatches(ps: seq<Pattern>, e: Event)
    requires AllPending(ps)
    ensures forall i :: 0 <= i < |Spawned(ps, e)| ==> AdvancedFrom(ps, e, Spawned(ps, e)[i])
    decreases |ps|
  {
    if |ps| > 0 {
      var init := ps[..|ps| - 1];
      var n := |ps| - 1;
      SpawnedFromMatches(init, e);
      OutcomeCases(ps[n], e);
      var r := Spawned(ps, e);
      forall i | 0 <= i < |r| ensures AdvancedFrom(ps, e, r[i]) {
        if i < |Spawned(init, e)| {
          AdvancedFromPrefix(ps, e, Spawned(init, e)[i]);
        } else {
          assert r[i] == Advance(ps[n], e);
        }
      }
    }
  }

  /** Each history a bucket completes is a matched entry's history followed by the event. */
  lemma {:induction false} CompletionsFromMatches(ps: seq<Pattern>, e: Event)
    requires AllPending(ps)
    ensures forall i :: 0 <= i < |Completions(ps, e)| ==> CompletedFrom(ps, e, Completions(ps, e)[i])
    decreases |ps|
  {
    if |ps| > 0 {
      var init := ps[..|ps| - 1];
      var n := |ps| - 1;
      CompletionsFromMatches(init, e);
      OutcomeCases(ps[n], e);
      var r := Completions(ps, e);
      forall i | 0 <= i < |r| ensures CompletedFrom(ps, e, r[i]) {
        if i < |Completions(init, e)| {
          CompletedFromPrefix(ps, e, Completions(init, e)[i]);
        } else {
          assert r[i] == ps[n].prevEvents + [e];
        }
      }
    }
  }

  /** Every entry matched under valid contexts with a further step left is advanced and spawned. */
  lemma {:induction false} MatchesSpawn(ps: seq<Pattern>, e: Event, j: nat)
    requires AllPending(ps) && j < |ps|
    requires Matches(ps[j], e) && ContextsHold(ps[j]) && |ps[j].nextSteps| >= 2
    ensures Advance(ps[j], e) in Spawned(ps, e)
    decreases |ps|
  {
    var n := |ps| - 1;
    OutcomeCases(ps[j], e);
    if j < n {
      var init := ps[..n];
      assert init[j] == ps[j];
      MatchesSpawn(init, e, j);
    }
  }

  /** Every entry on its last step matched under valid contexts hands its history followed by the event to the log. */
  lemma {:induction false} MatchesComplete(ps: seq<Pattern>, e: Event, j: nat)
    requires AllPending(ps) && j < |ps|
    requires Matches(ps[j], e) && ContextsHold(ps[j]) && |ps[j].nextSteps| == 1
    ensures ps[j].prevEvents + [e] in Completions(ps, e)
    decreases |ps|
  {
    var n := |ps| - 1;
    OutcomeCases(ps[j], e);
    if j < n {
      var init := ps[..n];
      assert init[j] == ps[j];
      MatchesComplete(init, e, j);
    }
  }

  /**
   * After a pass, every bucket holds what it kept, in its old order, followed
   * by the instances the pass filed under its key, in the order they were
   * spawned; a bucket the pass does not visit keeps all its entries in place.
   */
  lemma PassBucket(active: Index, ps: seq<Pattern>, e: Event, isActive: bool, k: string)
    requires AllPending(ps)
    requires isActive ==> ps == Lookup(active, e.name)
    ensures Lookup(PassResult(active, ps, e, isActive), k)
            == (if isActive && k == e.name then Unmatched(ps, e) else Lookup(active, k)) + KeyedTo(Spawned(ps, e), k)
  {
    var r := PassResult(active, ps, e, isActive);
    if k !in r {
      KeyedToAbsent(Spawned(ps, e), k);
      if isActive && k == e.name {
        assert ps == [];
        assert Unmatched(ps, e) == [];
      }
    }
  }

  /**
   * A pass over a bucket holding the single entry `p`, written out directly:
   * an active bucket is emptied when the entry matched (the key stays, as in
   * a Go map), and an advanced, pending copy joins the end of the bucket of
   * its next event.
   */
  ghost function SingleStep(active: Index, p: Pattern, e: Event, isActive: bool): Index
    requires !IsCompleted(p)
  {
    var o := OutcomeOf(p, e);
    var emptied := if isActive && !o.Unmoved? then active[e.name := []] else active;
    if o.Rekeyed? then
      var n := NextEvent(o.instance).name;
      emptied[n := Lookup(emptied, n) + [o.instance]]
    else emptied
  }

  /** A pass over an empty bucket changes nothing and completes nothing. */
  lemma PassOverEmpty(active: Index, e: Event, isActive: bool)
    requires isActive ==> Lookup(active, e.name) == []
    ensures PassResult(active, [], e, isActive) == active
    ensures Completions([], e) == []
  {
    TrackedInitially(active, e, isActive, []);
  }

  /** What a one-entry bucket keeps, spawns and completes: exactly that entry's outcome. */
  lemma SingletonOutcome(p: Pattern, e: Event)
    requires !IsCompleted(p)
    ensures Unmatched([p], e) == if OutcomeOf(p, e).Unmoved? then [p] else []
    ensures Spawned([p], e) == SpawnOf(OutcomeOf(p, e))
    ensures Completions([p], e) == HistoryOf(OutcomeOf(p, e))
  {
    assert [p][..1] == [p] && [p][..0] == [] && [p][0] == p;
    UnmatchedStep([p], 0, e);
    SpawnedStep([p], 0, e);
    CompletionsStep([p], 0, e);
  }

  /** The pass over a one-entry bucket is the directly written SingleStep. */
  lemma PassOverSingleton(active: Index, p: Pattern, e: Event, isActive: bool)
    requires WaitsFor(p, e.name)
    requires isActive ==> Lookup(active, e.name) == [p]
    ensures PassResult(active, [p], e, isActive) == SingleStep(active, p, e, isActive)
    ensures Completions([p], e) == HistoryOf(OutcomeOf(p, e))
  {
    SingletonOutcome(p, e);
    TrackedInitially(active, e, isActive, [p]);
    var o := OutcomeOf(p, e);
    if !isActive {
      TemplatePassIgnoresRest(active, e, Unmatched([p], e), [p], SpawnOf(o));
    }
    if o.Rekeyed? {
      SingletonRekeyed(active, p, e, isActive);
    } else if isActive && !o.Unmoved? {
      RemoveTracked(active, e, [p], [], 0);
      assert RemoveAt([p], 0) == [];
    }
  }

  /** The one-entry pass when the entry advances to a further step. */
  lemma SingletonRekeyed(active: Index, p: Pattern, e: Event, isActive: bool)
    requires WaitsFor(p, e.name)
    requires isActive ==> Lookup(active, e.name) == [p]
    requires OutcomeOf(p, e).Rekeyed?
    ensures Tracked(active, e, isActive, if isActive then [] else [p], [OutcomeOf(p, e).instance])
            == SingleStep(active, p, e, isActive)
  {
    OutcomeCases(p, e);
    var q := OutcomeOf(p, e).instance;
    var n := NextEvent(q).name;
    TrackedInitially(active, e, isActive, [p]);
    AppendTracked(active, e, isActive, [p], [], q);
    assert [] + [q] == [q];
    var appended := active[n := Lookup(active, n) + [q]];
    assert appended == Tracked(active, e, isActive, [p], [q]);
    if isActive {
      RemoveTracked(active, e, [p], [q], 0);
      assert RemoveAt([p], 0) == [];
      RemoveThenAppend(active, e.name, n, p, q);
    }
  }

  /** Dropping the only entry of bucket k after appending q under n is emptying k, then appending q under n. */
  lemma RemoveThenAppend(active: Index, k: string, n: string, p: Pattern, q: Pattern)
    requires k in active && active[k] == [p]
    ensures var appended := active[n := Lookup(active, n) + [q]];
            var emptied := active[k := []];
            appended[k := RemoveAt(appended[k], 0)] == emptied[n := Lookup(emptied, n) + [q]]
  {
    var appended := active[n := Lookup(active, n) + [q]];
    if n == k {
      assert appended[k] == [p, q];
      assert RemoveAt([p, q], 0) == [q];
    } else {
      assert appended[k] == [p];
      assert RemoveAt([p], 0) == [];
    }
  }

  /** An event only an active instance waits for: the dispatch is that instance's single step. */
  lemma DispatchToActiveOnly(templates: Index, active: Index, e: Event, p: Pattern)
    requires WellIndexed(templates) && WellIndexed(active)
    requires Lookup(active, e.name) == [p] && Lookup(templates, e.name) == []
    ensures WaitsFor(p, e.name)
    ensures Dispatch(templates, active, e) == SingleStep(active, p, e, true)
    ensures DispatchCompletions(templates, active, e) == HistoryOf(OutcomeOf(p, e))
  {
    LookupWaiting(active, e.name);
    assert WaitsFor([p][0], e.name);
    PassOverSingleton(active, p, e, true);
    var afterActive := PassResult(active, [p], e, true);
    PassOverEmpty(afterActive, e, false);
  }

  /** An event only a template waits for: the dispatch is that template's single step. */
  lemma DispatchToTemplateOnly(templates: Index, active: Index, e: Event, t: Pattern)
    requires WellIndexed(templates) && WellIndexed(active)
    requires Lookup(active, e.name) == [] && Lookup(templates, e.name) == [t]
    ensures WaitsFor(t, e.name)
    ensures Dispatch(templates, active, e) == SingleStep(active, t, e, false)
    ensures DispatchCompletions(templates, active, e) == HistoryOf(OutcomeOf(t, e))
  {
    LookupWaiting(templates, e.name);
    assert WaitsFor([t][0], e.name);
    PassOverEmpty(active, e, true);
    PassOverSingleton(active, t, e, false);
  }

  lemma PendingAppend(ps: seq<Pattern>, qs: seq<Pattern>)
    requires AllPending(ps) && AllPending(qs)
    ensures AllPending(ps + qs)
  {
    var all := ps + qs;
    forall i | 0 <= i < |all| ensures !IsCompleted(all[i]) {
      if i >= |ps| { assert all[i] == qs[i - |ps|]; }
    }
  }

  /** The spawn list of two buckets in a row is the two spawn lists in a row. */
  lemma {:induction false} SpawnedAppend(ps: seq<Pattern>, qs: seq<Pattern>, e: Event)
    requires AllPending(ps) && AllPending(qs)
    ensures AllPending(ps + qs)
    ensures Spawned(ps + qs, e) == Spawned(ps, e) + Spawned(qs, e)
    decreases |qs|
  {
    PendingAppend(ps, qs);
    var all := ps + qs;
    if |qs| == 0 {
      assert all == ps;
    } else {
      var init := qs[..|qs| - 1];
      var last := qs[|qs| - 1];
      SpawnedAppend(ps, init, e);
      assert all[..|all| - 1] == ps + init;
      assert all[|all| - 1] == last;
      ConcatAssoc(Spawned(ps, e), Spawned(init, e), SpawnOf(OutcomeOf(last, e)));
    }
  }

  /** The completions of two buckets in a row are the two completion lists in a row. */
  lemma {:induction false} CompletionsAppend(ps: seq<Pattern>, qs: seq<Pattern>, e: Event)
    requires AllPending(ps) && AllPending(qs)
    ensures AllPending(ps + qs)
    ensures Completions(ps + qs, e) == Completions(ps, e) + Completions(qs, e)
    decreases |qs|
  {
    PendingAppend(ps, qs);
    var all := ps + qs;
    if |qs| == 0 {
      assert all == ps;
    } else {
      var init := qs[..|qs| - 1];
      var last := qs[|qs| - 1];
      CompletionsAppend(ps, init, e);
      assert all[..|all| - 1] == ps + init;
      assert all[|all| - 1] == last;
      ConcatAssoc(Completions(ps, e), Completions(init, e), HistoryOf(OutcomeOf(last, e)));
    }
  }

  lemma {:induction false} KeyedToAppend(a: seq<Pattern>, b: seq<Pattern>, k: string)
    ensures KeyedTo(a + b, k) == KeyedTo(a, k) + KeyedTo(b, k)
    decreases |b|
  {
    if |b| == 0 {
      assert a + b == a;
    } else {
      var init := b[..|b| - 1];
      var last := b[|b| - 1];
      KeyedToAppend(a, init, k);
      assert (a + b)[..|a + b| - 1] == a + init;
      assert (a + b)[|a + b| - 1] == last;
      ConcatAssoc(KeyedTo(a, k), KeyedTo(init, k), if WaitsFor(last, k) then [last] else []);
    }
  }

  lemma SpawnKeysAppend(a: seq<Pattern>, b: seq<Pattern>)
    ensures SpawnKeys(a + b) == SpawnKeys(a) + SpawnKeys(b)
  {
    var ab := a + b;
    forall x | x in SpawnKeys(ab) ensures x in SpawnKeys(a) + SpawnKeys(b) {
      var i :| 0 <= i < |ab| && !IsCompleted(ab[i]) && NextEvent(ab[i]).name == x;
      if i < |a| { assert ab[i] == a[i]; } else { assert ab[i] == b[i - |a|]; }
    }
    forall x | x in SpawnKeys(a) ensures x in SpawnKeys(ab) {
      var i :| 0 <= i < |a| && !IsCompleted(a[i]) && NextEvent(a[i]).name == x;
      assert ab[i] == a[i];
    }
    forall x | x in SpawnKeys(b) ensures x in SpawnKeys(ab) {
      var i :| 0 <= i < |b| && !IsCompleted(b[i]) && NextEvent(b[i]).name == x;
      assert ab[|a| + i] == b[i];
    }
  }

  /** Filing two batches of instances one after the other files their concatenation. */
  lemma TemplateTrackedSplit(start: Index, e: Event, a: seq<Pattern>, b: seq<Pattern>)
    ensures Tracked(start, e, false, [], a + b) == Tracked(Tracked(start, e, false, [], a), e, false, [], b)
  {
    var mid := Tracked(start, e, false, [], a);
    var t1 := Tracked(start, e, false, [], a + b);
    var t2 := Tracked(mid, e, false, [], b);
    SpawnKeysAppend(a, b);
    assert t1.Keys == t2.Keys;
    forall k | k in t1 ensures t1[k] == t2[k] {
      TemplateBucketSplit(start, e, a, b, k);
    }
  }

  lemma TemplateBucketSplit(start: Index, e: Event, a: seq<Pattern>, b: seq<Pattern>, k: string)
    ensures var mid := Tracked(start, e, false, [], a);
            Lookup(start, k) + KeyedTo(a + b, k) == Lookup(mid, k) + KeyedTo(b, k)
  {
    var mid := Tracked(start, e, false, [], a);
    KeyedToAppend(a, b, k);
    if k !in mid {
      KeyedToAbsent(a, k);
    }
    assert Lookup(mid, k) == Lookup(start, k) + KeyedTo(a, k);
    ConcatAssoc(Lookup(start, k), KeyedTo(a, k), KeyedTo(b, k));
  }

  /**
   * A template pass over a bucket is the pass over its first part followed
   * by the pass over the rest: the template entries are processed one after
   * another, in bucket order.
   */
  lemma TemplatePassSplit(active: Index, ps: seq<Pattern>, qs: seq<Pattern>, e: Event)
    requires AllPending(ps) && AllPending(qs)
    ensures AllPending(ps + qs)
    ensures PassResult(active, ps + qs, e, false) == PassResult(PassResult(active, ps, e, false), qs, e, false)
    ensures Completions(ps + qs, e) == Completions(ps, e) + Completions(qs, e)
  {
    SpawnedAppend(ps, qs, e);
    CompletionsAppend(ps, qs, e);
    TemplateTrackedSplit(active, e, Spawned(ps, e), Spawned(qs, e));
    TemplatePassIgnoresRest(active, e, Unmatched(ps + qs, e), [], Spawned(ps + qs, e));
    TemplatePassIgnoresRest(active, e, Unmatched(ps, e), [], Spawned(ps, e));
    var mid := PassResult(active, ps, e, false);
    TemplatePassIgnoresRest(mid, e, Unmatched(qs, e), [], Spawned(qs, e));
  }

  /** An event one active instance and one template wait for: the active step, then the template step. */
  lemma DispatchToBoth(templates: Index, active: Index, e: Event, p: Pattern, t: Pattern)
    requires WellIndexed(templates) && WellIndexed(active)
    requires Lookup(active, e.name) == [p] && Lookup(templates, e.name) == [t]
    ensures WaitsFor(p, e.name) && WaitsFor(t, e.name)
    ensures Dispatch(templates, active, e) == SingleStep(SingleStep(active, p, e, true), t, e, false)
    ensures DispatchCompletions(templates, active, e) == HistoryOf(OutcomeOf(p, e)) + HistoryOf(OutcomeOf(t, e))
  {
    LookupWaiting(active, e.name);
    LookupWaiting(templates, e.name);
    assert WaitsFor([p][0], e.name) && WaitsFor([t][0], e.name);
    PassOverSingleton(active, p, e, true);
    PassOverSingleton(SingleStep(active, p, e, true), t, e, false);
  }

  /** Removes the entry at position i, keeping the order of the others. */
  function RemoveAt<T>(s: seq<T>, i: nat): seq<T>
    requires i < |s|
  {
    s[..i] + s[i + 1..]
  }

  lemma ConcatAssoc<T>(a: seq<T>, b: seq<T>, c: seq<T>)
    ensures (a + b) + c == a + (b + c)
  {
  }

  lemma RemoveAtJoin<T>(a: seq<T>, x: T, b: seq<T>)
    ensures RemoveAt(a + [x] + b, |a|) == a + b
  {
    var s := a + [x] + b;
    assert s[..|a|] == a;
    assert s[|a| + 1..] == b;
  }


  lemma SpawnKeysSnoc(qs: seq<Pattern>, q: Pattern)
    requires !IsCompleted(q)
    ensures SpawnKeys(qs + [q]) == SpawnKeys(qs) + {NextEvent(q).name}
  {
    var qs' := qs + [q];
    forall x | x in SpawnKeys(qs') ensures x in SpawnKeys(qs) + {NextEvent(q).name} {
      var i :| 0 <= i < |qs'| && !IsCompleted(qs'[i]) && NextEvent(qs'[i]).name == x;
      if i < |qs| { assert qs'[i] == qs[i]; }
    }
    forall x | x in SpawnKeys(qs) ensures x in SpawnKeys(qs') {
      var i :| 0 <= i < |qs| && !IsCompleted(qs[i]) && NextEvent(qs[i]).name == x;
      assert qs'[i] == qs[i];
    }
    assert qs'[|qs|] == q;
  }

  lemma KeyedToSnoc(qs: seq<Pattern>, q: Pattern, k: string)
    requires !IsCompleted(q)
    ensures KeyedTo(qs + [q], k) == KeyedTo(qs, k) + (if WaitsFor(q, k) then [q] else [])
  {
    assert (qs + [q])[..|qs|] == qs;
  }


  /** No instance waits for a key outside the spawn keys. */
  lemma {:induction false} KeyedToAbsent(qs: seq<Pattern>, k: string)
    requires k !in SpawnKeys(qs)
    ensures KeyedTo(qs, k) == []
    decreases |qs|
  {
    if |qs| > 0 {
      var init := qs[..|qs| - 1];
      assert SpawnKeys(init) <= SpawnKeys(qs) by {
        forall x | x in SpawnKeys(init) ensures x in SpawnKeys(qs) {
          var i :| 0 <= i < |init| && !IsCompleted(init[i]) && NextEvent(init[i]).name == x;
          assert qs[i] == init[i];
        }
      }
      KeyedToAbsent(init, k);
      if !IsCompleted(qs[|qs| - 1]) {
        assert NextEvent(qs[|qs| - 1]).name in SpawnKeys(qs);
      }
    }
  }

  /** The bucket an appended instance joins: what the key held so far, then the instance. */
  lemma AppendedBucket(start: Index, e: Event, isActive: bool, rest: seq<Pattern>, spawned: seq<Pattern>, q: Pattern)
    requires !IsCompleted(q)
    requires isActive ==> e.name in start
    ensures var n := NextEvent(q).name;
            Lookup(Tracked(start, e, isActive, rest, spawned), n) + [q]
            == (if isActive && n == e.name then rest else Lookup(start, n)) + KeyedTo(spawned + [q], n)
  {
    var n := NextEvent(q).name;
    var m := Tracked(start, e, isActive, rest, spawned);
    var base := if isActive && n == e.name then rest else Lookup(start, n);
    KeyedToSnoc(spawned, q, n);
    if n !in m {
      KeyedToAbsent(spawned, n);
    }
    assert Lookup(m, n) == base + KeyedTo(spawned, n);
    ConcatAssoc(base, KeyedTo(spawned, n), [q]);
  }

  /** Appending an advanced instance under its next event extends the tracked spawn list. */
  lemma AppendTracked(start: Index, e: Event, isActive: bool, rest: seq<Pattern>, spawned: seq<Pattern>, q: Pattern)
    requires !IsCompleted(q)
    requires isActive ==> e.name in start
    ensures var m := Tracked(start, e, isActive, rest, spawned);
            m[NextEvent(q).name := Lookup(m, NextEvent(q).name) + [q]] == Tracked(start, e, isActive, rest, spawned + [q])
  {
    var n := NextEvent(q).name;
    var m := Tracked(start, e, isActive, rest, spawned);
    SpawnKeysSnoc(spawned, q);
    var m' := m[n := Lookup(m, n) + [q]];
    var t := Tracked(start, e, isActive, rest, spawned + [q]);
    assert m'.Keys == t.Keys;
    forall k | k in t ensures m'[k] == t[k] {
      if k == n {
        AppendedBucket(start, e, isActive, rest, spawned, q);
      } else {
        UntouchedBucket(start, e, isActive, rest, spawned, q, k);
      }
    }
  }

  /** Appending an instance leaves every other bucket as it was. */
  lemma UntouchedBucket(start: Index, e: Event, isActive: bool, rest: seq<Pattern>, spawned: seq<Pattern>,
                        q: Pattern, k: string)
    requires !IsCompleted(q) && k != NextEvent(q).name
    requires k in start || k in SpawnKeys(spawned)
    ensures var m := Tracked(start, e, isActive, rest, spawned);
            var t := Tracked(start, e, isActive, rest, spawned + [q]);
            k in m && k in t && m[k] == t[k]
  {
    SpawnKeysSnoc(spawned, q);
    KeyedToSnoc(spawned, q, k);
    assert KeyedTo(spawned + [q], k) == KeyedTo(spawned, k);
  }

  /** Before the first entry is visited, the tracked index is the index the pass starts from. */
  lemma TrackedInitially(start: Index, e: Event, isActive: bool, rest: seq<Pattern>)
    requires isActive ==> rest == Lookup(start, e.name)
    ensures Tracked(start, e, isActive, rest, []) == start
  {
    var t := Tracked(start, e, isActive, rest, []);
    assert SpawnKeys([]) == {};
    assert t.Keys == start.Keys;
    forall k | k in t ensures t[k] == start[k] {
    }
  }

  /** Removing a visited entry of the active bucket from the index mirrors removing it from what is left. */
  lemma RemoveTracked(start: Index, e: Event, rest: seq<Pattern>, spawned: seq<Pattern>, i: nat)
    requires e.name in start && i < |rest|
    ensures var m := Tracked(start, e, true, rest, spawned);
            e.name in m && i < |m[e.name]|
            && m[e.name := RemoveAt(m[e.name], i)] == Tracked(start, e, true, RemoveAt(rest, i), spawned)
  {
    var m := Tracked(start, e, true, rest, spawned);
    var keyed := KeyedTo(spawned, e.name);
    assert m[e.name] == rest + keyed;
    assert RemoveAt(rest + keyed, i) == RemoveAt(rest, i) + keyed;
    var m' := m[e.name := RemoveAt(m[e.name], i)];
    var t := Tracked(start, e, true, RemoveAt(rest, i), spawned);
    assert m'.Keys == t.Keys;
    forall k | k in t ensures m'[k] == t[k] {
    }
  }

  /** Visiting one more original entry extends the bucket spec functions by that entry's outcome. */
  lemma UnmatchedStep(ps: seq<Pattern>, j: nat, e: Event)
    requires AllPending(ps) && j < |ps|
    ensures Unmatched(ps[..j + 1], e) == Unmatched(ps[..j], e) + (if OutcomeOf(ps[j], e).Unmoved? then [ps[j]] else [])
  {
    assert ps[..j + 1][..j] == ps[..j];
  }

  lemma SpawnedStep(ps: seq<Pattern>, j: nat, e: Event)
    requires AllPending(ps) && j < |ps|
    ensures Spawned(ps[..j + 1], e) == Spawned(ps[..j], e) + SpawnOf(OutcomeOf(ps[j], e))
  {
    assert ps[..j + 1][..j] == ps[..j];
  }

  lemma CompletionsStep(ps: seq<Pattern>, j: nat, e: Event)
    requires AllPending(ps) && j < |ps|
    ensures Completions(ps[..j + 1], e) == Completions(ps[..j], e) + HistoryOf(OutcomeOf(ps[j], e))
  {
    assert ps[..j + 1][..j] == ps[..j];
  }

  /** The visited entry stays in the bucket exactly when the event does not match it. */
  lemma BucketStep(ps: seq<Pattern>, j: nat, e: Event)
    requires AllPending(ps) && j < |ps|
    ensures var kept := Unmatched(ps[..j], e);
            if OutcomeOf(ps[j], e).Unmoved? then Unmatched(ps[..j + 1], e) + ps[j + 1..] == kept + ps[j..]
            else Unmatched(ps[..j + 1], e) + ps[j + 1..] == RemoveAt(kept + ps[j..], |kept|)
  {
    UnmatchedStep(ps, j, e);
    var kept := Unmatched(ps[..j], e);
    assert ps[j..] == [ps[j]] + ps[j + 1..];
    assert kept + ps[j..] == kept + [ps[j]] + ps[j + 1..];
    RemoveAtJoin(kept, ps[j], ps[j + 1..]);
  }

  /**
   * Where a pass stands after visiting j original entries: an active bucket
   * has lost the visited entries that matched and the cursor sits on the first
   * unvisited one; a template bucket is never shortened.
   */
  ghost predicate PassAt(ps: seq<Pattern>, e: Event, isActive: bool, j: nat, bucket: seq<Pattern>, i: nat)
    requires AllPending(ps)
  {
    && j <= |ps|
    && if isActive then bucket == Unmatched(ps[..j], e) + ps[j..] && i == |Unmatched(ps[..j], e)|
       else bucket == ps && i == j
  }

  /** Visiting the entry under the cursor moves the pass on by one original entry. */
  lemma PassAtStep(ps: seq<Pattern>, e: Event, isActive: bool, j: nat, bucket: seq<Pattern>, i: nat)
    requires AllPending(ps) && PassAt(ps, e, isActive, j, bucket, i) && i < |bucket|
    ensures j < |ps| && bucket[i] == ps[j]
    ensures var removed := isActive && !OutcomeOf(ps[j], e).Unmoved?;
            PassAt(ps, e, isActive, j + 1, if removed then RemoveAt(bucket, i) else bucket, if removed then i else i + 1)
  {
    if isActive {
      assert |bucket| == |Unmatched(ps[..j], e)| + |ps| - j;
      BucketStep(ps, j, e);
    }
  }

  lemma PassAtEnd(ps: seq<Pattern>, e: Event, isActive: bool, j: nat, bucket: seq<Pattern>, i: nat)
    requires AllPending(ps) && PassAt(ps, e, isActive, j, bucket, i) && i == |bucket|
    ensures j == |ps| && ps[..j] == ps
    ensures isActive ==> bucket == Unmatched(ps, e)
  {
  }


  /**
   * Where a pass over `ps` that started from the index `start` and the
   * completion log `log0` stands after visiting j original entries: the
   * bucket and cursor as PassAt says, the index as tracked with the instances
   * spawned so far, and the log extended by the histories completed so far.
   */
  ghost predicate Visited(ps: seq<Pattern>, e: Event, isActive: bool, start: Index, log0: seq<seq<Event>>,
                          j: nat, bucket: seq<Pattern>, i: nat, active: Index, log: seq<seq<Event>>)
    requires AllPending(ps)
  {
    && PassAt(ps, e, isActive, j, bucket, i)
    && (isActive && |ps| > 0 ==> e.name in start)
    && active == Tracked(start, e, isActive, bucket, Spawned(ps[..j], e))
    && log == log0 + Completions(ps[..j], e)
  }

  /** A template pass leaves the bucket it visits as it is, so what is left of it plays no part. */
  lemma TemplatePassIgnoresRest(start: Index, e: Event, rest: seq<Pattern>, rest': seq<Pattern>, spawned: seq<Pattern>)
    ensures Tracked(start, e, false, rest, spawned) == Tracked(start, e, false, rest', spawned)
  {
  }

  /** Before the first iteration nothing has been visited. */
  lemma VisitedInitially(ps: seq<Pattern>, e: Event, isActive: bool, start: Index, log0: seq<seq<Event>>)
    requires AllWaitingFor(ps, e.name)
    requires isActive ==> ps == Lookup(start, e.name)
    ensures Visited(ps, e, isActive, start, log0, 0, ps, 0, start, log0)
  {
    TrackedInitially(start, e, isActive, ps);
    assert ps[..0] == [];
  }

  /** When the cursor reaches the end, the index is the pass result and the log has all of the pass's completions. */
  lemma VisitedFinally(ps: seq<Pattern>, e: Event, isActive: bool, start: Index, log0: seq<seq<Event>>,
                       j: nat, bucket: seq<Pattern>, i: nat, active: Index, log: seq<seq<Event>>)
    requires WellIndexed(start) && AllWaitingFor(ps, e.name)
    requires Visited(ps, e, isActive, start, log0, j, bucket, i, active, log) && i == |bucket|
    ensures active == PassResult(start, ps, e, isActive) && WellIndexed(active)
    ensures log == log0 + Completions(ps, e)
  {
    PassAtEnd(ps, e, isActive, j, bucket, i);
    if !isActive {
      TemplatePassIgnoresRest(start, e, bucket, Unmatched(ps, e), Spawned(ps, e));
    }
    PassPreservesIndex(start, ps, e, isActive);
  }

  class PatternMatcher {
    var templatePatterns: Index    // only used to spawn new instances
    var activePatterns: Index
    /** Histories of the instances completed so far; the source leaves the handler as a TODO. */
    ghost var completed: seq<seq<Event>>

    ghost predicate Valid()
      reads this
    {
      WellIndexed(templatePatterns) && WellIndexed(activePatterns)
    }

    constructor (templates: Index)
      requires WellIndexed(templates)
      ensures Valid()
      ensures templatePatterns == templates && activePatterns == map[] && completed == []
    {
      templatePatterns := templates;
      activePatterns := map[];
      completed := [];
    }

    /** Active instances first, so that an instance spawned by `e` is not advanced by `e` again. */
    method ProcessEvent(e: Event)
      requires Valid()
      modifies this
      ensures Valid()
      ensures templatePatterns == old(templatePatterns)
      ensures activePatterns == Dispatch(old(templatePatterns), old(activePatterns), e)
      ensures completed == old(completed) + DispatchCompletions(old(templatePatterns), old(activePatterns), e)
    {
      DispatchPreservesIndex(templatePatterns, activePatterns, e);
      LookupWaiting(activePatterns, e.name);
      LookupWaiting(templatePatterns, e.name);
      ghost var active := Lookup(activePatterns, e.name);
      ghost var templates := Lookup(templatePatterns, e.name);
      ProcessPatterns(e, Lookup(activePatterns, e.name), true);
      ProcessPatterns(e, Lookup(templatePatterns, e.name), false);
      ConcatAssoc(old(completed), Completions(active, e), Completions(templates, e));
    }

    /**
     * One pass over a bucket. A matching entry whose contexts are invalid is
     * cancelled; otherwise a copy of it is advanced and either completes or is
     * appended under its next event. An active entry that matched leaves its
     * bucket. The Go code removes it from a local slice header only; this
     * model writes the removal back into activePatterns[e.name], as the
     * comments at the removal sites intend.
     */
    method ProcessPatterns(e: Event, patterns: seq<Pattern>, isActive: bool)
      requires Valid()
      requires AllWaitingFor(patterns, e.name)
      requires isActive ==> patterns == Lookup(activePatterns, e.name)
      modifies this
      ensures Valid()
      ensures templatePatterns == old(templatePatterns)
      ensures activePatterns == PassResult(old(activePatterns), patterns, e, isActive)
      ensures completed == old(completed) + Completions(patterns, e)
    {
      var bucket := patterns;
      var i: nat := 0;
      ghost var j: nat := 0;    // original entries visited so far
      VisitedInitially(patterns, e, isActive, activePatterns, completed);
      while i < |bucket|
        invariant templatePatterns == old(templatePatterns)
        invariant Visited(patterns, e, isActive, old(activePatterns), old(completed), j, bucket, i, activePatterns, completed)
        decreases |patterns| - j
      {
        bucket, i := VisitNext(e, patterns, isActive, old(activePatterns), old(completed), j, bucket, i);
        j := j + 1;
      }
      VisitedFinally(patterns, e, isActive, old(activePatterns), old(completed), j, bucket, i, activePatterns, completed);
    }

    /** One iteration of the pass: the entry under the cursor is processed and the cursor moves on. */
    method VisitNext(e: Event, patterns: seq<Pattern>, isActive: bool, ghost start: Index, ghost log0: seq<seq<Event>>,
                     ghost j: nat, bucket: seq<Pattern>, i: nat)
      returns (bucket': seq<Pattern>, i': nat)
      requires AllWaitingFor(patterns, e.name)
      requires Visited(patterns, e, isActive, start, log0, j, bucket, i, activePatterns, completed)
      requires i < |bucket|
      modifies this
      ensures templatePatterns == old(templatePatterns)
      ensures Visited(patterns, e, isActive, start, log0, j + 1, bucket', i', activePatterns, completed)
    {
      PassAtStep(patterns, e, isActive, j, bucket, i);
      SpawnedStep(patterns, j, e);
      CompletionsStep(patterns, j, e);
      ConcatAssoc(log0, Completions(patterns[..j], e), HistoryOf(OutcomeOf(patterns[j], e)));
      var removed;
      bucket', removed := ProcessEntry(e, bucket, i, isActive, start, Spawned(patterns[..j], e));
      // The source backs the index up by one after a removal; not stepping is the same.
      i' := if removed then i else i + 1;
    }

    /**
     * The loop body of the pass for the entry at position i of what is left of
     * the bucket: match, context gate, advance, then completion or re-keying,
     * then removal from an active bucket.
     */
    method ProcessEntry(e: Event, bucket: seq<Pattern>, i: nat, isActive: bool,
                        ghost start: Index, ghost spawned: seq<Pattern>)
      returns (remaining: seq<Pattern>, removed: bool)
      requires i < |bucket| && !IsCompleted(bucket[i])
      requires isActive ==> e.name in start
      requires activePatterns == Tracked(start, e, isActive, bucket, spawned)
      modifies this
      ensures templatePatterns == old(templatePatterns)
      ensures removed <==> isActive && !OutcomeOf(bucket[i], e).Unmoved?
      ensures remaining == if removed then RemoveAt(bucket, i) else bucket
      ensures activePatterns == Tracked(start, e, isActive, remaining, spawned + SpawnOf(OutcomeOf(bucket[i], e)))
      ensures completed == old(completed) + HistoryOf(OutcomeOf(bucket[i], e))
    {
      OutcomeCases(bucket[i], e);
      assert spawned + [] == spawned;
      remaining, removed := bucket, false;
      var matched := EventMatchesCurrentEvent(bucket[i], e);
      if matched {
        var pattern := bucket[i];   // a copy: Pattern is a value
        var valid := ContextsAreValid(pattern, e);
        if !valid {
          if isActive {
            remaining := RemoveFromBucket(e, bucket, i, start, spawned);
            removed := true;
          }
          return;
        }
        pattern := Advance(pattern, e);
        ghost var spawned' := spawned;
        if IsCompleted(pattern) {
          // The source leaves the completion handler as a TODO; the ghost log records the history.
          completed := completed + [pattern.prevEvents];
        } else {
          AppendUnderNextEvent(pattern, e, isActive, bucket, start, spawned);
          spawned' := spawned + [pattern];
        }
        if isActive {
          remaining := RemoveFromBucket(e, bucket, i, start, spawned');
          removed := true;
        }
      }
    }

    /** Files an advanced, still pending instance at the end of the bucket of its next event. */
    method AppendUnderNextEvent(pattern: Pattern, ghost e: Event, ghost isActive: bool, ghost rest: seq<Pattern>,
                                ghost start: Index, ghost spawned: seq<Pattern>)
      requires !IsCompleted(pattern)
      requires isActive ==> e.name in start
      requires activePatterns == Tracked(start, e, isActive, rest, spawned)
      modifies this
      ensures activePatterns == Tracked(start, e, isActive, rest, spawned + [pattern])
      ensures templatePatterns == old(templatePatterns) && completed == old(completed)
    {
      AppendTracked(start, e, isActive, rest, spawned, pattern);
      var nextEvent := NextEvent(pattern);
      activePatterns := activePatterns[nextEvent.name := Lookup(activePatterns, nextEvent.name) + [pattern]];
    }

    /**
     * Drops the visited entry at position i from the active bucket of the
     * event, written back into the index (see ProcessPatterns).
     */
    method RemoveFromBucket(e: Event, rest: seq<Pattern>, i: nat, ghost start: Index, ghost spawned: seq<Pattern>)
      returns (remaining: seq<Pattern>)
      requires e.name in start && i < |rest|
      requires activePatterns == Tracked(start, e, true, rest, spawned)
      modifies this
      ensures remaining == RemoveAt(rest, i)
      ensures activePatterns == Tracked(start, e, true, remaining, spawned)
      ensures templatePatterns == old(templatePatterns) && completed == old(completed)
    {
      RemoveTracked(start, e, rest, spawned, i);
      remaining := RemoveAt(rest, i);
      activePatterns := activePatterns[e.name := RemoveAt(activePatterns[e.name], i)];
    }
  }
}
