/**
 * The merge pipeline of mergeMixins as a specification on values: for each
 * resolved mixin in order, optional profile activation on a copy of its
 * cached descriptor, reporting conversion, and the merge into the project's
 * descriptor; then, only when at least one mixin was resolved, the
 * pluginManagement pass, interpolation, expansion and the error check.
 *
 * The collaborators are uninterpreted; the log records which of them were
 * invoked, for which mixin, and in which order.
 */
module Merging {
  import opened MixinTypes
  import opened Activation

  datatype Invocation =
    | SelectedProfiles(key: string)                  // ProfileSelector.getActiveProfiles on the mixin's copy
    | InjectedProfile(key: string, profileId: string) // ProfileInjector.injectProfile
    | ConvertedReporting(key: string)
    | Merged(key: string)
    | AppliedPluginManagement
    | InterpolatedProject
    | ExpandedProject
    | CheckedErrors

  /**
   * The state mergeMixins builds up: the project's descriptor, the problem
   * collector's records, the set of profile ids activated in mixins, and the
   * log of collaborator invocations.
   */
  datatype MergeState = MergeState(project: Descriptor, problems: seq<Problem>, activated: set<string>, log: seq<Invocation>)

  /** A mixin's working copy while its profiles are injected, with the state around it. */
  datatype Working = Working(mixinModel: Descriptor, state: MergeState)

  function InitialState(project: Descriptor): MergeState
  {
    MergeState(project, [], {}, [])
  }

  /** Injects each selected profile, in order, into the mixin's copy and records its id. */
  function InjectProfiles(services: Services, key: string, w: Working, profiles: seq<Profile>): Working
  {
    if profiles == [] then w
    else
      var w1 := InjectProfiles(services, key, w, profiles[..|profiles| - 1]);
      var p := profiles[|profiles| - 1];
      var injected := services.inject(w1.mixinModel, p);
      Working(injected.model, w1.state.(problems := w1.state.problems + injected.problems,
                                        activated := w1.state.activated + {p.id},
                                        log := w1.state.log + [InjectedProfile(key, p.id)]))
  }

  /**
   * Profile activation for one mixin: the context is built from the
   * project's descriptor as it stands after the mixins merged so far.
   */
  function ActivateProfiles(env: Environment, st: MergeState, m: Mixin, d: Descriptor): Working
  {
    var ctx := ActivationContextOf(env.session, env.projectActiveProfiles, st.project.profiles, env.basedir);
    var selection := env.services.selectActive(d.profiles, ctx);
    InjectProfiles(env.services, m.key,
                   Working(d, st.(problems := st.problems + selection.problems, log := st.log + [SelectedProfiles(m.key)])),
                   selection.profiles)
  }

  /** One iteration of the merge loop. */
  function MergeOne(env: Environment, st: MergeState, m: Mixin): MergeState
    requires env.services.load(m.key).Some?
  {
    var d := env.services.load(m.key).value;
    var w := if m.activateProfiles then ActivateProfiles(env, st, m, d) else Working(d, st);
    var converted := env.services.convertReporting(w.mixinModel);
    MergeState(env.services.merge(m, converted.model, w.state.project),
               w.state.problems + converted.problems,
               w.state.activated,
               w.state.log + [ConvertedReporting(m.key), Merged(m.key)])
  }

  /** The merge loop over the resolved list. */
  function MergeAll(env: Environment, st: MergeState, ms: seq<Mixin>): MergeState
    requires AllLoaded(env.services, ms)
  {
    if ms == [] then st
    else MergeOne(env, MergeAll(env, st, ms[..|ms| - 1]), ms[|ms| - 1])
  }

  /** The stages run after the loop when at least one mixin was resolved. */
  function Finish(env: Environment, st: MergeState): MergeState
  {
    var managed := env.services.applyPluginManagement(st.project);
    var interpolated := env.services.interpolate(managed);
    var expanded := env.services.expand(interpolated.model);
    MergeState(expanded.model, st.problems + interpolated.problems + expanded.problems, st.activated,
               st.log + [AppliedPluginManagement, InterpolatedProject, ExpandedProject, CheckedErrors])
  }

  /** The whole pipeline for a resolved list, from the project's descriptor before merging. */
  function Pipeline(env: Environment, project: Descriptor, ms: seq<Mixin>): MergeState
    requires AllLoaded(env.services, ms)
  {
    var st := MergeAll(env, InitialState(project), ms);
    if |ms| > 0 then Finish(env, st) else st
  }

  /** checkErrors: one failure for the whole run when any recorded problem is an error. */
  function PipelineOutcome(env: Environment, st: MergeState, ms: seq<Mixin>): Outcome
  {
    if |ms| > 0 && HasErrors(st.problems) then Failed(MergeError(env.file)) else Done
  }

  /**
   * The injected-profile map after the pipeline: when at least one mixin was
   * resolved, the SOURCE_POM bucket keeps its old ids (none if it was absent)
   * followed by each activated id exactly once, in some order; no other
   * bucket changes. Otherwise the map is unchanged.
   */
  ghost predicate BucketUpdated(before: map<string, seq<string>>, after: map<string, seq<string>>,
                                ids: set<string>, resolvedAny: bool)
  {
    if !resolvedAny then after == before
    else
      && after.Keys == before.Keys + {SOURCE_POM}
      && (forall k :: k in before && k != SOURCE_POM ==> after[k] == before[k])
      && var prior := if SOURCE_POM in before then before[SOURCE_POM] else [];
         && prior <= after[SOURCE_POM]
         && Distinct(after[SOURCE_POM][|prior|..])
         && (forall x :: x in after[SOURCE_POM][|prior|..] <==> x in ids)
  }

  // ---------------------------------------------------------------------------
  // Views of the log.
  // ---------------------------------------------------------------------------

  /** The keys of the Merged events, in order. */
  function MergedKeys(log: seq<Invocation>): seq<string>
  {
    if log == [] then []
    else MergedKeys(log[..|log| - 1]) + (if log[|log| - 1].Merged? then [log[|log| - 1].key] else [])
  }

  /** The keys of a list of mixins, in order. */
  function KeySequence(ms: seq<Mixin>): (keys: seq<string>)
    ensures |keys| == |ms|
    ensures forall i :: 0 <= i < |ms| ==> keys[i] == ms[i].key
  {
    if ms == [] then [] else KeySequence(ms[..|ms| - 1]) + [ms[|ms| - 1].key]
  }

  /** Every InjectedProfile event concerns one of the given keys. */
  ghost predicate InjectionsBy(log: seq<Invocation>, keys: set<string>)
  {
    forall i :: 0 <= i < |log| && log[i].InjectedProfile? ==> log[i].key in keys
  }

  /** The profile ids of the InjectedProfile events. */
  ghost function InjectedIds(log: seq<Invocation>): set<string>
  {
    set i | 0 <= i < |log| && log[i].InjectedProfile? :: log[i].profileId
  }

  /** The keys of the mixins that activate profiles. */
  ghost function ActivatingKeys(ms: seq<Mixin>): set<string>
  {
    set m | m in ms && m.activateProfiles :: m.key
  }

  lemma {:induction false} MergedKeysAppend(a: seq<Invocation>, b: seq<Invocation>)
    ensures MergedKeys(a + b) == MergedKeys(a) + MergedKeys(b)
    decreases |b|
  {
    if b != [] {
      var b' := b[..|b| - 1];
      assert (a + b)[..|a + b| - 1] == a + b';
      MergedKeysAppend(a, b');
    } else {
      assert a + b == a;
    }
  }

  lemma MergedKeysSingle(e: Invocation)
    ensures MergedKeys([e]) == if e.Merged? then [e.key] else []
  {
    assert [e][..0] == [];
  }

  lemma InjectionsByAppend(a: seq<Invocation>, b: seq<Invocation>, ka: set<string>, kb: set<string>)
    requires InjectionsBy(a, ka) && InjectionsBy(b, kb)
    ensures InjectionsBy(a + b, ka + kb)
  {
    forall i | 0 <= i < |a + b| && (a + b)[i].InjectedProfile?
      ensures (a + b)[i].key in ka + kb
    {
      if i < |a| { assert (a + b)[i] == a[i]; } else { assert (a + b)[i] == b[i - |a|]; }
    }
  }

  lemma InjectedIdsAppend(a: seq<Invocation>, b: seq<Invocation>)
    ensures InjectedIds(a + b) == InjectedIds(a) + InjectedIds(b)
  {
    var ab := a + b;
    forall x | x in InjectedIds(ab)
      ensures x in InjectedIds(a) + InjectedIds(b)
    {
      var i :| 0 <= i < |ab| && ab[i].InjectedProfile? && ab[i].profileId == x;
      if i < |a| { assert a[i] == ab[i]; } else { assert b[i - |a|] == ab[i]; }
    }
    forall x | x in InjectedIds(a) + InjectedIds(b)
      ensures x in InjectedIds(ab)
    {
      if x in InjectedIds(a) {
        var i :| 0 <= i < |a| && a[i].InjectedProfile? && a[i].profileId == x;
        assert ab[i] == a[i];
      } else {
        var i :| 0 <= i < |b| && b[i].InjectedProfile? && b[i].profileId == x;
        assert ab[|a| + i] == b[i];
      }
    }
  }

  // ---------------------------------------------------------------------------
  // How the state advances.
  // ---------------------------------------------------------------------------

  /**
   * st' continues st: problems and log only grow, the new part of the log
   * adds `merged` to the Merged keys, the activated set grows by exactly the
   * ids the new part injects, and the new injections concern only `keys`.
   */
  ghost predicate Advances(st: MergeState, st': MergeState, merged: seq<string>, keys: set<string>)
  {
    && st.problems <= st'.problems
    && st.log <= st'.log
    && MergedKeys(st'.log) == MergedKeys(st.log) + merged
    && st'.activated == st.activated + InjectedIds(st'.log[|st.log|..])
    && InjectionsBy(st'.log[|st.log|..], keys)
  }

  lemma AdvancesTransitive(st1: MergeState, st2: MergeState, st3: MergeState,
                           m1: seq<string>, m2: seq<string>, k1: set<string>, k2: set<string>)
    requires Advances(st1, st2, m1, k1) && Advances(st2, st3, m2, k2)
    ensures Advances(st1, st3, m1 + m2, k1 + k2)
  {
    var n1, n2 := |st1.log|, |st2.log|;
    assert st3.log[n1..] == st2.log[n1..] + st3.log[n2..];
    InjectedIdsAppend(st2.log[n1..], st3.log[n2..]);
    InjectionsByAppend(st2.log[n1..], st3.log[n2..], k1, k2);
  }

  /** Appending events that inject no profile, and problems. */
  lemma AppendAdvances(st: MergeState, st': MergeState, events: seq<Invocation>, problems: seq<Problem>)
    requires forall i :: 0 <= i < |events| ==> !events[i].InjectedProfile?
    requires st'.problems == st.problems + problems && st'.log == st.log + events && st'.activated == st.activated
    ensures Advances(st, st', MergedKeys(events), {})
  {
    MergedKeysAppend(st.log, events);
    assert st'.log[|st.log|..] == events;
    assert InjectedIds(events) == {};
  }

  /**
   * Injecting profiles keeps the project's descriptor, adds no Merged event,
   * and adds to the activated set exactly the ids it logs as injected for `key`.
   */
  lemma {:induction false} InjectProfilesEffect(services: Services, key: string, w: Working, profiles: seq<Profile>)
    ensures InjectProfiles(services, key, w, profiles).state.project == w.state.project
    ensures Advances(w.state, InjectProfiles(services, key, w, profiles).state, [], {key})
    decreases |profiles|
  {
    if profiles == [] {
      assert w.state.log[|w.state.log|..] == [];
    } else {
      var w1 := InjectProfiles(services, key, w, profiles[..|profiles| - 1]);
      InjectProfilesEffect(services, key, w, profiles[..|profiles| - 1]);
      var p := profiles[|profiles| - 1];
      var w' := InjectProfiles(services, key, w, profiles);
      var e := InjectedProfile(key, p.id);
      MergedKeysAppend(w1.state.log, [e]);
      MergedKeysSingle(e);
      assert w'.state.log[|w1.state.log|..] == [e];
      assert InjectedIds([e]) == {p.id};
      assert Advances(w1.state, w'.state, [], {key});
      AdvancesTransitive(w.state, w1.state, w'.state, [], [], {key}, {key});
      var none: seq<string> := [];
      assert none + none == none;
    }
  }

  /** The two events that close every iteration record one merge. */
  lemma ClosingEvents(key: string)
    ensures MergedKeys([ConvertedReporting(key), Merged(key)]) == [key]
  {
    MergedKeysAppend([ConvertedReporting(key)], [Merged(key)]);
    MergedKeysSingle(ConvertedReporting(key));
    MergedKeysSingle(Merged(key));
  }

  /**
   * One iteration logs exactly one Merged event, for the mixin, and logs
   * injections only when the mixin activates profiles.
   */
  lemma MergeOneEffect(env: Environment, st: MergeState, m: Mixin)
    requires env.services.load(m.key).Some?
    ensures Advances(st, MergeOne(env, st, m), [m.key], if m.activateProfiles then {m.key} else {})
  {
    var d := env.services.load(m.key).value;
    var st' := MergeOne(env, st, m);
    var tail := [ConvertedReporting(m.key), Merged(m.key)];
    ClosingEvents(m.key);
    if m.activateProfiles {
      var ctx := ActivationContextOf(env.session, env.projectActiveProfiles, st.project.profiles, env.basedir);
      var sel := env.services.selectActive(d.profiles, ctx);
      var w0 := Working(d, st.(problems := st.problems + sel.problems, log := st.log + [SelectedProfiles(m.key)]));
      var w := InjectProfiles(env.services, m.key, w0, sel.profiles);
      assert w == ActivateProfiles(env, st, m, d);
      MergedKeysSingle(SelectedProfiles(m.key));
      AppendAdvances(st, w0.state, [SelectedProfiles(m.key)], sel.problems);
      InjectProfilesEffect(env.services, m.key, w0, sel.profiles);
      AdvancesTransitive(st, w0.state, w.state, [], [], {}, {m.key});
      AppendAdvances(w.state, st', tail, env.services.convertReporting(w.mixinModel).problems);
      AdvancesTransitive(st, w.state, st', [] + [], [m.key], {} + {m.key}, {});
      assert [] + [] + [m.key] == [m.key];
      assert {} + {m.key} + {} == {m.key};
    } else {
      AppendAdvances(st, st', tail, env.services.convertReporting(d).problems);
      assert {} == (if m.activateProfiles then {m.key} else {});
    }
  }

  // ---------------------------------------------------------------------------
  // The whole pipeline.
  // ---------------------------------------------------------------------------

  lemma ActivatingKeysSnoc(init: seq<Mixin>, m: Mixin)
    ensures ActivatingKeys(init + [m]) == ActivatingKeys(init) + (if m.activateProfiles then {m.key} else {})
  {
    assert forall y :: y in init + [m] <==> y in init || y == m;
  }

  /** The loop merges the list's keys in order and injects only for mixins that activate profiles. */
  lemma {:induction false} MergeAllEffect(env: Environment, st: MergeState, ms: seq<Mixin>)
    requires AllLoaded(env.services, ms)
    ensures Advances(st, MergeAll(env, st, ms), KeySequence(ms), ActivatingKeys(ms))
    decreases |ms|
  {
    if ms == [] {
      assert st.log[|st.log|..] == [];
    } else {
      var init := ms[..|ms| - 1];
      var m := ms[|ms| - 1];
      assert AllLoaded(env.services, init);
      var st1 := MergeAll(env, st, init);
      MergeAllEffect(env, st, init);
      MergeOneEffect(env, st1, m);
      AdvancesTransitive(st, st1, MergeOne(env, st1, m), KeySequence(init), [m.key],
                         ActivatingKeys(init), if m.activateProfiles then {m.key} else {});
      assert ms == init + [m];
      ActivatingKeysSnoc(init, m);
    }
  }

  /** The four events of the closing stages record no merge and inject nothing. */
  lemma FinishingEvents()
    ensures MergedKeys([AppliedPluginManagement, InterpolatedProject, ExpandedProject, CheckedErrors]) == []
  {
    MergedKeysSingle(AppliedPluginManagement);
    MergedKeysSingle(InterpolatedProject);
    MergedKeysSingle(ExpandedProject);
    MergedKeysSingle(CheckedErrors);
    var e1, e2 := [AppliedPluginManagement], [AppliedPluginManagement, InterpolatedProject];
    var e3 := [AppliedPluginManagement, InterpolatedProject, ExpandedProject];
    assert e2 == e1 + [InterpolatedProject];
    assert e3 == e2 + [ExpandedProject];
    assert e3 + [CheckedErrors] == [AppliedPluginManagement, InterpolatedProject, ExpandedProject, CheckedErrors];
    MergedKeysAppend(e1, [InterpolatedProject]);
    MergedKeysAppend(e2, [ExpandedProject]);
    MergedKeysAppend(e3, [CheckedErrors]);
  }

  /** Resolving nothing changes nothing and runs no collaborator. */
  lemma PipelineOfNothing(env: Environment, project: Descriptor)
    ensures Pipeline(env, project, []) == InitialState(project)
    ensures PipelineOutcome(env, Pipeline(env, project, []), []) == Done
  {
  }

  /**
   * Over a resolved list: each mixin is merged exactly once and in the
   * resolved order; the activated ids are exactly the ids of the injected
   * profiles, and profiles are only injected for mixins that activate
   * profiles; the problems of every prefix of the loop reach the final check.
   */
  lemma {:induction false} PipelineEffect(env: Environment, project: Descriptor, ms: seq<Mixin>)
    requires AllLoaded(env.services, ms)
    ensures var st := Pipeline(env, project, ms);
      && MergedKeys(st.log) == KeySequence(ms)
      && st.activated == InjectedIds(st.log)
      && InjectionsBy(st.log, ActivatingKeys(ms))
      && (forall i :: 0 <= i <= |ms| ==> MergeAll(env, InitialState(project), ms[..i]).problems <= st.problems)
  {
    var st0 := InitialState(project);
    var st1 := MergeAll(env, st0, ms);
    MergeAllEffect(env, st0, ms);
    forall i | 0 <= i <= |ms|
      ensures MergeAll(env, st0, ms[..i]).problems <= st1.problems
    {
      PrefixProblems(env, st0, ms, i);
    }
    var st := Pipeline(env, project, ms);
    if |ms| > 0 {
      var tail := [AppliedPluginManagement, InterpolatedProject, ExpandedProject, CheckedErrors];
      FinishingEvents();
      AppendAdvances(st1, st, tail, st.problems[|st1.problems|..]);
      AdvancesTransitive(st0, st1, st, KeySequence(ms), [], ActivatingKeys(ms), {});
      assert KeySequence(ms) + [] == KeySequence(ms);
      assert ActivatingKeys(ms) + {} == ActivatingKeys(ms);
    }
    assert st.log[0..] == st.log;
  }

  /** The problems recorded in the first i iterations are still there after all of them. */
  lemma {:induction false} PrefixProblems(env: Environment, st: MergeState, ms: seq<Mixin>, i: nat)
    requires AllLoaded(env.services, ms) && i <= |ms|
    ensures AllLoaded(env.services, ms[..i])
    ensures MergeAll(env, st, ms[..i]).problems <= MergeAll(env, st, ms).problems
    decreases |ms|
  {
    if i < |ms| {
      var init := ms[..|ms| - 1];
      assert ms[..i] == init[..i];
      PrefixProblems(env, st, init, i);
      MergeOneEffect(env, MergeAll(env, st, init), ms[|ms| - 1]);
    } else {
      assert ms[..i] == ms;
    }
  }

  /**
   * Problems are collected, not thrown: an error recorded while merging any
   * prefix of a non-empty resolved list makes the pipeline fail once, with a
   * merge error naming the project's file.
   */
  lemma ErrorInAnyMixinFailsOnce(env: Environment, project: Descriptor, ms: seq<Mixin>, i: nat)
    requires AllLoaded(env.services, ms) && 0 < i <= |ms|
    requires AllLoaded(env.services, ms[..i])
    requires HasErrors(MergeAll(env, InitialState(project), ms[..i]).problems)
    ensures PipelineOutcome(env, Pipeline(env, project, ms), ms) == Failed(MergeError(env.file))
  {
    var st := Pipeline(env, project, ms);
    PipelineEffect(env, project, ms);
    var early := MergeAll(env, InitialState(project), ms[..i]).problems;
    var k :| 0 <= k < |early| && early[k].severity != Warning;
    assert st.problems[k] == early[k];
  }
}
