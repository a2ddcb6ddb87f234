/**
 * The loader itself, in the imperative form of MixinsProjectLoader: the
 * project's descriptor and injected-profile map are updated in place,
 * discovery threads one shared list and index through its recursive calls,
 * and each method is proved equal to the specification in Discovery,
 * Activation and Merging.
 */
module ProjectLoader {
  import opened MixinTypes
  import opened Discovery
  import opened Activation
  import opened Merging

  /** The parts of a MavenProject the loader reads or updates. */
  class Project {
    const file: string
    const basedir: string
    const activeProfiles: seq<Profile>
    var model: Descriptor
    var injectedProfileIds: map<string, seq<string>>

    constructor (file: string, basedir: string, activeProfiles: seq<Profile>,
                 model: Descriptor, injectedProfileIds: map<string, seq<string>>)
      ensures this.file == file && this.basedir == basedir && this.activeProfiles == activeProfiles
      ensures this.model == model && this.injectedProfileIds == injectedProfileIds
    {
      this.file := file;
      this.basedir := basedir;
      this.activeProfiles := activeProfiles;
      this.model := model;
      this.injectedProfileIds := injectedProfileIds;
    }
  }

  /** The mixin list and the key-to-mixin map that one resolution shares across its recursive calls. */
  class Resolution {
    var mixins: seq<Mixin>
    var byKey: map<string, Mixin>

    constructor ()
      ensures State() == EmptyRegistry()
    {
      mixins := [];
      byKey := map[];
    }

    function State(): Registry
      reads this
    {
      Registry(mixins, byKey)
    }
  }

  /** The set's elements, each once, in an order the model leaves open (a HashSet's iteration order). */
  method ListOf(ids: set<string>) returns (xs: seq<string>)
    ensures Distinct(xs)
    ensures forall x :: x in xs <==> x in ids
  {
    xs := [];
    var rest := ids;
    while rest != {}
      invariant rest <= ids
      invariant Distinct(xs)
      invariant forall x :: x in xs <==> x in ids && x !in rest
      decreases rest
    {
      var x :| x in rest;
      xs := xs + [x];
      rest := rest - {x};
    }
  }

  class MixinsProjectLoader {
    const services: Services
    const session: Session
    const project: Project
    /** The collaborator invocations of mergeMixins, in order. */
    var log: seq<Invocation>

    constructor (services: Services, session: Session, project: Project)
      ensures this.services == services && this.session == session && this.project == project
      ensures log == []
    {
      this.services := services;
      this.session := session;
      this.project := project;
      log := [];
    }

    /** The settings the specification functions take. */
    function Env(): Environment
    {
      Environment(services, session, project.activeProfiles, project.basedir, project.file)
    }

    /** MavenProject.getProperties(): the properties of the project's current descriptor. */
    function OwnerProperties(): map<string, string>
      reads project
    {
      PropertiesOrEmpty(project.model.properties)
    }

    /** Discovery from one descriptor into the shared resolution (fillMixins). */
    method FillMixins(res: Resolution, model: Descriptor, ghost depth: nat) returns (outcome: Outcome)
      requires Fill(services, OwnerProperties(), res.State(), model, depth).outcome != Failed(DepthExhausted)
      modifies res
      ensures Walk(res.State(), outcome) == Fill(services, OwnerProperties(), old(res.State()), model, depth)
      decreases depth, 1
    {
      var props := PropertiesOrEmpty(project.model.properties);
      var working := model.(properties := Some(Overlay(model.properties, props)));
      working := services.interpolate(working).model;
      var plugins := PluginsOf(working);
      ghost var start := res.State();
      assert BlocksOf(services, props, model) == MixinBlocks(plugins);
      var i := 0;
      while i < |plugins|
        invariant 0 <= i <= |plugins|
        invariant FillBlocks(services, props, res.State(), MixinBlocks(plugins[i..]), depth)
               == FillBlocks(services, props, start, MixinBlocks(plugins), depth)
      {
        var plugin := plugins[i];
        assert plugins[i..] == [plugin] + plugins[i + 1..];
        assert plugins[i..][1..] == plugins[i + 1..];
        if IsMixinPlugin(plugin) {
          assert MixinBlocks(plugins[i..]) == [plugin.configuration] + MixinBlocks(plugins[i + 1..]);
          var bound := LoadConfiguration(plugin.configuration);
          if bound.Err? {
            return Failed(bound.failure);
          }
          var ms := bound.value;
          outcome := AddNewMixins(res, ms);
          if outcome.Failed? {
            return;
          }
          outcome := RecurseIntoMixins(res, ms, depth);
          if outcome.Failed? {
            return;
          }
        }
        i := i + 1;
      }
      assert plugins[i..] == [];
      outcome := Done;
    }

    /** The first pass over one block: append every mixin whose key is not yet in the map. */
    method AddNewMixins(res: Resolution, ms: seq<Mixin>) returns (outcome: Outcome)
      modifies res
      ensures Walk(res.State(), outcome) == AddDirect(services, old(res.State()), ms)
    {
      var j := 0;
      while j < |ms|
        invariant 0 <= j <= |ms|
        invariant AddDirect(services, res.State(), ms[j..]) == AddDirect(services, old(res.State()), ms)
      {
        var m := ms[j];
        assert ms[j..][1..] == ms[j + 1..];
        if m.key !in res.byKey {
          var loaded := services.load(m.key);
          if loaded.None? {
            return Failed(LoadError(m.key));
          }
          res.byKey := res.byKey[m.key := m];
          res.mixins := res.mixins + [m];
        }
        j := j + 1;
      }
      assert ms[j..] == [];
      outcome := Done;
    }

    /** The second pass over one block: discover from every mixin marked recurse. */
    method RecurseIntoMixins(res: Resolution, ms: seq<Mixin>, ghost depth: nat) returns (outcome: Outcome)
      requires RecurseInto(services, OwnerProperties(), res.State(), ms, depth).outcome != Failed(DepthExhausted)
      modifies res
      ensures Walk(res.State(), outcome) == RecurseInto(services, OwnerProperties(), old(res.State()), ms, depth)
      decreases depth, 0
    {
      var k := 0;
      while k < |ms|
        invariant 0 <= k <= |ms|
        invariant RecurseInto(services, OwnerProperties(), res.State(), ms[k..], depth)
               == RecurseInto(services, OwnerProperties(), old(res.State()), ms, depth)
      {
        var m := ms[k];
        assert ms[k..][1..] == ms[k + 1..];
        if m.recurse {
          var loaded := services.load(m.key);
          if loaded.None? {
            return Failed(LoadError(m.key));
          }
          outcome := FillMixins(res, loaded.value, depth - 1);
          if outcome.Failed? {
            return;
          }
        }
        k := k + 1;
      }
      assert ms[k..] == [];
      outcome := Done;
    }

    /** The activation context for the project as it stands now (getProfileActivationContext). */
    method ProfileActivationContext() returns (ctx: ActivationContext)
      ensures ctx == ActivationContextOf(session, project.activeProfiles, project.model.profiles, project.basedir)
    {
      var activeIds: seq<string> := [];
      var projectActive := project.activeProfiles;
      for i := 0 to |projectActive|
        invariant activeIds == ProfileIds(projectActive[..i])
      {
        assert projectActive[..i + 1][..i] == projectActive[..i];
        activeIds := activeIds + [projectActive[i].id];
      }
      assert projectActive[..|projectActive|] == projectActive;
      activeIds := activeIds + session.activeProfileIds;
      var inactiveIds: seq<string> := [];
      var own := project.model.profiles;
      for i := 0 to |own|
        invariant inactiveIds == InactiveCandidates(own[..i], activeIds)
      {
        assert own[..i + 1][..i] == own[..i];
        var profile := own[i];
        if profile.hasActivation && profile.id !in activeIds {
          inactiveIds := inactiveIds + [profile.id];
        }
      }
      assert own[..|own|] == own;
      inactiveIds := inactiveIds + session.inactiveProfileIds;
      ctx := ActivationContext(activeIds, inactiveIds, session.systemProperties, session.userProperties, project.basedir);
    }

    /**
     * Discovery, then the merge of every resolved mixin into the project
     * (mergeMixins). A failed discovery leaves the project untouched.
     */
    method MergeMixins(ghost depth: nat) returns (outcome: Outcome)
      requires Fill(services, OwnerProperties(), EmptyRegistry(), project.model, depth).outcome != Failed(DepthExhausted)
      modifies this, project
      ensures var w := Fill(services, old(OwnerProperties()), EmptyRegistry(), old(project.model), depth);
        && (w.outcome.Failed? ==>
              && outcome == w.outcome
              && project.model == old(project.model)
              && project.injectedProfileIds == old(project.injectedProfileIds)
              && log == old(log))
        && (w.outcome.Done? ==>
              && AllLoaded(services, w.registry.list)
              && var st := Pipeline(Env(), old(project.model), w.registry.list);
                 && project.model == st.project
                 && log == old(log) + st.log
                 && outcome == PipelineOutcome(Env(), st, w.registry.list)
                 && BucketUpdated(old(project.injectedProfileIds), project.injectedProfileIds,
                                  st.activated, |w.registry.list| > 0))
    {
      var res := new Resolution();
      outcome := FillMixins(res, project.model, depth);
      if outcome.Failed? {
        return;
      }
      var list := res.mixins;
      FillGrows(services, OwnerProperties(), EmptyRegistry(), project.model, depth);
      assert Sound(services, EmptyRegistry());
      ghost var merged := MergeAll(Env(), InitialState(project.model), list);
      var problems, activated, events := MergeResolved(list);
      if |list| > 0 {
        project.model := services.applyPluginManagement(project.model);
        var interpolated := services.interpolate(project.model);
        project.model := interpolated.model;
        var expanded := services.expand(project.model);
        project.model := expanded.model;
        problems := problems + interpolated.problems + expanded.problems;
        events := events + [AppliedPluginManagement, InterpolatedProject, ExpandedProject];
        RecordActivatedProfiles(activated);
        events := events + [CheckedErrors];
        assert MergeState(project.model, problems, activated, events) == Finish(Env(), merged);
        if HasErrors(problems) {
          outcome := Failed(MergeError(project.file));
        }
      }
      log := log + events;
    }

    /** The merge loop over the resolved list, from the project's current descriptor. */
    method MergeResolved(list: seq<Mixin>) returns (problems: seq<Problem>, activated: set<string>, events: seq<Invocation>)
      requires AllLoaded(services, list)
      modifies project
      ensures MergeState(project.model, problems, activated, events) == MergeAll(Env(), InitialState(old(project.model)), list)
      ensures project.injectedProfileIds == old(project.injectedProfileIds)
    {
      problems, activated, events := [], {}, [];
      for i := 0 to |list|
        invariant AllLoaded(services, list[..i])
        invariant MergeState(project.model, problems, activated, events) == MergeAll(Env(), InitialState(old(project.model)), list[..i])
        invariant project.injectedProfileIds == old(project.injectedProfileIds)
      {
        assert list[..i + 1][..i] == list[..i];
        problems, activated, events := MergeMixin(list[i], problems, activated, events);
      }
      assert list[..|list|] == list;
    }

    /** One iteration of the merge loop: profile activation, reporting conversion, and the merge into the project. */
    method MergeMixin(mixin: Mixin, problems: seq<Problem>, activated: set<string>, events: seq<Invocation>)
      returns (problems': seq<Problem>, activated': set<string>, events': seq<Invocation>)
      requires services.load(mixin.key).Some?
      modifies project
      ensures MergeState(project.model, problems', activated', events')
           == MergeOne(Env(), MergeState(old(project.model), problems, activated, events), mixin)
      ensures project.injectedProfileIds == old(project.injectedProfileIds)
    {
      var mixinModel := services.load(mixin.key).value;
      problems', activated', events' := problems, activated, events;
      if mixin.activateProfiles {
        var ctx := ProfileActivationContext();
        var selection := services.selectActive(mixinModel.profiles, ctx);
        var w := InjectActiveProfiles(mixin.key, Working(mixinModel, MergeState(project.model,
                   problems + selection.problems, activated, events + [SelectedProfiles(mixin.key)])), selection.profiles);
        mixinModel := w.mixinModel;
        problems', activated', events' := w.state.problems, w.state.activated, w.state.log;
      }
      var converted := services.convertReporting(mixinModel);
      problems' := problems' + converted.problems;
      project.model := services.merge(mixin, converted.model, project.model);
      events' := events' + [ConvertedReporting(mixin.key), Merged(mixin.key)];
    }

    /** Injects the selected profiles, in order, into the mixin's copy and records each id. */
    method InjectActiveProfiles(key: string, w0: Working, active: seq<Profile>) returns (w: Working)
      ensures w.state.project == w0.state.project
      ensures w == InjectProfiles(services, key, w0, active)
    {
      var mixinModel := w0.mixinModel;
      var problems, activated, events := w0.state.problems, w0.state.activated, w0.state.log;
      for j := 0 to |active|
        invariant Working(mixinModel, MergeState(w0.state.project, problems, activated, events))
               == InjectProfiles(services, key, w0, active[..j])
      {
        assert active[..j + 1][..j] == active[..j];
        var profile := active[j];
        var injected := services.inject(mixinModel, profile);
        mixinModel := injected.model;
        problems := problems + injected.problems;
        activated := activated + {profile.id};
        events := events + [InjectedProfile(key, profile.id)];
      }
      assert active[..|active|] == active;
      w := Working(mixinModel, MergeState(w0.state.project, problems, activated, events));
    }

    /** Adds every activated id once to the project's SOURCE_POM bucket, creating the bucket when absent. */
    method RecordActivatedProfiles(activated: set<string>)
      modifies project
      ensures BucketUpdated(old(project.injectedProfileIds), project.injectedProfileIds, activated, true)
      ensures project.model == old(project.model)
    {
      var ids := ListOf(activated);
      if SOURCE_POM in project.injectedProfileIds {
        project.injectedProfileIds := project.injectedProfileIds[SOURCE_POM := project.injectedProfileIds[SOURCE_POM] + ids];
      } else {
        project.injectedProfileIds := project.injectedProfileIds[SOURCE_POM := ids];
      }
    }
  }
}
