/**
 * The values the mixin loader works on: mixin references, the parts of a
 * project descriptor (Maven model) that the loader itself inspects, the
 * problems the Maven collaborators report, and the collaborators themselves,
 * which are given as uninterpreted total functions.
 */
module MixinTypes {

  /** Coordinates of the plugin whose configuration block declares mixins. */
  const PLUGIN_GROUPID: string := "com.github.odavid.maven.plugins"
  const PLUGIN_ARTIFACTID: string := "mixin-maven-plugin"

  /** Maven's Profile.SOURCE_POM: the bucket of injected profile ids that came from POMs. */
  const SOURCE_POM: string := "pom"

  datatype Option<T> = None | Some(value: T)

  /** A reference to another project descriptor: its key is the unit of deduplication. */
  datatype Mixin = Mixin(key: string, recurse: bool, activateProfiles: bool)

  /**
   * The raw configuration block of a plugin. Binding it to a list of mixins is
   * done by Maven's bean configurator; the model keeps only its outcome.
   */
  datatype PluginConfiguration =
    | Wellformed(mixins: seq<Mixin>)
    | Malformed(reason: string)

  datatype Plugin = Plugin(groupId: string, artifactId: string, configuration: PluginConfiguration)

  /** A profile: its id and whether it carries an activation element. */
  datatype Profile = Profile(id: string, hasActivation: bool)

  /**
   * A project descriptor. `properties` and `build` may be absent (null in
   * Maven); the rest of a descriptor is only touched by the collaborators.
   */
  datatype Descriptor = Descriptor(
    properties: Option<map<string, string>>,
    build: Option<seq<Plugin>>,
    profiles: seq<Profile>)

  datatype Severity = Fatal | Error | Warning

  datatype Problem = Problem(severity: Severity, message: string)

  /** Why a resolution stopped. */
  datatype Failure =
    | ConfigurationError(reason: string)  // a mixins block could not be bound
    | LoadError(key: string)              // the cache could not produce a mixin's descriptor
    | MergeError(location: string)        // checkErrors found an error-severity problem
    | DepthExhausted                      // only the depth-bounded specification can reach this

  datatype Outcome = Done | Failed(failure: Failure)

  datatype Result<T> = Ok(value: T) | Err(failure: Failure)

  /** The activation context handed to the profile selector. */
  datatype ActivationContext = ActivationContext(
    activeIds: seq<string>,
    inactiveIds: seq<string>,
    systemProperties: map<string, string>,
    userProperties: map<string, string>,
    projectDirectory: string)

  /** What a collaborator that works in place leaves behind: the new descriptor and its problems. */
  datatype Processed = Processed(model: Descriptor, problems: seq<Problem>)

  /** What the profile selector returns: the active profiles, in declaration order, and its problems. */
  datatype Selection = Selection(profiles: seq<Profile>, problems: seq<Problem>)

  /**
   * The Maven collaborators of the loader. Each is a function of its inputs
   * only; what they do to a descriptor is not modelled.
   */
  datatype Services = Services(
    load: string -> Option<Descriptor>,                             // MixinModelCache.getModel
    interpolate: Descriptor -> Processed,                           // ModelInterpolator.interpolateModel
    selectActive: (seq<Profile>, ActivationContext) -> Selection,  // ProfileSelector.getActiveProfiles
    inject: (Descriptor, Profile) -> Processed,                     // ProfileInjector.injectProfile
    convertReporting: Descriptor -> Processed,                      // ReportingConverter.convertReporting
    merge: (Mixin, Descriptor, Descriptor) -> Descriptor,          // Mixin.merge(mixinModel, project)
    applyPluginManagement: Descriptor -> Descriptor,                // MixinModelMerger.applyPluginManagementOnPlugins
    expand: Descriptor -> Processed)                                // PluginConfigurationExpander.expandPluginConfiguration

  /** The session and request settings the loader copies in its constructor. */
  datatype Session = Session(
    activeProfileIds: seq<string>,
    inactiveProfileIds: seq<string>,
    systemProperties: map<string, string>,
    userProperties: map<string, string>)

  /** Everything the loader reads but never changes. */
  datatype Environment = Environment(
    services: Services,
    session: Session,
    projectActiveProfiles: seq<Profile>,  // MavenProject.getActiveProfiles()
    basedir: string,
    file: string)

  /** A property set that Maven reports as null is read as empty. */
  function PropertiesOrEmpty(props: Option<map<string, string>>): map<string, string>
  {
    if props.Some? then props.value else map[]
  }

  /**
   * The property set of the working copy: the descriptor's own properties
   * with the owning project's properties put over them.
   */
  function Overlay(own: Option<map<string, string>>, owner: map<string, string>): (r: map<string, string>)
    ensures r.Keys == PropertiesOrEmpty(own).Keys + owner.Keys
    ensures forall k :: k in owner ==> r[k] == owner[k]
    ensures forall k :: k in r && k !in owner ==> own.Some? && k in own.value && r[k] == own.value[k]
    ensures own.None? ==> r == owner
  {
    PropertiesOrEmpty(own) + owner
  }

  /** The plugins of a descriptor; a missing build section has none. */
  function PluginsOf(d: Descriptor): seq<Plugin>
  {
    if d.build.Some? then d.build.value else []
  }

  predicate IsMixinPlugin(p: Plugin)
  {
    p.groupId == PLUGIN_GROUPID && p.artifactId == PLUGIN_ARTIFACTID
  }

  /** The configuration blocks of the mixin plugin, in plugin order. */
  function MixinBlocks(plugins: seq<Plugin>): (bs: seq<PluginConfiguration>)
    ensures |bs| <= |plugins|
    ensures bs == [] <==> forall p :: p in plugins ==> !IsMixinPlugin(p)
    ensures forall p :: p in plugins && IsMixinPlugin(p) ==> p.configuration in bs
    ensures forall b :: b in bs ==> exists p :: p in plugins && IsMixinPlugin(p) && p.configuration == b
  {
    if plugins == [] then []
    else
      var rest := MixinBlocks(plugins[1..]);
      assert forall p :: p in plugins[1..] ==> p in plugins;
      if IsMixinPlugin(plugins[0]) then [plugins[0].configuration] + rest else rest
  }

  /**
   * The blocks are taken in plugin order, one per matching plugin: the blocks
   * of two plugin lists in a row are those of the first followed by those of
   * the second.
   */
  lemma {:induction false} MixinBlocksAppend(a: seq<Plugin>, b: seq<Plugin>)
    ensures MixinBlocks(a + b) == MixinBlocks(a) + MixinBlocks(b)
    decreases |a|
  {
    if a != [] {
      var ab := a + b;
      assert ab[0] == a[0];
      assert ab[1..] == a[1..] + b;
      MixinBlocksAppend(a[1..], b);
      var head := if IsMixinPlugin(a[0]) then [a[0].configuration] else [];
      assert MixinBlocks(a) == head + MixinBlocks(a[1..]);
      assert MixinBlocks(ab) == head + MixinBlocks(ab[1..]);
    } else {
      assert a + b == b;
    }
  }

  /** A single plugin contributes its block exactly when it is the mixin plugin. */
  lemma MixinBlocksOne(p: Plugin)
    ensures MixinBlocks([p]) == if IsMixinPlugin(p) then [p.configuration] else []
  {
    assert [p][1..] == [];
  }

  /** Binding of a configuration block; a malformed one is a configuration error. */
  function LoadConfiguration(configuration: PluginConfiguration): (r: Result<seq<Mixin>>)
    ensures r.Ok? <==> configuration.Wellformed?
    ensures r.Ok? ==> r.value == configuration.mixins
    ensures r.Err? ==> r.failure.ConfigurationError?
  {
    match configuration
    case Wellformed(mixins) => Ok(mixins)
    case Malformed(reason) => Err(ConfigurationError("Cannot load mixins configuration: " + reason))
  }

  /** Every mixin of the list can be loaded by the cache. */
  ghost predicate AllLoaded(services: Services, ms: seq<Mixin>)
  {
    forall i :: 0 <= i < |ms| ==> services.load(ms[i].key).Some?
  }

  /** No element occurs twice. */
  predicate Distinct<T(==)>(xs: seq<T>)
  {
    forall i, j :: 0 <= i < j < |xs| ==> xs[i] != xs[j]
  }

  /** True when some problem has error or fatal severity. */
  predicate HasErrors(problems: seq<Problem>)
  {
    exists i :: 0 <= i < |problems| && problems[i].severity != Warning
  }
}
