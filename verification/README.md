# Mixin resolution for the mixin-maven-plugin, in Dafny

This project models the loader of the mixin-maven-plugin (`MixinsProjectLoader`).
The loader discovers the mixins a Maven project declares. It merges each mixin's
project descriptor into the project. Its parts:

- **Discovery (`fillMixins`).** It makes a working copy of a descriptor. The owning
  project's properties are laid over the copy's own properties, and the copy is
  interpolated. For every configuration block of the
  `com.github.odavid.maven.plugins:mixin-maven-plugin` plugin, the loader first
  appends each mixin whose key is new to the shared list and key map. Then it
  recurses into each mixin marked `recurse`.
- **The activation context (`getProfileActivationContext`).** This builds the active
  and inactive profile ids handed to Maven's profile selector.
- **The merge (`mergeMixins`).** For each resolved mixin, in order, the loader
  optionally activates the mixin's profiles and injects them into a copy. It converts
  old-style reporting, then merges the mixin into the project. If at least one mixin
  was resolved, it then:
  - applies pluginManagement, interpolation and configuration expansion;
  - extends the project's `SOURCE_POM` bucket of injected profile ids;
  - fails once if any collected problem is an error.

Layout:

- `types.dfy` (`MixinTypes`): the values the loader works on. The Maven collaborators
  are the fields of a `Services` value. These fields are uninterpreted total functions:
  the cache, interpolator, profile selector and injector, reporting converter, merger
  and expander.
- `discovery.dfy` (`Discovery`, `DiscoveryExample`): discovery as a function on a
  registry (the list plus the key map), with its properties.
- `activation.dfy` (`Activation`): the activation context as a function, with its
  meaning.
- `merging.dfy` (`Merging`): the merge pipeline as a function. It records the
  collaborator invocations in order.
- `loader.dfy` (`ProjectLoader`): the imperative loader.
  - Classes `Project`, `Resolution` (the shared list and map) and `MixinsProjectLoader`.
  - Each method updates its state in place.
  - Each method's contract equates its result and new state with the functions above.

Discovery recurses without a bound. It re-enters every mixin marked `recurse`
(lines 147-151), even one already in the map. On a cycle that no error cuts short, the
Java recursion runs until the thread's stack overflows. The resulting
`StackOverflowError` propagates out of `mergeMixins` (line 77), and nothing is merged.

The specification function `Discovery.Fill` therefore takes a depth, and the loader's
methods require that the walk does not run out of it. Some depth meets this exactly
when the Java recursion ends without a stack overflow.

- `DiscoveryExample.SelfCycleExhausts` shows that a mixin declaring itself runs out at
  every depth.
- `Discovery.FillWithinDepth` shows that the requirement holds whenever every
  recursion path fits within the depth (`Discovery.Bounded`). A finite acyclic graph
  has such a depth. The step from acyclicity to `Bounded` is argued here, not proved:
  the model does not define acyclicity.
- `DiscoveryExample.CycleStoppedByLoadError` shows that a cyclic graph also meets the
  requirement when an error stops the walk before it comes round.

Three details of the code that the model keeps:

- A cache failure is a `LoadError`. Only a configuration block that cannot be bound is
  a `ConfigurationError`.
- The active and inactive ids are lists built by concatenation, not set unions. An id
  may occur twice.
- The `SOURCE_POM` bucket keeps its old ids and gets the new ones appended
  (`addAll`). An id already present can appear again.

## Model

Source paths are relative to the repository root.

| member | source | states |
|---|---|---|
| MixinTypes.Overlay | mixin-maven-plugin/src/main/java/com/github/odavid/maven/plugins/MixinsProjectLoader.java:119-122 | The working copy's keys are the mixin's keys plus the project's. The project's value wins on a shared key, and keys only in the mixin keep their value. A missing property set counts as empty. |
| MixinTypes.MixinBlocks | mixin-maven-plugin/src/main/java/com/github/odavid/maven/plugins/MixinsProjectLoader.java:130-135 | Exactly the blocks of plugins with the mixin plugin's groupId and artifactId are taken. There are none if and only if no plugin matches. |
| MixinTypes.MixinBlocksAppend | mixin-maven-plugin/src/main/java/com/github/odavid/maven/plugins/MixinsProjectLoader.java:133-135 | Blocks are taken in plugin order: the blocks of two plugin lists in a row are the first list's blocks followed by the second's. |
| MixinTypes.MixinBlocksOne | mixin-maven-plugin/src/main/java/com/github/odavid/maven/plugins/MixinsProjectLoader.java:135 | One plugin contributes exactly its own block if it is the mixin plugin, and nothing otherwise. With the append lemma, this fixes order and multiplicity. |
| Discovery.NewMixinsExactly | mixin-maven-plugin/src/main/java/com/github/odavid/maven/plugins/MixinsProjectLoader.java:138-146 | The first pass appends only declared, unseen mixins. It covers every unseen key of the block and never repeats a key. |
| Discovery.AddDirectAppends | mixin-maven-plugin/src/main/java/com/github/odavid/maven/plugins/MixinsProjectLoader.java:138-146 | After a completed first pass, the list is the old list followed by the block's new mixins in declaration order. The map's keys gain exactly the block's keys. |
| Discovery.AppendKeepsValid | mixin-maven-plugin/src/main/java/com/github/odavid/maven/plugins/MixinsProjectLoader.java:139-145 | Adding a new, loadable mixin to list and map together keeps them valid: no key twice, map keys equal list keys, each key mapped to its listed mixin, every listed mixin loadable. |
| Discovery.AddDirectGrows | mixin-maven-plugin/src/main/java/com/github/odavid/maven/plugins/MixinsProjectLoader.java:138-146 | The first pass only appends, never overwrites a map entry (the first mixin for a key wins), and keeps the registry valid. |
| Discovery.RecurseIntoGrows | mixin-maven-plugin/src/main/java/com/github/odavid/maven/plugins/MixinsProjectLoader.java:147-152 | The recursion pass only appends, never overwrites a map entry, and keeps the registry valid. |
| Discovery.FillGrows | mixin-maven-plugin/src/main/java/com/github/odavid/maven/plugins/MixinsProjectLoader.java:117-155 | Discovery from any descriptor, successful or not, has three properties. The list it receives is a prefix of the result. No existing map entry changes. A valid, loadable registry stays so. |
| Discovery.DirectBeforeRecursive | mixin-maven-plugin/src/main/java/com/github/odavid/maven/plugins/MixinsProjectLoader.java:137-152 | For a block, the old list followed by all of its new direct mixins is a prefix of the result. So these mixins come before anything reached by recursion. |
| Discovery.FillIndexesDeclared | mixin-maven-plugin/src/main/java/com/github/odavid/maven/plugins/MixinsProjectLoader.java:134-146 | After completed discovery, every mixin declared in a matching block of the working copy has its key in the map. |
| Discovery.NoMixinPluginNoChange | mixin-maven-plugin/src/main/java/com/github/odavid/maven/plugins/MixinsProjectLoader.java:130-135 | A working copy with no build section or no matching plugin leaves list and map unchanged and succeeds. |
| Discovery.MalformedBlockStops | mixin-maven-plugin/src/main/java/com/github/odavid/maven/plugins/MixinsProjectLoader.java:179-190 | A block that the configurator cannot bind (the exception of line 188, raised through the call at line 136) stops discovery with a configuration error. Nothing is added and later blocks are not read. |
| Discovery.FillWithinDepth | mixin-maven-plugin/src/main/java/com/github/odavid/maven/plugins/MixinsProjectLoader.java:147-151 | When every recursion path fits within the depth, the depth never runs out, so the loader's precondition holds. A finite acyclic graph has such a depth, but that step is argued in prose, not proved. |
| Discovery.FillIndexesReached | mixin-maven-plugin/src/main/java/com/github/odavid/maven/plugins/MixinsProjectLoader.java:138-152 | A completed walk adds to the key map exactly the keys declared in the blocks it reaches: the descriptor's own blocks and, through every mixin marked recurse, the blocks of the descriptors below. |
| Discovery.ResolvedExactlyReached | mixin-maven-plugin/src/main/java/com/github/odavid/maven/plugins/MixinsProjectLoader.java:117-155 | A completed resolution from an empty list lists every reached key exactly once and no other key. A mixin reachable along several paths is listed once. |
| DiscoveryExample.SelfCycleExhausts | mixin-maven-plugin/src/main/java/com/github/odavid/maven/plugins/MixinsProjectLoader.java:147-151 | A(recurse) declares itself. From any registry and at every depth, the walk runs out of depth. This is the model's counterpart of the input on which the source overflows its stack, and the loader's precondition excludes it. |
| DiscoveryExample.CycleStoppedByLoadError | mixin-maven-plugin/src/main/java/com/github/odavid/maven/plugins/MixinsProjectLoader.java:147-151 | A(recurse) declares the unloadable X and then A again. The walk stops with a load error on X before it comes back to A, within depth 1. |
| DiscoveryExample.DirectMixinsFirst | mixin-maven-plugin/src/main/java/com/github/odavid/maven/plugins/MixinsProjectLoader.java:137-152 | Declaring `[A(recurse), B]`, where A declares `[C]`, resolves to `[A, B, C]` with all three keys mapped. |
| Activation.ProfileIds | mixin-maven-plugin/src/main/java/com/github/odavid/maven/plugins/MixinsProjectLoader.java:161-163 | The ids of the project's active profiles, one per profile, in order. |
| Activation.InactiveCandidatesExactly | mixin-maven-plugin/src/main/java/com/github/odavid/maven/plugins/MixinsProjectLoader.java:165-169 | An id is an inactive candidate exactly when one of the descriptor's own profiles has it, carries an activation and is not active. |
| Activation.ActivationContextMeaning | mixin-maven-plugin/src/main/java/com/github/odavid/maven/plugins/MixinsProjectLoader.java:157-177 | An id is active if and only if the project or the request activates it. It is inactive if and only if the request deactivates it or an own profile with an activation has it and it is not active. The request's inactive ids come last. Properties and the base directory are carried over. |
| Activation.ActivationExample | mixin-maven-plugin/src/main/java/com/github/odavid/maven/plugins/MixinsProjectLoader.java:159-172 | Project active p1, own p1 and p2 with activations, request active p3 and inactive p4: active `[p1, p3]`, inactive `[p2, p4]`. |
| Merging.InjectProfilesEffect | mixin-maven-plugin/src/main/java/com/github/odavid/maven/plugins/MixinsProjectLoader.java:92-96 | Injecting profiles leaves the project untouched and merges nothing. It adds to the collected ids exactly the ids it injects, all for the one mixin. |
| Merging.MergeOneEffect | mixin-maven-plugin/src/main/java/com/github/odavid/maven/plugins/MixinsProjectLoader.java:84-101 | One iteration merges its mixin exactly once. It injects profiles only when the mixin activates them, and never drops a problem. |
| Merging.MergeAllEffect | mixin-maven-plugin/src/main/java/com/github/odavid/maven/plugins/MixinsProjectLoader.java:84-101 | The loop merges the resolved keys exactly in list order. Collected ids come only from mixins with activateProfiles. |
| Merging.PipelineOfNothing | mixin-maven-plugin/src/main/java/com/github/odavid/maven/plugins/MixinsProjectLoader.java:102-114 | An empty resolved list changes nothing, invokes no collaborator and cannot fail. |
| Merging.PipelineEffect | mixin-maven-plugin/src/main/java/com/github/odavid/maven/plugins/MixinsProjectLoader.java:74-115 | Over the whole pipeline, each mixin is merged once and in order. The collected ids are exactly the injected ones, all from activating mixins. Every iteration's problems reach the final check. |
| Merging.PrefixProblems | mixin-maven-plugin/src/main/java/com/github/odavid/maven/plugins/MixinsProjectLoader.java:78-101 | Problems recorded by the first i iterations are still recorded after all of them. |
| Merging.ErrorInAnyMixinFailsOnce | mixin-maven-plugin/src/main/java/com/github/odavid/maven/plugins/MixinsProjectLoader.java:113 | An error-severity problem in any iteration makes the run fail exactly once, with a merge error naming the project's file. |
| ProjectLoader.ListOf | mixin-maven-plugin/src/main/java/com/github/odavid/maven/plugins/MixinsProjectLoader.java:109-111 | The HashSet's ids as a list: each id of the set exactly once, nothing else. |
| ProjectLoader.Resolution.constructor | mixin-maven-plugin/src/main/java/com/github/odavid/maven/plugins/MixinsProjectLoader.java:75-76 | A resolution starts with an empty list and map. |
| ProjectLoader.MixinsProjectLoader.constructor | mixin-maven-plugin/src/main/java/com/github/odavid/maven/plugins/MixinsProjectLoader.java:51-72 | The loader keeps the collaborators, the request's profile ids and the project. |
| ProjectLoader.MixinsProjectLoader.FillMixins | mixin-maven-plugin/src/main/java/com/github/odavid/maven/plugins/MixinsProjectLoader.java:117-155 | In place on the shared resolution, the new list, map and outcome are those of discovery from the descriptor. |
| ProjectLoader.MixinsProjectLoader.AddNewMixins | mixin-maven-plugin/src/main/java/com/github/odavid/maven/plugins/MixinsProjectLoader.java:138-146 | The in-place first pass over a block equals its specification, including the stop on a mixin the cache cannot load. |
| ProjectLoader.MixinsProjectLoader.RecurseIntoMixins | mixin-maven-plugin/src/main/java/com/github/odavid/maven/plugins/MixinsProjectLoader.java:147-152 | The in-place recursion pass over a block equals its specification. |
| ProjectLoader.MixinsProjectLoader.ProfileActivationContext | mixin-maven-plugin/src/main/java/com/github/odavid/maven/plugins/MixinsProjectLoader.java:157-177 | The context built by the append loops is the activation context of the project's current descriptor and the request. |
| ProjectLoader.MixinsProjectLoader.MergeMixins | mixin-maven-plugin/src/main/java/com/github/odavid/maven/plugins/MixinsProjectLoader.java:74-115 | A failed discovery returns its failure and changes nothing. Otherwise the project's descriptor, the invocation log and the outcome are those of the pipeline over the resolved list. The `SOURCE_POM` bucket changes only if the list is non-empty. It then keeps its old ids and gains each activated id exactly once. |
| ProjectLoader.MixinsProjectLoader.MergeResolved | mixin-maven-plugin/src/main/java/com/github/odavid/maven/plugins/MixinsProjectLoader.java:83-101 | The loop over the resolved list, in place on the project, equals the merge loop's specification and leaves the bucket alone. |
| ProjectLoader.MixinsProjectLoader.MergeMixin | mixin-maven-plugin/src/main/java/com/github/odavid/maven/plugins/MixinsProjectLoader.java:85-100 | One iteration, in place on the project, equals its specification. |
| ProjectLoader.MixinsProjectLoader.InjectActiveProfiles | mixin-maven-plugin/src/main/java/com/github/odavid/maven/plugins/MixinsProjectLoader.java:90-96 | Injecting the selected profiles in order leaves the project alone and equals the injection specification. |
| ProjectLoader.MixinsProjectLoader.RecordActivatedProfiles | mixin-maven-plugin/src/main/java/com/github/odavid/maven/plugins/MixinsProjectLoader.java:108-112 | The bucket is created if absent or extended if present, never overwritten. It gains each collected id exactly once, and no other bucket changes. |

## Left out

- The Maven collaborators are uninterpreted functions, and what they do to a descriptor is not modelled. These are the interpolator, bean configurator, profile selector and injector, reporting converter, model merger and configuration expander.
- `${...}` interpolation and the binding of a configuration block to mixins are not modelled. A block is given either bound (its mixins) or unbindable (a reason).
- `MixinModelCache` is a function of the mixin key, with no memoisation, owner argument or thread safety. Its failure (an exception in Java) is `LoadError`.
- Logging, the build start time, and the wrapping of failures into `MavenExecutionException` are left out. Failures are values of `Failure`. Exceptions thrown by collaborators other than the cache and the configuration binding are not modelled.
- Descriptors are immutable values, so `Model.clone()` (line 89) needs no counterpart.
- Aliasing of cached descriptors is not modelled. The source clones only for a mixin with activateProfiles. For any other mixin, `mixinModel` (line 86) is the cache's own instance. `convertReporting` (line 99) changes it in place, and `mixin.merge` (line 100) receives that same object. The model's cache always returns the descriptor unchanged, so a later project sharing the cache sees no earlier conversion.
- `Mixin.merge` and its merge flags are one uninterpreted function of the mixin, its descriptor and the project's descriptor.
- The problems reported while discovery interpolates working copies go to a collector that is never checked. The model drops them as well.
- System and user properties are only carried into the activation context; their effect on profile selection is the selector's.
- Severities: `checkErrors` is read as failing on an error or fatal problem, not on a warning. The problem collector class is not part of this model.
- `Profile.SOURCE_POM` is Maven's constant `"pom"`, which is not defined in the loader.
- A `SOURCE_POM` bucket that holds null or an unmodifiable list is not modelled.
- ProjectLoader.MixinsProjectLoader.FillMixins: requires that the depth-bounded walk does not run out of depth. This excludes exactly the inputs on which the source fails with `StackOverflowError` (a cycle that no error cuts short). The model has no counterpart to that error.
- ProjectLoader.MixinsProjectLoader.MergeMixins: has the same requirement on the walk from the project's descriptor. The excluded inputs are those on which `StackOverflowError` leaves `mergeMixins` at line 77, before anything is merged; the model has no counterpart to that error.
- ProjectLoader.MixinsProjectLoader.RecordActivatedProfiles: states that the appended ids are the collected set without duplicates, not their order, because a HashSet's iteration order is unspecified.
