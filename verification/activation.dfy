/**
 * The profile activation context (getProfileActivationContext) as a function
 * of the project, its current descriptor and the session.
 */
module Activation {
  import opened MixinTypes

  /** The ids of a list of profiles, in order. */
  function ProfileIds(ps: seq<Profile>): (ids: seq<string>)
    ensures |ids| == |ps|
    ensures forall i :: 0 <= i < |ps| ==> ids[i] == ps[i].id
  {
    if ps == [] then [] else ProfileIds(ps[..|ps| - 1]) + [ps[|ps| - 1].id]
  }

  /**
   * The ids of the profiles, in declaration order, that carry an activation
   * and are not among the `active` ids.
   */
  function InactiveCandidates(own: seq<Profile>, active: seq<string>): seq<string>
  {
    if own == [] then []
    else
      var last := own[|own| - 1];
      InactiveCandidates(own[..|own| - 1], active) + (if last.hasActivation && last.id !in active then [last.id] else [])
  }

  /**
   * The context the loader hands to the profile selector: the project's
   * active profile ids followed by the session's; then the ids of the
   * descriptor's own profiles with an activation that are not already
   * active, followed by the session's inactive ids.
   */
  function ActivationContextOf(session: Session, projectActive: seq<Profile>, own: seq<Profile>, basedir: string): ActivationContext
  {
    var active := ProfileIds(projectActive) + session.activeProfileIds;
    ActivationContext(active, InactiveCandidates(own, active) + session.inactiveProfileIds,
                      session.systemProperties, session.userProperties, basedir)
  }

  /** An id is an inactive candidate exactly when a profile with an activation and that id is not active. */
  lemma {:induction false} InactiveCandidatesExactly(own: seq<Profile>, active: seq<string>)
    ensures forall x :: x in InactiveCandidates(own, active) <==>
      exists p :: p in own && p.hasActivation && p.id !in active && p.id == x
    decreases |own|
  {
    if own != [] {
      var init := own[..|own| - 1];
      InactiveCandidatesExactly(init, active);
      assert own == init + [own[|own| - 1]];
      assert forall p :: p in own <==> p in init || p == own[|own| - 1];
    }
  }

  /**
   * What the context holds: an id is active exactly when the project or the
   * session activates it; an id is inactive exactly when the session
   * deactivates it or the descriptor declares a profile with that id and an
   * activation that is not active. The descriptor's own candidates come
   * before the session's inactive ids, and the session's settings are carried
   * over unchanged.
   */
  lemma ActivationContextMeaning(session: Session, projectActive: seq<Profile>, own: seq<Profile>, basedir: string)
    ensures var ctx := ActivationContextOf(session, projectActive, own, basedir);
      && (forall x :: x in ctx.activeIds <==> x in session.activeProfileIds || exists p :: p in projectActive && p.id == x)
      && (forall x :: x in ctx.inactiveIds <==>
            x in session.inactiveProfileIds
            || exists p :: p in own && p.hasActivation && p.id == x && x !in ctx.activeIds)
      && ctx.inactiveIds[|ctx.inactiveIds| - |session.inactiveProfileIds|..] == session.inactiveProfileIds
      && ctx.systemProperties == session.systemProperties
      && ctx.userProperties == session.userProperties
      && ctx.projectDirectory == basedir
  {
    var ctx := ActivationContextOf(session, projectActive, own, basedir);
    var ids := ProfileIds(projectActive);
    InactiveCandidatesExactly(own, ctx.activeIds);
    forall x | x in ids
      ensures exists p :: p in projectActive && p.id == x
    {
      var i :| 0 <= i < |ids| && ids[i] == x;
      assert projectActive[i] in projectActive;
    }
    forall p | p in projectActive
      ensures p.id in ids
    {
      var i :| 0 <= i < |projectActive| && projectActive[i] == p;
      assert ids[i] == p.id;
    }
  }

  /**
   * The case of a project with active profile p1, own profiles p1 and p2
   * carrying activations and p5 without one, and a session activating p3 and
   * deactivating p4: active = [p1, p3], inactive = [p2, p4].
   */
  lemma ActivationExample()
    ensures var ctx := ActivationContextOf(
        Session(["p3"], ["p4"], map[], map[]),
        [Profile("p1", true)],
        [Profile("p1", true), Profile("p2", true), Profile("p5", false)],
        "/project");
      ctx.activeIds == ["p1", "p3"] && ctx.inactiveIds == ["p2", "p4"]
  {
    var own := [Profile("p1", true), Profile("p2", true), Profile("p5", false)];
    var active := ["p1", "p3"];
    assert ProfileIds([Profile("p1", true)]) == ["p1"];
    assert own[..2][..1] == [Profile("p1", true)];
    assert InactiveCandidates(own[..2][..1], active) == [];
    assert InactiveCandidates(own[..2], active) == ["p2"];
    assert InactiveCandidates(own, active) == ["p2"];
  }
}
