/** The game scene: actors carrying a text label, and the handlers that keep
    every label facing the camera while the user rotates it.

    The camera itself belongs to the rendering engine, which changes its
    matrix and centre as the user drags; the handlers here receive the
    camera's matrix and centre as they are when the event arrives. */
module Scene {
  import opened Placement
  import Interaction

  /** The text label drawn above an actor. */
  class Label {
    const text: string
    const width: real
    const height: real
    var transform: Transform

    /** A label of the given text whose transform is a translation to `center`. */
    constructor (text: string, center: Vec)
      ensures this.text == text
      ensures width == 0.5 && height == 0.15
      ensures transform == Translate(Identity, center)
    {
      this.text := text;
      width := 0.5;
      height := 0.15;
      transform := Translate(Identity, center);
    }
  }

  /** A box-shaped actor. It owns exactly one label, created with it and
      never replaced (a constant field). */
  class Actor {
    const pos: Vec
    const width: real
    const height: real
    const depth: real
    var transform: Transform
    var labelCenter: Vec
    const textLabel: Label
    /** Whether the actor has been placed under the scene's view. */
    var attached: bool

    /** A unit box scaled by `scale`, translated to `pos`, labelled `name`. */
    constructor (name: string, pos: Vec, scale: real := 1.0)
      ensures this.pos == pos
      ensures width == scale && height == scale && depth == scale
      ensures transform == Translate(Identity, pos)
      ensures labelCenter == InitialLabelCenter
      ensures fresh(textLabel)
      ensures textLabel.text == name && textLabel.transform == Translate(Identity, InitialLabelCenter)
      ensures !attached
    {
      width, height, depth := 1.0 * scale, 1.0 * scale, 1.0 * scale;
      attached := false;
      transform := Identity;
      this.pos := pos;
      labelCenter := InitialLabelCenter;
      textLabel := new Label(name, InitialLabelCenter);
      new;
      transform := Translate(transform, this.pos);
    }

    /** Turns the label to follow the camera: the label's matrix becomes the
        camera matrix `m`, then it is translated by the label centre computed
        from the camera centre `c`. Both results depend on `m` and `c` only,
        never on the previous placement, so repeating the call changes
        nothing. With an empty `c` the lift has no component to go to: the
        update stops with an error (`ok` false) after the matrix and the
        (empty) centre have been written. */
    method UpdateLabelOrientation(m: Matrix, c: Vec) returns (ok: bool)
      modifies this`labelCenter, textLabel`transform
      ensures ok <==> |c| > 0
      ensures ok ==> labelCenter == LabelCenterFor(c)
      ensures ok ==> textLabel.transform == Translate(Assigned(m), LabelCenterFor(c))
      ensures !ok ==> labelCenter == [] && textLabel.transform == Assigned(m)
    {
      textLabel.transform := Assigned(m);
      labelCenter := Negated(c);
      if |labelCenter| == 0 {
        return false;
      }
      var last := |labelCenter| - 1;
      labelCenter := labelCenter[last := labelCenter[last] + LabelLift];
      textLabel.transform := Translate(textLabel.transform, labelCenter);
      ok := true;
    }
  }

  /** The scene: an append-only, insertion-ordered registry of actors and
      the flag saying whether the camera is being rotated. */
  class GameScene {
    var actors: seq<Actor>
    var rotating: bool

    constructor ()
      ensures actors == [] && !rotating
    {
      actors := [];
      rotating := false;
    }

    /** Mouse press: a primary press starts a rotation. */
    method OnMousePress(button: int)
      modifies this`rotating
      ensures rotating == Interaction.Next(old(rotating), Interaction.Press(button))
    {
      if button == Interaction.PrimaryButton && !rotating {
        rotating := true;
      }
    }

    /** Mouse release: a primary release ends a rotation. */
    method OnMouseRelease(button: int)
      modifies this`rotating
      ensures rotating == Interaction.Next(old(rotating), Interaction.Release(button))
    {
      if button == Interaction.PrimaryButton && rotating {
        rotating := false;
      }
    }

    /** Mouse move: while rotating, every registered actor's label is turned
        to the camera `(m, c)`, in registration order; otherwise nothing
        changes. The flag and the registry are never changed. An empty camera
        centre makes the first update fail, which ends the pass there. */
    method OnMouseMove(m: Matrix, c: Vec) returns (ok: bool)
      modifies (set a | a in actors)`labelCenter, (set a | a in actors :: a.textLabel)`transform
      ensures actors == old(actors) && rotating == old(rotating)
      ensures ok <==> !Interaction.Recomputes(rotating, Interaction.Move) || actors == [] || |c| > 0
      ensures !Interaction.Recomputes(rotating, Interaction.Move) ==>
                forall a :: a in actors ==>
                  a.labelCenter == old(a.labelCenter) && a.textLabel.transform == old(a.textLabel.transform)
      ensures Interaction.Recomputes(rotating, Interaction.Move) && |c| > 0 ==>
                forall a :: a in actors ==>
                  a.labelCenter == LabelCenterFor(c) && a.textLabel.transform == Translate(Assigned(m), LabelCenterFor(c))
      ensures !ok ==>
                actors[0].labelCenter == [] && actors[0].textLabel.transform == Assigned(m) &&
                (forall a :: a in actors && a != actors[0] ==> a.labelCenter == old(a.labelCenter)) &&
                (forall a :: a in actors && a.textLabel != actors[0].textLabel ==> a.textLabel.transform == old(a.textLabel.transform))
    {
      ok := true;
      if rotating {
        var i := 0;
        while i < |actors|
          invariant 0 <= i <= |actors|
          invariant ok
          invariant i > 0 ==> |c| > 0
          invariant forall k :: 0 <= k < i ==>
                      actors[k].labelCenter == LabelCenterFor(c) &&
                      actors[k].textLabel.transform == Translate(Assigned(m), LabelCenterFor(c))
          invariant i == 0 ==> forall a :: a in actors ==>
                      a.labelCenter == old(a.labelCenter) && a.textLabel.transform == old(a.textLabel.transform)
        {
          ok := actors[i].UpdateLabelOrientation(m, c);
          if !ok {
            return;
          }
          i := i + 1;
        }
      }
    }

    /** Registers an actor: its label is first turned to the camera `(m, c)`,
        then the actor is put under the scene's view and appended. Nothing is
        checked about the actor, so one actor may be registered twice. If the
        label update fails, the actor is neither attached nor appended. */
    method AddActor(actor: Actor, m: Matrix, c: Vec) returns (ok: bool)
      modifies this`actors, actor`labelCenter, actor`attached, actor.textLabel`transform
      ensures ok <==> |c| > 0
      ensures ok ==> actors == old(actors) + [actor] && actor.attached
      ensures ok ==> actor.labelCenter == LabelCenterFor(c)
      ensures ok ==> actor.textLabel.transform == Translate(Assigned(m), LabelCenterFor(c))
      ensures !ok ==> actors == old(actors) && actor.attached == old(actor.attached)
      ensures !ok ==> actor.labelCenter == [] && actor.textLabel.transform == Assigned(m)
      ensures forall a :: a in old(actors) && a != actor ==>
                a.labelCenter == old(a.labelCenter) && a.attached == old(a.attached)
    {
      ok := actor.UpdateLabelOrientation(m, c);
      if !ok {
        return;
      }
      actor.attached := true;
      actors := actors + [actor];
    }

    /** Delivers a sequence of events to the handlers, one at a time and in
        order, all against the camera `(m, c)`: presses and releases go to
        their handlers, moves to the move handler. The flag ends as the state
        machine's run over the events says, the registry is unchanged, and a
        sequence that triggers no recomputation pass changes no label, while
        one that triggers a pass leaves every label placed against `(m, c)`.
        An error in a handler ends the delivery; it can only be the first
        pass meeting an empty centre, which leaves the first actor's label
        half-updated and every other actor's centre as it was. */
    method Replay(events: seq<Interaction.Event>, m: Matrix, c: Vec) returns (ok: bool)
      modifies this`rotating, (set a | a in actors)`labelCenter, (set a | a in actors :: a.textLabel)`transform
      ensures actors == old(actors)
      ensures ok ==> rotating == Interaction.Final(old(rotating), events)
      ensures ok <==> |c| > 0 || actors == [] || Interaction.Passes(old(rotating), events) == 0
      ensures Interaction.Passes(old(rotating), events) == 0 ==>
                forall a :: a in actors ==>
                  a.labelCenter == old(a.labelCenter) && a.textLabel.transform == old(a.textLabel.transform)
      ensures |c| > 0 && Interaction.Passes(old(rotating), events) > 0 ==>
                forall a :: a in actors ==>
                  a.labelCenter == LabelCenterFor(c) && a.textLabel.transform == Translate(Assigned(m), LabelCenterFor(c))
      ensures !ok ==>
                actors[0].labelCenter == [] && actors[0].textLabel.transform == Assigned(m) &&
                (forall a :: a in actors && a != actors[0] ==> a.labelCenter == old(a.labelCenter))
    {
      ok := true;
      var i := 0;
      while i < |events|
        invariant 0 <= i <= |events|
        invariant actors == old(actors)
        invariant rotating == Interaction.Final(old(rotating), events[..i])
        invariant Interaction.Passes(old(rotating), events[..i]) == 0 ==>
                    forall a :: a in actors ==>
                      a.labelCenter == old(a.labelCenter) && a.textLabel.transform == old(a.textLabel.transform)
        invariant |c| == 0 && actors != [] ==> Interaction.Passes(old(rotating), events[..i]) == 0
        invariant |c| > 0 && Interaction.Passes(old(rotating), events[..i]) > 0 ==>
                    forall a :: a in actors ==>
                      a.labelCenter == LabelCenterFor(c) && a.textLabel.transform == Translate(Assigned(m), LabelCenterFor(c))
      {
        Interaction.FinalSnoc(old(rotating), events[..i], events[i]);
        Interaction.PassesAppend(old(rotating), events[..i], [events[i]]);
        assert events[..i + 1] == events[..i] + [events[i]];
        match events[i] {
          case Press(b) => OnMousePress(b);
          case Release(b) => OnMouseRelease(b);
          case Move =>
            ok := OnMouseMove(m, c);
            if !ok {
              Interaction.PassesAppend(old(rotating), events[..i + 1], events[i + 1..]);
              assert events[..i + 1] + events[i + 1..] == events;
              return;
            }
        }
        i := i + 1;
      }
      assert events[..i] == events;
    }
  }

  /** Turning a label twice to the same camera: the second call reports the
      same outcome and leaves the actor's centre and label transform exactly
      as the first call left them, so repeated passes never drift. */
  method UpdateTwiceNoDrift(actor: Actor, m: Matrix, c: Vec)
    returns (ok1: bool, first: (Vec, Transform), ok2: bool, second: (Vec, Transform))
    modifies actor`labelCenter, actor.textLabel`transform
    ensures ok1 == ok2
    ensures first == second
  {
    ok1 := actor.UpdateLabelOrientation(m, c);
    first := (actor.labelCenter, actor.textLabel.transform);
    ok2 := actor.UpdateLabelOrientation(m, c);
    second := (actor.labelCenter, actor.textLabel.transform);
  }

  /** The number of actors the start-up code spawns, their scale and the
      height they stand at. */
  const ActorCount: nat := 5
  const ActorScale: real := 0.1
  const ActorElevation: real := 0.15

  /** The decimal digits of `n`. */
  function Decimal(n: nat): string
    decreases n
  {
    if n < 10 then [('0' as int + n) as char] else Decimal(n / 10) + Decimal(n % 10)
  }

  /** The name the start-up code gives its `idx`-th actor. */
  function ActorName(idx: nat): string
  {
    "actor_" + Decimal(idx)
  }

  /** The state the start-up code leaves the `idx`-th actor in, with the
      camera centre `c` it was registered against. */
  ghost predicate Spawned(a: Actor, idx: nat, x: real, y: real, m: Matrix, c: Vec)
    reads a, a.textLabel
  {
    && a.textLabel.text == ActorName(idx)
    && a.pos == [x, y, ActorElevation]
    && a.width == ActorScale && a.height == ActorScale && a.depth == ActorScale
    && a.transform == Translate(Identity, [x, y, ActorElevation])
    && a.attached
    && |c| > 0
    && a.labelCenter == LabelCenterFor(c)
    && a.textLabel.transform == Translate(Assigned(m), LabelCenterFor(c))
  }

  /** Start-up: a fresh scene with five actors named actor_0 to actor_4,
      each of scale 0.1, standing at (xs[i], ys[i], 0.15) and registered
      against the initial camera `(m, c)`. The coordinates come from a
      seeded random generator, uniform in [-2, 2] and [-1, 1]. A failing
      registration ends the start-up. */
  method Setup(xs: seq<real>, ys: seq<real>, m: Matrix, c: Vec) returns (scene: GameScene, ok: bool)
    requires |xs| == ActorCount && |ys| == ActorCount
    requires forall i :: 0 <= i < ActorCount ==> -2.0 <= xs[i] <= 2.0 && -1.0 <= ys[i] <= 1.0
    ensures !scene.rotating
    ensures ok <==> |c| > 0
    ensures !ok ==> scene.actors == []
    ensures ok ==> |scene.actors| == ActorCount
    ensures ok ==> forall i :: 0 <= i < ActorCount ==> Spawned(scene.actors[i], i, xs[i], ys[i], m, c)
    ensures fresh(scene)
    ensures forall a :: a in scene.actors ==> fresh(a) && fresh(a.textLabel)
  {
    scene := new GameScene();
    ok := true;
    var idx := 0;
    while idx < ActorCount
      invariant 0 <= idx <= ActorCount
      invariant ok && !scene.rotating
      invariant |scene.actors| == idx
      invariant idx > 0 ==> |c| > 0
      invariant forall i :: 0 <= i < idx ==> Spawned(scene.actors[i], i, xs[i], ys[i], m, c)
      invariant fresh(scene)
      invariant forall a :: a in scene.actors ==> fresh(a) && fresh(a.textLabel)
    {
      var actor := new Actor(ActorName(idx), [xs[idx], ys[idx], ActorElevation], ActorScale);
      ok := scene.AddActor(actor, m, c);
      if !ok {
        return;
      }
      idx := idx + 1;
    }
  }

  /** A drag followed by a stray move: the actor's label ends where the move
      during the drag put it, against the camera `(m1, c1)`; the move after
      the release, against `(m2, c2)`, leaves it there. */
  method PressMoveReleaseMove(m0: Matrix, c0: Vec, m1: Matrix, c1: Vec, m2: Matrix, c2: Vec)
    returns (placement: Transform)
    requires |c0| > 0 && |c1| > 0
    ensures placement == Translate(Assigned(m1), LabelCenterFor(c1))
  {
    var scene := new GameScene();
    var actor := new Actor(ActorName(0), [0.0, 0.0, ActorElevation], ActorScale);
    var ok := scene.AddActor(actor, m0, c0);
    scene.OnMousePress(Interaction.PrimaryButton);
    ok := scene.OnMouseMove(m1, c1);
    scene.OnMouseRelease(Interaction.PrimaryButton);
    ok := scene.OnMouseMove(m2, c2);
    placement := actor.textLabel.transform;
  }
}
