/** A point light that orbits a centre and can be switched on and off
    (`SpinningLight` in hello_glsl.cpp).

    `LightState` is the value of all of a light's fields; the functions on it
    say what each operation does, and the class `SpinningLight` performs the
    same operations in place and is proved against them. */
module Light {
  import opened Vectors

  /** The angle of one rotation step, in the unit `glm::rotate` expects. */
  const StepAngle: real := 0.05

  datatype LightState = LightState(
    rotationDelta: real,
    color: Vec3,
    position: Vec3,
    center: Vec3,
    tangent: Vec3,
    savedColor: Vec3,
    isOn: bool)

  /** The on/off invariant: a light that is on shows its saved colour, a light
      that is off shows black. */
  predicate Inv(s: LightState)
  {
    if s.isOn then s.color == s.savedColor else s.color == Black
  }

  /** The unit vector from the light towards its centre. */
  function Direction(g: Geometry, s: LightState): Vec3
  {
    g.normalize(Sub(s.center, s.position))
  }

  /** The light a constructor call builds. `randomVector` stands for the
      random unit vector `glm::sphericalRand` draws. */
  function Constructed(g: Geometry, color: Vec3, position: Vec3, center: Vec3, randomVector: Vec3): (s: LightState)
    ensures Inv(s) && s.isOn
    ensures s.color == color && s.savedColor == color
    ensures s.position == position && s.center == center
    ensures s.rotationDelta == StepAngle
  {
    var d := g.normalize(Sub(center, position));
    LightState(StepAngle, color, position, center, Cross(d, randomVector), color, true)
  }

  /** A new light's tangent is orthogonal to its direction towards the centre,
      whatever random vector it was built from. */
  lemma ConstructedTangentOrthogonal(g: Geometry, color: Vec3, position: Vec3, center: Vec3, randomVector: Vec3)
    ensures var s := Constructed(g, color, position, center, randomVector);
            Dot(s.tangent, Direction(g, s)) == 0.0
  {
    var d := g.normalize(Sub(center, position));
    var r := Cross(d, randomVector);
    assert Dot(r, d) == 0.0;
  }

  /** `toggle`: flips the switch and shows the saved colour or black. */
  function Toggled(s: LightState): (t: LightState)
    ensures Inv(t)
    ensures t.isOn == !s.isOn
    ensures t == s.(isOn := t.isOn, color := t.color)
  {
    var on := !s.isOn;
    s.(isOn := on, color := if on then s.savedColor else Black)
  }

  /** The step both `rotateUp` and `rotateDown` take: a rotation by the
      positive step angle about the side axis, applied to the position and
      to the recomputed up vector, which becomes the new tangent. */
  function OrbitTilt(g: Geometry, s: LightState): (t: LightState)
    ensures t == s.(tangent := t.tangent, position := t.position)
  {
    var f := Direction(g, s);
    var up := g.normalize(s.tangent);
    var side := g.normalize(Cross(f, up));
    var u := Cross(side, f);
    s.(tangent := g.rotate(s.rotationDelta, side, u),
       position := g.rotate(s.rotationDelta, side, s.position))
  }

  /** The step both `rotateLeft` and `rotateRight` take: a rotation by the
      positive step angle about the recomputed up vector, applied to the
      position only. */
  function OrbitPan(g: Geometry, s: LightState): (t: LightState)
    ensures t == s.(position := t.position)
  {
    var f := g.normalize(Direction(g, s));
    var up := g.normalize(s.tangent);
    var side := g.normalize(Cross(f, up));
    var u := Cross(side, f);
    s.(position := g.rotate(s.rotationDelta, u, s.position))
  }

  /** `roll`: a rotation by the negative step angle about the direction
      towards the centre, applied to the tangent only. */
  function Rolled(g: Geometry, s: LightState): (t: LightState)
    ensures t == s.(tangent := t.tangent)
  {
    s.(tangent := g.rotate(-s.rotationDelta, Direction(g, s), s.tangent))
  }

  /** Toggling twice gives back the light exactly, colour included, as long
      as the on/off invariant held to begin with. */
  lemma ToggleTwice(s: LightState)
    requires Inv(s)
    ensures Toggled(Toggled(s)) == s
  {
  }

  /** No rotation disturbs the on/off invariant, the switch or the colours. */
  lemma RotationsKeepSwitch(g: Geometry, s: LightState)
    ensures var t := OrbitTilt(g, s); t.isOn == s.isOn && t.color == s.color && t.savedColor == s.savedColor
    ensures var t := OrbitPan(g, s); t.isOn == s.isOn && t.color == s.color && t.savedColor == s.savedColor
    ensures var t := Rolled(g, s); t.isOn == s.isOn && t.color == s.color && t.savedColor == s.savedColor
    ensures Inv(s) ==> Inv(OrbitTilt(g, s)) && Inv(OrbitPan(g, s)) && Inv(Rolled(g, s))
  {
  }

  /** `SpinningLight`, updated in place. */
  class SpinningLight {
    var rotationDelta: real
    var color: Vec3
    var position: Vec3
    var center: Vec3
    var tangent: Vec3
    var savedColor: Vec3
    var isOn: bool

    function State(): LightState
      reads this
    {
      LightState(rotationDelta, color, position, center, tangent, savedColor, isOn)
    }

    predicate Valid()
      reads this
    {
      Inv(State())
    }

    constructor (g: Geometry, color: Vec3, position: Vec3, center: Vec3, randomVector: Vec3)
      ensures Valid()
      ensures State() == Constructed(g, color, position, center, randomVector)
    {
      this.rotationDelta := StepAngle;
      this.color := color;
      this.position := position;
      this.center := center;
      this.savedColor := color;
      this.isOn := true;
      var d := g.normalize(Sub(center, position));
      this.tangent := Cross(d, randomVector);
    }

    /** The assignment `light = SpinningLight(color, position, center)`: a
        temporary light is constructed and every field of this one is
        overwritten with its fields, so this object keeps its identity. */
    method Assign(g: Geometry, color: Vec3, position: Vec3, center: Vec3, randomVector: Vec3)
      modifies this
      ensures Valid()
      ensures State() == Constructed(g, color, position, center, randomVector)
    {
      var temporary := new SpinningLight(g, color, position, center, randomVector);
      rotationDelta := temporary.rotationDelta;
      this.color := temporary.color;
      this.position := temporary.position;
      this.center := temporary.center;
      tangent := temporary.tangent;
      savedColor := temporary.savedColor;
      isOn := temporary.isOn;
    }

    /** `color()`: the current colour with a fourth component of one. */
    function Color(): (c: Vec4)
      reads this
      ensures Xyz(c) == color && c.w == 1.0
    {
      Extend(color, 1.0)
    }

    /** `position()`: the current position as a point in homogeneous
        coordinates. */
    function Position(): (p: Vec4)
      reads this
      ensures Xyz(p) == position && p.w == 1.0
    {
      Extend(position, 1.0)
    }

    method RotateUp(g: Geometry)
      modifies this
      ensures State() == OrbitTilt(g, old(State()))
    {
      var f := Direction(g, State());
      var up := g.normalize(tangent);
      var s := g.normalize(Cross(f, up));
      var u := Cross(s, f);
      tangent := g.rotate(rotationDelta, s, u);
      position := g.rotate(rotationDelta, s, position);
    }

    /** Rotates by the same positive angle as `RotateUp`. */
    method RotateDown(g: Geometry)
      modifies this
      ensures State() == OrbitTilt(g, old(State()))
    {
      var f := Direction(g, State());
      var up := g.normalize(tangent);
      var s := g.normalize(Cross(f, up));
      var u := Cross(s, f);
      tangent := g.rotate(rotationDelta, s, u);
      position := g.rotate(rotationDelta, s, position);
    }

    method RotateLeft(g: Geometry)
      modifies this
      ensures State() == OrbitPan(g, old(State()))
    {
      var f := g.normalize(Direction(g, State()));
      var up := g.normalize(tangent);
      var s := g.normalize(Cross(f, up));
      var u := Cross(s, f);
      position := g.rotate(rotationDelta, u, position);
    }

    /** Rotates by the same positive angle as `RotateLeft`. */
    method RotateRight(g: Geometry)
      modifies this
      ensures State() == OrbitPan(g, old(State()))
    {
      var f := g.normalize(Direction(g, State()));
      var up := g.normalize(tangent);
      var s := g.normalize(Cross(f, up));
      var u := Cross(s, f);
      position := g.rotate(rotationDelta, u, position);
    }

    method Roll(g: Geometry)
      modifies this
      ensures State() == Rolled(g, old(State()))
    {
      tangent := g.rotate(-rotationDelta, Direction(g, State()), tangent);
    }

    method Toggle()
      modifies this
      ensures Valid()
      ensures State() == Toggled(old(State()))
    {
      isOn := !isOn;
      if isOn {
        color := savedColor;
      } else {
        color := Vec3(0.0, 0.0, 0.0);
      }
    }
  }
}
