/** The application state of the demo (`HelloGLSLApp` in hello_glsl.cpp): the
    camera, the two lights, the `init*` routines that set them up, and the
    part of `render` that turns the pressed keys of a frame into one update.

    `AppState` is the value of the fields the keys can change; `AfterFrame`
    says what one frame does to it and `Run` what a sequence of frames does.
    The class `HelloGLSLApp` performs the same updates in place: `Render` is
    proved against `AfterFrame`, and `RenderAll`, one `Render` per frame,
    against `Run`. */
module App {
  import opened Vectors
  import opened Light
  import Keys

  const InitialEye: Vec3 := Vec3(0.0, 0.0, 5.0)
  const InitialUp: Vec3 := Vec3(0.0, 1.0, 0.0)
  const Red: Vec3 := Vec3(1.0, 0.0, 0.0)
  const Blue: Vec3 := Vec3(0.0, 0.0, 1.0)
  const Light0Start: Vec3 := Vec3(0.0, 5.0, 10.0)
  const Light1Start: Vec3 := Vec3(0.0, 5.0, -10.0)

  datatype AppState = AppState(
    rotationDelta: real,
    centerPosition: Vec3,
    eyePosition: Vec3,
    upVector: Vec3,
    light0: LightState,
    light1: LightState)

  /** What one call of `render` sees: the keys held down, and the two random
      unit vectors `glm::sphericalRand` would draw if the frame rebuilds the
      lights. */
  datatype Frame = Frame(pressed: set<Keys.Key>, random0: Vec3, random1: Vec3)

  /** Both lights keep the on/off invariant. */
  predicate AppInv(s: AppState)
  {
    Inv(s.light0) && Inv(s.light1)
  }

  /** `initLights`: two new lights, red and blue, above the centre in front
      of and behind it. */
  function InitialLights(g: Geometry, center: Vec3, random0: Vec3, random1: Vec3): (LightState, LightState)
  {
    (Constructed(g, Red, Light0Start, center, random0), Constructed(g, Blue, Light1Start, center, random1))
  }

  /** Both lights `initLights` builds are on and keep the invariant, orbit the
      given centre with the step angle, and are red at (0,5,10) and blue at
      (0,5,-10). */
  lemma InitialLightsAreOn(g: Geometry, center: Vec3, random0: Vec3, random1: Vec3)
    ensures var ls := InitialLights(g, center, random0, random1);
      Inv(ls.0) && Inv(ls.1) && ls.0.isOn && ls.1.isOn
      && ls.0.color == Red && ls.0.savedColor == Red && ls.0.position == Light0Start
      && ls.1.color == Blue && ls.1.savedColor == Blue && ls.1.position == Light1Start
      && ls.0.center == center && ls.1.center == center
      && ls.0.rotationDelta == StepAngle && ls.1.rotationDelta == StepAngle
  {
  }

  /** The state `begin` sets up by calling every `init*` routine, the centre
      first. */
  function Initial(g: Geometry, random0: Vec3, random1: Vec3): (s: AppState)
    ensures AppInv(s)
    ensures s.centerPosition == Origin && s.eyePosition == InitialEye && s.upVector == InitialUp
    ensures s.rotationDelta == StepAngle
  {
    InitialLightsAreOn(g, Origin, random0, random1);
    var ls := InitialLights(g, Origin, random0, random1);
    AppState(StepAngle, Origin, InitialEye, InitialUp, ls.0, ls.1)
  }

  /** The `R` branch: every `init*` routine except `initCenterPosition`. */
  function Reset(g: Geometry, s: AppState, random0: Vec3, random1: Vec3): (t: AppState)
    ensures AppInv(t) && t.light0.isOn && t.light1.isOn
    ensures t.eyePosition == InitialEye && t.upVector == InitialUp && t.rotationDelta == StepAngle
    ensures t.centerPosition == s.centerPosition
    ensures s.centerPosition == Origin ==> t == Initial(g, random0, random1)
  {
    InitialLightsAreOn(g, s.centerPosition, random0, random1);
    var ls := InitialLights(g, s.centerPosition, random0, random1);
    s.(eyePosition := InitialEye, upVector := InitialUp, rotationDelta := StepAngle,
       light0 := ls.0, light1 := ls.1)
  }

  /** `rotateCameraLeft` (angle `rotationDelta`) and `rotateCameraRight`
      (angle `-rotationDelta`): the eye turns about the camera's up axis. */
  function CameraPan(g: Geometry, s: AppState, angle: real): (t: AppState)
    ensures t == s.(eyePosition := t.eyePosition)
  {
    var f := g.normalize(Neg(s.eyePosition));
    var up := g.normalize(s.upVector);
    var side := g.normalize(Cross(f, up));
    var u := Cross(side, f);
    s.(eyePosition := g.rotate(angle, u, s.eyePosition))
  }

  /** `rotateCameraDown` (angle `rotationDelta`) and `rotateCameraUp` (angle
      `-rotationDelta`): the eye and the up vector turn about the camera's
      side axis. */
  function CameraTilt(g: Geometry, s: AppState, angle: real): (t: AppState)
    ensures t == s.(eyePosition := t.eyePosition, upVector := t.upVector)
  {
    var f := g.normalize(Neg(s.eyePosition));
    var up := g.normalize(s.upVector);
    var side := g.normalize(Cross(f, up));
    var u := Cross(side, f);
    s.(upVector := g.rotate(angle, side, u), eyePosition := g.rotate(angle, side, s.eyePosition))
  }

  function LightOf(s: AppState, id: Keys.LightId): LightState
  {
    if id == Keys.Light0 then s.light0 else s.light1
  }

  function WithLight(s: AppState, id: Keys.LightId, l: LightState): AppState
  {
    if id == Keys.Light0 then s.(light0 := l) else s.(light1 := l)
  }

  /** The state after `render` performs `a`. */
  function Perform(g: Geometry, s: AppState, a: Keys.Action, f: Frame): (t: AppState)
    ensures t.centerPosition == s.centerPosition
    ensures AppInv(s) ==> AppInv(t)
    ensures a != Keys.Reset ==> t.rotationDelta == s.rotationDelta
    ensures a.LightUp? || a.LightLeft? || a.LightRoll? || a.LightToggle? ==>
              t == WithLight(s, a.light, LightOf(t, a.light))
    ensures a.CameraLeft? || a.CameraRight? || a.CameraUp? || a.CameraDown? ==>
              t == s.(eyePosition := t.eyePosition, upVector := t.upVector)
    ensures a.Quit? || a.Idle? ==> t == s
  {
    match a
    case Quit => s
    case Idle => s
    case Reset => Reset(g, s, f.random0, f.random1)
    case CameraLeft => CameraPan(g, s, s.rotationDelta)
    case CameraRight => CameraPan(g, s, -s.rotationDelta)
    case CameraUp => CameraTilt(g, s, -s.rotationDelta)
    case CameraDown => CameraTilt(g, s, s.rotationDelta)
    case LightUp(id) => WithLight(s, id, OrbitTilt(g, LightOf(s, id)))
    case LightLeft(id) => WithLight(s, id, OrbitPan(g, LightOf(s, id)))
    case LightRoll(id) => WithLight(s, id, Rolled(g, LightOf(s, id)))
    case LightToggle(id) => WithLight(s, id, Toggled(LightOf(s, id)))
  }

  /** One frame: the chain picks one action and `render` performs it. */
  function AfterFrame(g: Geometry, s: AppState, f: Frame): AppState
  {
    Perform(g, s, Keys.Dispatch(f.pressed), f)
  }

  /** The state after a sequence of frames. */
  function Run(g: Geometry, s: AppState, frames: seq<Frame>): AppState
    decreases |frames|
  {
    if frames == [] then s else Run(g, AfterFrame(g, s, frames[0]), frames[1..])
  }

  /** Running one more frame after a sequence is running the longer
      sequence. */
  lemma {:induction false} RunSnoc(g: Geometry, s: AppState, frames: seq<Frame>, f: Frame)
    ensures Run(g, s, frames + [f]) == AfterFrame(g, Run(g, s, frames), f)
    decreases |frames|
  {
    if frames == [] {
      assert frames + [f] == [f];
      assert [f][1..] == [];
    } else {
      assert (frames + [f])[0] == frames[0];
      assert (frames + [f])[1..] == frames[1..] + [f];
      RunSnoc(g, AfterFrame(g, s, frames[0]), frames[1..], f);
    }
  }

  /** No frame ever moves the centre the camera looks at and the lights orbit:
      `R` leaves it alone too. */
  lemma {:induction false} RunKeepsCenter(g: Geometry, s: AppState, frames: seq<Frame>)
    ensures Run(g, s, frames).centerPosition == s.centerPosition
    decreases |frames|
  {
    if frames != [] {
      RunKeepsCenter(g, AfterFrame(g, s, frames[0]), frames[1..]);
    }
  }

  /** The on/off invariant of both lights holds after any sequence of frames. */
  lemma {:induction false} RunKeepsInv(g: Geometry, s: AppState, frames: seq<Frame>)
    requires AppInv(s)
    ensures AppInv(Run(g, s, frames))
    decreases |frames|
  {
    if frames != [] {
      RunKeepsInv(g, AfterFrame(g, s, frames[0]), frames[1..]);
    }
  }

  /** A frame in which `R` wins, taken from any state whose centre is the
      origin, gives the state `begin` builds. */
  lemma ResetFrame(g: Geometry, s: AppState, f: Frame)
    requires Keys.Dispatch(f.pressed) == Keys.Reset
    requires s.centerPosition == Origin
    ensures AfterFrame(g, s, f) == Initial(g, f.random0, f.random1)
  {
  }

  /** Whatever was pressed since `begin`, a frame in which `R` wins brings the
      whole state back to what `begin` set up (with the newly drawn random
      tangents): a light switched off is on again. */
  lemma ResetRestoresInitial(g: Geometry, a: Vec3, b: Vec3, frames: seq<Frame>, f: Frame)
    requires Keys.Dispatch(f.pressed) == Keys.Reset
    ensures AfterFrame(g, Run(g, Initial(g, a, b), frames), f) == Initial(g, f.random0, f.random1)
  {
    RunKeepsCenter(g, Initial(g, a, b), frames);
    ResetFrame(g, Run(g, Initial(g, a, b), frames), f);
  }

  /** A frame in which `=` or `-` is held changes nothing, whatever else is
      held. */
  lemma NoOpKeysChangeNothing(g: Geometry, s: AppState, f: Frame)
    requires Keys.Equal in f.pressed || Keys.Minus in f.pressed
    ensures AfterFrame(g, s, f) == s
  {
  }

  /** Two frames that each toggle the same light give back the state
      exactly. */
  lemma ToggleFramesCancel(g: Geometry, s: AppState, f1: Frame, f2: Frame, id: Keys.LightId)
    requires AppInv(s)
    requires Keys.Dispatch(f1.pressed) == Keys.LightToggle(id)
    requires Keys.Dispatch(f2.pressed) == Keys.LightToggle(id)
    ensures AfterFrame(g, AfterFrame(g, s, f1), f2) == s
  {
    ToggleTwice(LightOf(s, id));
  }

  /** `HelloGLSLApp`, updated in place. */
  class HelloGLSLApp {
    var rotationDelta: real
    var centerPosition: Vec3
    var eyePosition: Vec3
    var upVector: Vec3
    const light0: SpinningLight
    const light1: SpinningLight

    function State(): AppState
      reads this, light0, light1
    {
      AppState(rotationDelta, centerPosition, eyePosition, upVector, light0.State(), light1.State())
    }

    /** The two lights are distinct objects (they are two members of the
        application object, which keep their identity for its whole life)
        and both keep the on/off invariant. */
    predicate Valid()
      reads this, light0, light1
    {
      light0 != light1 && light0.Valid() && light1.Valid()
    }

    /** The set-up part of `begin`. */
    constructor Begin(g: Geometry, random0: Vec3, random1: Vec3)
      ensures Valid() && fresh(light0) && fresh(light1)
      ensures State() == Initial(g, random0, random1)
    {
      rotationDelta := StepAngle;
      centerPosition := Origin;
      eyePosition := InitialEye;
      upVector := InitialUp;
      light0 := new SpinningLight(g, Red, Light0Start, Origin, random0);
      light1 := new SpinningLight(g, Blue, Light1Start, Origin, random1);
    }

    method InitCenterPosition()
      modifies this
      ensures State() == old(State()).(centerPosition := Origin)
    {
      centerPosition := Vec3(0.0, 0.0, 0.0);
    }

    method InitEyePosition()
      modifies this
      ensures State() == old(State()).(eyePosition := InitialEye)
    {
      eyePosition := Vec3(0.0, 0.0, 5.0);
    }

    method InitUpVector()
      modifies this
      ensures State() == old(State()).(upVector := InitialUp)
    {
      upVector := Vec3(0.0, 1.0, 0.0);
    }

    method InitRotationDelta()
      modifies this
      ensures State() == old(State()).(rotationDelta := StepAngle)
    {
      rotationDelta := 0.05;
    }

    method InitLights(g: Geometry, random0: Vec3, random1: Vec3)
      requires light0 != light1
      modifies light0, light1
      ensures Valid()
      ensures var ls := InitialLights(g, centerPosition, random0, random1);
              State() == old(State()).(light0 := ls.0, light1 := ls.1)
    {
      var color0 := Vec3(1.0, 0.0, 0.0);
      var position0 := Vec3(0.0, 5.0, 10.0);
      var color1 := Vec3(0.0, 0.0, 1.0);
      var position1 := Vec3(0.0, 5.0, -10.0);
      light0.Assign(g, color0, position0, centerPosition, random0);
      light1.Assign(g, color1, position1, centerPosition, random1);
    }

    method RotateCameraLeft(g: Geometry)
      modifies this
      ensures State() == CameraPan(g, old(State()), old(rotationDelta))
    {
      var f := g.normalize(Neg(eyePosition));
      var up := g.normalize(upVector);
      var s := g.normalize(Cross(f, up));
      var u := Cross(s, f);
      eyePosition := g.rotate(rotationDelta, u, eyePosition);
    }

    method RotateCameraRight(g: Geometry)
      modifies this
      ensures State() == CameraPan(g, old(State()), -old(rotationDelta))
    {
      var f := g.normalize(Neg(eyePosition));
      var up := g.normalize(upVector);
      var s := g.normalize(Cross(f, up));
      var u := Cross(s, f);
      eyePosition := g.rotate(-rotationDelta, u, eyePosition);
    }

    method RotateCameraUp(g: Geometry)
      modifies this
      ensures State() == CameraTilt(g, old(State()), -old(rotationDelta))
    {
      var f := g.normalize(Neg(eyePosition));
      var up := g.normalize(upVector);
      var s := g.normalize(Cross(f, up));
      var u := Cross(s, f);
      upVector := g.rotate(-rotationDelta, s, u);
      eyePosition := g.rotate(-rotationDelta, s, eyePosition);
    }

    method RotateCameraDown(g: Geometry)
      modifies this
      ensures State() == CameraTilt(g, old(State()), old(rotationDelta))
    {
      var f := g.normalize(Neg(eyePosition));
      var up := g.normalize(upVector);
      var s := g.normalize(Cross(f, up));
      var u := Cross(s, f);
      upVector := g.rotate(rotationDelta, s, u);
      eyePosition := g.rotate(rotationDelta, s, eyePosition);
    }

    /** The key handling of `render`: the one action the chain selects is
        performed, and the new state is the one `AfterFrame` describes. */
    method Render(g: Geometry, f: Frame) returns (action: Keys.Action)
      requires Valid()
      modifies this, light0, light1
      ensures Valid()
      ensures action == Keys.Dispatch(f.pressed)
      ensures State() == AfterFrame(g, old(State()), f)
    {
      action := Keys.Dispatch(f.pressed);
      match action
      case Quit =>
      case Idle =>
      case Reset =>
        InitEyePosition();
        InitUpVector();
        InitRotationDelta();
        InitLights(g, f.random0, f.random1);
      case CameraLeft => RotateCameraLeft(g);
      case CameraRight => RotateCameraRight(g);
      case CameraUp => RotateCameraUp(g);
      case CameraDown => RotateCameraDown(g);
      case LightUp(id) =>
        if id == Keys.Light0 { light0.RotateUp(g); } else { light1.RotateUp(g); }
      case LightLeft(id) =>
        if id == Keys.Light0 { light0.RotateLeft(g); } else { light1.RotateLeft(g); }
      case LightRoll(id) =>
        if id == Keys.Light0 { light0.Roll(g); } else { light1.Roll(g); }
      case LightToggle(id) =>
        if id == Keys.Light0 { light0.Toggle(); } else { light1.Toggle(); }
    }

    /** The frames `render` is called for, one `Render` each, in order. */
    method RenderAll(g: Geometry, frames: seq<Frame>)
      requires Valid()
      modifies this, light0, light1
      ensures Valid()
      ensures State() == Run(g, old(State()), frames)
    {
      ghost var s0 := State();
      var i := 0;
      while i < |frames|
        invariant 0 <= i <= |frames|
        invariant Valid()
        invariant State() == Run(g, s0, frames[..i])
      {
        var action := Render(g, frames[i]);
        RunSnoc(g, s0, frames[..i], frames[i]);
        assert frames[..i + 1] == frames[..i] + [frames[i]];
        i := i + 1;
      }
      assert frames[..i] == frames;
    }
  }

  /** A whole session: `begin`, then `render` once per frame. */
  method Session(g: Geometry, random0: Vec3, random1: Vec3, frames: seq<Frame>) returns (app: HelloGLSLApp)
    ensures app.Valid()
    ensures app.State() == Run(g, Initial(g, random0, random1), frames)
  {
    app := new HelloGLSLApp.Begin(g, random0, random1);
    app.RenderAll(g, frames);
  }
}
