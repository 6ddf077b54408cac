# hello_glsl: the light switch, the key chain and the reset, in Dafny

The demo draws a teapot lit by two point lights that orbit the origin. The
keyboard rotates the camera and the lights, switches the lights on and off,
and resets the scene. This project models the discrete part of that program:

- `Vectors` (vectors.dfy): the vectors the program stores. `glm::normalize`
  and `glm::rotate` stay opaque: every rotation receives a `Geometry` value
  that supplies them, so the model says which fields each rotation writes and
  from which inputs without computing any angle or length.
- `Light` (light.dfy): `SpinningLight` as a class updated in place. The
  functions on `LightState` describe each of its operations: `Constructed`,
  `Toggled`, `OrbitTilt`, `OrbitPan` and `Rolled`. The on/off invariant is
  `Inv`: a light that is on shows its saved colour, one that is off shows
  black.
- `Keys` (keys.dfy): the `if`/`else if` chain of `render` as `Dispatch`,
  which maps the set of keys held in a frame to one `Action`. Two independent
  readings of the chain are proved equal to it: the highest-priority pressed
  key (`Wins` with `Rank`), and an ordered scan of the polling order
  (`FirstPressed`, `Scan`).
- `App` (app.dfy): `HelloGLSLApp` as a class with the camera fields and the
  two lights, its `init*` routines, its camera rotations and `Render`, the
  key-handling part of `render`. `AfterFrame` describes one frame on
  `AppState` and `Run` describes a sequence of frames. `Render` is proved
  against `AfterFrame`. `RenderAll`, one `Render` per frame, is proved
  against `Run`. The lights are members of the application object, so they
  keep their identity: `initLights` overwrites them in place.

Behaviours of the code that the model reproduces:

- `rotateDown` rotates by the same positive angle as `rotateUp`, and
  `rotateRight` by the same angle as `rotateLeft`. Both members of each pair
  are proved against one function (`OrbitTilt`, `OrbitPan`). So the two
  members of a pair are not inverses of each other. The key chain never calls
  `rotateDown` or `rotateRight`.
- `R` does not restore the lights bit for bit. It builds new lights, and
  their tangents come from fresh random vectors. `R` leaves `centerPosition`
  alone, which is harmless because no frame ever changes it
  (`RunKeepsCenter`).
- The light orbits are rotations about the origin, not about `_center`.
  The model keeps the code's `rotate(angle, axis, position)` as written.

## Model

| member | source | states |
|---|---|---|
| `Vectors.Cross` | hello_glsl.cpp:46-47 | the cross product is orthogonal to both of its arguments |
| `Vectors.Extend` | hello_glsl.cpp:40-41 | extending a 3-vector to homogeneous coordinates keeps its three components and sets the fourth |
| `Light.Constructed` | hello_glsl.cpp:33-38 | a new light is on and keeps the invariant; colour and saved colour are both the given colour; position, centre and step angle 0.05 are as given |
| `Light.ConstructedTangentOrthogonal` | hello_glsl.cpp:35-37 | a new light's tangent is orthogonal to its direction towards the centre, whatever the random vector |
| `Light.Toggled` | hello_glsl.cpp:86-93 | toggling negates `isOn`, establishes the on/off invariant from any state, and changes no field except `isOn` and `color` |
| `Light.ToggleTwice` | hello_glsl.cpp:86-93 | on a light that keeps the invariant, toggling twice restores every field, including the colour |
| `Light.OrbitTilt` | hello_glsl.cpp:43-61 | the `rotateUp`/`rotateDown` step writes only the tangent and the position |
| `Light.OrbitPan` | hello_glsl.cpp:63-79 | the `rotateLeft`/`rotateRight` step writes only the position |
| `Light.Rolled` | hello_glsl.cpp:81-84 | `roll` writes only the tangent |
| `Light.RotationsKeepSwitch` | hello_glsl.cpp:43-84 | no rotation changes `isOn`, the colour or the saved colour, so every rotation preserves the on/off invariant |
| `Light.SpinningLight.constructor` | hello_glsl.cpp:33-38 | the object's fields are those of `Constructed`, and the invariant holds |
| `Light.SpinningLight.Assign` | hello_glsl.cpp:170-171 | the assignment of a newly constructed light overwrites every field of the existing object with those of `Constructed`, and the invariant holds |
| `Light.SpinningLight.Color` | hello_glsl.cpp:40 | `color()` is the stored colour with a fourth component of exactly 1.0 |
| `Light.SpinningLight.Position` | hello_glsl.cpp:41 | `position()` is the stored position with a fourth component of exactly 1.0 |
| `Light.SpinningLight.RotateUp` | hello_glsl.cpp:43-51 | the new state is `OrbitTilt` of the old one |
| `Light.SpinningLight.RotateDown` | hello_glsl.cpp:53-61 | the new state is `OrbitTilt` of the old one, the same step as `RotateUp` |
| `Light.SpinningLight.RotateLeft` | hello_glsl.cpp:63-70 | the new state is `OrbitPan` of the old one |
| `Light.SpinningLight.RotateRight` | hello_glsl.cpp:72-79 | the new state is `OrbitPan` of the old one, the same step as `RotateLeft` |
| `Light.SpinningLight.Roll` | hello_glsl.cpp:81-84 | the new state is `Rolled` of the old one |
| `Light.SpinningLight.Toggle` | hello_glsl.cpp:86-93 | the new state is `Toggled` of the old one, and the invariant holds afterwards |
| `Keys.Rank` | hello_glsl.cpp:299-343 | every key has one of the 20 positions of the polling order |
| `Keys.KeyAtRank` | hello_glsl.cpp:299-343 | no two keys share a position in the polling order |
| `Keys.PriorityListsKeys` | hello_glsl.cpp:299-343 | the polling order Q, =, -, R, Left, Right, Up, Down, W, S, A, D, X, Y, H, G, J, N, 1, 2 lists the 20 keys in rank order, each exactly once |
| `Keys.Dispatch` | hello_glsl.cpp:299-343 | a frame with no key held selects no action |
| `Keys.DispatchFollowsPriority` | hello_glsl.cpp:299-343 | the chain performs exactly the binding of the pressed key that comes first in the polling order |
| `Keys.SingleKey` | hello_glsl.cpp:299-343 | a key held on its own triggers its own binding |
| `Keys.WinnerUnique` | hello_glsl.cpp:299-343 | at most one held key wins a frame, so at most one action runs per frame |
| `Keys.FirstPressed` | hello_glsl.cpp:299-343 | the ordered scan finds nothing exactly when no key of the order is pressed; otherwise it finds the index of a pressed key with no pressed key before it |
| `Keys.FirstPressedWins` | hello_glsl.cpp:299-343 | the scan finds a key exactly when some key is held, and the key it finds has the highest priority of those held |
| `Keys.DispatchIsScan` | hello_glsl.cpp:299-343 | the chain and the ordered scan select the same action for every set of held keys |
| `Keys.SomeKeyWins` | hello_glsl.cpp:299-343 | in any frame with a key held, some held key wins and its binding is the frame's one action |
| `Keys.IdleBindings` | hello_glsl.cpp:301-304 | only `=` and `-` are bound to doing nothing |
| `Keys.IdleExactly` | hello_glsl.cpp:301-304 | a frame does nothing exactly when no key is held or when `=` or `-` wins, so `=` and `-` block every key after them |
| `Keys.DuplicatedBindings` | hello_glsl.cpp:319-336 | W and S both tilt light 0, A and D both pan it; Y and H both tilt light 1, G and J both pan it |
| `Keys.SwappedArrows` | hello_glsl.cpp:311-318 | Left turns the camera right, Right turns it left, Up turns it down, Down turns it up |
| `Keys.RollAndToggleBindings` | hello_glsl.cpp:327-342 | X and N roll lights 0 and 1; 1 and 2 toggle them |
| `App.InitialLightsAreOn` | hello_glsl.cpp:165-172 | `initLights` builds two lights that are on and keep the invariant: red at (0,5,10) and blue at (0,5,-10), both orbiting the given centre with step angle 0.05 |
| `App.Initial` | hello_glsl.cpp:149-172 | the state after the `init*` calls of `begin` keeps the invariant, with centre (0,0,0), eye (0,0,5), up vector (0,1,0) and step 0.05 |
| `App.Reset` | hello_glsl.cpp:305-310 | `R` sets eye (0,0,5), up (0,1,0) and step 0.05, turns both lights back on and keeps the invariant; it keeps the centre, and from the centre (0,0,0) it gives exactly the state `begin` builds |
| `App.CameraPan` | hello_glsl.cpp:174-190 | `rotateCameraLeft`/`rotateCameraRight` write only the eye position |
| `App.CameraTilt` | hello_glsl.cpp:192-210 | `rotateCameraUp`/`rotateCameraDown` write only the eye position and the up vector |
| `App.Perform` | hello_glsl.cpp:299-343 | no action moves the centre or breaks the invariant; only `R` changes the step angle; a light action changes only that light; a camera action changes only the eye and the up vector; `Q`, `=` and `-` change nothing |
| `App.RunKeepsCenter` | hello_glsl.cpp:305-309 | no sequence of frames changes `centerPosition`, `R` frames included |
| `App.RunKeepsInv` | hello_glsl.cpp:299-343 | both lights keep the on/off invariant after any sequence of frames |
| `App.ResetFrame` | hello_glsl.cpp:305-309 | from any state whose centre is the origin, a frame in which `R` wins gives exactly the state `begin` builds, with the frame's random tangents |
| `App.ResetRestoresInitial` | hello_glsl.cpp:305-309 | after any frames since `begin`, a frame in which `R` wins gives back the state `begin` built, apart from the new random tangents, so a light switched off is on again |
| `App.NoOpKeysChangeNothing` | hello_glsl.cpp:301-304 | a frame in which `=` or `-` is held changes no state, whatever else is held |
| `App.ToggleFramesCancel` | hello_glsl.cpp:339-342 | two frames that each toggle the same light restore the whole state |
| `App.RunSnoc` | hello_glsl.cpp:299-343 | running one more frame after a sequence of frames gives the state of running the longer sequence |
| `App.HelloGLSLApp.Begin` | hello_glsl.cpp:213-219 | the set-up part of `begin` yields `Initial`, with two newly allocated, distinct lights that keep the invariant |
| `App.HelloGLSLApp.InitCenterPosition` | hello_glsl.cpp:149-151 | writes (0,0,0) to the centre and nothing else |
| `App.HelloGLSLApp.InitEyePosition` | hello_glsl.cpp:153-155 | writes (0,0,5) to the eye and nothing else |
| `App.HelloGLSLApp.InitUpVector` | hello_glsl.cpp:157-159 | writes (0,1,0) to the up vector and nothing else |
| `App.HelloGLSLApp.InitRotationDelta` | hello_glsl.cpp:161-163 | writes 0.05 to the step angle and nothing else |
| `App.HelloGLSLApp.InitLights` | hello_glsl.cpp:165-172 | overwrites both lights in place with the lights `InitialLights` describes, around the current centre, and changes nothing else |
| `App.HelloGLSLApp.RotateCameraLeft` | hello_glsl.cpp:174-181 | the new state is `CameraPan` by plus the step angle |
| `App.HelloGLSLApp.RotateCameraRight` | hello_glsl.cpp:183-190 | the new state is `CameraPan` by minus the step angle |
| `App.HelloGLSLApp.RotateCameraUp` | hello_glsl.cpp:192-200 | the new state is `CameraTilt` by minus the step angle |
| `App.HelloGLSLApp.RotateCameraDown` | hello_glsl.cpp:202-210 | the new state is `CameraTilt` by plus the step angle |
| `App.HelloGLSLApp.Render` | hello_glsl.cpp:299-343 | returns the action `Dispatch` selects, performs only that action, leaves the state `AfterFrame` describes and keeps both lights' invariant |
| `App.HelloGLSLApp.RenderAll` | hello_glsl.cpp:273-343 | calling `render` once per frame leaves the state `Run` describes for the whole sequence, and keeps both lights' invariant |
| `App.Session` | hello_glsl.cpp:350-353 | `begin` followed by one `render` per frame leaves the state `Run` describes, starting from `Initial` |

## Left out

- Rotation arithmetic: `glm::normalize`, `glm::rotate` and the matrix
  products are not computed; the `Geometry` parameter supplies them. The
  orbit radius is therefore not modelled. That invariant holds only up to
  floating-point rounding in any case.
- Floating point: vector components and angles are reals, and the constant
  0.05 is the exact decimal rather than the nearest `float`.
- `glm::sphericalRand` in the `SpinningLight` constructor: the random unit
  vector is a parameter (`randomVector`; `Frame.random0` and `Frame.random1`
  for the two lights an `R` frame rebuilds).
- The default constructor `SpinningLight()`: its fields are never read,
  because `begin` replaces both lights before the first frame.
- Shader and GL plumbing: `msglVersion`, `msglError`, the shader half of
  `begin`, `activateUniforms_A`, `glClear`, and the return values of
  `begin` and `render`. All of them are calls into the GL library.
- The matrix part of `render`: the projection and look-at matrices, the
  aspect ratio from `windowSize()`, the normal matrix, and the lights'
  eye-space positions. This is floating-point GL math.
- `end` and `windowShouldClose`: `Q` is modelled as the action `Quit`, which
  changes no modelled state. Closing the window belongs to the windowing
  library.
- Drawing and I/O: teapot drawing, the empty `draw`, `debug`, the message
  `R` prints, and the command-line arguments `main` passes on.
- Order within a frame: `render` draws with the state from before it handles
  the keys. The model has no drawing, so it keeps only the key handling.
- `direction()` is modelled only by its definition, the function
  `Direction`. `glm::normalize` is opaque, so there is nothing further to
  state about its result.
- The window loop that calls `begin` and then `render` once per frame
  belongs to the `GLFWApp` base class, which is not part of this model.
  `Session` and `RenderAll` stand for it, over a given finite sequence of
  frames.
- Session: a `Q` frame does not end the sequence (nor in `RenderAll`). Ending it is
  `windowShouldClose`'s work in the windowing library, so the frames after a
  `Q` are still rendered.
- `isKeyPressed`: it is modelled as the set of keys held in the frame, one
  snapshot per frame. A key that changes state while the chain is polling it
  is not modelled.
- `HelloGLSLApp`'s own constructor creates the window. It is left out as
  windowing-library work, and the named constructor `Begin` models `begin`
  instead.
