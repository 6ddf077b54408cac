/** The keyboard controls of the demo: which keys `render` polls, in which
    order, and which single action one frame performs for a set of pressed
    keys. */
module Keys {

  /** The keys `render` asks about, named after their labels. */
  datatype Key =
    | Q | Equal | Minus | R
    | Left | Right | Up | Down
    | W | S | A | D | X
    | Y | H | G | J | N
    | One | Two

  datatype LightId = Light0 | Light1

  datatype Option<T> = None | Some(value: T)

  /** The member `render` calls for a key. `Quit` is the call to `end`, whose
      effect belongs to the windowing library; `Idle` is a frame that calls
      nothing, either because `=` or `-` won the chain or because no polled
      key is pressed. */
  datatype Action =
    | Quit
    | Idle
    | Reset
    | CameraLeft | CameraRight | CameraUp | CameraDown
    | LightUp(light: LightId)
    | LightLeft(light: LightId)
    | LightRoll(light: LightId)
    | LightToggle(light: LightId)

  /** The order in which `render` polls the keys: earlier keys win. */
  const Priority: seq<Key> :=
    [Q, Equal, Minus, R, Left, Right, Up, Down, W, S, A, D, X, Y, H, G, J, N, One, Two]

  /** The number of keys `render` polls. */
  const KeyCount: nat := 20

  /** The key at a position of the polling order: `Priority[i]`, written as a
      match so that proofs about one position split into cases instead of
      indexing the literal sequence (`PriorityListsKeys` proves the two
      agree). */
  function KeyAt(i: nat): Key
    requires i < KeyCount
  {
    match i
    case 0 => Q case 1 => Equal case 2 => Minus case 3 => R
    case 4 => Left case 5 => Right case 6 => Up case 7 => Down
    case 8 => W case 9 => S case 10 => A case 11 => D case 12 => X
    case 13 => Y case 14 => H case 15 => G case 16 => J case 17 => N
    case 18 => One case _ => Two
  }

  /** The position of a key in the polling order. */
  function Rank(k: Key): (i: nat)
    ensures i < KeyCount
  {
    match k
    case Q => 0 case Equal => 1 case Minus => 2 case R => 3
    case Left => 4 case Right => 5 case Up => 6 case Down => 7
    case W => 8 case S => 9 case A => 10 case D => 11 case X => 12
    case Y => 13 case H => 14 case G => 15 case J => 16 case N => 17
    case One => 18 case Two => 19
  }

  /** The action a key triggers when it is the one that wins the chain. */
  function Binding(k: Key): Action
  {
    match k
    case Q => Quit
    case Equal => Idle
    case Minus => Idle
    case R => Reset
    case Left => CameraRight
    case Right => CameraLeft
    case Up => CameraDown
    case Down => CameraUp
    case W => LightUp(Light0)
    case S => LightUp(Light0)
    case A => LightLeft(Light0)
    case D => LightLeft(Light0)
    case X => LightRoll(Light0)
    case Y => LightUp(Light1)
    case H => LightUp(Light1)
    case G => LightLeft(Light1)
    case J => LightLeft(Light1)
    case N => LightRoll(Light1)
    case One => LightToggle(Light0)
    case Two => LightToggle(Light1)
  }

  /** The `if`/`else if` chain of `render`: the first pressed key it tests
      decides the one action of the frame. */
  function Dispatch(pressed: set<Key>): (a: Action)
    ensures pressed == {} ==> a == Idle
  {
    if Q in pressed then Quit
    else if Equal in pressed then Idle
    else if Minus in pressed then Idle
    else if R in pressed then Reset
    else if Left in pressed then CameraRight
    else if Right in pressed then CameraLeft
    else if Up in pressed then CameraDown
    else if Down in pressed then CameraUp
    else if W in pressed then LightUp(Light0)
    else if S in pressed then LightUp(Light0)
    else if A in pressed then LightLeft(Light0)
    else if D in pressed then LightLeft(Light0)
    else if X in pressed then LightRoll(Light0)
    else if Y in pressed then LightUp(Light1)
    else if H in pressed then LightUp(Light1)
    else if G in pressed then LightLeft(Light1)
    else if J in pressed then LightLeft(Light1)
    else if N in pressed then LightRoll(Light1)
    else if One in pressed then LightToggle(Light0)
    else if Two in pressed then LightToggle(Light1)
    else Idle
  }

  /** `k` is pressed and no pressed key comes before it in the polling order. */
  predicate Wins(pressed: set<Key>, k: Key)
  {
    k in pressed && forall k' :: k' in pressed ==> Rank(k) <= Rank(k')
  }

  /** The chain performs exactly the binding of the pressed key that comes
      first in the polling order. */
  lemma DispatchFollowsPriority(pressed: set<Key>, k: Key)
    requires Wins(pressed, k)
    ensures Dispatch(pressed) == Binding(k)
  {
    if Rank(k) < 8 {
      GlobalKeyWins(pressed, k);
    } else {
      NotBefore(pressed, k, Q);
      NotBefore(pressed, k, Equal);
      NotBefore(pressed, k, Minus);
      NotBefore(pressed, k, R);
      NotBefore(pressed, k, Left);
      NotBefore(pressed, k, Right);
      NotBefore(pressed, k, Up);
      NotBefore(pressed, k, Down);
      if Rank(k) < 13 {
        Light0KeyWins(pressed, k);
      } else {
        NotBefore(pressed, k, W);
        NotBefore(pressed, k, S);
        NotBefore(pressed, k, A);
        NotBefore(pressed, k, D);
        NotBefore(pressed, k, X);
        Light1KeyWins(pressed, k);
      }
    }
  }

  /** A key the winner comes before is not held. */
  lemma NotBefore(pressed: set<Key>, k: Key, k': Key)
    requires Wins(pressed, k)
    requires Rank(k') < Rank(k)
    ensures k' !in pressed
  {
  }

  /** The first part of the chain: quitting, the no-op keys, the reset and
      the camera. */
  lemma GlobalKeyWins(pressed: set<Key>, k: Key)
    requires Wins(pressed, k) && Rank(k) < 8
    ensures Dispatch(pressed) == Binding(k)
  {
    match k
    case Q => case Equal => case Minus => case R =>
    case Left => case Right => case Up => case Down =>
  }

  /** The keys of light 0, reached only when no key of the first part is
      held. */
  lemma Light0KeyWins(pressed: set<Key>, k: Key)
    requires Wins(pressed, k) && 8 <= Rank(k) < 13
    requires Q !in pressed && Equal !in pressed && Minus !in pressed && R !in pressed
    requires Left !in pressed && Right !in pressed && Up !in pressed && Down !in pressed
    ensures Dispatch(pressed) == Binding(k)
  {
    match k
    case W => case S => case A => case D => case X =>
  }

  /** The keys of light 1 and the toggles, reached only when no earlier key
      is held. */
  lemma Light1KeyWins(pressed: set<Key>, k: Key)
    requires Wins(pressed, k) && Rank(k) >= 13
    requires Q !in pressed && Equal !in pressed && Minus !in pressed && R !in pressed
    requires Left !in pressed && Right !in pressed && Up !in pressed && Down !in pressed
    requires W !in pressed && S !in pressed && A !in pressed && D !in pressed && X !in pressed
    ensures Dispatch(pressed) == Binding(k)
  {
    match k
    case Y => case H => case G => case J => case N =>
    case One => case Two =>
  }

  /** A key held on its own triggers its binding. */
  lemma SingleKey(k: Key)
    ensures Dispatch({k}) == Binding(k)
  {
    DispatchFollowsPriority({k}, k);
  }

  /** An independent reading of the chain: scan `keys` in order and stop at
      the first pressed one, giving its index. */
  function FirstPressed(pressed: set<Key>, keys: seq<Key>): (r: Option<nat>)
    ensures r.None? <==> forall i :: 0 <= i < |keys| ==> keys[i] !in pressed
    ensures r.Some? ==> r.value < |keys| && keys[r.value] in pressed &&
                        forall j :: 0 <= j < r.value ==> keys[j] !in pressed
  {
    if keys == [] then None
    else if keys[0] in pressed then Some(0)
    else match FirstPressed(pressed, keys[1..])
      case None => None
      case Some(i) => Some(i + 1)
  }

  /** The action the scan of the polling order selects. */
  function Scan(pressed: set<Key>): Action
  {
    match FirstPressed(pressed, Priority)
    case None => Idle
    case Some(i) => Binding(Priority[i])
  }

  /** The key the scan finds is the winner of the frame. */
  lemma FirstPressedWins(pressed: set<Key>)
    ensures FirstPressed(pressed, Priority).Some? <==> pressed != {}
    ensures FirstPressed(pressed, Priority).Some? ==> Wins(pressed, Priority[FirstPressed(pressed, Priority).value])
  {
    var r := FirstPressed(pressed, Priority);
    if pressed != {} {
      var k :| k in pressed;
      PriorityListsKeys(Rank(k));
      KeyAtRank(k);
    }
    if r.Some? {
      var i := r.value;
      PriorityListsKeys(i);
      forall k' | k' in pressed ensures i <= Rank(k') {
        PriorityListsKeys(Rank(k'));
        KeyAtRank(k');
      }
    }
  }

  /** The polling order lists the keys by rank: every key once, at its
      rank. */
  lemma PriorityListsKeys(i: nat)
    requires i < KeyCount
    ensures |Priority| == KeyCount && Priority[i] == KeyAt(i) && Rank(KeyAt(i)) == i
  {
    assert i in {0, 1, 2, 3, 4, 5, 6, 7, 8, 9, 10, 11, 12, 13, 14, 15, 16, 17, 18, 19};
  }

  /** The chain of `render` and the ordered scan select the same action for
      every set of pressed keys. */
  lemma DispatchIsScan(pressed: set<Key>)
    ensures Dispatch(pressed) == Scan(pressed)
  {
    FirstPressedWins(pressed);
    var r := FirstPressed(pressed, Priority);
    if r.Some? {
      DispatchFollowsPriority(pressed, Priority[r.value]);
    }
  }

  /** Some key wins whenever any key is pressed, so every frame with a
      pressed key performs that key's binding and nothing else. */
  lemma SomeKeyWins(pressed: set<Key>)
    requires pressed != {}
    ensures exists k :: Wins(pressed, k) && Dispatch(pressed) == Binding(k)
  {
    FirstPressedWins(pressed);
    var k := Priority[FirstPressed(pressed, Priority).value];
    DispatchFollowsPriority(pressed, k);
  }

  /** At most one key wins a frame. */
  lemma WinnerUnique(pressed: set<Key>, k: Key, k': Key)
    requires Wins(pressed, k) && Wins(pressed, k')
    ensures k == k'
  {
    KeyAtRank(k);
    KeyAtRank(k');
  }

  /** Rank and position are inverse: no two keys share a rank. */
  lemma KeyAtRank(k: Key)
    ensures KeyAt(Rank(k)) == k
  {
    match k
    case Q => case Equal => case Minus => case R =>
    case Left => case Right => case Up => case Down =>
    case W => case S => case A => case D => case X =>
    case Y => case H => case G => case J => case N =>
    case One => case Two =>
  }

  /** A frame is idle exactly when no key is held or when the winning key
      is `=` or `-`. */
  lemma IdleExactly(pressed: set<Key>)
    ensures Dispatch(pressed) == Idle <==> pressed == {} || Wins(pressed, Equal) || Wins(pressed, Minus)
  {
    if pressed != {} {
      FirstPressedWins(pressed);
      var k := Priority[FirstPressed(pressed, Priority).value];
      DispatchFollowsPriority(pressed, k);
      IdleBindings(k);
      if Wins(pressed, Equal) {
        WinnerUnique(pressed, k, Equal);
      }
      if Wins(pressed, Minus) {
        WinnerUnique(pressed, k, Minus);
      }
    }
  }

  /** Only `=` and `-` are bound to doing nothing. */
  lemma IdleBindings(k: Key)
    ensures Binding(k) == Idle <==> k == Equal || k == Minus
  {
    match k
    case Q => case Equal => case Minus => case R =>
    case Left => case Right => case Up => case Down =>
    case W => case S => case A => case D => case X =>
    case Y => case H => case G => case J => case N =>
    case One => case Two =>
  }

  /** The duplicated bindings of the chain: two keys for each light
      rotation it offers. */
  lemma DuplicatedBindings()
    ensures Binding(W) == Binding(S) == LightUp(Light0)
    ensures Binding(A) == Binding(D) == LightLeft(Light0)
    ensures Binding(Y) == Binding(H) == LightUp(Light1)
    ensures Binding(G) == Binding(J) == LightLeft(Light1)
  {
  }

  /** The arrows turn the camera the other way from their labels. */
  lemma SwappedArrows()
    ensures Binding(Left) == CameraRight && Binding(Right) == CameraLeft
    ensures Binding(Up) == CameraDown && Binding(Down) == CameraUp
  {
  }

  /** X and N roll lights 0 and 1; 1 and 2 toggle them. */
  lemma RollAndToggleBindings()
    ensures Binding(X) == LightRoll(Light0) && Binding(N) == LightRoll(Light1)
    ensures Binding(One) == LightToggle(Light0) && Binding(Two) == LightToggle(Light1)
  {
  }
}
