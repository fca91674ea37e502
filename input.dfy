/** Input events as both controllers see them, and the four movement-intent
    flags that key and mouse-button events set and clear. */
module Input {
  import opened Js

  /** The key name the controllers switch on; every key other than the four
      arrows is `Other`. */
  datatype Key = Up | Down | Left | Right | Other

  /** One input event, or one call of `update(delta)` by the render loop. */
  datatype Event =
    | MouseDown(button: int)
    | MouseUp(button: int)
    | MouseMove(pageX: real, pageY: real)
    | KeyDown(key: Key)
    | KeyUp(key: Key)
    | Tick(delta: real)

  /** The movement intents; a flag may still be `undefined` if the source
      never initialised it. */
  datatype Intents = Intents(forward: Value<bool>, backward: Value<bool>, left: Value<bool>, right: Value<bool>)

  /** The flag an arrow key drives. */
  function Flag(i: Intents, k: Key): Value<bool>
    requires k != Other
  {
    match k
    case Up => i.forward
    case Down => i.backward
    case Left => i.left
    case Right => i.right
  }

  /** Key-down (`b` true) or key-up (`b` false): the arrow's own flag becomes `b`,
      every other flag keeps its value, and any other key changes nothing. */
  function Assign(i: Intents, k: Key, b: bool): (r: Intents)
    ensures k == Other ==> r == i
    ensures k != Other ==> Flag(r, k) == Defined(b)
    ensures forall k' :: k' != Other && k' != k ==> Flag(r, k') == Flag(i, k')
  {
    match k
    case Up => i.(forward := Defined(b))
    case Down => i.(backward := Defined(b))
    case Left => i.(left := Defined(b))
    case Right => i.(right := Defined(b))
    case Other => i
  }

  /** Mouse-down (`b` true) or mouse-up (`b` false): button 0 drives the forward
      flag and button 2 the backward flag, exactly as the Up and Down arrows do;
      any other button changes nothing. */
  function Button(i: Intents, button: int, b: bool): (r: Intents)
    ensures r == Assign(i, if button == 0 then Up else if button == 2 then Down else Other, b)
    ensures button != 0 && button != 2 ==> r == i
    ensures r.left == i.left && r.right == i.right
  {
    if button == 0 then i.(forward := Defined(b))
    else if button == 2 then i.(backward := Defined(b))
    else i
  }

  /** Releasing a key after pressing it leaves the same flags as releasing it alone. */
  lemma ReleaseAfterPress(i: Intents, k: Key)
    ensures Assign(Assign(i, k, true), k, false) == Assign(i, k, false)
  {
  }

  /** Flags of different keys are independent: the order of their events does not matter. */
  lemma DistinctKeysCommute(i: Intents, k1: Key, b1: bool, k2: Key, b2: bool)
    requires k1 != k2
    ensures Assign(Assign(i, k1, b1), k2, b2) == Assign(Assign(i, k2, b2), k1, b1)
  {
  }

  /** Only a key-down of Left can make the left flag truthy, and only a
      key-down of Right the right flag. */
  lemma SideFlagsOnlyFromSideKeys(i: Intents, k: Key, b: bool)
    ensures Truthy(Assign(i, k, b).left) ==> Truthy(i.left) || (k == Left && b)
    ensures Truthy(Assign(i, k, b).right) ==> Truthy(i.right) || (k == Right && b)
  {
  }
}
