/** The camera as the controllers use it: a sink that receives `translateZ`
    and `translateX` calls. What a translation does to the camera's position
    belongs to the rendering library and is not modelled; only the calls are. */
module Scene {

  datatype Axis = X | Z

  /** One `translateZ(amount)` (axis Z) or `translateX(amount)` (axis X) call. */
  datatype Translation = Translation(axis: Axis, amount: real)

  /** The camera handle, recording every translation call it receives, in order. */
  class Camera {
    var log: seq<Translation>

    constructor ()
      ensures log == []
    {
      log := [];
    }

    method TranslateZ(distance: real)
      modifies this
      ensures log == old(log) + [Translation(Z, distance)]
    {
      log := log + [Translation(Z, distance)];
    }

    method TranslateX(distance: real)
      modifies this
      ensures log == old(log) + [Translation(X, distance)]
    {
      log := log + [Translation(X, distance)];
    }
  }

  function When(c: bool, t: Translation): seq<Translation>
  {
    if c then [t] else []
  }

  /** 1 for a set flag, 0 otherwise. */
  function Count(b: bool): nat
  {
    if b then 1 else 0
  }

  /** The calls one `update` issues for the given truthy flags:
      forward, backward, left, right, in that order, each by `moveDelta`. */
  function Moves(forward: bool, backward: bool, left: bool, right: bool, moveDelta: real): (r: seq<Translation>)
    ensures |r| == Count(forward) + Count(backward) + Count(left) + Count(right)
    ensures forward ==> r[0] == Translation(Z, -moveDelta)
    ensures backward ==> r[Count(forward)] == Translation(Z, moveDelta)
    ensures left ==> r[Count(forward) + Count(backward)] == Translation(X, -moveDelta)
    ensures right ==> r[|r| - 1] == Translation(X, moveDelta)
    ensures !left && !right ==> forall t :: t in r ==> t.axis == Z
    ensures !forward && !backward ==> forall t :: t in r ==> t.axis == X
  {
    When(forward, Translation(Z, -moveDelta)) + When(backward, Translation(Z, moveDelta))
    + When(left, Translation(X, -moveDelta)) + When(right, Translation(X, moveDelta))
  }

  /** Bookkeeping for a method that issues the calls of `Moves` one by one:
      after one more optional call, the log still ends in what was issued. */
  lemma Issue(log0: seq<Translation>, issued: seq<Translation>, before: seq<Translation>, after: seq<Translation>, c: bool, t: Translation)
    requires before == log0 + issued
    requires after == if c then before + [t] else before
    ensures after == log0 + (issued + When(c, t))
  {
  }

  /** The sum of the amounts of all calls along `axis`. */
  function Net(log: seq<Translation>, axis: Axis): real
  {
    if log == [] then 0.0
    else (if log[0].axis == axis then log[0].amount else 0.0) + Net(log[1..], axis)
  }

  lemma {:induction false} NetAppend(a: seq<Translation>, b: seq<Translation>, axis: Axis)
    ensures Net(a + b, axis) == Net(a, axis) + Net(b, axis)
  {
    if a == [] {
      assert a + b == b;
    } else {
      assert (a + b)[1..] == a[1..] + b;
      NetAppend(a[1..], b, axis);
    }
  }

  /** The calls of one `update` add up per axis to the sum of the individual
      flags' displacements, with no normalisation: forward and backward
      together cancel on Z, left and right together cancel on X. */
  lemma MovesNet(forward: bool, backward: bool, left: bool, right: bool, d: real)
    ensures Net(Moves(forward, backward, left, right, d), Z)
         == (if backward then d else 0.0) - (if forward then d else 0.0)
    ensures Net(Moves(forward, backward, left, right, d), X)
         == (if right then d else 0.0) - (if left then d else 0.0)
    ensures forward && backward ==> Net(Moves(forward, backward, left, right, d), Z) == 0.0
  {
    var f, b := When(forward, Translation(Z, -d)), When(backward, Translation(Z, d));
    var l, r := When(left, Translation(X, -d)), When(right, Translation(X, d));
    NetAppend(f, b, Z);
    NetAppend(f + b, l, Z);
    NetAppend(f + b + l, r, Z);
    NetAppend(f, b, X);
    NetAppend(f + b, l, X);
    NetAppend(f + b + l, r, X);
  }
}
