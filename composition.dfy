/** Composition of a list of rotations: the `rotation *= q` loops of the
    render loop, which fold the product over the list from the left,
    starting from the identity. */
module Composition {
  import opened Quaternions

  /** The left fold of `mul` over `qs`, starting from the identity:
      mul(...mul(mul(Identity(), qs[0]), qs[1])..., qs[|qs| - 1]). */
  function Compose(mul: (Quaternion, Quaternion) -> Quaternion, qs: seq<Quaternion>): (r: Quaternion)
    decreases |qs|
  {
    if qs == [] then Identity() else mul(Compose(mul, qs[..|qs| - 1]), qs[|qs| - 1])
  }

  /** Appending one rotation to the list composes it on the right of the
      rotation the list already denotes. */
  lemma ComposeSnoc(mul: (Quaternion, Quaternion) -> Quaternion, qs: seq<Quaternion>, q: Quaternion)
    ensures Compose(mul, qs + [q]) == mul(Compose(mul, qs), q)
  {
    assert (qs + [q])[..|qs|] == qs;
  }

  /** The fold over the first i + 1 entries is the fold over the first i
      entries followed by entry i. */
  lemma ComposePrefixStep(mul: (Quaternion, Quaternion) -> Quaternion, qs: seq<Quaternion>, i: nat)
    requires i < |qs|
    ensures Compose(mul, qs[..i + 1]) == mul(Compose(mul, qs[..i]), qs[i])
  {
    assert qs[..i + 1] == qs[..i] + [qs[i]];
    ComposeSnoc(mul, qs[..i], qs[i]);
  }

  /** The loop `for q in list.iter().take(n) { rotation *= *q; }` started
      from `rotation = identity`; with n = |qs| it is the loop
      `for q in &list { rotation *= *q; }`. Like `take`, a bound beyond the
      end of the list stops at the end. */
  method ComposePrefix(mul: (Quaternion, Quaternion) -> Quaternion, qs: seq<Quaternion>, n: nat)
    returns (rotation: Quaternion)
    ensures rotation == Compose(mul, if n < |qs| then qs[..n] else qs)
  {
    rotation := Identity();
    var i := 0;
    while i < n && i < |qs|
      invariant i <= |qs| && i <= n
      invariant rotation == Compose(mul, qs[..i])
    {
      ComposePrefixStep(mul, qs, i);
      rotation := mul(rotation, qs[i]);
      i := i + 1;
    }
    assert qs[..|qs|] == qs;
  }
}
