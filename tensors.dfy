/** Flattened numeric tensors: images, condition vectors, noise and targets.
    The shape of a batch is not modelled; a tensor is the sequence of its
    entries in row-major order. */
module Tensors {

  type Tensor = seq<real>

  /** `np.zeros(n)` / `np.ones(n)`: a target of `n` entries, all equal to `v`. */
  function Filled(n: nat, v: real): (t: Tensor)
    ensures |t| == n
    ensures forall i :: 0 <= i < n ==> t[i] == v
  {
    if n == 0 then [] else Filled(n - 1, v) + [v]
  }

  /** `1 - cond`: the reversed condition that pairs a true image with a
      deliberately wrong condition. */
  function Complement(c: Tensor): (r: Tensor)
    ensures |r| == |c|
    ensures forall i :: 0 <= i < |c| ==> r[i] + c[i] == 1.0
  {
    if c == [] then [] else [1.0 - c[0]] + Complement(c[1..])
  }

  /** Reversing a condition twice gives the condition back. */
  lemma ComplementInvolutive(c: Tensor)
    ensures Complement(Complement(c)) == c
  {
    var r := Complement(Complement(c));
    assert |r| == |c|;
    forall i | 0 <= i < |c| ensures r[i] == c[i] {
      assert Complement(c)[i] + c[i] == 1.0;
    }
  }

  /** The reversed condition equals the true one exactly when every entry is
      the midpoint 0.5: only then does the mismatch substep see no mismatch. */
  lemma ComplementFixedPoint(c: Tensor)
    ensures Complement(c) == c <==> forall i :: 0 <= i < |c| ==> c[i] == 0.5
  {
    if Complement(c) == c {
      forall i | 0 <= i < |c| ensures c[i] == 0.5 {
        assert Complement(c)[i] + c[i] == 1.0;
      }
    }
    if forall i :: 0 <= i < |c| ==> c[i] == 0.5 {
      var r := Complement(c);
      forall i | 0 <= i < |c| ensures r[i] == c[i] {
        assert r[i] + c[i] == 1.0;
      }
    }
  }
}
