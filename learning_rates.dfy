/** The adaptive learning-rate policy of `_train` (ourgan.py:278-287): after
    every step both optimizers' learning rates are overwritten according to
    the ratio of the adversarial loss to the discriminator loss. */
module LearningRates {

  /** 2e-4: the rate both optimizers are built with and the "normal" rate. */
  const Low: real := 0.0002
  /** 3e-4: the raised rate given to whichever side is lagging. */
  const High: real := 0.0003

  /** The learning rates of the GAN optimizer (which updates the generator)
      and of the discriminator optimizer. */
  datatype Rates = Rates(gan: real, d: real)

  /** `Adam(2e-4, 0.8)` for both optimizers. */
  const Initial: Rates := Rates(Low, Low)

  /** Every rate pair the policy can produce: each rate is 2e-4 or 3e-4, and
      never are both raised. */
  predicate Valid(r: Rates) {
    (r.gan == Low || r.gan == High) && (r.d == Low || r.d == High) && !(r.gan == High && r.d == High)
  }

  /** Lines 279-287 as written: the rates chosen from `rate`, the ratio of the
      GAN loss to the discriminator loss. */
  function RatioRule(rate: real): (r: Rates)
    ensures Valid(r)
  {
    if rate > 2.0 then Rates(High, Low)
    else if rate < 0.5 then Rates(Low, High)
    else Rates(Low, Low)
  }

  /** The rates chosen from `gan_loss` and `d_loss`, without the division:
      both losses are brought to a positive discriminator loss, then the GAN
      rate is raised when the GAN loss exceeds twice the discriminator loss
      and the discriminator rate when twice the GAN loss falls short of it.
      Stated on the losses as given, each comparison flips for a negative
      `d_loss`; `PolicyIsRatioRule` shows this is the source's rule on the
      ratio. */
  function Policy(ganLoss: real, dLoss: real): (r: Rates)
    requires dLoss != 0.0
    ensures Valid(r)
    ensures r.gan == High <==> (if dLoss > 0.0 then ganLoss > 2.0 * dLoss else ganLoss < 2.0 * dLoss)
    ensures r.d == High <==> (if dLoss > 0.0 then 2.0 * ganLoss < dLoss else 2.0 * ganLoss > dLoss)
    ensures r.gan == Low && r.d == Low <==> (if dLoss > 0.0 then dLoss <= 2.0 * ganLoss && ganLoss <= 2.0 * dLoss
                                                             else dLoss >= 2.0 * ganLoss && ganLoss >= 2.0 * dLoss)
  {
    var (g, d) := if dLoss > 0.0 then (ganLoss, dLoss) else (-ganLoss, -dLoss);
    if g > 2.0 * d then Rates(High, Low)
    else if 2.0 * g < d then Rates(Low, High)
    else Rates(Low, Low)
  }

  /** The division-free rule is the source's rule on the ratio
      `gan_loss / d_loss`, for every non-zero `d_loss` of either sign. */
  lemma PolicyIsRatioRule(ganLoss: real, dLoss: real)
    requires dLoss != 0.0
    ensures Policy(ganLoss, dLoss) == RatioRule(ganLoss / dLoss)
  {
    RatioCompare(ganLoss, dLoss, 2.0);
    RatioCompare(ganLoss, dLoss, 0.5);
  }

  /** Comparing the ratio `g / d` with a threshold `t` is comparing `g` with
      `t * d`, the direction flipping with the sign of `d`. */
  lemma RatioCompare(g: real, d: real, t: real)
    requires d != 0.0
    ensures g / d > t <==> (if d > 0.0 then g > t * d else g < t * d)
    ensures g / d < t <==> (if d > 0.0 then g < t * d else g > t * d)
  {
    var q := g / d;
    assert q * d == g;
    if d > 0.0 {
      assert q > t ==> q * d > t * d;
      assert q < t ==> q * d < t * d;
      assert q <= t ==> q * d <= t * d;
      assert q >= t ==> q * d >= t * d;
    } else {
      assert q > t ==> q * d < t * d;
      assert q < t ==> q * d > t * d;
      assert q <= t ==> q * d >= t * d;
      assert q >= t ==> q * d <= t * d;
    }
  }

  /** Only the ratio matters: scaling both losses by the same positive factor
      chooses the same rates. */
  lemma {:induction false} PolicyDependsOnRatioOnly(ganLoss: real, dLoss: real, k: real)
    requires dLoss != 0.0 && k > 0.0
    ensures Policy(k * ganLoss, k * dLoss) == Policy(ganLoss, dLoss)
  {
    ScaleSign(k, dLoss);
    ScaleSign(k, ganLoss - 2.0 * dLoss);
    ScaleSign(k, 2.0 * ganLoss - dLoss);
  }

  /** Multiplying by a positive factor keeps the sign. */
  lemma ScaleSign(k: real, x: real)
    requires k > 0.0
    ensures (k * x > 0.0 <==> x > 0.0) && (k * x < 0.0 <==> x < 0.0)
  {
    if x > 0.0 {
      assert k * x > 0.0;
    } else if x < 0.0 {
      assert k * x < 0.0;
    }
  }

  /** With a positive discriminator loss, a larger GAN loss never lowers the
      GAN rate and never raises the discriminator rate. */
  lemma {:induction false} PolicyMonotone(ganLoss1: real, ganLoss2: real, dLoss: real)
    requires dLoss > 0.0 && ganLoss1 <= ganLoss2
    ensures Policy(ganLoss1, dLoss).gan <= Policy(ganLoss2, dLoss).gan
    ensures Policy(ganLoss1, dLoss).d >= Policy(ganLoss2, dLoss).d
  {
  }

  /** The three worked cases: a lagging generator, a lagging discriminator and
      a balanced pair; ratios of exactly 2 and 0.5 count as balanced. */
  lemma PolicyExamples()
    ensures Policy(10.0, 1.0) == Rates(High, Low)
    ensures Policy(1.0, 10.0) == Rates(Low, High)
    ensures Policy(1.0, 1.0) == Rates(Low, Low)
    ensures Policy(2.0, 1.0) == Rates(Low, Low)
    ensures Policy(1.0, 2.0) == Rates(Low, Low)
  {
  }
}
