/** The cadence of `OurGAN.fit` (ourgan.py:316-340): which events happen at
    epoch `e` and batch `b`, written as the sequence of events a run emits. */
module Cadence {

  /** What happens at a point of the run: a training step, a log line appended
      to train.log, the three sample images saved, the untagged "G"/"D"
      weights saved, the epoch-tagged "G-e"/"D-e" weights saved. */
  datatype Event =
    | Trained(e: int, b: int)
    | Logged(e: int, b: int)
    | ImagesSaved(e: int, b: int)
    | LatestSaved(e: int, b: int)
    | EpochSaved(e: int)

  /** The three frequencies `fit` is called with. */
  datatype Config = Config(imgFreq: int, modelFreqBatch: int, modelFreqEpoch: int) {
    /** Every modulus `fit` takes is non-zero: `img_freq // 2`, `img_freq`,
        `model_freq_batch` and `model_freq_epoch`. */
    predicate Valid() {
      imgFreq >= 2 && modelFreqBatch >= 1 && modelFreqEpoch >= 1
    }
    /** `img_freq // 2`; Python's floor division, equal to Dafny's for the
        positive frequencies `Valid` admits. */
    function LogFreq(): int requires Valid() { imgFreq / 2 }
  }

  /** What follows the training step at batch `b` of epoch `e`, in the order
      the source emits it. */
  function Outputs(c: Config, e: int, b: int): seq<Event>
    requires c.Valid()
  {
    (if b % c.LogFreq() == 0 then [Logged(e, b)] else [])
    + (if b % c.imgFreq == 0 then [ImagesSaved(e, b)] else [])
    + (if b % c.modelFreqBatch == 0 then [LatestSaved(e, b)] else [])
  }

  /** The events of batch `b` of epoch `e`. */
  function BatchEvents(c: Config, e: int, b: int): seq<Event>
    requires c.Valid()
  {
    [Trained(e, b)] + Outputs(c, e, b)
  }

  /** The three `if` statements after the training call, as they run. */
  method EmitOutputs(imgFreq: int, modelFreqBatch: int, modelFreqEpoch: int, e: int, b: int)
    returns (events: seq<Event>)
    requires Config(imgFreq, modelFreqBatch, modelFreqEpoch).Valid()
    ensures events == Outputs(Config(imgFreq, modelFreqBatch, modelFreqEpoch), e, b)
  {
    events := [];
    if b % (imgFreq / 2) == 0 {
      events := events + [Logged(e, b)];
    }
    if b % imgFreq == 0 {
      events := events + [ImagesSaved(e, b)];
    }
    if b % modelFreqBatch == 0 {
      events := events + [LatestSaved(e, b)];
    }
  }

  /** The events of batches 1..n of epoch `e`. */
  function Batches(c: Config, e: int, n: nat): seq<Event>
    requires c.Valid()
  {
    if n == 0 then [] else Batches(c, e, n - 1) + BatchEvents(c, e, n)
  }

  /** All events of epoch `e`: its batches, then the tagged save. */
  function EpochEvents(c: Config, e: int, batches: nat): seq<Event>
    requires c.Valid()
  {
    Batches(c, e, batches) + (if e % c.modelFreqEpoch == 0 then [EpochSaved(e)] else [])
  }

  /** The events of epochs 1..n. */
  function Epochs(c: Config, n: nat, batches: nat): seq<Event>
    requires c.Valid()
  {
    if n == 0 then [] else Epochs(c, n - 1, batches) + EpochEvents(c, n, batches)
  }

  /** The whole run of `fit` for `epochs` epochs of `batches` batches. */
  function Schedule(c: Config, epochs: nat, batches: nat): seq<Event>
    requires c.Valid()
  {
    Epochs(c, epochs, batches)
  }

  /** An independent statement of when each event fires, point by point:
      its epoch is one of 1..epochs and, within that epoch, its own condition
      holds. */
  predicate Fires(c: Config, epochs: nat, batches: nat, ev: Event)
    requires c.Valid()
  {
    1 <= ev.e <= epochs && FiresInEpoch(c, batches, ev)
  }

  predicate FiresInEpoch(c: Config, batches: nat, ev: Event)
    requires c.Valid()
  {
    match ev
    case Trained(_, b) => 1 <= b <= batches
    case Logged(_, b) => 1 <= b <= batches && b % c.LogFreq() == 0
    case ImagesSaved(_, b) => 1 <= b <= batches && b % c.imgFreq == 0
    case LatestSaved(_, b) => 1 <= b <= batches && b % c.modelFreqBatch == 0
    case EpochSaved(e) => e % c.modelFreqEpoch == 0
  }

  /** Membership in the events of batches 1..n of epoch `e`. */
  lemma {:induction false} BatchesMembership(c: Config, e: int, n: nat, ev: Event)
    requires c.Valid()
    ensures ev in Batches(c, e, n) <==> !ev.EpochSaved? && ev.e == e && FiresInEpoch(c, n, ev)
  {
    if n > 0 {
      BatchesMembership(c, e, n - 1, ev);
      assert Batches(c, e, n) == Batches(c, e, n - 1) + [Trained(e, n)] + Outputs(c, e, n);
    }
  }

  /** Membership in the events of epoch `e`. */
  lemma EpochEventsMembership(c: Config, e: int, batches: nat, ev: Event)
    requires c.Valid()
    ensures ev in EpochEvents(c, e, batches) <==> ev.e == e && FiresInEpoch(c, batches, ev)
  {
    BatchesMembership(c, e, batches, ev);
  }

  /** Membership in the events of epochs 1..n. */
  lemma {:induction false} EpochsMembership(c: Config, n: nat, batches: nat, ev: Event)
    requires c.Valid()
    ensures ev in Epochs(c, n, batches) <==> Fires(c, n, batches, ev)
  {
    if n > 0 {
      var earlier, last := Epochs(c, n - 1, batches), EpochEvents(c, n, batches);
      assert Epochs(c, n, batches) == earlier + last;
      assert ev in earlier + last <==> ev in earlier || ev in last;
      EpochsMembership(c, n - 1, batches, ev);
      EpochEventsMembership(c, n, batches, ev);
      FiresSplit(c, n, batches, ev);
    }
  }

  /** The events that fire within epochs 1..n are those within 1..n-1 and
      those of epoch n. */
  lemma FiresSplit(c: Config, n: nat, batches: nat, ev: Event)
    requires c.Valid() && n > 0
    ensures Fires(c, n, batches, ev) <==> Fires(c, n - 1, batches, ev) || (ev.e == n && FiresInEpoch(c, batches, ev))
  {
  }

  /** Each event is in the run exactly when its own condition holds: a
      training step for every e in 1..epochs and b in 1..batches, a log line
      iff `b % (img_freq // 2) == 0`, images iff `b % img_freq == 0`, the
      untagged weights iff `b % model_freq_batch == 0`, the tagged weights iff
      `e % model_freq_epoch == 0`. */
  lemma ScheduleMembership(c: Config, epochs: nat, batches: nat, ev: Event)
    requires c.Valid()
    ensures ev in Schedule(c, epochs, batches) <==> Fires(c, epochs, batches, ev)
  {
    EpochsMembership(c, epochs, batches, ev);
  }

  /** A division with remainder determines quotient and remainder. */
  lemma DivModUnique(n: int, k: int, q: int, r: int)
    requires k > 0 && n == q * k + r && 0 <= r < k
    ensures n / k == q && n % k == r
  {
    var q', r' := n / k, n % k;
    var d := q - q';
    assert n == q' * k + r';
    assert d * k == r' - r;
    if d >= 1 {
      MulAtLeast(d, k);
    } else if d <= -1 {
      MulAtLeast(-d, k);
    }
  }

  lemma MulAtLeast(a: int, k: int)
    requires a >= 1 && k > 0
    ensures a * k >= k
  {
    assert a * k == (a - 1) * k + k;
    assert (a - 1) * k >= 0;
  }

  /** With an even image frequency, every image save falls on a batch that
      also gets a log line. */
  lemma ImagesImplyLog(c: Config, epochs: nat, batches: nat, e: int, b: int)
    requires c.Valid() && c.imgFreq % 2 == 0
    requires ImagesSaved(e, b) in Schedule(c, epochs, batches)
    ensures Logged(e, b) in Schedule(c, epochs, batches)
  {
    ScheduleMembership(c, epochs, batches, ImagesSaved(e, b));
    ScheduleMembership(c, epochs, batches, Logged(e, b));
    HalfDivides(c.imgFreq, b);
  }

  /** A multiple of an even `f` is a multiple of `f / 2`. */
  lemma HalfDivides(f: int, b: int)
    requires f >= 2 && f % 2 == 0 && b % f == 0
    ensures b % (f / 2) == 0
  {
    var h, q := f / 2, b / f;
    DivModUnique(f, 2, h, 0);
    assert b == q * f;
    assert b == (2 * q) * h;
    DivModUnique(b, h, 2 * q, 0);
  }

  /** With an odd image frequency the two cadences drift apart: for
      `img_freq == 5` the log runs every 2 batches, and batch 5 of every epoch
      saves images without a log line. */
  lemma OddImageFrequencySavesWithoutLog(c: Config, epochs: nat, batches: nat)
    requires c.Valid() && c.imgFreq == 5 && epochs >= 1 && batches >= 5
    ensures ImagesSaved(1, 5) in Schedule(c, epochs, batches)
    ensures Logged(1, 5) !in Schedule(c, epochs, batches)
  {
    ScheduleMembership(c, epochs, batches, ImagesSaved(1, 5));
    ScheduleMembership(c, epochs, batches, Logged(1, 5));
  }

  // Counting

  datatype Kind = TrainKind | LogKind | ImagesKind | LatestKind | EpochKind

  function KindOf(ev: Event): Kind {
    match ev
    case Trained(_, _) => TrainKind
    case Logged(_, _) => LogKind
    case ImagesSaved(_, _) => ImagesKind
    case LatestSaved(_, _) => LatestKind
    case EpochSaved(_) => EpochKind
  }

  function Count(s: seq<Event>, k: Kind): nat {
    if s == [] then 0 else (if KindOf(s[0]) == k then 1 else 0) + Count(s[1..], k)
  }

  lemma {:induction false} CountAppend(s: seq<Event>, t: seq<Event>, k: Kind)
    ensures Count(s + t, k) == Count(s, k) + Count(t, k)
    decreases |s|
  {
    if s == [] {
      assert s + t == t;
    } else {
      assert (s + t)[1..] == s[1..] + t;
      CountAppend(s[1..], t, k);
    }
  }

  /** How many of 1..n are multiples of k. */
  function Multiples(n: nat, k: int): nat
    requires k >= 1
  {
    if n == 0 then 0 else Multiples(n - 1, k) + (if n % k == 0 then 1 else 0)
  }

  /** Of the numbers 1..n, exactly n / k are multiples of k. */
  lemma {:induction false} MultiplesCount(n: nat, k: int)
    requires k >= 1
    ensures Multiples(n, k) == n / k
  {
    if n > 0 {
      MultiplesCount(n - 1, k);
      var q, r := (n - 1) / k, (n - 1) % k;
      assert n == q * k + (r + 1);
      if r == k - 1 {
        assert q * k + k == (q + 1) * k;
        DivModUnique(n, k, q + 1, 0);
      } else {
        DivModUnique(n, k, q, r + 1);
      }
    }
  }

  lemma CountSingle(ev: Event, k: Kind)
    ensures Count([ev], k) == if KindOf(ev) == k then 1 else 0
  {
    assert [ev][1..] == [];
  }

  /** Count of an optional event: one when it is there and of kind k. */
  lemma CountOptional(present: bool, ev: Event, k: Kind)
    ensures Count(if present then [ev] else [], k) == if present && KindOf(ev) == k then 1 else 0
  {
    if present { CountSingle(ev, k); }
  }

  lemma BatchEventsCount(c: Config, e: int, b: int, k: Kind)
    requires c.Valid()
    ensures Count(BatchEvents(c, e, b), k)
         == (if k == TrainKind then 1 else 0)
          + (if k == LogKind && b % c.LogFreq() == 0 then 1 else 0)
          + (if k == ImagesKind && b % c.imgFreq == 0 then 1 else 0)
          + (if k == LatestKind && b % c.modelFreqBatch == 0 then 1 else 0)
  {
    var l: seq<Event> := if b % c.LogFreq() == 0 then [Logged(e, b)] else [];
    var i: seq<Event> := if b % c.imgFreq == 0 then [ImagesSaved(e, b)] else [];
    var m: seq<Event> := if b % c.modelFreqBatch == 0 then [LatestSaved(e, b)] else [];
    var nl, ni, nm := Count(l, k), Count(i, k), Count(m, k);
    CountOptional(b % c.LogFreq() == 0, Logged(e, b), k);
    CountOptional(b % c.imgFreq == 0, ImagesSaved(e, b), k);
    CountOptional(b % c.modelFreqBatch == 0, LatestSaved(e, b), k);
    CountSingle(Trained(e, b), k);
    CountAppend(l, i, k);
    CountAppend(l + i, m, k);
    assert Outputs(c, e, b) == l + i + m;
    assert Count(Outputs(c, e, b), k) == nl + ni + nm;
    CountAppend([Trained(e, b)], Outputs(c, e, b), k);
  }

  /** How many events of kind k one epoch's batches 1..n emit. */
  function PerEpoch(c: Config, n: nat, k: Kind): nat
    requires c.Valid()
  {
    match k
    case TrainKind => n
    case LogKind => Multiples(n, c.LogFreq())
    case ImagesKind => Multiples(n, c.imgFreq)
    case LatestKind => Multiples(n, c.modelFreqBatch)
    case EpochKind => 0
  }

  lemma {:induction false} BatchesCount(c: Config, e: int, n: nat, k: Kind)
    requires c.Valid()
    ensures Count(Batches(c, e, n), k) == PerEpoch(c, n, k)
  {
    if n > 0 {
      BatchesCount(c, e, n - 1, k);
      BatchEventsCount(c, e, n, k);
      CountAppend(Batches(c, e, n - 1), BatchEvents(c, e, n), k);
    }
  }

  lemma EpochEventsCount(c: Config, e: int, batches: nat, k: Kind)
    requires c.Valid()
    ensures Count(EpochEvents(c, e, batches), k)
         == PerEpoch(c, batches, k) + (if k == EpochKind && e % c.modelFreqEpoch == 0 then 1 else 0)
  {
    var tagged: seq<Event> := if e % c.modelFreqEpoch == 0 then [EpochSaved(e)] else [];
    BatchesCount(c, e, batches, k);
    CountOptional(e % c.modelFreqEpoch == 0, EpochSaved(e), k);
    CountAppend(Batches(c, e, batches), tagged, k);
  }

  lemma {:induction false} EpochsCount(c: Config, n: nat, batches: nat, k: Kind)
    requires c.Valid()
    ensures Count(Epochs(c, n, batches), k)
         == n * PerEpoch(c, batches, k) + (if k == EpochKind then Multiples(n, c.modelFreqEpoch) else 0)
  {
    if n > 0 {
      var per := PerEpoch(c, batches, k);
      EpochsCount(c, n - 1, batches, k);
      EpochEventsCount(c, n, batches, k);
      CountAppend(Epochs(c, n - 1, batches), EpochEvents(c, n, batches), k);
      assert Multiples(n, c.modelFreqEpoch)
          == Multiples(n - 1, c.modelFreqEpoch) + (if n % c.modelFreqEpoch == 0 then 1 else 0);
      MulStep(n, per);
    }
  }

  lemma MulStep(n: int, x: int)
    ensures (n - 1) * x + x == n * x
  {
  }

  /** `_train` runs exactly `epoch * batches` times; per epoch there are
      `batches / (img_freq // 2)` log lines, `batches / img_freq` image saves
      and `batches / model_freq_batch` untagged saves, and over the run
      `epoch / model_freq_epoch` tagged saves. */
  lemma ScheduleCounts(c: Config, epochs: nat, batches: nat)
    requires c.Valid()
    ensures var s := Schedule(c, epochs, batches);
      && Count(s, TrainKind) == epochs * batches
      && Count(s, LogKind) == epochs * (batches / c.LogFreq())
      && Count(s, ImagesKind) == epochs * (batches / c.imgFreq)
      && Count(s, LatestKind) == epochs * (batches / c.modelFreqBatch)
      && Count(s, EpochKind) == epochs / c.modelFreqEpoch
  {
    assert PerEpoch(c, batches, TrainKind) == batches;
    EpochsCount(c, epochs, batches, TrainKind);
    EpochsCount(c, epochs, batches, LogKind);
    EpochsCount(c, epochs, batches, ImagesKind);
    EpochsCount(c, epochs, batches, LatestKind);
    EpochsCount(c, epochs, batches, EpochKind);
    MultiplesCount(batches, c.LogFreq());
    MultiplesCount(batches, c.imgFreq);
    MultiplesCount(batches, c.modelFreqBatch);
    MultiplesCount(epochs, c.modelFreqEpoch);
  }

  // Prefixes, for a run cut short by a failing step

  lemma {:induction false} BatchesPrefix(c: Config, e: int, m: nat, n: nat)
    requires c.Valid() && m <= n
    ensures Batches(c, e, m) <= Batches(c, e, n)
    decreases n
  {
    if m < n {
      BatchesPrefix(c, e, m, n - 1);
      PrefixOfConcat(Batches(c, e, n - 1), BatchEvents(c, e, n));
      PrefixTrans(Batches(c, e, m), Batches(c, e, n - 1), Batches(c, e, n));
    }
  }

  lemma {:induction false} EpochsPrefix(c: Config, m: nat, n: nat, batches: nat)
    requires c.Valid() && m <= n
    ensures Epochs(c, m, batches) <= Epochs(c, n, batches)
    decreases n
  {
    if m < n {
      EpochsPrefix(c, m, n - 1, batches);
      PrefixOfConcat(Epochs(c, n - 1, batches), EpochEvents(c, n, batches));
      PrefixTrans(Epochs(c, m, batches), Epochs(c, n - 1, batches), Epochs(c, n, batches));
    }
  }

  lemma PrefixOfConcat(a: seq<Event>, b: seq<Event>)
    ensures a <= a + b
  {
    assert (a + b)[..|a|] == a;
  }

  lemma PrefixExtend(p: seq<Event>, a: seq<Event>, b: seq<Event>)
    requires a <= b
    ensures p + a <= p + b
  {
    assert (p + b)[..|p + a|] == p + a;
  }

  lemma PrefixTrans(a: seq<Event>, b: seq<Event>, d: seq<Event>)
    requires a <= b && b <= d
    ensures a <= d
  {
    assert d[..|a|] == b[..|a|];
  }

  /** The events up to and including the training call at batch `r + 1` of
      epoch `e` are a prefix of the whole run. */
  lemma RunPrefix(c: Config, epochs: nat, batches: nat, e: nat, r: nat)
    requires c.Valid() && 1 <= e <= epochs && r < batches
    ensures Epochs(c, e - 1, batches) + (Batches(c, e, r) + [Trained(e, r + 1)]) <= Schedule(c, epochs, batches)
  {
    var b := r + 1;
    var pre := Epochs(c, e - 1, batches);
    var done := Batches(c, e, r);
    assert (done + ([Trained(e, b)] + Outputs(c, e, b)))[..|done| + 1] == done + [Trained(e, b)];
    assert done + [Trained(e, b)] <= Batches(c, e, b);
    BatchesPrefix(c, e, b, batches);
    PrefixTrans(done + [Trained(e, b)], Batches(c, e, b), Batches(c, e, batches));
    assert Batches(c, e, batches) <= EpochEvents(c, e, batches);
    PrefixTrans(done + [Trained(e, b)], Batches(c, e, batches), EpochEvents(c, e, batches));
    PrefixExtend(pre, done + [Trained(e, b)], EpochEvents(c, e, batches));
    EpochsPrefix(c, e, epochs, batches);
    PrefixTrans(pre + (done + [Trained(e, b)]), Epochs(c, e, batches), Epochs(c, epochs, batches));
  }

  /** The events of a run cut short right after the training call on data
      item `at`, items counted from 0 and `batches` to an epoch: the earlier
      epochs whole, then the earlier batches of the item's epoch, then that
      training call, at epoch `at / batches + 1` and batch
      `at % batches + 1`. */
  function Cut(c: Config, batches: nat, at: nat): seq<Event>
    requires c.Valid() && batches > 0
  {
    Epochs(c, at / batches, batches)
      + (Batches(c, at / batches + 1, at % batches) + [Trained(at / batches + 1, at % batches + 1)])
  }

  /** `Cut` at the item read by the training call after `r` batches of
      epoch `e`. */
  lemma CutAt(c: Config, batches: nat, at: nat, e: nat, r: nat)
    requires c.Valid() && batches > 0 && e >= 1 && at / batches == e - 1 && at % batches == r
    ensures Cut(c, batches, at) == Epochs(c, e - 1, batches) + (Batches(c, e, r) + [Trained(e, r + 1)])
  {
  }

  /** Epoch `e` reads the items from `pb == (e - 1) * batches` on; item `at`
      of that epoch is read at batch `at - pb + 1`. The run cut there is the
      earlier epochs, the earlier batches of epoch `e` and that training call,
      and it is a prefix of the whole run. */
  lemma CutRun(c: Config, epochs: nat, batches: nat, e: nat, pb: nat, at: nat)
    requires c.Valid() && 1 <= e <= epochs && pb == (e - 1) * batches && pb <= at < pb + batches
    ensures Cut(c, batches, at) == Epochs(c, e - 1, batches) + (Batches(c, e, at - pb) + [Trained(e, at - pb + 1)])
    ensures Cut(c, batches, at) <= Schedule(c, epochs, batches)
  {
    var r := at - pb;
    DivModUnique(at, batches, e - 1, r);
    CutAt(c, batches, at, e, r);
    RunPrefix(c, epochs, batches, e, r);
  }


  /** `CutRun` restated in the terms `Fit`'s loop holds after a failed
      epoch: `trace` is the events of epochs 1..e-1 and `events` those of
      epoch `e` up to the failing training call. It adds nothing to
      `CutRun`; it only binds those two loop variables to its terms. */
  lemma FailedTrace(c: Config, epochs: nat, batches: nat, e: nat, pb: nat, at: nat,
                    trace: seq<Event>, events: seq<Event>)
    requires c.Valid() && 1 <= e <= epochs && pb == (e - 1) * batches && pb <= at < pb + batches
    requires trace == Epochs(c, e - 1, batches)
    requires events == Batches(c, e, at - pb) + [Trained(e, at - pb + 1)]
    ensures trace + events == Cut(c, batches, at) && trace + events <= Schedule(c, epochs, batches)
  {
    CutRun(c, epochs, batches, e, pb, at);
  }

}
