// A layer of stochastic binary units (src/layer.cc).
//
// A layer owns six vectors of `size` reals: biases, "down" biases, bias
// deltas, the committed state, the activation probabilities p and the raw
// activations. A labeled layer reserves its last ten units for a one-of-ten
// class label; its label-stripped views expose only the first size - 10
// entries of the same storage.
//
// The random source is replaced by the draws it would have produced, passed
// in as parameters, and exp is a parameter that is only known to be positive.

module Layers {

  /** Width of the label block of a labeled layer. */
  const LabelUnits: nat := 10

  /** A view of a vector: the backing storage and how many leading entries it exposes. */
  datatype View = View(vec: array<real>, len: nat)

  // ---------------------------------------------------------------------------
  // Categorical label draw
  // ---------------------------------------------------------------------------

  /** Sum of a sequence, accumulated left to right. */
  function Sum(w: seq<real>): real
  {
    if w == [] then 0.0 else Sum(w[..|w| - 1]) + w[|w| - 1]
  }

  /** The running `cumulative` of the label draw after it has reached index n. */
  function Cumulative(w: seq<real>, norm: real, n: nat): real
    requires n < |w| && norm != 0.0
  {
    if n == 0 then w[0] / norm else Cumulative(w, norm, n - 1) + w[n] / norm
  }

  /** First index at or after `from` whose cumulative share reaches `target`, or the last index. */
  function FirstReaching(w: seq<real>, norm: real, target: real, from: nat): (n: nat)
    requires 0 < |w| && norm != 0.0 && from < |w|
    requires forall m :: 0 <= m < from ==> Cumulative(w, norm, m) < target
    ensures from <= n < |w|
    ensures forall m :: 0 <= m < n ==> Cumulative(w, norm, m) < target
    ensures n < |w| - 1 ==> Cumulative(w, norm, n) >= target
    decreases |w| - from
  {
    if from == |w| - 1 || Cumulative(w, norm, from) >= target then from
    else FirstReaching(w, norm, target, from + 1)
  }

  /** The label the cumulative-probability search selects for the uniform draw `target`. */
  function DrawnLabel(w: seq<real>, norm: real, target: real): (n: nat)
    requires 0 < |w| && norm != 0.0
    ensures n < |w|
    ensures forall m :: 0 <= m < n ==> Cumulative(w, norm, m) < target
    ensures n < |w| - 1 ==> Cumulative(w, norm, n) >= target
  {
    FirstReaching(w, norm, target, 0)
  }

  /** The search loop of Layer::sample: walk the cumulative shares until one reaches the draw. */
  method DrawLabel(w: seq<real>, norm: real, target: real) returns (n: nat)
    requires 0 < |w| && norm != 0.0
    ensures n == DrawnLabel(w, norm, target)
  {
    n := 0;
    var cumulative := w[0] / norm;
    while cumulative < target && n < |w| - 1
      invariant n < |w|
      decreases |w| - n
      invariant cumulative == Cumulative(w, norm, n)
      invariant forall m :: 0 <= m < n ==> Cumulative(w, norm, m) < target
    {
      n := n + 1;
      cumulative := cumulative + w[n] / norm;
    }
    DrawnLabelUnique(w, norm, target, n);
  }

  /** The two properties of DrawnLabel determine it. */
  lemma DrawnLabelUnique(w: seq<real>, norm: real, target: real, n: nat)
    requires 0 < |w| && norm != 0.0 && n < |w|
    requires forall m :: 0 <= m < n ==> Cumulative(w, norm, m) < target
    requires n < |w| - 1 ==> Cumulative(w, norm, n) >= target
    ensures n == DrawnLabel(w, norm, target)
  {
  }

  /** Adding one more entry to an accumulated sum with a common divisor. */
  lemma AddShare(a: real, b: real, norm: real)
    requires norm != 0.0
    ensures a / norm + b / norm == (a + b) / norm
  {
  }

  /** The running cumulative is the share of the prefix w[..n+1] in norm. */
  lemma {:induction false} CumulativeIsPrefixShare(w: seq<real>, norm: real, n: nat)
    requires n < |w| && norm != 0.0
    ensures Cumulative(w, norm, n) == Sum(w[..n + 1]) / norm
  {
    if n == 0 {
      assert w[..1][..0] == [];
    } else {
      CumulativeIsPrefixShare(w, norm, n - 1);
      assert w[..n + 1][..n] == w[..n];
      AddShare(Sum(w[..n]), w[n], norm);
    }
  }

  /** A sum of positive weights is positive. */
  lemma {:induction false} SumOfPositive(w: seq<real>)
    requires 0 < |w|
    requires forall i :: 0 <= i < |w| ==> w[i] > 0.0
    ensures Sum(w) > 0.0
  {
    if |w| > 1 {
      SumOfPositive(w[..|w| - 1]);
    }
  }

  /**
   * With positive weights normalised by their total, a draw in [0, 1) falls
   * into the half-open interval of the label it selects: the fallback to the
   * last label is never needed, and label n is chosen exactly for the draws
   * between the cumulative shares of n - 1 and n, an interval of width
   * w[n] / norm.
   */
  lemma DrawnLabelInterval(w: seq<real>, norm: real, target: real)
    requires 0 < |w| && norm == Sum(w)
    requires forall i :: 0 <= i < |w| ==> w[i] > 0.0
    requires 0.0 <= target < 1.0
    ensures norm > 0.0
    ensures Cumulative(w, norm, DrawnLabel(w, norm, target)) >= target
    ensures DrawnLabel(w, norm, target) > 0 ==>
              Cumulative(w, norm, DrawnLabel(w, norm, target) - 1) < target
  {
    SumOfPositive(w);
    var n := DrawnLabel(w, norm, target);
    if n == |w| - 1 {
      CumulativeIsPrefixShare(w, norm, n);
      assert w[..n + 1] == w;
      assert norm / norm == 1.0;
    }
  }

  // ---------------------------------------------------------------------------
  // Unit-level helpers
  // ---------------------------------------------------------------------------

  /** One-hot encoding of `digit` over the ten label units; all zero when digit is outside [0, 9]. */
  function OneHot(digit: int): (r: seq<real>)
    ensures |r| == LabelUnits
    ensures forall i :: 0 <= i < LabelUnits ==> (r[i] == 1.0 <==> i == digit)
    ensures forall i :: 0 <= i < LabelUnits ==> (r[i] == 0.0 || r[i] == 1.0)
  {
    seq(LabelUnits, i => if i == digit then 1.0 else 0.0)
  }

  /** Number of entries equal to 1. */
  function CountOnes(s: seq<real>): nat
  {
    if s == [] then 0 else CountOnes(s[..|s| - 1]) + (if s[|s| - 1] == 1.0 then 1 else 0)
  }

  /** Indicator vector of length len with a single 1 at k (none when k is out of range). */
  function Indicator(len: nat, k: int): seq<real>
  {
    seq(len, i => if i == k then 1.0 else 0.0)
  }

  lemma {:induction false} CountOnesIndicator(len: nat, k: int)
    ensures CountOnes(Indicator(len, k)) == if 0 <= k < len then 1 else 0
  {
    if len > 0 {
      assert Indicator(len, k)[..len - 1] == Indicator(len - 1, k);
      CountOnesIndicator(len - 1, k);
    }
  }

  /** A label in [0, 9] sets exactly one label unit; any other label sets none. */
  lemma OneHotCount(digit: int)
    ensures CountOnes(OneHot(digit)) == if 0 <= digit < LabelUnits then 1 else 0
  {
    assert OneHot(digit) == Indicator(LabelUnits, digit);
    CountOnesIndicator(LabelUnits, digit);
  }

  /** Bernoulli commitment of one unit: 1 when the uniform draw falls below the probability. */
  function Bernoulli(draw: real, prob: real): (r: real)
    ensures r == 0.0 || r == 1.0
    ensures r == 1.0 <==> draw < prob
  {
    if draw < prob then 1.0 else 0.0
  }

  /** Logistic activation 1 / (1 + exp(-x)), given the positive value of exp(-x). */
  function Logistic(expNeg: real): (r: real)
    requires expNeg > 0.0
    ensures 0.0 < r < 1.0
  {
    var d := 1.0 + expNeg;
    var r := 1.0 / d;
    assert r * d == 1.0;
    assert r > 0.0;
    assert r * d - r == r * (d - 1.0);
    r
  }

  /** Unnormalised label weights exp(a) over the last ten entries of the activation vector. */
  function LabelWeights(exp: real -> real, activation: seq<real>): (w: seq<real>)
    requires |activation| >= LabelUnits
    requires forall x :: exp(x) > 0.0
    ensures |w| == LabelUnits
    ensures forall i :: 0 <= i < LabelUnits ==> w[i] > 0.0
    ensures Sum(w) > 0.0
  {
    var w := seq(LabelUnits, i requires 0 <= i < LabelUnits => exp(activation[|activation| - LabelUnits + i]));
    forall i | 0 <= i < |w|
      ensures w[i] > 0.0
    {
      var a := activation[|activation| - LabelUnits + i];
      assert w[i] == exp(a);
      assert exp(a) > 0.0;
    }
    SumOfPositive(w);
    w
  }

  // ---------------------------------------------------------------------------
  // Arg-max read-out
  // ---------------------------------------------------------------------------

  /** Index of the first maximum of s, scanning left to right with a strict comparison. */
  function ArgmaxFirst(s: seq<real>): (r: nat)
    requires 0 < |s|
    ensures r < |s|
    ensures forall k :: 0 <= k < |s| ==> s[k] <= s[r]
    ensures forall k :: 0 <= k < r ==> s[k] < s[r]
  {
    if |s| == 1 then 0
    else
      var r := ArgmaxFirst(s[..|s| - 1]);
      assert forall k :: 0 <= k < |s| - 1 ==> s[..|s| - 1][k] == s[k];
      if s[|s| - 1] > s[r] then |s| - 1 else r
  }

  /** The two properties of ArgmaxFirst determine it. */
  lemma ArgmaxFirstUnique(s: seq<real>, r: nat)
    requires r < |s|
    requires forall k :: 0 <= k < |s| ==> s[k] <= s[r]
    requires forall k :: 0 <= k < r ==> s[k] < s[r]
    ensures ArgmaxFirst(s) == r
  {
  }

  /**
   * The read-out depends only on the order of the values: any two vectors
   * ordered alike (for instance one and its image under a strictly increasing
   * transform) give the same label.
   */
  lemma ArgmaxFirstOrderInvariant(s: seq<real>, t: seq<real>)
    requires 0 < |s| == |t|
    requires forall i, j :: 0 <= i < |s| && 0 <= j < |s| ==> (s[i] < s[j] <==> t[i] < t[j])
    ensures ArgmaxFirst(s) == ArgmaxFirst(t)
  {
    var r := ArgmaxFirst(s);
    forall k | 0 <= k < |t|
      ensures t[k] <= t[r]
    {
      assert !(s[r] < s[k]);
    }
    forall k | 0 <= k < r
      ensures t[k] < t[r]
    {
      assert s[k] < s[r];
    }
    ArgmaxFirstUnique(t, r);
  }

  /** The candidates most_probable_label compares: p[0] first, then p[501] through p[509]. */
  function SeededCandidates(p: seq<real>): (c: seq<real>)
    requires |p| >= 510
    ensures |c| == LabelUnits
    ensures c[0] == p[0]
    ensures forall m :: 1 <= m < LabelUnits ==> c[m] == p[500 + m]
  {
    [p[0]] + p[501..510]
  }

  // ---------------------------------------------------------------------------
  // The layer
  // ---------------------------------------------------------------------------

  class Layer {
    const size: nat
    const labels: bool
    const biases: array<real>
    const biasesDown: array<real>
    const deltas: array<real>
    const state: array<real>
    const p: array<real>
    const activation: array<real>

    /** The six vectors the layer owns. */
    ghost function Arrays(): set<array<real>>
    {
      {biases, biasesDown, deltas, state, p, activation}
    }

    /** The vectors a propagation into this layer writes: its activation, p and state. */
    ghost function Activity(): set<array<real>>
    {
      {activation, p, state}
    }

    /** Every vector holds one entry per unit, and there are at least as many units as labels. */
    ghost predicate Sized()
    {
      && size >= LabelUnits
      && biases.Length == size && biasesDown.Length == size && deltas.Length == size
      && state.Length == size && p.Length == size && activation.Length == size
    }

    /** No two of the six vectors are the same array. */
    ghost predicate Unshared()
    {
      && biases != biasesDown && biases != deltas && biases != state && biases != p && biases != activation
      && biasesDown != deltas && biasesDown != state && biasesDown != p && biasesDown != activation
      && deltas != state && deltas != p && deltas != activation
      && state != p && state != activation
      && p != activation
    }

    ghost predicate Valid()
    {
      Sized() && Unshared()
    }

    /** Layer::Layer: biases start at zero, the other vectors are uninitialised. */
    constructor(size: nat, labels: bool)
      requires size >= LabelUnits
      ensures Valid() && this.size == size && this.labels == labels
      ensures fresh(biases) && fresh(biasesDown) && fresh(deltas)
      ensures fresh(state) && fresh(p) && fresh(activation)
      ensures forall i :: 0 <= i < size ==> biases[i] == 0.0 && biasesDown[i] == 0.0
    {
      this.size := size;
      this.labels := labels;
      biases := new real[size](_ => 0.0);
      biasesDown := new real[size](_ => 0.0);
      deltas := new real[size];
      state := new real[size];
      p := new real[size];
      activation := new real[size];
    }

    /** Layer::size: the full width, or the label-stripped width of a labeled layer. */
    function Size(ext: bool): (n: nat)
      requires Valid()
      ensures n <= size
      ensures n == size <==> ext || !labels
      ensures n != size ==> n + LabelUnits == size
    {
      if ext || !labels then size else size - LabelUnits
    }

    /** Layer::state: the state vector or its label-stripped prefix, sharing storage. */
    function State(ext: bool): (v: View)
      requires Valid()
      ensures v.vec == state && v.len == Size(ext) && v.len <= v.vec.Length
    {
      View(state, Size(ext))
    }

    /** Layer::activation: the activation vector or its label-stripped prefix, sharing storage. */
    function Activation(ext: bool): (v: View)
      requires Valid()
      ensures v.vec == activation && v.len == Size(ext) && v.len <= v.vec.Length
    {
      View(activation, Size(ext))
    }

    /** Layer::p: the probability vector or its label-stripped prefix, sharing storage. */
    function P(ext: bool): (v: View)
      requires Valid()
      ensures v.vec == p && v.len == Size(ext) && v.len <= v.vec.Length
    {
      View(p, Size(ext))
    }

    /** Layer::biases: the bias vector or its label-stripped prefix, sharing storage. */
    function Biases(ext: bool): (v: View)
      requires Valid()
      ensures v.vec == biases && v.len == Size(ext) && v.len <= v.vec.Length
    {
      View(biases, Size(ext))
    }

    /** Layer::deltas: the delta vector or its label-stripped prefix, sharing storage. */
    function Deltas(ext: bool): (v: View)
      requires Valid()
      ensures v.vec == deltas && v.len == Size(ext) && v.len <= v.vec.Length
    {
      View(deltas, Size(ext))
    }

    function GetBias(i: nat): (b: real)
      requires Valid() && i < size
      reads biases
      ensures b == biases[i]
    {
      biases[i]
    }

    method SetBias(i: nat, v: real)
      requires Valid() && i < size
      modifies biases
      ensures biases[..] == old(biases[..])[i := v]
    {
      biases[i] := v;
    }

    /** Layer::reset_deltas: every delta, label block included, becomes zero. */
    method ResetDeltas()
      requires Valid()
      modifies deltas
      ensures deltas[..] == seq(size, _ => 0.0)
    {
      for i := 0 to size
        invariant forall k :: 0 <= k < i ==> deltas[k] == 0.0
      {
        deltas[i] := 0.0;
      }
    }

    /** Layer::commit_deltas: each bias grows by its delta. */
    method CommitDeltas()
      requires Valid()
      modifies biases
      ensures forall i :: 0 <= i < size ==> biases[i] == old(biases[i]) + deltas[i]
    {
      for i := 0 to size
        invariant forall k :: 0 <= k < i ==> biases[k] == old(biases[k]) + deltas[k]
        invariant forall k :: i <= k < size ==> biases[k] == old(biases[k])
      {
        biases[i] := biases[i] + deltas[i];
      }
    }

    /** Layer::transfer: the mean-field commit, state becomes p. */
    method Transfer()
      requires Valid()
      modifies state
      ensures state[..] == p[..]
    {
      for i := 0 to size
        invariant forall k :: 0 <= k < i ==> state[k] == p[k]
      {
        state[i] := p[i];
      }
    }

    /** Layer::set_state: copy a full-width vector into the state. */
    method SetState(v: array<real>)
      requires Valid() && v.Length == size
      modifies state
      ensures state[..] == old(v[..])
    {
      ghost var src := v[..];
      for i := 0 to size
        invariant forall k :: 0 <= k < i ==> state[k] == src[k]
        invariant forall k :: i <= k < size ==> v[k] == src[k]
      {
        state[i] := v[i];
      }
    }

    /** Layer::activate_from_bias: p is the logistic of the bias, unit by unit. */
    method ActivateFromBias(exp: real -> real)
      requires Valid()
      requires forall x :: exp(x) > 0.0
      modifies p
      ensures forall i :: 0 <= i < size ==> p[i] == Logistic(exp(-biases[i]))
      ensures forall i :: 0 <= i < size ==> 0.0 < p[i] < 1.0
    {
      for i := 0 to size
        invariant forall k :: 0 <= k < i ==> p[k] == Logistic(exp(-biases[k]))
      {
        p[i] := 1.0 / (1.0 + exp(-biases[i]));
      }
    }

    /** Layer::set_label: the label block becomes the one-hot code of digit; the rest is untouched. */
    method SetLabel(digit: int)
      requires Valid()
      modifies state
      ensures state[..size - LabelUnits] == old(state[..size - LabelUnits])
      ensures state[size - LabelUnits..] == OneHot(digit)
    {
      var base := size - LabelUnits;
      for i := 0 to LabelUnits
        invariant forall k :: 0 <= k < base ==> state[k] == old(state[k])
        invariant forall k :: 0 <= k < i ==> state[base + k] == OneHot(digit)[k]
      {
        if digit == i {
          state[base + i] := 1.0;
        } else {
          state[base + i] := 0.0;
        }
      }
    }

    /**
     * The labeled branch of Layer::sample: the label block becomes the
     * one-hot code of the label drawn from exp(activation) with the uniform
     * draw labelDraw; the units below it keep their state.
     */
    method SampleLabelBlock(exp: real -> real, labelDraw: real)
      requires Valid() && labels
      requires forall x :: exp(x) > 0.0
      requires 0.0 <= labelDraw < 1.0
      modifies state
      ensures state[..size - LabelUnits] == old(state[..size - LabelUnits])
      ensures var w := LabelWeights(exp, activation[..]);
              state[size - LabelUnits..] == OneHot(DrawnLabel(w, Sum(w), labelDraw))
    {
      var base := size - LabelUnits;
      ghost var w := LabelWeights(exp, activation[..]);
      var probs: seq<real> := [];
      var norm := 0.0;
      for i := 0 to LabelUnits
        invariant probs == w[..i]
        invariant norm == Sum(probs)
        invariant forall k :: 0 <= k < base ==> state[k] == old(state[k])
        invariant forall k :: base <= k < base + i ==> state[k] == 0.0
      {
        probs := probs + [exp(activation[base + i])];
        norm := norm + probs[i];
        assert probs[..i] == w[..i];
        state[base + i] := 0.0;
      }
      assert probs == w;
      var n := DrawLabel(probs, norm, labelDraw);
      state[base + n] := 1.0;
      assert state[base..] == OneHot(n);
    }

    /**
     * Layer::sample. On a labeled layer with ext set, the label block becomes
     * the one-hot code of the label drawn from exp(activation) with the
     * uniform draw labelDraw. Every unit below Size(false) is committed to 0
     * or 1 from its own uniform draw against p. The draws lie in [0, 1), as
     * gsl_rng_uniform returns them. Nothing else changes.
     */
    method Sample(ext: bool, exp: real -> real, labelDraw: real, unitDraws: seq<real>)
      requires Valid()
      requires forall x :: exp(x) > 0.0
      requires 0.0 <= labelDraw < 1.0
      requires |unitDraws| == Size(false) && forall i :: 0 <= i < |unitDraws| ==> 0.0 <= unitDraws[i] < 1.0
      modifies state
      ensures forall i :: 0 <= i < Size(false) ==> state[i] == Bernoulli(unitDraws[i], p[i])
      ensures labels && ext ==>
                var w := LabelWeights(exp, activation[..]);
                state[size - LabelUnits..] == OneHot(DrawnLabel(w, Sum(w), labelDraw))
      ensures labels && !ext ==> state[size - LabelUnits..] == old(state[size - LabelUnits..])
    {
      var base := size - LabelUnits;
      if labels && ext {
        SampleLabelBlock(exp, labelDraw);
      }
      ghost var committed := state[..];
      var maxIdx := if labels then size - LabelUnits else size;
      for i := 0 to maxIdx
        invariant forall k :: 0 <= k < i ==> state[k] == Bernoulli(unitDraws[k], p[k])
        invariant forall k :: i <= k < size ==> state[k] == committed[k]
      {
        state[i] := if unitDraws[i] < p[i] then 1.0 else 0.0;
      }
      if labels {
        assert state[base..] == committed[base..];
      }
    }

    /**
     * Layer::most_probable_label as written: the running maximum starts from
     * p[0], then units 501 to 509 are compared strictly, and the result is
     * the position of the first maximum among those ten candidates.
     */
    method MostProbableLabel() returns (idx: nat)
      requires Valid() && size >= 510
      ensures idx < LabelUnits
      ensures idx == ArgmaxFirst(SeededCandidates(p[..]))
    {
      ghost var c := SeededCandidates(p[..]);
      idx := 0;
      var v := p[idx];
      for i := 501 to 510
        invariant 0 < i - 500 <= LabelUnits
        invariant idx == ArgmaxFirst(c[..i - 500])
        invariant v == c[idx]
      {
        assert c[..i - 500 + 1][..i - 500] == c[..i - 500];
        if p[i] > v {
          v := p[i];
          idx := i - 500;
        }
      }
      assert c[..LabelUnits] == c;
    }

    /**
     * The read-out most_probable_label evidently intends: the first maximum
     * of p over the label block, units size - 10 to size - 1.
     */
    method LabelReadout() returns (idx: nat)
      requires Valid()
      ensures idx < LabelUnits
      ensures idx == ArgmaxFirst(p[size - LabelUnits..])
      ensures forall k :: size - LabelUnits <= k < size ==> p[k] <= p[size - LabelUnits + idx]
      ensures forall k :: size - LabelUnits <= k < size - LabelUnits + idx ==> p[k] < p[size - LabelUnits + idx]
    {
      var base := size - LabelUnits;
      ghost var c := p[base..];
      idx := 0;
      var v := p[base];
      for i := base + 1 to size
        invariant 0 < i - base <= LabelUnits
        invariant idx == ArgmaxFirst(c[..i - base])
        invariant v == c[idx]
      {
        assert c[..i - base + 1][..i - base] == c[..i - base];
        if p[i] > v {
          v := p[i];
          idx := i - base;
        }
      }
      assert c[..LabelUnits] == c;
    }
  }

  // ---------------------------------------------------------------------------
  // The seeding defect of most_probable_label
  // ---------------------------------------------------------------------------

  /** A probability vector of a 510-unit layer whose label block peaks at label 9 but whose unit 0 is higher. */
  function SeedExample(): (p: seq<real>)
    ensures |p| == 510
  {
    seq(510, i => if i == 0 then 0.9 else if i == 509 then 0.55 else 0.05)
  }

  /**
   * On SeedExample the as-written read-out answers 0, because no label unit
   * exceeds p[0], while the first maximum of the label block is label 9.
   */
  lemma SeedDefectWitness()
    ensures ArgmaxFirst(SeededCandidates(SeedExample())) == 0
    ensures ArgmaxFirst(SeedExample()[500..510]) == 9
  {
    var p := SeedExample();
    var c := SeededCandidates(p);
    forall k | 0 <= k < |c| ensures c[k] <= c[0] {
      if k > 0 { assert c[k] == p[500 + k]; }
    }
    ArgmaxFirstUnique(c, 0);
    var b := p[500..510];
    forall k | 0 <= k < |b| ensures b[k] <= b[9] && (k < 9 ==> b[k] < b[9]) {
      assert b[k] == p[500 + k];
    }
    ArgmaxFirstUnique(b, 9);
  }

  /**
   * The seeding only matters when p[0] differs from p[500]: when they are
   * equal, the as-written read-out and the label block's first maximum agree.
   */
  lemma SeededReadoutAgrees(p: seq<real>)
    requires |p| >= 510 && p[0] == p[500]
    ensures ArgmaxFirst(SeededCandidates(p)) == ArgmaxFirst(p[500..510])
  {
    assert SeededCandidates(p) == p[500..510];
  }

  /** With probabilities 0.05 on labels 0 to 8 and 0.55 on label 9, the intended read-out is 9. */
  lemma ReadoutPeakExample()
    ensures ArgmaxFirst([0.05, 0.05, 0.05, 0.05, 0.05, 0.05, 0.05, 0.05, 0.05, 0.55]) == 9
  {
    ArgmaxFirstUnique([0.05, 0.05, 0.05, 0.05, 0.05, 0.05, 0.05, 0.05, 0.05, 0.55], 9);
  }
}
