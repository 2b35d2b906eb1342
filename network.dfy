// The network of stacked layers (src/network.cc).
//
// Four layers of 784, 500, 510 and 2000 units, the third one labeled, and
// three connections, connection i linking layer i (lower) to layer i + 1
// (upper). The network drives its layers directly (set_state, set_label,
// activate_from_bias, get_bias/set_bias) and everything else through its
// connections, its schedule and its monitor, whose code is not part of this
// model: each of their calls is appended to an event trace, in call order,
// with its arguments. The properties of training, classification and
// sampling are stated over that trace.
//
// A connection is modelled only as its place in the topology and its weight
// store (rows = upper units, columns = lower units, full layer sizes), which
// get_weight and set_weight expose to dump_states and load_states.

module Net {
  import opened Layers
  import opened Persistence
  import Mnist

  /** Units of the input layer: one per pixel of a 28 x 28 image. */
  const InputUnits: nat := 784

  /** Gibbs iterations sample_input asks of the top connection. */
  const GibbsIterations: nat := 1000

  /** The message train logs when it starts. */
  const TrainingStarted: string := "Starting network training"

  /** A call the network makes, in the order it makes them. */
  datatype Event =
    | AttachMonitor
    | LogEvent(message: string)
    | ScheduleReset
    | ScheduleStep(more: bool)
    | StateSet(layer: nat, values: seq<real>)
    | LabelSet(layer: nat, digit: int)
    | ActivatedFromBias(layer: nat)
    | PropagateObservation(conn: nat, nullRng: bool, meanField: bool)
    | PropagateHidden(conn: nat)
    | PerformUpdateStep(conn: nat)
    | SampleLayer(conn: nat, iterations: nat, digit: int)
    | FindLabel(conn: nat)
    | FineTune(values: seq<real>, digit: int)

  /** A position of the schedule: the connection to train and the example to train it on. */
  datatype Step = Step(target: nat, image: nat)

  // ---------------------------------------------------------------------------
  // Reading a trace
  // ---------------------------------------------------------------------------

  /** The connections given an update step, in order. */
  function Updated(events: seq<Event>): seq<nat>
  {
    if events == [] then []
    else
      var last := events[|events| - 1];
      Updated(events[..|events| - 1]) + (if last.PerformUpdateStep? then [last.conn] else [])
  }

  /** The connections asked to propagate an observation upwards, in order. */
  function Propagated(events: seq<Event>): seq<nat>
  {
    if events == [] then []
    else
      var last := events[|events| - 1];
      Propagated(events[..|events| - 1]) + (if last.PropagateObservation? then [last.conn] else [])
  }

  /** The labels clamped with set_label, in order. */
  function Clamped(events: seq<Event>): seq<int>
  {
    if events == [] then []
    else
      var last := events[|events| - 1];
      Clamped(events[..|events| - 1]) + (if last.LabelSet? then [last.digit] else [])
  }

  lemma {:induction false} UpdatedAppend(a: seq<Event>, b: seq<Event>)
    ensures Updated(a + b) == Updated(a) + Updated(b)
    decreases |b|
  {
    if b == [] {
      assert a + b == a;
    } else {
      assert (a + b)[..|a + b| - 1] == a + b[..|b| - 1];
      UpdatedAppend(a, b[..|b| - 1]);
    }
  }

  lemma {:induction false} PropagatedAppend(a: seq<Event>, b: seq<Event>)
    ensures Propagated(a + b) == Propagated(a) + Propagated(b)
    decreases |b|
  {
    if b == [] {
      assert a + b == a;
    } else {
      assert (a + b)[..|a + b| - 1] == a + b[..|b| - 1];
      PropagatedAppend(a, b[..|b| - 1]);
    }
  }

  lemma {:induction false} ClampedAppend(a: seq<Event>, b: seq<Event>)
    ensures Clamped(a + b) == Clamped(a) + Clamped(b)
    decreases |b|
  {
    if b == [] {
      assert a + b == a;
    } else {
      assert (a + b)[..|a + b| - 1] == a + b[..|b| - 1];
      ClampedAppend(a, b[..|b| - 1]);
    }
  }

  /** A trace without update steps updates nothing. */
  lemma {:induction false} UpdatedNone(events: seq<Event>)
    requires forall e :: e in events ==> !e.PerformUpdateStep?
    ensures Updated(events) == []
    decreases |events|
  {
    if events != [] {
      UpdatedNone(events[..|events| - 1]);
    }
  }

  // ---------------------------------------------------------------------------
  // The call sequences
  // ---------------------------------------------------------------------------

  /** Upward propagations through connections 0 to n - 1, in ascending order. */
  function Propagations(n: nat, nullRng: bool, meanField: bool): seq<Event>
  {
    if n == 0 then [] else Propagations(n - 1, nullRng, meanField) + [PropagateObservation(n - 1, nullRng, meanField)]
  }

  /** What the input layer is loaded with: intensities in mean-field mode, thresholded pixels otherwise. */
  function Observation(pixels: seq<Mnist.byte>, meanField: bool, draws: seq<int>): (v: seq<real>)
    requires !meanField ==> |draws| == |pixels| && forall i :: 0 <= i < |draws| ==> 0 <= draws[i] < 255
    ensures |v| == |pixels|
    ensures forall i :: 0 <= i < |v| ==> 0.0 <= v[i] <= 1.0
    ensures !meanField ==> forall i :: 0 <= i < |v| ==> v[i] == 0.0 || v[i] == 1.0
  {
    if meanField then seq(|pixels|, i requires 0 <= i < |pixels| => Mnist.Intensity(pixels[i]))
    else seq(|pixels|, i requires 0 <= i < |pixels| => Mnist.Threshold(draws[i], pixels[i]))
  }

  /** The calls of greedily_train_layer(n) for the observation `obs` and, when n is 2, the label `digit`. */
  function GreedyEvents(n: nat, meanField: bool, obs: seq<real>, digit: int): seq<Event>
  {
    PresentEvents(n, meanField, obs, digit) + [PerformUpdateStep(n)]
  }

  /** The calls of greedily_train_layer(n) before the update step. */
  function PresentEvents(n: nat, meanField: bool, obs: seq<real>, digit: int): seq<Event>
  {
    [StateSet(0, obs)] + Propagations(n, false, meanField) + (if n == 2 then [LabelSet(2, digit)] else [])
  }

  /** The events of PresentEvents, appended one call at a time. */
  lemma PresentEventsSplit(before: seq<Event>, n: nat, meanField: bool, obs: seq<real>, digit: int)
    ensures before + PresentEvents(n, meanField, obs, digit)
         == before + [StateSet(0, obs)] + Propagations(n, false, meanField)
            + (if n == 2 then [LabelSet(2, digit)] else [])
  {
  }

  /** The calls of classify for the observation `obs`. */
  function ClassifyEvents(obs: seq<real>, meanField: bool): seq<Event>
  {
    [StateSet(0, obs)] + Propagations(2, true, meanField) + [FindLabel(2)]
  }

  /** The events of ClassifyEvents, appended one call at a time. */
  lemma ClassifyEventsSplit(before: seq<Event>, obs: seq<real>, meanField: bool)
    ensures before + ClassifyEvents(obs, meanField)
         == before + [StateSet(0, obs)] + Propagations(2, true, meanField) + [FindLabel(2)]
  {
  }

  /** Downward propagations through connections hi down to lo + 1, in descending order. */
  function HiddenPasses(hi: int, lo: int): seq<Event>
    requires 0 <= hi + 1 && -1 <= lo
    decreases hi - lo
  {
    if lo >= hi then [] else HiddenPasses(hi, lo + 1) + [PropagateHidden(lo + 1)]
  }

  /** The calls of sample_input for the label `digit`. */
  function SampleInputEvents(digit: int): seq<Event>
  {
    [ActivatedFromBias(LayerCount - 1), SampleLayer(ConnectionCount - 1, GibbsIterations, digit)]
      + HiddenPasses(LayerCount - 3, -1)
  }

  /** The label greedily_train_layer clamps for the example `image`, read only when n is 2. */
  function TargetLabel(labels: seq<Mnist.byte>, n: nat, image: nat): int
    requires n == 2 ==> image < |labels|
  {
    if n == 2 then labels[image] else 0
  }

  /** What train needs of each schedule position: a valid target, an image of 784 pixels, and its label when it is used. */
  predicate TrainableSteps(images: seq<seq<Mnist.byte>>, labels: seq<Mnist.byte>, steps: seq<Step>,
                           meanField: bool, draws: seq<seq<int>>)
  {
    && |draws| == |steps|
    && forall t :: 0 <= t < |steps| ==>
         && steps[t].target < ConnectionCount
         && steps[t].image < |images| && |images[steps[t].image]| == InputUnits
         && (steps[t].target == 2 ==> steps[t].image < |labels|)
         && (!meanField ==> |draws[t]| == InputUnits && forall i :: 0 <= i < InputUnits ==> 0 <= draws[t][i] < 255)
  }

  /** The calls of the loop of train for its first n positions: per position, a step() that returns true, then that position's greedy step. */
  function TrainEvents(images: seq<seq<Mnist.byte>>, labels: seq<Mnist.byte>, steps: seq<Step>,
                       meanField: bool, draws: seq<seq<int>>, n: nat): seq<Event>
    requires TrainableSteps(images, labels, steps, meanField, draws) && n <= |steps|
  {
    if n == 0 then []
    else
      var s := steps[n - 1];
      TrainEvents(images, labels, steps, meanField, draws, n - 1)
        + [ScheduleStep(true)]
        + GreedyEvents(s.target, meanField, Observation(images[s.image], meanField, draws[n - 1]),
                       TargetLabel(labels, s.target, s.image))
  }

  // ---------------------------------------------------------------------------
  // What the call sequences promise
  // ---------------------------------------------------------------------------

  lemma {:induction false} PropagationsShape(n: nat, nullRng: bool, meanField: bool)
    ensures Updated(Propagations(n, nullRng, meanField)) == []
    ensures Clamped(Propagations(n, nullRng, meanField)) == []
    ensures Propagated(Propagations(n, nullRng, meanField)) == seq(n, i => i)
    ensures forall e :: e in Propagations(n, nullRng, meanField) ==>
              e.PropagateObservation? && e.nullRng == nullRng && e.meanField == meanField
  {
    if n > 0 {
      PropagationsShape(n - 1, nullRng, meanField);
      var front := Propagations(n - 1, nullRng, meanField);
      var last := [PropagateObservation(n - 1, nullRng, meanField)];
      UpdatedAppend(front, last);
      ClampedAppend(front, last);
      PropagatedAppend(front, last);
    }
  }

  lemma GreedyUpdated(n: nat, meanField: bool, obs: seq<real>, digit: int)
    ensures Updated(GreedyEvents(n, meanField, obs, digit)) == [n]
  {
    var head := [StateSet(0, obs)];
    var props := Propagations(n, false, meanField);
    var clamp: seq<Event> := if n == 2 then [LabelSet(2, digit)] else [];
    var last := [PerformUpdateStep(n)];
    PropagationsShape(n, false, meanField);
    UpdatedAppend(head + props + clamp, last);
    UpdatedAppend(head + props, clamp);
    UpdatedAppend(head, props);
    assert Updated(head) == [] && Updated(clamp) == [];
  }

  lemma GreedyPropagated(n: nat, meanField: bool, obs: seq<real>, digit: int)
    ensures Propagated(GreedyEvents(n, meanField, obs, digit)) == seq(n, i => i)
  {
    var head := [StateSet(0, obs)];
    var props := Propagations(n, false, meanField);
    var clamp: seq<Event> := if n == 2 then [LabelSet(2, digit)] else [];
    var last := [PerformUpdateStep(n)];
    PropagationsShape(n, false, meanField);
    PropagatedAppend(head + props + clamp, last);
    PropagatedAppend(head + props, clamp);
    PropagatedAppend(head, props);
    assert Propagated(head) == [] && Propagated(clamp) == [] && Propagated(last) == [];
  }

  lemma GreedyClamped(n: nat, meanField: bool, obs: seq<real>, digit: int)
    ensures Clamped(GreedyEvents(n, meanField, obs, digit)) == if n == 2 then [digit] else []
  {
    var head := [StateSet(0, obs)];
    var props := Propagations(n, false, meanField);
    var clamp: seq<Event> := if n == 2 then [LabelSet(2, digit)] else [];
    var last := [PerformUpdateStep(n)];
    PropagationsShape(n, false, meanField);
    ClampedAppend(head + props + clamp, last);
    ClampedAppend(head + props, clamp);
    ClampedAppend(head, props);
    assert Clamped(head) == [] && Clamped(last) == [];
  }

  /**
   * Greedy training touches one connection: connection n gets the only
   * update step, after connections 0 to n - 1 have propagated the
   * observation in ascending order, and a label is clamped exactly when n
   * is 2.
   */
  lemma GreedyTrainingOrder(n: nat, meanField: bool, obs: seq<real>, digit: int)
    ensures Updated(GreedyEvents(n, meanField, obs, digit)) == [n]
    ensures Propagated(GreedyEvents(n, meanField, obs, digit)) == seq(n, i => i)
    ensures Clamped(GreedyEvents(n, meanField, obs, digit)) == if n == 2 then [digit] else []
    ensures GreedyEvents(n, meanField, obs, digit)[0] == StateSet(0, obs)
    ensures GreedyEvents(n, meanField, obs, digit)[|GreedyEvents(n, meanField, obs, digit)| - 1] == PerformUpdateStep(n)
  {
    GreedyUpdated(n, meanField, obs, digit);
    GreedyPropagated(n, meanField, obs, digit);
    GreedyClamped(n, meanField, obs, digit);
  }

  /** Classification trains nothing and propagates through connections 0 and 1 only, with a null random source. */
  lemma ClassifyOrder(obs: seq<real>, meanField: bool)
    ensures Updated(ClassifyEvents(obs, meanField)) == []
    ensures Propagated(ClassifyEvents(obs, meanField)) == [0, 1]
    ensures forall e :: e in ClassifyEvents(obs, meanField) && e.PropagateObservation? ==> e.nullRng
    ensures |ClassifyEvents(obs, meanField)| == 4 && ClassifyEvents(obs, meanField)[3] == FindLabel(2)
  {
    var head := [StateSet(0, obs)];
    var props := Propagations(2, true, meanField);
    PropagationsShape(2, true, meanField);
    assert Propagations(1, true, meanField) == [PropagateObservation(0, true, meanField)];
    assert props == [PropagateObservation(0, true, meanField), PropagateObservation(1, true, meanField)];
    assert seq(2, i => i) == [0, 1];
    UpdatedAppend(head + props, [FindLabel(2)]);
    UpdatedAppend(head, props);
    PropagatedAppend(head + props, [FindLabel(2)]);
    PropagatedAppend(head, props);
  }

  lemma {:induction false} HiddenPassesAt(hi: int, lo: int, a: nat)
    requires 0 <= hi + 1 && -1 <= lo <= hi
    ensures |HiddenPasses(hi, lo)| == hi - lo
    ensures a < hi - lo ==> HiddenPasses(hi, lo)[a] == PropagateHidden(hi - a)
    decreases hi - lo
  {
    if lo < hi {
      HiddenPassesAt(hi, lo + 1, a);
    }
  }

  /**
   * Generation runs the top connection's Gibbs sampler after activating the
   * top layer from its biases, then propagates downwards through
   * connections 1 and 0, in that order, and trains nothing.
   */
  lemma SampleInputOrder(digit: int)
    ensures SampleInputEvents(digit) ==
              [ActivatedFromBias(3), SampleLayer(2, 1000, digit), PropagateHidden(1), PropagateHidden(0)]
    ensures Updated(SampleInputEvents(digit)) == []
  {
    HiddenPassesAt(1, -1, 0);
    HiddenPassesAt(1, -1, 1);
    assert HiddenPasses(1, -1) == [PropagateHidden(1), PropagateHidden(0)];
    UpdatedNone(SampleInputEvents(digit));
  }

  /** The schedule's targets, in order. */
  function Targets(steps: seq<Step>): (r: seq<nat>)
    ensures |r| == |steps| && forall t :: 0 <= t < |steps| ==> r[t] == steps[t].target
  {
    if steps == [] then [] else Targets(steps[..|steps| - 1]) + [steps[|steps| - 1].target]
  }

  /** The calls after `before` once one more schedule position has run. */
  lemma TrainEventsNext(before: seq<Event>, images: seq<seq<Mnist.byte>>, labels: seq<Mnist.byte>, steps: seq<Step>,
                        meanField: bool, draws: seq<seq<int>>, n: nat)
    requires TrainableSteps(images, labels, steps, meanField, draws) && n < |steps|
    ensures before + TrainEvents(images, labels, steps, meanField, draws, n + 1)
         == before + TrainEvents(images, labels, steps, meanField, draws, n) + [ScheduleStep(true)]
            + GreedyEvents(steps[n].target, meanField, Observation(images[steps[n].image], meanField, draws[n]),
                           TargetLabel(labels, steps[n].target, steps[n].image))
  {
  }

  /** A schedule position whose greedy step updates connection n adds n to the updated connections. */
  lemma UpdatedPosition(front: seq<Event>, greedy: seq<Event>, n: nat)
    requires Updated(greedy) == [n]
    ensures Updated(front + [ScheduleStep(true)] + greedy) == Updated(front) + [n]
  {
    UpdatedAppend(front + [ScheduleStep(true)], greedy);
    UpdatedAppend(front, [ScheduleStep(true)]);
    assert Updated([ScheduleStep(true)]) == [];
  }

  /** Training gives exactly one update step per schedule position, to that position's target connection. */
  lemma {:induction false} TrainUpdatesTargets(images: seq<seq<Mnist.byte>>, labels: seq<Mnist.byte>, steps: seq<Step>,
                                               meanField: bool, draws: seq<seq<int>>, n: nat)
    requires TrainableSteps(images, labels, steps, meanField, draws) && n <= |steps|
    ensures Updated(TrainEvents(images, labels, steps, meanField, draws, n)) == Targets(steps[..n])
  {
    if n > 0 {
      var s := steps[n - 1];
      var obs := Observation(images[s.image], meanField, draws[n - 1]);
      var digit := TargetLabel(labels, s.target, s.image);
      TrainUpdatesTargets(images, labels, steps, meanField, draws, n - 1);
      GreedyUpdated(s.target, meanField, obs, digit);
      UpdatedPosition(TrainEvents(images, labels, steps, meanField, draws, n - 1),
                      GreedyEvents(s.target, meanField, obs, digit), s.target);
      assert steps[..n][..n - 1] == steps[..n - 1];
    }
  }

  /** Two matrices of the same shape with the same entries are equal. */
  lemma RowsEqual(a: seq<seq<real>>, b: seq<seq<real>>, rows: nat, cols: nat)
    requires |a| == rows && |b| == rows
    requires forall j :: 0 <= j < rows ==> |a[j]| == cols && |b[j]| == cols
    requires forall j, k :: 0 <= j < rows && 0 <= k < cols ==> a[j][k] == b[j][k]
    ensures a == b
  {
    forall j | 0 <= j < rows
      ensures a[j] == b[j]
    {
    }
  }

  /**
   * Two layers share none of the vectors the network reads or writes: no
   * bias vector, and no vector of one layer's activity is one of the other's.
   */
  ghost predicate Separate(a: Layer, b: Layer)
  {
    && a.biases != b.biases
    && a.state != b.state && a.state != b.p && a.state != b.activation
    && a.p != b.state && a.p != b.p && a.p != b.activation
    && a.activation != b.state && a.activation != b.p && a.activation != b.activation
  }

  // ---------------------------------------------------------------------------
  // Connections
  // ---------------------------------------------------------------------------

  /** A connection between a lower and an upper layer, as far as this model sees it: its weight store. */
  class Connection {
    const lower: Layer
    const upper: Layer
    const weights: array2<real>

    ghost predicate Valid()
    {
      && lower.Valid() && upper.Valid()
      && weights.Length0 == upper.size && weights.Length1 == lower.size
    }

    /** Connection::Connection: the initial weights are not specified. */
    constructor(lower: Layer, upper: Layer)
      requires lower.Valid() && upper.Valid()
      ensures Valid() && this.lower == lower && this.upper == upper && fresh(weights)
    {
      this.lower := lower;
      this.upper := upper;
      weights := new real[upper.size, lower.size];
    }
  }

  /** Reads row j of connection c's weights from the records starting at `start`, unless the row is skipped. */
  method LoadWeightRow(weights: array2<real>, records: seq<Record>, c: nat, j: nat, start: nat) returns (next: nat)
    requires c < ConnectionCount && j < LayerSize(c + 1) && start + RowLength(c, j) <= |records|
    requires weights.Length0 == LayerSize(c + 1) && weights.Length1 == LayerSize(c)
    modifies weights
    ensures next == start + RowLength(c, j)
    ensures forall r, k :: 0 <= r < weights.Length0 && 0 <= k < weights.Length1 ==>
              weights[r, k] == if r == j && Emitted(c, j) then records[start + k].value else old(weights[r, k])
  {
    next := start;
    for k := 0 to weights.Length1
      invariant next == start + (if Emitted(c, j) then k else 0)
      invariant forall k' :: 0 <= k' < weights.Length1 ==>
                  weights[j, k'] == if k' < k && Emitted(c, j) then records[start + k'].value else old(weights[j, k'])
      invariant forall r, k' :: 0 <= r < weights.Length0 && r != j && 0 <= k' < weights.Length1 ==>
                  weights[r, k'] == old(weights[r, k'])
    {
      if c != 1 || j < 500 {
        weights[j, k] := records[next].value;
        next := next + 1;
      }
    }
  }

  /**
   * Reads connection c's weights, which hold those of `prior`, from the
   * records starting at `start`, the first of connection c's.
   */
  method LoadConnection(weights: array2<real>, ghost prior: Params, records: seq<Record>, c: nat, start: nat)
    returns (next: nat)
    requires c < ConnectionCount && |records| >= RecordCount() && start == ConnStart(c) && Shaped(prior)
    requires weights.Length0 == LayerSize(c + 1) && weights.Length1 == LayerSize(c)
    requires forall r, k :: 0 <= r < weights.Length0 && 0 <= k < weights.Length1 ==> weights[r, k] == prior.weights[c][r][k]
    modifies weights
    ensures next == ConnStart(c + 1)
    ensures forall r, k :: 0 <= r < weights.Length0 && 0 <= k < weights.Length1 ==>
              weights[r, k] == LoadedConnection(prior, records, c)[r][k]
  {
    next := start;
    for j := 0 to weights.Length0
      invariant next == ConnStart(c) + RowOffset(c, j)
      invariant forall r, k :: 0 <= r < j && 0 <= k < weights.Length1 ==>
                  weights[r, k] == LoadedConnection(prior, records, c)[r][k]
      invariant forall r, k :: j <= r < weights.Length0 && 0 <= k < weights.Length1 ==>
                  weights[r, k] == prior.weights[c][r][k]
    {
      RowOffsetStep(c, j);
      RowOffsetMono(c, j + 1, LayerSize(c + 1));
      WithinDump(c + 1);
      next := LoadWeightRow(weights, records, c, j, next);
      RowPositions(c, j);
    }
  }

  // ---------------------------------------------------------------------------
  // The network
  // ---------------------------------------------------------------------------

  /** The layer loop of Network::Network: layer i gets LayerSize(i) units, and only layer 2 is labeled. */
  method BuildLayers() returns (built: seq<Layer>)
    ensures |built| == LayerCount
    ensures forall i :: 0 <= i < LayerCount ==>
              built[i].Valid() && built[i].size == LayerSize(i) && built[i].labels == (i == 2)
    ensures forall i :: 0 <= i < LayerCount ==> fresh(built[i].Arrays())
    ensures forall i, i' :: 0 <= i < i' < LayerCount ==> Separate(built[i], built[i'])
  {
    var sizes := [784, 500, 510, 2000];
    built := [];
    for i := 0 to LayerCount
      invariant |built| == i
      invariant forall m :: 0 <= m < i ==>
                  built[m].Valid() && built[m].size == LayerSize(m) && built[m].labels == (m == 2)
      invariant forall m :: 0 <= m < i ==> fresh(built[m].Arrays())
      invariant forall m, m' :: 0 <= m < m' < i ==> Separate(built[m], built[m'])
    {
      var layer := new Layer(sizes[i], i == 2);
      built := built + [layer];
    }
  }

  /** The connection loop of Network::Network: connection c joins layer c to layer c + 1. */
  method LinkLayers(built: seq<Layer>) returns (linked: seq<Connection>)
    requires |built| == LayerCount && forall i :: 0 <= i < LayerCount ==> built[i].Valid()
    ensures |linked| == ConnectionCount
    ensures forall c :: 0 <= c < ConnectionCount ==>
              linked[c].lower == built[c] && linked[c].upper == built[c + 1] && linked[c].Valid()
    ensures forall c :: 0 <= c < ConnectionCount ==> fresh(linked[c].weights)
    ensures forall c, c' :: 0 <= c < c' < ConnectionCount ==> linked[c].weights != linked[c'].weights
  {
    linked := [];
    for c := 0 to ConnectionCount
      invariant |linked| == c
      invariant forall m :: 0 <= m < c ==>
                  linked[m].lower == built[m] && linked[m].upper == built[m + 1] && linked[m].Valid()
      invariant forall m :: 0 <= m < c ==> fresh(linked[m].weights)
      invariant forall m, m' :: 0 <= m < m' < c ==> linked[m].weights != linked[m'].weights
    {
      var connection := new Connection(built[c], built[c + 1]);
      linked := linked + [connection];
    }
  }

  class Network {
    const layers: seq<Layer>
    const connections: seq<Connection>
    var meanField: bool
    var trace: seq<Event>

    /** The fixed topology: sizes, the one labeled layer, adjacency, and storage that is never shared. */
    ghost predicate Valid()
    {
      && |layers| == LayerCount && |connections| == ConnectionCount
      && (forall i :: 0 <= i < LayerCount ==>
            layers[i].Valid() && layers[i].size == LayerSize(i) && layers[i].labels == (i == 2))
      && (forall i, i' :: 0 <= i < i' < LayerCount ==> Separate(layers[i], layers[i']))
      && (forall c :: 0 <= c < ConnectionCount ==>
            connections[c].lower == layers[c] && connections[c].upper == layers[c + 1] && connections[c].Valid())
      && (forall c, c' :: 0 <= c < c' < ConnectionCount ==> connections[c].weights != connections[c'].weights)
    }

    /** Network::Network: four layers of 784, 500, 510 and 2000 units, only the third labeled, in mean-field mode. */
    constructor()
      ensures Valid() && meanField && trace == [AttachMonitor]
      ensures forall i :: 0 <= i < LayerCount ==> fresh(layers[i].Arrays())
      ensures forall c :: 0 <= c < ConnectionCount ==> fresh(connections[c].weights)
    {
      var built := BuildLayers();
      var linked := LinkLayers(built);
      layers := built;
      connections := linked;
      meanField := true;
      trace := [AttachMonitor];
    }

    /** The snapshot is determined by the bias vectors and the weight matrices. */
    lemma SnapshotOf(b: seq<seq<real>>, w: seq<seq<seq<real>>>)
      requires Valid() && |b| == LayerCount && |w| == ConnectionCount
      requires forall i :: 0 <= i < LayerCount ==> layers[i].biases[..] == b[i]
      requires forall c :: 0 <= c < ConnectionCount ==> ConnectionWeights(c) == w[c]
      ensures Snapshot() == Params(b, w)
    {
      var p := Snapshot();
      assert p.biases == b;
      assert p.weights == w;
    }

    /** Every array holding a bias. */
    ghost function BiasArrays(): set<object>
      requires Valid()
    {
      {layers[0].biases, layers[1].biases, layers[2].biases, layers[3].biases}
    }

    /** Every array holding a weight. */
    ghost function WeightArrays(): set<object>
      requires Valid()
    {
      {connections[0].weights, connections[1].weights, connections[2].weights}
    }

    /** The biases and weights the network holds. */
    ghost function Snapshot(): (p: Params)
      requires Valid()
      reads BiasArrays(), WeightArrays()
      ensures Shaped(p)
      ensures forall i :: 0 <= i < LayerCount ==> p.biases[i] == layers[i].biases[..]
      ensures forall c :: 0 <= c < ConnectionCount ==> p.weights[c] == ConnectionWeights(c)
    {
      var biasArrays, weightArrays := BiasArrays(), WeightArrays();
      Params(
        seq(LayerCount, i requires 0 <= i < LayerCount reads biasArrays => layers[i].biases[..]),
        seq(ConnectionCount, c requires 0 <= c < ConnectionCount reads weightArrays => ConnectionWeights(c)))
    }

    /**
     * Network::greedily_train_layer: load the example into the input layer,
     * propagate it up through connections 0 to n - 1, clamp the example's
     * label on layer 2 when n is 2, and give connection n an update step.
     * The propagations and the update step may change the vectors of the
     * layers and the weights of connection n; the weights of every other
     * connection are frozen. Layer 0 keeps the example unless connection 0
     * is the one trained, whose update step reconstructs it.
     */
    method GreedilyTrainLayer(data: Mnist.Dataset, n: nat, image: nat, draws: seq<int>)
      requires Valid() && n < ConnectionCount
      requires image < |data.imageData| && |data.imageData[image]| == data.Width() == InputUnits
      requires n == 2 ==> image < |data.labels|
      requires !meanField ==> |draws| == InputUnits && forall i :: 0 <= i < InputUnits ==> 0 <= draws[i] < 255
      modifies this`trace, layers[0].Arrays(), layers[1].Arrays(), layers[2].Arrays(), layers[3].Arrays(),
               connections[n].weights
      ensures trace == old(trace + GreedyEvents(n, meanField, Observation(data.imageData[image], meanField, draws),
                                                TargetLabel(data.labels, n, image)))
      ensures n > 0 ==> layers[0].state[..] == old(Observation(data.imageData[image], meanField, draws))
    {
      PresentExample(data, n, image, draws);
      trace := trace + [PerformUpdateStep(n)];
    }

    /**
     * Everything greedily_train_layer does before the update step: the
     * example becomes layer 0's state, is propagated up to layer n, and on
     * layer 2 gets its label clamped.
     */
    method PresentExample(data: Mnist.Dataset, n: nat, image: nat, draws: seq<int>)
      requires Valid() && n < ConnectionCount
      requires image < |data.imageData| && |data.imageData[image]| == data.Width() == InputUnits
      requires n == 2 ==> image < |data.labels|
      requires !meanField ==> |draws| == InputUnits && forall i :: 0 <= i < InputUnits ==> 0 <= draws[i] < 255
      modifies this`trace, layers[0].state, layers[1].Activity(), layers[2].Activity()
      ensures trace == old(trace + PresentEvents(n, meanField, Observation(data.imageData[image], meanField, draws),
                                                 TargetLabel(data.labels, n, image)))
      ensures layers[0].state[..] == old(Observation(data.imageData[image], meanField, draws))
    {
      ghost var obs, digit := Observation(data.imageData[image], meanField, draws), TargetLabel(data.labels, n, image);
      LoadExample(data, image, draws);
      InputApart();
      PropagateUp(n, false);
      if n == 2 {
        ClampLabel(data, image);
      }
      PresentEventsSplit(old(trace), n, meanField, obs, digit);
    }

    /**
     * The opening of greedily_train_layer: the example, intensities in
     * mean-field mode and thresholded pixels otherwise, becomes the input
     * layer's state.
     */
    method LoadExample(data: Mnist.Dataset, image: nat, draws: seq<int>)
      requires Valid()
      requires image < |data.imageData| && |data.imageData[image]| == data.Width() == InputUnits
      requires !meanField ==> |draws| == InputUnits && forall i :: 0 <= i < InputUnits ==> 0 <= draws[i] < 255
      modifies this`trace, layers[0].state
      ensures trace == old(trace + [StateSet(0, Observation(data.imageData[image], meanField, draws))])
      ensures layers[0].state[..] == old(Observation(data.imageData[image], meanField, draws))
    {
      var input := new real[layers[0].Size(false)];
      if meanField {
        data.GetState(input, image);
      } else {
        data.GetSample(input, image, draws);
      }
      assert input[..] == Observation(data.imageData[image], meanField, draws);
      layers[0].SetState(input);
      trace := trace + [StateSet(0, input[..])];
    }

    /** The labeled case of greedily_train_layer: layer 2's label block is clamped to the image's label. */
    method ClampLabel(data: Mnist.Dataset, image: nat)
      requires Valid() && image < |data.labels|
      modifies this`trace, layers[2].state
      ensures trace == old(trace + [LabelSet(2, data.labels[image])])
      ensures layers[2].state[..500] == old(layers[2].state[..500])
      ensures layers[2].state[500..] == old(OneHot(data.labels[image]))
    {
      var digit := data.GetLabel(image);
      layers[2].SetLabel(digit);
      trace := trace + [LabelSet(2, digit)];
    }

    /** The input layer's state is none of the vectors a propagation writes. */
    lemma InputApart()
      requires Valid()
      ensures layers[0].state !in layers[1].Activity() && layers[0].state !in layers[2].Activity()
    {
      assert Separate(layers[0], layers[1]) && Separate(layers[0], layers[2]);
    }

    /**
     * The upward pass of greedily_train_layer and classify: connections 0 to
     * n - 1 propagate the observation, in ascending order. Propagating
     * through connection i writes the activity of layer i + 1, so layers 1
     * to n may change and layer 0 does not.
     */
    method PropagateUp(n: nat, nullRng: bool)
      requires Valid() && n < ConnectionCount
      modifies this`trace, (if n > 0 then layers[1].Activity() else {}), (if n > 1 then layers[2].Activity() else {})
      ensures trace == old(trace) + Propagations(n, nullRng, meanField)
    {
      for i := 0 to n
        invariant trace == old(trace) + Propagations(i, nullRng, meanField)
        modifies this`trace
      {
        trace := trace + [PropagateObservation(i, nullRng, meanField)];
      }
    }

    /**
     * Network::train: log the start, reset the schedule, then give each
     * position the schedule yields one greedy step on its target layer; the
     * schedule's last step() answers false.
     */
    method Train(data: Mnist.Dataset, steps: seq<Step>, draws: seq<seq<int>>)
      requires Valid() && data.Width() == InputUnits
      requires TrainableSteps(data.imageData, data.labels, steps, meanField, draws)
      modifies this`trace, layers[0].Arrays(), layers[1].Arrays(), layers[2].Arrays(), layers[3].Arrays(),
               connections[0].weights, connections[1].weights, connections[2].weights
      ensures trace == old(trace) + [LogEvent(TrainingStarted), ScheduleReset]
                       + TrainEvents(data.imageData, data.labels, steps, meanField, draws, |steps|)
                       + [ScheduleStep(false)]
    {
      trace := trace + [LogEvent(TrainingStarted), ScheduleReset];
      TrainPositions(data, steps, draws);
      trace := trace + [ScheduleStep(false)];
    }

    /** The loop of train: one greedy step per schedule position, in order. */
    method TrainPositions(data: Mnist.Dataset, steps: seq<Step>, draws: seq<seq<int>>)
      requires Valid() && data.Width() == InputUnits
      requires TrainableSteps(data.imageData, data.labels, steps, meanField, draws)
      modifies this`trace, layers[0].Arrays(), layers[1].Arrays(), layers[2].Arrays(), layers[3].Arrays(),
               connections[0].weights, connections[1].weights, connections[2].weights
      ensures trace == old(trace + TrainEvents(data.imageData, data.labels, steps, meanField, draws, |steps|))
    {
      ghost var images, labels, mf := data.imageData, data.labels, meanField;
      for t := 0 to |steps|
        invariant data.imageData == images && data.labels == labels && meanField == mf
        invariant trace == old(trace) + TrainEvents(images, labels, steps, mf, draws, t)
      {
        TrainStep(data, steps, draws, t);
        TrainEventsNext(old(trace), images, labels, steps, mf, draws, t);
      }
    }

    /** One pass of train's loop: step() answers true, then the position's greedy step. */
    method TrainStep(data: Mnist.Dataset, steps: seq<Step>, draws: seq<seq<int>>, t: nat)
      requires Valid() && data.Width() == InputUnits
      requires TrainableSteps(data.imageData, data.labels, steps, meanField, draws) && t < |steps|
      modifies this`trace, layers[0].Arrays(), layers[1].Arrays(), layers[2].Arrays(), layers[3].Arrays(),
               connections[steps[t].target].weights
      ensures trace == old(trace) + [ScheduleStep(true)]
                       + GreedyEvents(steps[t].target, meanField,
                                      Observation(data.imageData[steps[t].image], meanField, draws[t]),
                                      TargetLabel(data.labels, steps[t].target, steps[t].image))
    {
      trace := trace + [ScheduleStep(true)];
      GreedilyTrainLayer(data, steps[t].target, steps[t].image, draws[t]);
    }

    /**
     * Network::classify: clamp the observation on the input layer, propagate
     * it through connections 0 and 1 with a null random source, and answer
     * connection 2's find_label, which is the lower layer's
     * most_probable_label as written. The propagations may change the
     * vectors of layers 1 and 2.
     */
    method Classify(observations: array<real>) returns (digit: nat)
      requires Valid() && observations.Length == InputUnits
      modifies this`trace, layers[0].state, layers[1].Activity(), layers[2].Activity()
      ensures trace == old(trace) + ClassifyEvents(old(observations[..]), meanField)
      ensures layers[0].state[..] == old(observations[..])
      ensures digit < LabelUnits && digit == ArgmaxFirst(SeededCandidates(layers[2].p[..]))
    {
      var obs := observations[..];
      layers[0].SetState(observations);
      trace := trace + [StateSet(0, obs)];
      InputApart();
      PropagateUp(2, true);
      trace := trace + [FindLabel(2)];
      ClassifyEventsSplit(old(trace), obs, meanField);
      digit := layers[2].MostProbableLabel();
    }

    /**
     * Network::sample_input: activate the top layer from its biases, run the
     * top connection's Gibbs sampler with the label fixed, then propagate
     * downwards through the remaining connections, top to bottom.
     */
    method SampleInput(exp: real -> real, digit: int)
      requires Valid() && forall x :: exp(x) > 0.0
      modifies this`trace, layers[0].Arrays(), layers[1].Arrays(), layers[2].Arrays(), layers[3].Arrays()
      ensures trace == old(trace) + SampleInputEvents(digit)
    {
      ActivateTop(exp);
      trace := trace + [SampleLayer(ConnectionCount - 1, GibbsIterations, digit)];
      ghost var start := trace;
      var i: int := LayerCount - 3;
      while i >= 0
        invariant -1 <= i <= LayerCount - 3
        invariant trace == start + HiddenPasses(LayerCount - 3, i)
        modifies this`trace
      {
        trace := trace + [PropagateHidden(i)];
        i := i - 1;
      }
    }

    /**
     * The opening of sample_input: the top layer's p is the logistic of its
     * biases. The Gibbs sampler that follows resamples the top pair, so this
     * holds only up to that call.
     */
    method ActivateTop(exp: real -> real)
      requires Valid() && forall x :: exp(x) > 0.0
      modifies this`trace, layers[LayerCount - 1].p
      ensures trace == old(trace) + [ActivatedFromBias(LayerCount - 1)]
      ensures forall u :: 0 <= u < LayerSize(3) ==>
                layers[3].p[u] == Logistic(exp(-layers[3].biases[u])) && 0.0 < layers[3].p[u] < 1.0
    {
      layers[LayerCount - 1].ActivateFromBias(exp);
      trace := trace + [ActivatedFromBias(LayerCount - 1)];
    }

    /**
     * Network::run_step: step type 0 trains the target layer greedily, 1
     * classifies the active image, 2 fine-tunes on it, 3 generates an input
     * for the active label; any other type does nothing.
     */
    method RunStep(data: Mnist.Dataset, stepType: int, target: nat, image: nat, activeLabel: int,
                   draws: seq<int>, exp: real -> real)
      requires Valid() && forall x :: exp(x) > 0.0
      requires 0 <= stepType <= 2 ==>
                 image < |data.imageData| && |data.imageData[image]| == data.Width() == InputUnits
      requires stepType == 0 ==> target < ConnectionCount && (target == 2 ==> image < |data.labels|)
      requires stepType == 0 && !meanField ==>
                 |draws| == InputUnits && forall i :: 0 <= i < InputUnits ==> 0 <= draws[i] < 255
      modifies this`trace, layers[0].Arrays(), layers[1].Arrays(), layers[2].Arrays(), layers[3].Arrays(),
               connections[0].weights, connections[1].weights, connections[2].weights
      ensures stepType == 0 ==>
                trace == old(trace) + GreedyEvents(target, meanField, Observation(data.imageData[image], meanField, draws),
                                                   TargetLabel(data.labels, target, image))
      ensures stepType == 1 ==> trace == old(trace) + ClassifyEvents(Observation(data.imageData[image], true, []), meanField)
      ensures stepType == 2 ==> trace == old(trace) + [FineTune(Observation(data.imageData[image], true, []), image)]
      ensures stepType == 3 ==> trace == old(trace) + SampleInputEvents(activeLabel)
      ensures !(0 <= stepType <= 3) ==> trace == old(trace)
      ensures !(0 <= stepType <= 3) ==>
                unchanged(layers[0].Arrays(), layers[1].Arrays(), layers[2].Arrays(), layers[3].Arrays(),
                          connections[0].weights, connections[1].weights, connections[2].weights)
      ensures stepType == 1 || stepType == 3 ==> unchanged(connections[0].weights, connections[1].weights, connections[2].weights)
    {
      if stepType == 0 {
        GreedilyTrainLayer(data, target, image, draws);
      } else if stepType == 1 {
        ClassifyActive(data, image);
      } else if stepType == 2 {
        FineTuneActive(data, image);
      } else if stepType == 3 {
        SampleInput(exp, activeLabel);
      }
    }

    /** Step type 1 of run_step: the active image, in intensities, is classified. */
    method ClassifyActive(data: Mnist.Dataset, image: nat)
      requires Valid() && image < |data.imageData| && |data.imageData[image]| == data.Width() == InputUnits
      modifies this`trace, layers[0].state, layers[1].Activity(), layers[2].Activity()
      ensures trace == old(trace + ClassifyEvents(Observation(data.imageData[image], true, []), meanField))
    {
      var input := new real[InputUnits];
      data.GetState(input, image);
      assert input[..] == Observation(data.imageData[image], true, []);
      var _ := Classify(input);
    }

    /**
     * Step type 2 of run_step: fine_tune on the active image, in
     * intensities, with the image index as its label argument. Fine-tuning
     * is not modelled, so any layer vector and any weight may change.
     */
    method FineTuneActive(data: Mnist.Dataset, image: nat)
      requires Valid() && image < |data.imageData| && |data.imageData[image]| == data.Width() == InputUnits
      modifies this`trace, layers[0].Arrays(), layers[1].Arrays(), layers[2].Arrays(), layers[3].Arrays(),
               connections[0].weights, connections[1].weights, connections[2].weights
      ensures trace == old(trace + [FineTune(Observation(data.imageData[image], true, []), image)])
    {
      var input := new real[InputUnits];
      data.GetState(input, image);
      assert input[..] == Observation(data.imageData[image], true, []);
      trace := trace + [FineTune(input[..], image)];
    }

    /** The records of layer i's biases, unit by unit. */
    method DumpBiasRow(ghost p: Params, i: nat) returns (row: seq<Record>)
      requires Valid() && p == Snapshot() && i < LayerCount
      ensures row == BiasRow(p, i)
    {
      row := [];
      for j := 0 to LayerSize(i)
        invariant row == BiasRow(p, i)[..j]
      {
        assert BiasRow(p, i)[..j + 1] == BiasRow(p, i)[..j] + [BiasRecord(i, j, layers[i].biases[j])];
        row := row + [BiasRecord(i, j, layers[i].GetBias(j))];
      }
    }

    /** The records of row j of connection c, column by column; none when the row is skipped. */
    method DumpWeightRow(ghost p: Params, c: nat, j: nat) returns (row: seq<Record>)
      requires Valid() && p == Snapshot() && c < ConnectionCount && j < LayerSize(c + 1)
      ensures row == WeightRow(p, c, j)
    {
      var weights := connections[c].weights;
      row := [];
      for k := 0 to LayerSize(c)
        invariant row == WeightRow(p, c, j)[..if Emitted(c, j) then k else 0]
      {
        if c != 1 || j < 500 {
          assert WeightRow(p, c, j)[..k + 1] == WeightRow(p, c, j)[..k] + [WeightRecord(c, j, k, weights[j, k])];
          row := row + [WeightRecord(c, j, k, weights[j, k])];
        }
      }
    }

    /** The records of connection c, row by row. */
    method DumpConnection(ghost p: Params, c: nat) returns (rows: seq<Record>)
      requires Valid() && p == Snapshot() && c < ConnectionCount
      ensures rows == ConnRecords(p, c, LayerSize(c + 1))
    {
      rows := [];
      for j := 0 to LayerSize(c + 1)
        invariant rows == ConnRecords(p, c, j)
      {
        var row := DumpWeightRow(p, c, j);
        rows := rows + row;
      }
    }

    /** The first half of dump_states: every bias, layer by layer. */
    method DumpBiases(ghost p: Params) returns (records: seq<Record>)
      requires Valid() && p == Snapshot()
      ensures records == BiasRecords(p, LayerCount)
    {
      records := [];
      for i := 0 to LayerCount
        invariant records == BiasRecords(p, i)
      {
        var row := DumpBiasRow(p, i);
        records := records + row;
      }
    }

    /** The second half of dump_states: every weight of the dumped rows, connection by connection. */
    method DumpWeights(ghost p: Params) returns (records: seq<Record>)
      requires Valid() && p == Snapshot()
      ensures records == WeightRecords(p, ConnectionCount)
    {
      records := [];
      for c := 0 to ConnectionCount
        invariant records == WeightRecords(p, c)
      {
        var rows := DumpConnection(p, c);
        records := records + rows;
      }
    }

    /**
     * Network::dump_states: every bias, layer by layer, then every weight,
     * connection by connection and row by row, skipping rows 500 and up of
     * connection 1.
     */
    method DumpStates() returns (records: seq<Record>)
      requires Valid()
      ensures records == DumpRecords(Snapshot())
      ensures |records| == RecordCount()
    {
      ghost var p := Snapshot();
      var biasPart := DumpBiases(p);
      var weightPart := DumpWeights(p);
      records := biasPart + weightPart;
      DumpLength(p);
    }

    /** Reads layer i's biases from the records starting at `start`, the first of layer i's. */
    method LoadBiasRow(records: seq<Record>, i: nat, start: nat) returns (next: nat)
      requires Valid() && i < LayerCount && |records| >= RecordCount() && start == BiasStart(i)
      modifies layers[i].biases
      ensures next == BiasStart(i + 1)
      ensures layers[i].biases[..] == LoadedBiases(records)[i]
    {
      next := start;
      for j := 0 to LayerSize(i)
        invariant next == BiasStart(i) + j
        invariant forall u :: 0 <= u < j ==> layers[i].biases[u] == records[Position(BiasSlot(i, u))].value
      {
        assert next == Position(BiasSlot(i, j));
        layers[i].SetBias(j, records[next].value);
        next := next + 1;
      }
    }

    /** The first half of load_states: every bias, layer by layer; the weights keep those of `prior`. */
    method LoadBiases(ghost prior: Params, records: seq<Record>) returns (next: nat)
      requires Valid() && |records| >= RecordCount() && |prior.weights| == ConnectionCount
      requires forall c :: 0 <= c < ConnectionCount ==> ConnectionWeights(c) == prior.weights[c]
      modifies BiasArrays()
      ensures next == BiasStart(LayerCount)
      ensures Snapshot() == Params(LoadedBiases(records), prior.weights)
    {
      next := 0;
      for i := 0 to LayerCount
        invariant next == BiasStart(i)
        invariant forall m :: 0 <= m < i ==> layers[m].biases[..] == LoadedBiases(records)[m]
      {
        next := LoadBiasRow(records, i, next);
      }
      SnapshotOf(LoadedBiases(records), prior.weights);
    }

    /** The part of load_states that reads connection c, whose weights hold those of `prior`. */
    method LoadConnectionWeights(ghost prior: Params, records: seq<Record>, c: nat, start: nat) returns (next: nat)
      requires Valid() && Shaped(prior) && |records| >= RecordCount() && c < ConnectionCount && start == ConnStart(c)
      requires ConnectionWeights(c) == prior.weights[c]
      modifies connections[c].weights
      ensures next == ConnStart(c + 1)
      ensures ConnectionWeights(c) == LoadedConnection(prior, records, c)
    {
      next := LoadConnection(connections[c].weights, prior, records, c, start);
      RowsEqual(ConnectionWeights(c), LoadedConnection(prior, records, c), LayerSize(c + 1), LayerSize(c));
    }

    /** The second half of load_states: every weight of the dumped rows, connection by connection. */
    method LoadWeights(ghost prior: Params, records: seq<Record>, start: nat)
      requires Valid() && Shaped(prior) && |records| >= RecordCount() && start == ConnStart(0)
      requires forall i :: 0 <= i < LayerCount ==> layers[i].biases[..] == prior.biases[i]
      requires forall c :: 0 <= c < ConnectionCount ==> ConnectionWeights(c) == prior.weights[c]
      modifies WeightArrays()
      ensures Snapshot() == Params(prior.biases, LoadedWeights(prior, records))
    {
      var pos := start;
      for c := 0 to ConnectionCount
        invariant pos == ConnStart(c)
        invariant forall m :: 0 <= m < c ==> ConnectionWeights(m) == LoadedConnection(prior, records, m)
        invariant forall m :: c <= m < ConnectionCount ==> ConnectionWeights(m) == prior.weights[m]
      {
        pos := LoadConnectionWeights(prior, records, c, pos);
      }
      SnapshotOf(prior.biases, LoadedWeights(prior, records));
    }

    /**
     * Network::load_states: read the records in dump order into every bias
     * and every weight of the dumped rows. The value at each slot's position
     * is taken; its kind and indices are not compared with the slot.
     */
    method LoadStates(records: seq<Record>)
      requires Valid() && |records| >= RecordCount()
      modifies BiasArrays(), WeightArrays()
      ensures Snapshot() == LoadRecords(old(Snapshot()), records)
    {
      ghost var prior := Snapshot();
      var pos := LoadBiases(prior, records);
      ghost var loaded := Params(LoadedBiases(records), prior.weights);
      LoadWeights(loaded, records, pos);
      LoadedWeightsKeep(loaded, prior, records);
    }

    /** The weights of connection c, row by row. */
    ghost function ConnectionWeights(c: nat): (w: seq<seq<real>>)
      requires Valid() && c < ConnectionCount
      reads connections[c].weights
      ensures |w| == LayerSize(c + 1) && forall j :: 0 <= j < LayerSize(c + 1) ==> |w[j]| == LayerSize(c)
      ensures forall j, k :: 0 <= j < LayerSize(c + 1) && 0 <= k < LayerSize(c) ==> w[j][k] == connections[c].weights[j, k]
    {
      var weights := connections[c].weights;
      seq(LayerSize(c + 1), j requires 0 <= j < LayerSize(c + 1) reads weights =>
        seq(LayerSize(c), k requires 0 <= k < LayerSize(c) reads weights => weights[j, k]))
    }
  }
}
