# Deep belief network bookkeeping, modelled in Dafny

This project models the deterministic core of a stacked-RBM deep belief
network trained on MNIST: the layer's unit vectors, the network's topology
and call sequencing, the parameter dump/load record layout, and the MNIST
IDX file reader.

- `layer.dfy` (module `Layers`) models `Layer` from `src/layer.cc`.
  It is a class over six `array<real>` buffers: biases, downward biases,
  deltas, state, p and activation. The label-stripped views are a buffer
  together with a length. The class covers:
  - the categorical label draw over the 10-unit label block;
  - Bernoulli commitment of the other units;
  - one-hot label clamping;
  - bias/delta commit and reset, and state copy and transfer;
  - the argmax label read-out.

  `exp` is a parameter, any function that is everywhere positive. The
  uniform draws of the random generator are parameters too.
- `dataset.dfy` (module `Mnist`) models `MnistDataset` from
  `src/mnist_dataset.cc`:
  - the big-endian header words that `__builtin_bswap32` decodes;
  - the 16-byte images header and the 8-byte labels header;
  - row-major pixel offsets;
  - the 1/255 scaling and the draw threshold for pixels.

  A reference encoder of the images file gives the reader a round trip.
- `layout.dfy` (module `Persistence`) is the positional record layout that
  `Network::dump_states` writes and `Network::load_states` reads:
  - biases layer by layer, then weights connection by connection, row by
    row;
  - rows 500 and up of connection 1 (the label rows of layer 2) are
    skipped.

  It proves a position for every slot, that positions follow the write
  order and are onto the dump, and that loading a dump restores it.
- `network.dfy` (module `Net`) models `Network` from `src/network.cc`:
  - the fixed topology of layers 784/500/510/2000, with only layer 2
    labeled and connection c linking layer c to layer c+1;
  - `greedily_train_layer`, `train`, `classify`, `sample_input`,
    `run_step`, `dump_states` and `load_states`.

  Connection, Schedule and Monitor have no bodies in the model. Each of
  their calls is an `Event` appended to the network's `trace`. Connection
  keeps only its two layers and its weight matrix, which `dump_states`
  reads and `load_states` writes. The lemmas then state the frozen-layer
  rule and the call orders over the trace.

## Model

| member | source | states |
|---|---|---|
| Layers.Layer.constructor | src/layer.cc:8-22 | The six buffers are fresh and of length `size`; biases and downward biases start at zero; the layer keeps its size and labeled flag. |
| Layers.Layer.Size | src/layer.cc:33-40 | The effective width is the full size exactly when `ext` holds or the layer is unlabeled, otherwise it is the size minus the 10 label units. |
| Layers.Layer.State | src/layer.cc:50-57 | The state view is the full state buffer, seen through the effective width, so a write through the view is a write to the buffer at the same index. |
| Layers.Layer.Activation | src/layer.cc:59-66 | The activation view is the activation buffer with the effective width. |
| Layers.Layer.P | src/layer.cc:68-75 | The p view is the p buffer with the effective width. |
| Layers.Layer.Biases | src/layer.cc:77-84 | The biases view is the bias buffer with the effective width. |
| Layers.Layer.Deltas | src/layer.cc:86-93 | The deltas view is the delta buffer with the effective width. |
| Layers.Layer.GetBias | src/layer.cc:42-44 | Returns bias i. |
| Layers.Layer.SetBias | src/layer.cc:46-48 | Bias i becomes v and every other bias is unchanged. |
| Layers.Layer.ResetDeltas | src/layer.cc:95-98 | Every delta, label block included, becomes 0; no other buffer changes. |
| Layers.Layer.CommitDeltas | src/layer.cc:100-102 | Each bias becomes its old value plus its delta; only the biases change. |
| Layers.Layer.Transfer | src/layer.cc:104-106 | The state becomes a copy of p; only the state changes. |
| Layers.Layer.SetState | src/layer.cc:141-143 | The state becomes a copy of the given vector; only the state changes. |
| Layers.Layer.ActivateFromBias | src/layer.cc:145-150 | Every unit's p is the logistic of its bias, so it lies strictly between 0 and 1. |
| Layers.Layer.SetLabel | src/layer.cc:152-161 | The label block becomes the one-hot code of the label (all zero when the label is outside 0..9); the units below it are unchanged. |
| Layers.Layer.Sample | src/layer.cc:108-139 | Every non-label unit is 1 exactly when its draw is below its p, else 0. With `ext` on a labeled layer, the label block is the one-hot code of the drawn label. Otherwise the label block is unchanged. |
| Layers.Layer.SampleLabelBlock | src/layer.cc:109-130 | The labeled branch: the label block becomes the one-hot code of the label drawn from `exp(activation)`, and the units below it keep their state. |
| Layers.DrawLabel | src/layer.cc:118-124 | The loop's answer is the drawn label: the first index whose cumulative share reaches the draw, with 9 as the fallback. |
| Layers.DrawnLabel | src/layer.cc:118-124 | The drawn label is in range. Every earlier cumulative share is below the draw, and the chosen one reaches it unless it is the fallback last index. |
| Layers.FirstReaching | src/layer.cc:119-124 | Searching from a given index keeps the same first-reaching characterisation. |
| Layers.DrawnLabelUnique | src/layer.cc:118-124 | Any index with the first-reaching property is the drawn label, so the characterisation determines the answer. |
| Layers.CumulativeIsPrefixShare | src/layer.cc:120-123 | The running `cumulative` after n steps equals the sum of the first n+1 weights divided by the norm. |
| Layers.SumOfPositive | src/layer.cc:111-116 | The norm of positive weights is positive. |
| Layers.DrawnLabelInterval | src/layer.cc:110-126 | With the weights `exp(activation)` and a draw in [0,1), the drawn label's cumulative interval contains the draw: its own share reaches it and the previous one does not. |
| Layers.LabelWeights | src/layer.cc:112-116 | The 10 label weights are `exp` of the label-block activations, all positive, with a positive sum. |
| Layers.OneHot | src/layer.cc:152-161 | The label code has 10 entries, each 0 or 1, and entry i is 1 exactly when i is the label. |
| Layers.OneHotCount | src/layer.cc:152-161 | The code has exactly one 1 for a label in 0..9 and none otherwise. |
| Layers.CountOnesIndicator | src/layer.cc:153-160 | An indicator vector counts one 1 exactly when its index is in range. |
| Layers.Bernoulli | src/layer.cc:137 | A committed unit is 0 or 1, and 1 exactly when the draw is below the probability. |
| Layers.Logistic | src/layer.cc:147 | `1 / (1 + e)` with e positive lies strictly between 0 and 1. |
| Layers.ArgmaxFirst | src/layer.cc:166-171 | The read-out index is in range, is a maximum, and every earlier entry is strictly smaller (a strict `>` scan keeps the first maximum). |
| Layers.ArgmaxFirstUnique | src/layer.cc:166-171 | Any index that is a maximum with all earlier entries strictly smaller is the read-out. |
| Layers.ArgmaxFirstOrderInvariant | src/layer.cc:166-171 | The read-out depends only on the order of the entries, not on their values. |
| Layers.SeededCandidates | src/layer.cc:164-169 | The candidates the loop compares are `p[0]` for offset 0 and `p[500+m]` for offsets 1..9. |
| Layers.Layer.MostProbableLabel | src/layer.cc:163-173 | As written: returns an offset in 0..9, the first maximum of `p[0], p[501..509]`. |
| Layers.SeedDefectWitness | src/layer.cc:164-165 | A 510-unit p for which the code as written answers 0 while the label block's first maximum is offset 9. |
| Layers.Layer.LabelReadout | src/layer.cc:163-173 | Corrected read-out: the offset in 0..9 of the first maximum of the label block `p[size-10..size)`. |
| Layers.ReadoutPeakExample | src/layer.cc:166-171 | A label block whose only peak is offset 9 reads out 9. |
| Layers.SeededReadoutAgrees | src/layer.cc:164-171 | When `p[0]` equals `p[500]`, the as-written read-out and the label block's first maximum give the same label. |
| Mnist.HostWord | src/mnist_dataset.cc:24-27 | Four bytes read into an int32 on a little-endian host form a word below 2^32. |
| Mnist.BigEndianWord | src/mnist_dataset.cc:29-32 | The big-endian value of four bytes is below 2^32. |
| Mnist.Bswap32 | src/mnist_dataset.cc:29-32 | Byte reversal maps 32-bit words to 32-bit words. |
| Mnist.WordFromBytes | src/mnist_dataset.cc:24-27 | Every 32-bit word is the host word of its four bytes. |
| Mnist.BytesOfHostWord | src/mnist_dataset.cc:24-27 | The bytes of a host word are the bytes it was read from. |
| Mnist.BswapOfHostWord | src/mnist_dataset.cc:29-32 | Byte-swapping a word read on a little-endian host gives the big-endian value of the file's bytes. |
| Mnist.Bswap32Involutive | src/mnist_dataset.cc:29-32 | Swapping twice gives the word back. |
| Mnist.Int32 | src/mnist_dataset.cc:20-32 | Storing a word in `int32_t` gives a value in [-2^31, 2^31), non-negative exactly when the word is below 2^31. |
| Mnist.Word | src/mnist_dataset.cc:24-32 | A header field is the signed big-endian word of the four bytes at its offset. |
| Mnist.ReadImage | src/mnist_dataset.cc:36-39 | The byte-by-byte loop reads exactly the `width` bytes from the start offset. |
| Mnist.ReadImages | src/mnist_dataset.cc:34-40 | Image i, pixel j is the byte at offset 16 + i*width + j. |
| Mnist.ImagesOfUnique | src/mnist_dataset.cc:34-40 | The pixel layout determines the images, so two readings of one file agree. |
| Mnist.FlattenAt | src/mnist_dataset.cc:34-40 | In images laid end to end, image i pixel j sits at i*width + j. |
| Mnist.FlattenLength | src/mnist_dataset.cc:34-40 | Images laid end to end take count*width bytes. |
| Mnist.BigEndianBytes | src/mnist_dataset.cc:29-32 | A header word is written as four bytes. |
| Mnist.EncodeImages | src/mnist_dataset.cc:19-40 | An encoded images file is the 16-byte header followed by count*rows*cols pixels. |
| Mnist.WordOfBigEndianBytes | src/mnist_dataset.cc:24-32 | The reader decodes a written non-negative word back to itself. |
| Mnist.EncodedHeader | src/mnist_dataset.cc:24-32 | The four header words of an encoded file decode to magic, count, rows and cols. |
| Mnist.PixelsAfterHeader | src/mnist_dataset.cc:34-40 | Pixels laid after any 16-byte header sit where the reader looks for them. |
| Mnist.EncodedPixels | src/mnist_dataset.cc:34-40 | The pixels of an encoded file sit where the reader looks for them. |
| Mnist.DecodeEncodedImages | src/mnist_dataset.cc:19-40 | Round trip: the encoded file is well formed, its header decodes to the encoded fields, and whatever the reader loads from it is the encoded images. |
| Mnist.Dataset.LoadImages | src/mnist_dataset.cc:19-43 | Count, rows and cols are the decoded header words, the images are read at their offsets, and the labels are untouched. |
| Mnist.Dataset.LoadLabels | src/mnist_dataset.cc:45-62 | The image count is overwritten with the label file's count; label i is the byte at offset 8 + i; the images are untouched. |
| Mnist.Dataset.constructor | src/mnist_dataset.cc:6-9 | Images are loaded and then labels, so rows and cols come from the images file and the count from the labels file. |
| Mnist.Dataset.GetValue | src/mnist_dataset.cc:64-66 | Always false. |
| Mnist.Dataset.GetLabel | src/mnist_dataset.cc:85-87 | Returns the stored byte unchanged, in [0,255]. |
| Mnist.Intensity | src/mnist_dataset.cc:70 | pixel/255 lies in [0,1]; it is 0 exactly for pixel 0 and 1 exactly for pixel 255. |
| Mnist.Threshold | src/mnist_dataset.cc:76-81 | For a draw in [0,254] the unit is 0 or 1, and 1 exactly when the draw is below the pixel; pixel 0 always gives 0 and pixel 255 always gives 1. |
| Mnist.Dataset.GetState | src/mnist_dataset.cc:68-72 | Output i is pixel i / 255, within [0,1], for i < rows*cols; entries beyond are untouched. |
| Mnist.Dataset.GetSample | src/mnist_dataset.cc:74-83 | Output i is the threshold of pixel i against draw i for i < rows*cols; entries beyond are untouched. |
| Persistence.RowOffsetStep | src/network.cc:116-124 | Each row of a connection advances the record position by its length: a full lower layer for a dumped row, nothing for a skipped one. |
| Persistence.RecordCountValue | src/network.cc:109-124 | The bias block holds 3794 records, connections 0 and 1 start at 3794+392000 and 395794+250000, and a dump holds 1665794 records. |
| Persistence.RowOffsetMono | src/network.cc:116-124 | Later rows start no earlier. |
| Persistence.BiasStartMono | src/network.cc:111-115 | Later layers' bias records start no earlier. |
| Persistence.ConnStartMono | src/network.cc:116-124 | Later connections' weight records start no earlier. |
| Persistence.WithinDump | src/network.cc:116-124 | Every connection starts inside the dump and the last one ends where the dump ends. |
| Persistence.Position | src/network.cc:109-124 | Every dumped bias or weight has a position inside the dump. |
| Persistence.BiasPositionsIncrease | src/network.cc:111-115 | Bias records are written layer-major, then unit-major. |
| Persistence.BiasesBeforeWeights | src/network.cc:109-124 | All bias records precede all weight records. |
| Persistence.WeightPositionsIncrease | src/network.cc:116-124 | Weight records are written connection-major, then row, then column. |
| Persistence.PositionIncreases | src/network.cc:109-124 | Positions increase along the write order. |
| Persistence.PositionOrder | src/network.cc:109-124 | One slot precedes another in the write order exactly when its position is smaller, and two slots share a position exactly when they are the same slot. |
| Persistence.BiasSlotFrom | src/network.cc:111-115 | Every position of the bias block holds some bias slot. |
| Persistence.RowSlotFrom | src/network.cc:117-123 | Every offset into a connection's records holds a dumped weight of that connection. |
| Persistence.WeightSlotFrom | src/network.cc:116-124 | Every position after the bias block holds some dumped weight slot. |
| Persistence.SlotAt | src/network.cc:109-124 | Every position of a dump holds a slot, so the positions are onto the dump. |
| Persistence.BiasRow | src/network.cc:112-114 | A layer contributes one bias record per unit. |
| Persistence.WeightRow | src/network.cc:118-122 | A row contributes one weight record per lower unit, or none when it is skipped. |
| Persistence.BiasRecordsLength | src/network.cc:111-115 | The bias records below layer n number BiasStart(n). |
| Persistence.BiasRecordsAt | src/network.cc:111-115 | Bias j of layer i is written at BiasStart(i) + j, carrying its layer, unit and value. |
| Persistence.ConnRecordsLength | src/network.cc:117-123 | The first n rows of a connection number RowOffset(c, n) records. |
| Persistence.ConnRecordsAt | src/network.cc:117-123 | Weight (j, k) of a dumped row is written at the row's offset + k, carrying its indices and value. |
| Persistence.WeightRecordsLength | src/network.cc:116-124 | The weight records below connection n number WeightStart(n). |
| Persistence.WeightRecordsAt | src/network.cc:116-124 | Weight (c, j, k) of a dumped row is written at WeightStart(c) + RowOffset(c, j) + k. |
| Persistence.DumpLength | src/network.cc:109-124 | A dump holds RecordCount records. |
| Persistence.DumpAtBias | src/network.cc:111-115 | The dump holds bias (i, j) at its slot's position. |
| Persistence.DumpAtWeight | src/network.cc:116-124 | The dump holds dumped weight (c, j, k) at its slot's position. |
| Persistence.DumpAt | src/network.cc:109-124 | The dump holds every slot's record at that slot's position. |
| Persistence.LoadedBiases | src/network.cc:130-140 | The loaded biases have the topology's shape and take each value from the record at the slot's position. |
| Persistence.LoadedConnection | src/network.cc:141-156 | A connection's loaded weights have its shape; dumped rows come from their records, skipped rows keep their prior values. |
| Persistence.LoadedWeights | src/network.cc:141-156 | The loaded weights are the loaded weights of each connection. |
| Persistence.LoadRecords | src/network.cc:128-158 | Loading any long-enough record sequence leaves parameters of the topology's shape. |
| Persistence.LoadedWeightsKeep | src/network.cc:141-156 | What a load leaves in the weights depends on the prior state only through its weights. |
| Persistence.LoadDumpBiases | src/network.cc:130-140 | Loading a dump restores every bias. |
| Persistence.LoadDumpWeight | src/network.cc:141-156 | Loading a dump restores a dumped weight and keeps a skipped one at its prior value. |
| Persistence.LoadDump | src/network.cc:128-158 | Round trip: loading a dump restores every bias and every dumped weight; the label rows of connection 1 keep the values held before the load. |
| Persistence.DumpLoadDump | src/network.cc:109-158 | Dumping after loading a dump gives the same dump. |
| Net.Network.constructor | src/network.cc:9-35 | Mean-field is on, the monitor is attached, and the layers are 784/500/510/2000 units with only layer 2 labeled. Connection c links layer c to layer c+1. All buffers and weight matrices are fresh, no two layers share a bias buffer or any activation, p or state buffer, and no two connections share a weight matrix. |
| Net.BuildLayers | src/network.cc:27-30 | Four fresh layers of sizes 784, 500, 510 and 2000, labeled exactly at index 2, no two of them sharing a bias buffer or any activation, p or state buffer. |
| Net.LinkLayers | src/network.cc:32-34 | Three connections, connection c from layer c to layer c+1, each with its own fresh weight matrix. |
| Net.Connection.constructor | src/network.cc:33 | A connection keeps its two layers and owns a fresh weight matrix. |
| Net.Network.GreedilyTrainLayer | src/network.cc:160-178 | Layer 0 gets the example's observation; connections 0..n-1 propagate in ascending order; layer 2's label block is clamped to the label only when n is 2; one update step runs on connection n. The frame lets the calls change any layer vector and the weights of connection n only, so every other connection's weights are frozen. For n > 0, layer 0 still holds the observation afterwards. |
| Net.Network.PresentExample | src/network.cc:161-175 | Before the update step: layer 0 holds the observation, then connections 0..n-1 propagate, then the label is clamped when n is 2. Only layer 0's state and the activity (activation, p, state) of layers 1 and 2 may change, and layer 0 keeps the observation. |
| Net.Network.LoadExample | src/network.cc:161-169 | Layer 0's state becomes the pixel intensities in mean-field mode, or the thresholded sample otherwise. |
| Net.Observation | src/network.cc:161-168 | The observation has one entry per pixel in [0,1], and only 0 or 1 when sampled. |
| Net.Network.ClampLabel | src/network.cc:173-175 | Layer 2's label block becomes the one-hot code of the example's label, and units 0..499 keep what the propagation left there. |
| Net.Network.PropagateUp | src/network.cc:170-172 | Connections 0..n-1 propagate observations, in ascending order; only the activity of layers 1..n may change, so the input layer is untouched. |
| Net.PropagationsShape | src/network.cc:170-172 | The propagation pass runs exactly connections 0..n-1 in order, with the given random-generator mode, and updates and clamps nothing. |
| Net.GreedyUpdated | src/network.cc:176 | A greedy step updates exactly connection n, once. |
| Net.GreedyPropagated | src/network.cc:170-172 | A greedy step propagates connections 0..n-1 in ascending order. |
| Net.GreedyClamped | src/network.cc:173-175 | A greedy step clamps the label exactly when n is 2. |
| Net.GreedyTrainingOrder | src/network.cc:160-178 | Frozen-layer rule and order: a greedy step starts by loading layer 0, propagates 0..n-1, clamps only for n = 2, and ends with the single update of connection n. |
| Net.Network.Train | src/network.cc:74-81 | The training start is logged and the schedule reset once; each step that yields runs one greedy step on its target layer; the final step that does not yield ends the loop. |
| Net.Network.TrainPositions | src/network.cc:77-80 | The loop runs one greedy step per schedule position, in schedule order, on that position's target, image and label. |
| Net.Network.TrainStep | src/network.cc:77-80 | One pass: `step()` answers true, then one greedy step on the position's target; only that target connection's weights may change. |
| Net.UpdatedPosition | src/network.cc:77-80 | Appending a greedy step adds exactly its target to the list of updated connections. |
| Net.TrainUpdatesTargets | src/network.cc:74-81 | Over a whole training run, the connections updated are exactly the schedule's target layers, in schedule order. |
| Net.Targets | src/network.cc:79 | The schedule's target layers, one per step, in order. |
| Net.UpdatedAppend | src/network.cc:74-81 | The updated connections of consecutive event runs are concatenated. |
| Net.PropagatedAppend | src/network.cc:170-172 | The propagated connections of consecutive event runs are concatenated. |
| Net.ClampedAppend | src/network.cc:173-175 | The clamped labels of consecutive event runs are concatenated. |
| Net.UpdatedNone | src/network.cc:74-81 | A run with no update event updates no connection. |
| Net.Network.Classify | src/network.cc:93-99 | Layer 0 is set to the observations and keeps them; only connections 0 and 1 propagate, with a null generator and the mean-field flag; the answer is connection 2's `find_label`, i.e. layer 2's `most_probable_label` as written: the first maximum of `p[0], p[501..509]`, a digit in 0..9. |
| Net.ClassifyOrder | src/network.cc:93-99 | Classification updates nothing, propagates exactly connections 0 then 1 with a null generator, and ends with connection 2's label read-out. |
| Net.Network.SampleInput | src/network.cc:83-91 | The top layer is activated from its biases; connection 2 samples 1000 iterations with the label; then connections 1 and 0 propagate downward in that order. |
| Net.Network.ActivateTop | src/network.cc:84 | The top layer's p becomes the logistic of its biases, each strictly between 0 and 1; only that vector changes. |
| Net.SampleInputOrder | src/network.cc:83-91 | Input sampling is exactly activate-from-bias on layer 3, sample_layer(2, 1000, label), propagate_hidden on 1 then 0, and updates nothing. |
| Net.HiddenPassesAt | src/network.cc:86-88 | The descending loop yields one hidden pass per connection from hi down to lo+1, the a-th on connection hi - a. |
| Net.Network.RunStep | src/network.cc:53-72 | Type 0 runs a greedy step, 1 a classification of the mean-field example, 2 the fine-tuning call on that example, and 3 input sampling with the active label. Types 1 and 3 leave every weight unchanged. Any other type changes neither the trace nor any layer vector or weight. |
| Net.Network.ClassifyActive | src/network.cc:57-62 | Type 1: the active image, in intensities, is classified; only layer 0's state and the activity of layers 1 and 2 may change. |
| Net.Network.FineTuneActive | src/network.cc:63-68 | Type 2: one fine-tuning call on the active image in intensities, with the image index as its label argument. |
| Net.Network.DumpStates | src/network.cc:109-126 | The records written are the dump of the network's current parameters, RecordCount of them. |
| Net.Network.DumpBiases | src/network.cc:110-115 | The bias loop writes the bias records of all layers in order. |
| Net.Network.DumpBiasRow | src/network.cc:112-114 | The inner bias loop writes the layer's bias records in unit order. |
| Net.Network.DumpWeights | src/network.cc:116-124 | The weight loop writes every connection's records in order. |
| Net.Network.DumpConnection | src/network.cc:117-123 | A connection's loop writes its rows' records in row order. |
| Net.Network.DumpWeightRow | src/network.cc:118-122 | A row's loop writes its weights column by column, or nothing for a skipped row. |
| Net.Network.Snapshot | src/network.cc:109-158 | The network's parameters have the topology's shape and are the layers' biases and the connections' weights. |
| Net.Network.ConnectionWeights | src/network.cc:120 | A connection's weights have its shape and are the entries of its matrix. |
| Net.Network.SnapshotOf | src/network.cc:128-158 | Parameters that agree with every bias buffer and weight matrix are the network's snapshot. |
| Net.Network.LoadStates | src/network.cc:128-158 | The new parameters are what loading the records over the old ones gives: every bias and dumped weight is taken from its record, and the skipped rows keep their weights. |
| Net.Network.LoadBiases | src/network.cc:130-140 | The bias loop consumes the 3794 bias records, sets every bias from them, and keeps the weights. |
| Net.Network.LoadBiasRow | src/network.cc:131-139 | The inner bias loop sets layer i's biases from the records at its position and moves past them. |
| Net.Network.LoadWeights | src/network.cc:141-156 | The weight loop sets every connection's weights as loading gives them and keeps the biases. |
| Net.Network.LoadConnectionWeights | src/network.cc:142-155 | One connection's weights become its loaded weights, and the position moves to the next connection's start. |
| Net.LoadConnection | src/network.cc:142-155 | Rows are read in order from the connection's start; dumped rows take their records and skipped rows keep their prior weights. |
| Net.LoadWeightRow | src/network.cc:143-154 | A dumped row takes its weights from consecutive records and advances by one lower layer; a skipped row changes nothing and advances by nothing. |

## Left out

- `Network::fine_tune` (src/network.cc:180-278) is not modelled. As
  written it does not compile: it uses `m_num_lateyers`, has a comma in a
  for header and an undeclared `rng`, and it never commits deltas.
  `run_step` type 2 records an opaque `FineTune` event instead.
- Net.Network.RunStep: type 2 passes `active_image` as fine_tune's
  label argument, as the code does; `active_label` is never used there.
- `Network::get_label` and `Network::extract_input_states`
  (src/network.cc:101-107) are not modelled: one forwards to connection 2's
  read-out, the other returns layer 0's state buffer.
- The Connection, Schedule and Monitor bodies are not part of this model.
  Their calls are trace events. The schedule is the sequence of steps its
  `step()` yields after `reset()`. `find_label` is taken to be layer 2's
  `most_probable_label`, which is what it delegates to.
- Net.Network.GreedilyTrainLayer, Net.Network.TrainStep, Net.Network.Train,
  Net.Network.Classify, Net.Network.SampleInput, Net.Network.RunStep: the
  connection calls they make are opaque, so their effect on the heap is
  bounded by the frame only (which layer vectors and which weights may
  change); no value is stated for what a propagation, update step, Gibbs
  sampler or fine-tuning writes. In particular, after the update step
  layer 2's label block and the biases are not stated.
- Net.Network.Train: that the run updates only the schedule's targets is
  stated over the trace (Net.TrainUpdatesTargets), and per position by the
  frame of Net.Network.TrainStep, not as a run-level statement on the
  weights.
- src/main.cc is not modelled. It is an I/O entry point that does not
  match the shown constructors.
- File and stream I/O are not modelled. A dump is a sequence of `Record`
  values, not text. `operator<<` writes doubles with 6 significant digits,
  so the real text round trip is lossy. The round trip holds at the
  record level only.
- The IDX files are byte sequences. A short or malformed file is excluded
  by `WellFormedImages`/`WellFormedLabels`, because the stream reads in the
  code do not check for errors. Magic numbers are decoded but not checked,
  as in the code.
- Mnist.HostWord: the model assumes a little-endian host, the only one on
  which `__builtin_bswap32` gives the big-endian value.
- Net.Network.LoadStates: requires at least RecordCount records. Reading
  past the end of a short file leaves the C++ variables in an unspecified
  state, which the model does not follow. Records are read by position:
  the model takes the value of the record at each slot's position and
  does not compare its kind or indices with the slot. In the C++ a record
  of the wrong kind at that position would misalign the token reads that
  follow; that case is not followed either.
- Floating point is not modelled. Values are `real`. `exp` is an
  uninterpreted positive function. GSL vectors are arrays and BLAS is not
  used.
- Random draws (`gsl_rng_uniform`, `gsl_rng_uniform_int`) are parameters,
  with their ranges as preconditions: [0, 1) for the uniform draws of
  Layers.Layer.Sample and Layers.Layer.SampleLabelBlock, and 0..254 for the
  pixel draws.
- Net.Network.GreedilyTrainLayer, Net.Network.Classify and
  Net.Network.RunStep require a 784-pixel example. The code allocates
  `size(false)` = 784 entries and writes rows*cols of them.
- The initial weights of a connection are not specified. The constructor
  only promises a fresh matrix of the right shape.
- Net.Network.Valid keeps the bias buffers of different layers apart, no
  activation, p or state buffer of one layer is any of those of another,
  and the weight matrices of different connections are apart. The
  downward biases and deltas are not used by the network's operations, so
  their separation is not stated.
- Destructors and memory management are not modelled.

## Findings

| source | as written | input that shows it | evidently intended | confidence | as-written member | corrected member |
|---|---|---|---|---|---|---|
| src/layer.cc:163-173 | `most_probable_label` seeds its maximum with `p[0]`, an input-side unit, and scans `p[501..509]`, so `p[500]` (label 0) is never compared. | `SeedExample`: `p[0]` = 0.9, label block `p[500..509]` all 0.05 except `p[509]` = 0.55; the code answers 0, though the label block's maximum is label 9. | The first maximum of the label block `p[500..509]`. | not executed | Layers.Layer.MostProbableLabel, Layers.SeedDefectWitness | Layers.Layer.LabelReadout, Layers.SeededReadoutAgrees |

Net.Network.Classify answers what the program computes, the as-written
read-out. Layers.Layer.LabelReadout is the intended read-out, and
Layers.SeededReadoutAgrees shows the two agree whenever `p[0]` equals
`p[500]`.
