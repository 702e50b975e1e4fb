# Host reference algorithms of MIOpenDriver, modelled and verified

MIOpenDriver checks GPU kernels against host algorithms: self-contained loops over arrays. Most of them come in pairs,
a plain form and a fast, rearranged or reversed one, that must agree. This project models six families of them in Dafny
and proves that they compute what they are for. `dafny verify dfyconfig.toml` checks everything.

| component | modules | main results |
|---|---|---|
| CTC loss | `Ctc*` | the forward table sums over all collapsing sequences; forward-backward invariance; the gradient is the exact derivative; feasibility is exact; the emulator with rolling buffers, one flat workspace and suppressed blanks delivers what the full tables deliver; what a run delivers is said in the caller's own rows, labels and blank |
| Convolution | `Conv*`, with `Sums` and `Tensors` | forward, backward-data and backward-weights are gradients of one trilinear form and textbook correlations; dilation spreads the filter; the matrix-product route equals the direct loops; column folding is the adjoint of unfolding; the tiled path equals the direct path exactly when its tile columns make up the width |
| Packed LSTM | `Lstm*` | every packed row, in both directions and all layers, holds the state of its own sequence run alone; the weight gradient and the initial-state gradient follow exactly the edges the forward pass read; runs can be cut, turned round and taken apart layer by layer |
| LRN | `Lrn*` | the four-phase sliding sum writes every channel from its clipped window; both backward passes are the gradients of their forward ones |
| XORWOW | `Xorwow*` | initialisation by skip-ahead is the same as stepping the generator sub-sequence times 2^67 plus offset times |
| Include inliner | `Include*` | the stateful recursion carries out the recursive expansion on any file graph, circles included, under its depth limit; an include is its file pasted in place, however the directive is written; when a run succeeds, and what a failed one leaves behind, exactly |

## How the source is read

* Floats are exact reals. The CTC code works with logarithms; the model works with the probabilities themselves. A
  log-domain sum is a product, `logaddexp` is a sum, `NEGATIVE_CUTOFF_VAL` is 0, a loss is the likelihood whose negative
  logarithm the code returns, and raw inputs are the exponentials of the activations, hence positive.
* Arrays that the code writes are arrays (or sequence fields of a class) here too, and every method says what it leaves
  unchanged. Strided tensors keep their strides: a `Layout` or `Strides` value gives the place of a cell, and the packed
  layouts are proved to keep cells inside the memory and apart.
* Sums over loop nests are sums over finite sets of taps (`Sums.SumOver`). A loop keeps the set of taps it has done, so
  loop orders do not matter to the specification, and one regrouping lemma relates the three convolution products.
* The LSTM arithmetic of one row is a parameter (`LstmAlone.Net`); offsets, passes, buffers and the two directions are
  concrete. Initial rows are optional; without them the code adds neither the hidden product nor its bias, and the model
  does the same.
* Words of the XORWOW state are 32-bit vectors with the source's shifts, masks and exclusive-ors.
* Files are a map from path to text; exceptions are error values that carry the include trace.
* Reads whose result the code discards (`label_prime[i - 2]` and neighbours at the ends) stand under their guards.

## What the proofs found

* The CTC emulator leaves gradient cells after an item's input length as the caller left them, the reference path sets
  them to zero. All other results agree, so the two paths agree if and only if the caller's cells there are zero
  (`CtcVerify.DeliveriesAgree`); a batch on which they differ is in `CtcVerify.DifferentPaths`.
* The tiled convolution compares tile columns with the width using the tile height. The tiled path is right exactly when
  `ColumnsRun * tile0 == topWidth` (`ConvTiled.ColumnsAreExact`). With less, an output column is left out
  (`ConvTiled.CoveredWhole`, a shape in `ConvTiled.TallTilesMissAColumn`). With more, a tile column ends past the width
  and writes into the next row or past the buffer (`ConvTiled.ColumnsInside`, `ConvTiled.PackedSpill`, a shape in
  `ConvTiled.WideTilesSpill`). Equal tile sides never leave a column out (`ConvTiled.SquareTilesRun`).
* The matrix product scales wrongly when both factors are transposed; it is right if and only if the two scales agree or
  the product is zero (`ConvGemm.BothTransposed`).
* The interleaved weights fit their buffer if and only if the tile count divides the outputs or the filter has one row
  (`ConvPrepare.InterleaveFits`).
* The counter word of XORWOW is not advanced for sub-sequences. That is right, because 2^67 steps are a whole number of
  turns of a 32-bit counter (`XorwowGenerator.CounterAgrees`).
* After a failed include the inliner keeps its depth and stack, so a later run starts with less room: they are restored
  if and only if the run succeeds or is refused at the limit (`IncludeSound.StackRestored`), and with limit one a second
  run overflows (`IncludeSound.SecondRunOverflows`). When a run succeeds is settled in `IncludeSound.SoundIsDone`.

## Model

| member | source | states |
|---|---|---|
| `CtcPaths.LikelihoodIsPathSum` | driver/ctc_verify.hpp:99-130 | The last two forward cells of the last row add up to the sum, over all class sequences of the input length that collapse to the label, of the products of their probabilities |
| `CtcPaths.AlphaIsPathSum` | driver/ctc_verify.hpp:108-130 | Every forward cell of the table with the leading blank is the sum over the sequences that spell its prefix of the label and end on its symbol |
| `CtcPaths.AllPathsOnce` | driver/ctc_verify.hpp:108-130 | The enumeration behind the path sums holds every sequence of valid classes exactly once and nothing else |
| `CtcFeasible.FeasibleIffSpellable` | driver/ctc_gpu_emulator.hpp:388-404 | The length check (label length plus adjacent repeats against input length) passes if and only if some sequence of that length collapses to the label |
| `CtcFeasible.LikelihoodPositive` | driver/ctc_verify.hpp:534-550 | A label that passes the check has positive likelihood under every table of positive probabilities |
| `CtcFeasible.NeedsRoom` | driver/ctc_gpu_emulator.hpp:395-400 | No sequence can collapse to a label in fewer steps than the label plus its adjacent repeats |
| `CtcGradient.EdgeExchange` | driver/ctc_verify.hpp:108-182 | Summing products over entering edges equals summing them over leaving edges, for any skip pattern |
| `CtcGradient.MeetIsLikelihood` | driver/ctc_verify.hpp:108-182 | At every time step the forward cells times what leaves them add up to the same likelihood |
| `CtcGradient.ForwardBackwardInvariance` | driver/ctc_verify.hpp:437-452 | At every time step the sum of alpha times beta divided by the cell probability is the likelihood |
| `CtcGradient.BetaLossIsLikelihood` | driver/ctc_verify.hpp:452 | The first two backward cells of the first row add up to the likelihood that the forward table gives, for the tables with both end blanks |
| `CtcGradient.LikelihoodIsLinear` | driver/ctc_verify.hpp:108-130 | With one row of probabilities replaced, the likelihood is the dot product of the new row with the class flow of the old tables |
| `CtcGradient.GradientIsDerivative` | driver/ctc_verify.hpp:235-253 | Replacing row t by any row z changes the likelihood by exactly minus the likelihood times the dot product of the difference with the gradient row |
| `CtcGradient.MassIsFlow` | driver/ctc_verify.hpp:237-249 | The alpha-beta mass gathered for a class is its squared probability times the flow through its cells |
| `CtcGradient.SoftmaxConservesMass` | driver/ctc_verify.hpp:310-329 | When row t of the probabilities sums to one, the softmax-layer gradients at t sum to zero over the classes |
| `CtcGradient.SoftmaxGradientIsJacobian` | driver/ctc_verify.hpp:310-329 | The softmax-layer gradient is the plain gradient taken through the softmax of a normalised row |
| `CtcTight.SuppressionIsHarmless` | driver/ctc_gpu_emulator.hpp:105-111 | For every feasible label, suppressing leading and trailing blanks (as done when label plus repeats fill the input) leaves likelihood, beta loss and every class mass unchanged |
| `CtcTight.CellProductsAgree` | driver/ctc_gpu_emulator.hpp:164-242 | Every alpha-beta product of suppressed tables equals that of full tables, cell by cell |
| `CtcTight.AlphaAgrees` | driver/ctc_gpu_emulator.hpp:105-134 | A forward cell past the leading blank is the same with and without that blank as long as no time step has been spare on the way to it |
| `CtcTight.BetaAgrees` | driver/ctc_gpu_emulator.hpp:164-238 | A backward cell before the trailing blank is the same with and without that blank as long as no time step is spare from it on |
| `CtcTight.TablesDiffer` | driver/ctc_gpu_emulator.hpp:105-111 | A concrete tight problem where a suppressed forward cell differs from the full one |
| `CtcSuppressed.SuppressedIsPathSum` | driver/ctc_gpu_emulator.hpp:105-134 | Every forward cell of the table without the leading blank is the sum over the sequences that spell its prefix, end on its symbol and do not begin with the blank |
| `CtcSuppressed.SuppressedBetaLoss` | driver/ctc_gpu_emulator.hpp:105-111 | With end blanks suppressed as the length check asks for, the backward cells of a feasible label still add up to the likelihood of the full forward table |
| `CtcReference.FillLabelPrime` | driver/ctc_verify.hpp:99-106 | The extended label: blanks at even places, the label at odd ones |
| `CtcReference.ForwardRow` | driver/ctc_verify.hpp:108-130 | One time step of the forward table, cell by cell in place |
| `CtcReference.CtcForward` | driver/ctc_verify.hpp:86-133 | The filled table is the forward recursion at every time and cell |
| `CtcReference.BackwardRow` | driver/ctc_verify.hpp:157-182 | One time step of the backward table, from the last cell down |
| `CtcReference.CtcBackward` | driver/ctc_verify.hpp:135-185 | The filled table is the backward recursion at every time and cell |
| `CtcReference.GatherClass` | driver/ctc_verify.hpp:238-248 | Gathers the alpha-beta products of one class at one time step |
| `CtcReference.CtcGradientLog` | driver/ctc_verify.hpp:187-261 | The gradient of every valid step and class, zeros for the steps after the input, nothing else touched |
| `CtcReference.CtcSoftmaxLayerGradientLog` | driver/ctc_verify.hpp:263-330 | The softmax-layer gradient of every valid step and class, nothing else touched |
| `CtcEmulator.WriteLabelPrime` | driver/ctc_gpu_emulator.hpp:97-103 | The extended label inside the flat workspace, everything outside its region unchanged |
| `CtcEmulator.AlphaRowGpu` | driver/ctc_gpu_emulator.hpp:115-133 | One time step of the forward table inside the workspace |
| `CtcEmulator.CtcAlphaGpu` | driver/ctc_gpu_emulator.hpp:83-138 | Label and forward table with the leading blank suppressed when tight; the loss; only the two own regions change |
| `CtcEmulator.LastRowGpu` | driver/ctc_gpu_emulator.hpp:164-184 | The last backward row in a rolling buffer, scattered into the class sums at the same time |
| `CtcEmulator.BetaRowGpu` | driver/ctc_gpu_emulator.hpp:215-242 | One earlier backward row from one rolling buffer into the other, scattered as it goes |
| `CtcEmulator.EmitRow` | driver/ctc_gpu_emulator.hpp:185-208 | One gradient row from the class sums, in either softmax mode |
| `CtcEmulator.EmitRowsGpu` | driver/ctc_gpu_emulator.hpp:185-271 | Row after row with the buffers swapped by parity: all gradients of one item, then its beta loss |
| `CtcEmulator.CtcGradientGpu` | driver/ctc_gpu_emulator.hpp:140-271 | All gradients and the beta loss of one item from two rolling buffers, nothing of another item touched |
| `CtcSoftmax.SubvecSoftmax` | driver/ctc_verify.hpp:66-84 | One row through a scaled copy is the softmax of the row |
| `CtcSoftmax.SubvecSoftmaxGpu` | driver/ctc_gpu_emulator.hpp:65-80 | One row scaled and normalised in place is the softmax of the row |
| `CtcSoftmax.SoftmaxRowIsDistribution` | driver/ctc_verify.hpp:66-84 | A softmax row is positive and sums to one |
| `CtcSoftmax.ScaledIsSoftmax` | driver/ctc_verify.hpp:73-83 | Dividing by the maximum first does not change the softmax |
| `CtcLayout.PackedIsSound` | driver/ctc_verify.hpp:112-129 | Packed strides keep every cell inside the tensor and no two cells at one place |
| `CtcRun.ScanLabel` | driver/ctc_gpu_emulator.hpp:388-398 | Counts adjacent repeats, or finds a class that is too large: succeeds if and only if all classes are in range |
| `CtcRun.CheckItem` | driver/ctc_gpu_emulator.hpp:379-404 | Accepts an item if and only if its length, classes and feasibility are right |
| `CtcRun.CheckBatch` | driver/ctc_gpu_emulator.hpp:372-405 | Passes if and only if every item is acceptable, with the repeats, offsets, largest and total label length |
| `CtcRun.GetWorkspaceSize` | driver/ctc_verify.hpp:495-578 | Succeeds if and only if the two tensor descriptors agree and the batch is acceptable; the size is the end of the last workspace region |
| `CtcRun.SizesAgree` | driver/ctc_verify.hpp:553-577 | The size added up part by part is the end of the last region |
| `CtcRun.SizeIs` | driver/ctc_verify.hpp:553-577 | The size written out as header, labels, extended labels, probabilities and forward tables |
| `CtcRun.LargestTaken` | driver/ctc_verify.hpp:517-532 | The largest length is one of the lengths, so sizes made from it are exact |
| `CtcRun.RegionsInside` | driver/ctc_gpu_emulator.hpp:289-317 | The per-item regions follow each other without a gap and stay inside the shared bounds |
| `CtcRun.RegionsApart` | driver/ctc_gpu_emulator.hpp:316-317 | The regions of two items never meet |
| `CtcRun.RegionsStart` | driver/ctc_gpu_emulator.hpp:289-295 | The extended labels begin right after the labels, the alphas right after the probabilities |
| `CtcRun.ItemReady` | driver/ctc_gpu_emulator.hpp:388-404 | What the checks establish is all that the item methods rely on, and the suppressed and full results are equal |
| `CtcRun.LaunchItem` | driver/ctc_gpu_emulator.hpp:318-344 | One item through the workspace delivers the results of the full tables |
| `CtcRun.LaunchGradient` | driver/ctc_gpu_emulator.hpp:326-344 | From the forward table in the workspace the gradients and the beta loss of the item, the workspace left alone |
| `CtcRun.LaunchNext` | driver/ctc_gpu_emulator.hpp:307-345 | Item j reads its own header, keeps its extended label and forward table at its places, and changes nothing else in the workspace; other items keep their losses and gradients |
| `CtcRun.PrefixKept` | driver/ctc_gpu_emulator.hpp:307-345 | Earlier items stay delivered and padding stays what it was when one more item is run |
| `CtcRun.KeptStays` | driver/ctc_gpu_emulator.hpp:316-345 | An extended label and a forward table stay what they are when only places outside both of their regions change |
| `CtcRun.EarlierKept` | driver/ctc_gpu_emulator.hpp:316-345 | One item leaves the extended label and the forward table of every earlier item as they were |
| `CtcRun.SharedKept` | driver/ctc_gpu_emulator.hpp:289-345 | One item leaves the header, the labels, the probabilities and everything past the workspace alone, and the forward tables of later items cleared |
| `CtcRun.WriteHeader` | driver/ctc_gpu_emulator.hpp:418-433 | Lengths, offsets, repeats and labels at their places, nothing after them changed |
| `CtcRun.Prepare` | driver/ctc_gpu_emulator.hpp:293-305 | Header, probabilities (after softmax if asked for) and cleared alphas |
| `CtcRun.LaunchItems` | driver/ctc_gpu_emulator.hpp:307-345 | All items delivered, gradient cells after each input as the caller left them, every extended label and forward table still at its region, nothing outside the regions changed |
| `CtcRun.RunEmulator` | driver/ctc_gpu_emulator.hpp:348-449 | Runs if and only if the descriptors agree, the tensors have the sizes they say and the batch is acceptable; then every item has the likelihood, beta loss and gradients of the full tables, its label and forward table at its regions, and nothing past the workspace size changes; otherwise nothing changes at all |
| `CtcVerify.ReferenceItem` | driver/ctc_verify.hpp:421-485 | One item on the reference path delivers likelihood, beta loss and gradients, changing only its own cells |
| `CtcVerify.RunReference` | driver/ctc_verify.hpp:406-487 | All items delivered; gradient cells after each input are zero |
| `CtcVerify.RunCtcLossCpuVerify` | driver/ctc_verify.hpp:332-493 | Wrong sizes and rejected batches are told apart and change nothing; either path delivers what the full tables give, which means what the caller's rows, labels and blank make it |
| `CtcMeaning.DeliveredMeans` | driver/ctc_verify.hpp:378-492 | Whatever is delivered for an item: loss and beta loss are the total weight, in the rows the caller gave or their softmax, of all class sequences that collapse to its label around the named blank, or the class nearest to it; each gradient row is the slope of minus the logarithm of that, taken through the softmax if there is one |
| `CtcMeaning.TableHolds` | driver/ctc_verify.hpp:410-420 | The table an item is computed from holds the caller's rows or their softmax, and no other table does |
| `CtcMeaning.LabelsSplit` | driver/ctc_gpu_emulator.hpp:388-405 | Out of labels put one after another every item gets its own |
| `CtcMeaning.AcceptedIffSpellable` | driver/ctc_gpu_emulator.hpp:379-404 | The checks pass an item if and only if its input is not too long and some sequence of that length collapses to its label |
| `CtcVerify.DeliveriesAgree` | driver/ctc_verify.hpp:378-492 | For any separate gradient strides, two deliveries agree in all losses, and in all gradients if and only if the padding they leave agrees |
| `CtcVerify.DifferentPaths` | driver/ctc_verify.hpp:378-492 | A concrete batch of two input lengths, with gradients that begin as ones, on which both paths run and leave different gradients |
| `CtcVerify.RowsAreDistributions` | driver/ctc_verify.hpp:412-415 | With softmax on, every probability row an item uses sums to one |
| `CtcVerify.DeliveredGradientsCancel` | driver/ctc_verify.hpp:454-468 | With softmax on, the delivered gradients of every valid step sum to zero over the classes |
| `ConvSpec.OneTrilinearForm` | driver/mloConvHost.hpp:302-361 | For all sizes, strides, pads and dilations the forward, backward-data and backward-weights products are the gradients of one trilinear form |
| `ConvSpec.ForwardIsTrilinear` | driver/mloConvHost.hpp:302-361 | Pairing the zero-padded forward product with any output tensor gives the trilinear form |
| `ConvSpec.BackwardDataIsTrilinear` | driver/mloConvHost.hpp:478-543 | Pairing the backward-data product with any input tensor gives the trilinear form |
| `ConvSpec.BackwardWeightsIsTrilinear` | driver/conv_verify.hpp:77-115 | Pairing the backward-weights product with any weight tensor gives the trilinear form |
| `ConvGeometry.ForwardIsCorrelation` | driver/mloConvHost.hpp:316-355 | An output cell is the sum over its filter of weight times the input at stride, dilation and minus the padding, or the padding value outside |
| `ConvGeometry.DataIsTransposed` | driver/mloConvHost.hpp:496-530 | An input cell's gradient is the sum, over all pairs of an output cell and a weight that read it, of output gradient times weight |
| `ConvGeometry.WeightsAreCorrelation` | driver/conv_verify.hpp:88-103 | A weight's gradient is the sum, over all images and output cells, of the input at stride, dilation and minus the padding times the output gradient |
| `ConvGeometry.DilationSpreads` | driver/conv_verify.hpp:88-103 | A dilated filter gets, at each weight, the gradient that the undilated filter spread out with zeros gets at the place the weight is spread to, for rows and columns |
| `Tensors.PackedIsSound` | driver/mloConvHost.hpp:302-361 | Every cell of a packed tensor is inside its memory and no two cells share a place |
| `Tensors.PackedFills` | driver/mloConvHost.hpp:302-361 | Every place of a packed tensor is the place of some cell |
| `Tensors.ScatterAdd` | driver/mloConvHost.hpp:513-515 | One in-place addition gives one more term to its own cell and to no other |
| `ConvDirect.ForwardCell` | driver/mloConvHost.hpp:316-355 | One output cell is the sum over all its taps, padding value outside the input |
| `ConvDirect.ConvForwardDirect` | driver/mloConvHost.hpp:265-362 | Every output cell holds the forward product plus its bias; every other place is unchanged |
| `ConvDirect.BiasAdds` | driver/mloConvHost.hpp:355-358 | With a bias the loops leave what they leave without, plus in every cell the bias of its channel |
| `ConvDirect.SpreadCell` | driver/mloConvHost.hpp:496-530 | One gradient cell is added to exactly the input cells it was made from |
| `ConvDirect.ConvBackwardDataDirect` | driver/mloConvHost.hpp:441-543 | Every input cell gains the backward-data product; every other place is unchanged |
| `ConvDirect.GatherWeight` | driver/conv_verify.hpp:88-103 | One weight of one image gains its share over the output plane |
| `ConvDirect.ConvBackwardWeights` | driver/conv_verify.hpp:77-115 | Every weight holds the backward-weights product summed from zero; places past the weight count are unchanged |
| `ConvDirect.LoopsShareOneForm` | driver/conv_verify.hpp:77-115 | What the three direct loops leave in memory pairs to one and the same value |
| `ConvColumns.RowDecodes` | driver/mloConvHost.hpp:199-203 | The divisions and remainders of a column row find its channel and filter place |
| `ConvColumns.RowEncodes` | driver/mloConvHost.hpp:241-245 | Every column row is the row of exactly the channel and filter place it decodes to |
| `ConvColumns.PositionsFit` | driver/mloConvHost.hpp:188-193 | When the filter fits the padded side, the counted positions are exactly those at which it lies inside |
| `ConvColumns.UnfoldFoldAdjoint` | driver/mloConvHost.hpp:178-261 | Folding columns is the adjoint of unfolding an image, for all shapes, pads and strides |
| `ConvColumns.FoldOfUnfold` | driver/mloConvHost.hpp:178-261 | Folding what was unfolded multiplies each cell by the number of windows that cover it |
| `ConvRoute.Im2Col` | driver/mloConvHost.hpp:178-217 | Every column cell holds the image cell it reads, zero outside the image; nothing else changes |
| `ConvRoute.Col2Im` | driver/mloConvHost.hpp:221-261 | The image is cleared and every cell holds the sum of the column cells that fall on it; other images unchanged |
| `ConvGemm.DotProduct` | driver/mloConvHost.hpp:93-97 | One entry of the product, either factor transposed |
| `ConvGemm.ProductTransposes` | driver/mloConvHost.hpp:93-176 | A product read the other way round is the product of the transposed factors in the other order |
| `ConvGemm.MatrixMultiply` | driver/mloConvHost.hpp:45-176 | Refuses factors that do not conform and changes nothing; otherwise every entry is the scaled product plus the scaled old entry, except that the branch that transposes both factors scales the old entry and the product alike |
| `ConvGemm.AddProduct` | driver/mloConvHost.hpp:166-171 | With both factors transposed every term of the product is added straight to the target entry |
| `ConvGemm.BothTransposed` | driver/mloConvHost.hpp:160-174 | The branch that transposes both factors does what the others do if and only if the two scales agree or the product is zero |
| `ConvGemm.FoldIsBackwardData` | driver/mloConvHost.hpp:394-431 | Folding the columns of the transposed product gives the direct backward-data sum at every input cell |
| `ConvRoute.ProductIsColumnValue` | driver/mloConvHost.hpp:403-420 | The transposed product leaves, in every column cell, the sum over output channels that folding needs |
| `ConvRoute.BackwardImage` | driver/mloConvHost.hpp:401-430 | One image: product into its columns, then fold; its input gradient and nothing outside it |
| `ConvRoute.ConvBackwardDataGemm` | driver/mloConvHost.hpp:366-437 | The matrix-product route leaves the backward-data product that the direct loops add, started from zero |
| `ConvPrepare.Prepad` | driver/mloConvHost.hpp:548-630 | The padded copy holds the input shifted by the padding and the padding value around it |
| `ConvPrepare.InterleaveWeights` | driver/mloConvHost.hpp:652-718 | Every weight is at its interleaved place, whenever those places fit the buffer |
| `ConvPrepare.PlaceInDigits` | driver/mloConvHost.hpp:666-670 | The destination offset is one mixed-radix number when blocks are full |
| `ConvPrepare.InterleaveApart` | driver/mloConvHost.hpp:666-670 | With full blocks no two weights are sent to the same place |
| `ConvPrepare.InterleaveCovers` | driver/mloConvHost.hpp:666-670 | With full blocks every place of the buffer receives a weight |
| `ConvPrepare.InterleaveFits` | driver/mloConvHost.hpp:652-671 | The interleaved weights stay inside the buffer if and only if the tile count divides the outputs or the filter has one row |
| `ConvPrepare.PlacesApart` | driver/mloConvHost.hpp:652-671 | No two weights are sent to the same place, with full blocks or filters of one row |
| `ConvTile.LoadRow` | driver/mloConvHost.hpp:799-819 | One row of the padded input into one row of the stage |
| `ConvTile.MoveUp` | driver/mloConvHost.hpp:862-871 | After the shift, stage row m holds the input row one further down |
| `ConvTile.ReadFilterRow` | driver/mloConvHost.hpp:826-830 | Reading on along the interleaved weights yields the filter row of the right output, channel and row |
| `ConvTile.NextFilterRow` | driver/mloConvHost.hpp:809-830 | The running weight offset passes from output to output and from filter row to filter row |
| `ConvTile.ConvolveRow` | driver/mloConvHost.hpp:832-856 | One filter row of one output over the whole tile adds exactly its taps |
| `ConvTile.TileChannel` | driver/mloConvHost.hpp:796-872 | One input channel: before filter row k, stage row m holds input row first + k + m |
| `ConvTile.TileChannels` | driver/mloConvHost.hpp:787-876 | Every cell of the tile ends up with the sum over exactly its own taps |
| `ConvTiled.TileIsForward` | driver/mloConvHost.hpp:776-876 | The taps of a tile cell are the taps of the output cell it stands for, padding included |
| `ConvTiled.ComputeTile` | driver/mloConvHost.hpp:776-876 | The tile buffer holds the forward product of its output cells |
| `ConvTiled.WriteTile` | driver/mloConvHost.hpp:880-895 | The tile is copied to its own output cells and to no others |
| `ConvTiled.TileOfSpot` | driver/mloConvHost.hpp:762-780 | Each output cell belongs to exactly one spot of the five-fold loop nest |
| `ConvTiled.SpotsInside` | driver/mloConvHost.hpp:753-775 | The spot of every covered cell lies inside the loop bounds |
| `ConvTiled.WidthGuardIsExact` | driver/mloConvHost.hpp:772-774 | The width guard admits exactly the tile columns that begin inside the width if and only if the number of columns it lets run is the number the width needs |
| `ConvTiled.SquareTilesRun` | driver/mloConvHost.hpp:772-774 | With equal tile sides the condition always holds |
| `ConvTiled.TallTilesMissAColumn` | driver/mloConvHost.hpp:772-774 | A concrete shape with unequal tile sides where an output column is never computed |
| `ConvTiled.CoveredWhole` | driver/mloConvHost.hpp:772-774 | The tile columns that run reach every output cell if and only if together they are at least as wide as the output |
| `ConvTiled.ColumnsInside` | driver/mloConvHost.hpp:772-774 | No tile column that runs ends past the width if and only if together they are at most as wide as the output |
| `ConvTiled.PackedSpill` | driver/mloConvHost.hpp:880-895 | In a packed output everything the running columns write lies in the buffer if and only if they are at most as wide as the output |
| `ConvTiled.WideTilesSpill` | driver/mloConvHost.hpp:772-774 | A concrete shape where a tile column runs that begins past the width, at the place of the next row |
| `ConvTiled.ColumnsAreExact` | driver/mloConvHost.hpp:772-774 | The running columns reach every output cell and none ends past the width if and only if together they are exactly as wide as the output |
| `ConvTiled.RunGroups` | driver/mloConvHost.hpp:753-902 | All tiles: the covered cells hold the forward product, every other place is unchanged |
| `ConvTiled.ConvForwardTiled` | driver/mloConvHost.hpp:912-1021 | Prepad, interleave and tiles leave the forward product in every covered cell and nothing else |
| `ConvTiled.TiledIsDirect` | driver/mloConvHost.hpp:722-902 | Started on the same memory, the tiled and the direct forward path leave identical memory |
| `LstmPacking.LengthIs` | driver/lstm_verify_gemm.hpp:277-281 | With batch sizes that never grow, a sequence takes part in exactly the steps below its length |
| `LstmPacking.RowsFollow` | driver/lstm_verify_gemm.hpp:277-281 | Packed rows follow each other without gaps, step by step |
| `LstmPacking.RowsApart` | driver/lstm_verify_gemm.hpp:277-281 | No two steps of any sequences share a packed row |
| `LstmPacking.RowTaken` | driver/lstm_verify_gemm.hpp:277-281 | Every packed row belongs to some sequence at some time |
| `LstmForward.AddHidden` | driver/lstm_verify_gemm.hpp:287-321 | The hidden product (with its bias) of a block of rows is added to those rows only |
| `LstmForward.Workspace.ForthHidden` | driver/lstm_verify_gemm.hpp:284-392 | Forward rows gain the hidden product of their own old row: initial rows first, running rows later |
| `LstmForward.Workspace.BackHiddenFirst` | driver/lstm_verify_gemm.hpp:324-360 | In the first reverse turn every row begins from the initial rows |
| `LstmForward.Workspace.BackHiddenNext` | driver/lstm_verify_gemm.hpp:394-471 | In later reverse turns rows that begin here take the initial rows and the others the running rows |
| `LstmForward.Workspace.ForthCells` | driver/lstm_verify_gemm.hpp:473-535 | Cell, hidden and running rows of one forward step; nothing else changes |
| `LstmForward.Workspace.BackCells` | driver/lstm_verify_gemm.hpp:537-637 | Cell, hidden and running rows of one reverse step, late starters from the initial cells; nothing else changes |
| `LstmForward.BackStarts` | driver/lstm_verify_gemm.hpp:394-436 | A sequence takes its initial rows on the way back exactly at its own last step |
| `LstmForward.HxRowsFollow` | driver/lstm_verify_gemm.hpp:277-281 | Initial and final rows follow each other: the sequences forth, those back, the next layer |
| `LstmRun.FeedLayer` | driver/lstm_verify_gemm.hpp:147-274 | Every row of a layer is fed its input, or both hidden rows of the layer below at the same place |
| `LstmRun.RunLayer` | driver/lstm_verify_gemm.hpp:147-640 | One layer: all rows in both directions hold the states of their own sequences |
| `LstmRun.LayerKept` | driver/lstm_verify_gemm.hpp:141-641 | A later layer leaves the rows and final states of an earlier one alone |
| `LstmRun.RunForward` | driver/lstm_verify_gemm.hpp:141-669 | In every layer and direction every packed row holds the state its sequence has when run alone, and the final rows hold each sequence's own last state |
| `LstmLaws.Restart` | driver/lstm_verify_gemm.hpp:284-535 | A sequence cut anywhere and gone on with from the hidden and cell rows reached gives the run of the whole, in every layer of one direction |
| `LstmLaws.RestartBack` | driver/lstm_verify_gemm.hpp:324-637 | The same from the other end for the reverse direction of the lowest layer |
| `LstmLaws.TurningRound` | driver/lstm_verify_gemm.hpp:141-641 | The reverse direction is the forward direction of the sequence turned round with the two directions' parts exchanged, and the other way round, in every layer |
| `LstmLaws.TakingOff` | driver/lstm_verify_gemm.hpp:147-274 | A stack of layers is the stack without its lowest layer run on what that layer hands up |
| `LstmGradient.ForthReads` | driver/lstm_verify_gemm.hpp:283-390 | Each forward row read the hidden row at the origin of its edge |
| `LstmGradient.BackReads` | driver/lstm_verify_gemm.hpp:324-470 | Each reverse row read the hidden row at the origin of its edge |
| `LstmGradient.EveryRowOnce` | driver/lstm_verify_gemm.hpp:1492-1692 | With initial rows given, every packed row is the row of exactly one edge |
| `LstmGradient.RecurrentGradient` | driver/lstm_verify_gemm.hpp:1492-1692 | The recurrent weight gradient, and its bias, is the sum over exactly the edges the forward pass read |
| `LstmGradient.StartRowOnce` | driver/lstm_verify_gemm.hpp:1206-1250 | The only row that reads a sequence's initial row is its first step forth, its last step back |
| `LstmGradient.InitialGradient` | driver/lstm_verify_gemm.hpp:1174-1250 | Every initial row gains the term of its own starting row, forth and back; nothing else changes |
| `LstmGradient.BackInitial` | driver/lstm_verify_gemm.hpp:1206-1250 | The backward walk over the steps picks each sequence's own last row exactly once |
| `LrnWindow.WindowsAdjoint` | driver/mloNormHost.hpp:89-200 | Summing over the backward windows is the adjoint of summing over the forward windows |
| `LrnWindow.ForwardPaired` | driver/mloNormHost.hpp:327-499 | Weighted window sums are the sum over all pairs of a channel and a channel in its window |
| `LrnGradient.ScaleMoves` | driver/mloNormHost.hpp:89-261 | For any windows: moving one input moves a scale by its slope times the move and the square term if the input is in the window, and not at all otherwise |
| `LrnGradient.PullBack` | driver/mloNormHost.hpp:313-562 | For any windows: the output gradient taken through product rule, chain rule and slope of the scale is one sum over the places whose windows hold the input |
| `LrnGradient.AcrossMoves` | driver/mloNormHost.hpp:89-200 | Moving one channel of a pixel moves the scale of another by its slope and square term if it is in its window, and not at all otherwise |
| `LrnGradient.AcrossIsGradient` | driver/mloNormHost.hpp:313-503 | Behind its forward pass the backward pass across channels writes the output gradient taken through the derivatives of the forward pass |
| `LrnGradient.WithinMoves` | driver/mloNormHost.hpp:206-261 | Moving one pixel moves the scale of another by its slope and square term if it lies in its square, and not at all otherwise |
| `LrnGradient.WithinIsGradient` | driver/mloNormHost.hpp:505-562 | Behind its forward pass the backward pass within a channel writes the output gradient taken through the derivatives of the forward pass |
| `LrnGradient.EvenAcross` | driver/mloNormHost.hpp:89-200 | Where the window is whole, channels that are all v have scale k plus alpha v squared |
| `LrnGradient.EvenWithin` | driver/mloNormHost.hpp:206-261 | Where the square is whole, a plane that is v all over it has scale k plus alpha v squared |
| `LrnAcross.RunningMoves` | driver/mloNormHost.hpp:136-169 | Adding the channel that enters and dropping the one that leaves slides the window by one, at both ends too |
| `LrnAcross.ForwardOpening` | driver/mloNormHost.hpp:88-132 | The first two phases: the channels whose windows start before the first channel |
| `LrnAcross.ForwardClosing` | driver/mloNormHost.hpp:133-200 | The last two phases: all remaining channels, also those whose windows end after the last channel |
| `LrnAcross.ForwardColumn` | driver/mloNormHost.hpp:88-200 | The four phases write every channel of a pixel from the sum over its clipped window, for any number of channels |
| `LrnAcross.ForwardAcross` | driver/mloNormHost.hpp:74-205 | Refuses an area too small for its padding; otherwise scale and output of every cell, nothing else changed |
| `LrnAcross.BackwardColumn` | driver/mloNormHost.hpp:326-499 | The four phases with the padding on the other side write every gradient of a pixel |
| `LrnAcross.BackwardAcross` | driver/mloNormHost.hpp:306-503 | Refuses an area too small for its padding; otherwise the gradient of every cell with the ratio made from alpha, beta and area, nothing else changed |
| `LrnWithin.ExtentIs` | driver/mloNormHost.hpp:218-226 | A side of the window is measured at its full length, the local area, if and only if the pixel lies before the end of the plane |
| `LrnWithin.ForwardWithin` | driver/mloNormHost.hpp:206-261 | Scale and output of every cell from its clipped square window, divided by the full area |
| `LrnWithin.BackwardWithin` | driver/mloNormHost.hpp:505-562 | The gradient of every cell from its clipped square window, with the ratio made from alpha, beta and the full area |
| `XorwowMatrix.ApplyLinear` | driver/xorwow_skipahead_generator.hpp:72-90 | A matrix applied to an exclusive-or gives the exclusive-or of what it gives on the parts |
| `XorwowMatrix.ProductApplies` | driver/xorwow_skipahead_generator.hpp:94-100 | Applying a product is applying one matrix after the other |
| `XorwowMatrix.IdentityApplies` | driver/xorwow_skipahead_generator.hpp:103-115 | The identity matrix leaves every vector as it is |
| `XorwowMatrix.MatrixOfApplies` | driver/xorwow_skipahead_generator.hpp:139-162 | A matrix whose rows are the images of the single bits acts as the linear map itself |
| `XorwowPower.MatVec` | driver/xorwow_skipahead_generator.hpp:72-90 | The bit loops compute the selected sum of rows |
| `XorwowPower.MatMat` | driver/xorwow_skipahead_generator.hpp:94-100 | In place, the product of the two matrices |
| `XorwowPower.MatIdentity` | driver/xorwow_skipahead_generator.hpp:103-115 | In place, the identity matrix |
| `XorwowPower.MatPow` | driver/xorwow_skipahead_generator.hpp:118-136 | Repeated squaring leaves a matrix that acts as the given power, for every exponent |
| `XorwowPower.PowerOfPower` | driver/dropout_gpu_emulator.hpp:85 | Powers of a power multiply |
| `XorwowSkip.SkipAhead` | driver/dropout_gpu_emulator.hpp:51-98 | For every 64-bit count, with or without the squaring tail, the vector is that many applications further on |
| `XorwowSkip.SkipTail` | driver/dropout_gpu_emulator.hpp:77-94 | Past the table, raising the last entry again and again finishes the count |
| `XorwowSkip.TableSuffices` | driver/dropout_gpu_emulator.hpp:59-62 | A table that covers 64 bits is never left, so the guard that is compiled out is not needed |
| `XorwowSkip.SkipsCompose` | driver/dropout_gpu_emulator.hpp:125-127 | Skips add up, in either order |
| `XorwowGenerator.NextIsLinear` | driver/xorwow_skipahead_generator.hpp:56-69 | One step of the shift registers is linear |
| `XorwowMixing.FreshBits` | driver/xorwow_skipahead_generator.hpp:56-69 | Each bit of the new word is the exclusive-or of the six old bits, or fewer at the ends, that it depends on |
| `XorwowMixing.WordsMove` | driver/xorwow_skipahead_generator.hpp:56-69 | Bit by bit, four words move up by one place and the fifth is the new word |
| `XorwowMixing.SeedReaches` | driver/dropout_gpu_emulator.hpp:105-123 | Only the low half of the seed reaches x, y and v, only the high half z and w |
| `XorwowMixing.LowUndone` | driver/dropout_gpu_emulator.hpp:116-118 | What is made of the low half can be undone, so it is one to one |
| `XorwowMixing.HighUndone` | driver/dropout_gpu_emulator.hpp:117-119 | What is made of the high half can be undone, so it is one to one |
| `XorwowMixing.SeedSamples` | driver/dropout_gpu_emulator.hpp:105-123 | Registers and counter of two seeds in figures |
| `XorwowMixing.FirstNumber` | driver/xorwow_skipahead_generator.hpp:56-69 | Registers, counter and number after the first step from the seed zero in figures |
| `XorwowGenerator.StepsArePowers` | driver/xorwow_skipahead_generator.hpp:139-162 | Powers of the one-step matrix are steps of the generator |
| `XorwowGenerator.GenerateTable` | driver/xorwow_skipahead_generator.hpp:165-190 | Entry k of a generated table skips its stride times the radix to the k |
| `XorwowGenerator.SkippingIsStepping` | driver/xorwow_skipahead_generator.hpp:165-190 | Skipping through a generated table is stepping that many strides |
| `XorwowGenerator.CounterAgrees` | driver/dropout_gpu_emulator.hpp:123-128 | Leaving the counter alone for whole sub-sequences and adding only the offset is what all the steps would make of it |
| `XorwowGenerator.Prng.Draw` | driver/xorwow_skipahead_generator.hpp:56-69 | One number: registers and counter one step on |
| `XorwowGenerator.Prng.Init` | driver/dropout_gpu_emulator.hpp:100-129 | Registers and counter are those of the seeded generator after sub-sequence times 2^67 plus offset steps |
| `IncludeText.LinesJoined` | addkernels/include_inliner.cpp:106-113 | Cutting a text into lines loses nothing |
| `IncludeMeaning.LinesAreLines` | addkernels/include_inliner.cpp:106-113 | No line holds a newline |
| `IncludeMeaning.LinesOfJoin` | addkernels/include_inliner.cpp:106-113 | Cutting a text put together from lines gives the lines back |
| `IncludeText.OutputIsJoin` | addkernels/include_inliner.cpp:184-187 | Writing lines to an empty output gives their newline-join with leading empty lines dropped |
| `IncludeText.CopyDropsNewlines` | addkernels/include_inliner.cpp:184-187 | A text written line by line is copied but for the newlines it begins with |
| `IncludeText.Find` | addkernels/include_inliner.cpp:129-149 | The first place of a character from a position on, if there is one |
| `IncludeDirective.QuotedInclude` | addkernels/include_inliner.cpp:110-153 | Any blanks, the directive with letters of either case, a blank and a path in quotes: an include of exactly that path, whatever follows |
| `IncludeDirective.AngledInclude` | addkernels/include_inliner.cpp:127-153 | The same in angle brackets, where they are allowed and no quote follows |
| `IncludeDirective.WrongInclude` | addkernels/include_inliner.cpp:129-149 | The directive without a quote, where angle brackets are not allowed, is broken |
| `IncludeDirective.MarkIs` | addkernels/include_inliner.cpp:110-125 | The mark in any case, behind any blanks and whatever follows, announces an optional include |
| `IncludeDirective.OtherIsPlain` | addkernels/include_inliner.cpp:110-188 | Any other first word makes plain text, and so does the directive when not recursing |
| `IncludeDirective.BlankIsPlain` | addkernels/include_inliner.cpp:110-188 | Blanks alone are plain text |
| `IncludeDirective.DirectiveIncludes` | addkernels/include_inliner.cpp:127-153 | The directive, a space and a path in quotes are read as an include of exactly that path |
| `IncludeExpand.ExpandLeaves` | addkernels/include_inliner.cpp:97-104 | On success the include stack is what it was; on failure it holds the files being read and the trace names them all; after an overflow it is as high as the limit |
| `IncludeSound.StackRestored` | addkernels/include_inliner.cpp:97-104 | Stack and height are restored if and only if the run succeeds or was refused at the limit before it began |
| `IncludeSound.MissingFails` | addkernels/include_inliner.cpp:157-181 | A text of one directive naming a missing file fails with that file in the trace and itself left on the stack |
| `IncludeSound.SecondRunOverflows` | addkernels/include_inliner.cpp:77-104 | With limit one, a run that misses an include makes the next run overflow, which alone would succeed |
| `IncludeSound.SoundIsDone` | addkernels/include_inliner.cpp:88-194 | A run succeeds if and only if there is room for the file and every line it reaches, at any depth, is right: no broken directive, markers only before includes, missing files only after a marker |
| `IncludeSound.FineSucceeds` | addkernels/include_inliner.cpp:88-194 | Files whose every line is fine by itself and whose includes go down in rank succeed when there is room for the rank |
| `IncludeExpand.ExpandStable` | addkernels/include_inliner.cpp:97-98 | A result that is no overflow is the same under every larger limit |
| `IncludeMeaning.IncludeIsPaste` | addkernels/include_inliner.cpp:88-194 | A run that succeeds writes what it writes with the expanded lines of an included file in place of the include |
| `IncludeMeaning.InlinedOnce` | addkernels/include_inliner.cpp:88-194 | Inlining what was inlined changes nothing |
| `IncludeMeaning.ExpandFinishes` | addkernels/include_inliner.cpp:106-188 | What is written holds no directive and no mark |
| `IncludeMeaning.WalkAgrees` | addkernels/include_inliner.cpp:106-193 | What lines become depends neither on who includes the file nor on the lines before |
| `IncludeMeaning.PlainFileIsRead` | addkernels/include_inliner.cpp:151-188 | Among plain lines a directive that names a file of plain lines, found under root and path, becomes those lines |
| `IncludeMeaning.MissingInside` | addkernels/include_inliner.cpp:196-213 | The trace goes from the failing file outwards, each including file with the line of its include |
| `IncludeExpand.CirclesFail` | addkernels/include_inliner.cpp:97-98 | Whatever leads into a circle of includes fails under every limit |
| `IncludeSound.CirclesOverflow` | addkernels/include_inliner.cpp:97-98 | Along a circle of includes where every line before the next include is fine, every limit overflows |
| `IncludeExpand.RankedFits` | addkernels/include_inliner.cpp:97-98 | A file whose includes go down in rank never overflows when there is room for its rank |
| `IncludeExpand.Trace` | addkernels/include_inliner.cpp:196-213 | The trace has one entry for every file on the stack |
| `IncludeInliner.Inliner.ReadLine` | addkernels/include_inliner.cpp:108-188 | One line: marker, directive, text or error, with what is written and what is left making up the whole |
| `IncludeInliner.Inliner.ReadLines` | addkernels/include_inliner.cpp:106-193 | All lines of a file, then it is taken off the stack and the depth goes down |
| `IncludeInliner.Inliner.ProcessCore` | addkernels/include_inliner.cpp:88-194 | Carries out the recursive expansion; depth always equals the height of the stack |
| `IncludeInliner.Inliner.Process` | addkernels/include_inliner.cpp:77-86 | A whole run: it succeeds if and only if there is room and every reached line is right, depth and stack are restored if and only if it succeeds or is refused at once, and an output that was empty is the join of the expanded lines without leading empty ones |

## Left out

- Floating-point rounding, the narrowing of one loss to `float` (driver/ctc_verify.hpp:437), NaN checks and tolerance comparisons: exact reals throughout.
- Empty labels, negative classes and labels that contain the clamped blank: the CTC checks do not exclude them, the model's callers must.
- CtcVerify.RunReference: requires an acceptable batch. The source's reference path makes no feasibility check of its own and carries an infeasible label through at its cut-off value, where exact probabilities give a likelihood of zero to divide by.
- CtcVerify.ReferenceItem: requires a feasible label, for the reason given for RunReference.
- CtcVerify.RunCtcLossCpuVerify: rejects infeasible batches on the reference path too, for the reason given for RunReference.
- CtcReference.CtcGradientLog: requires a feasible label, for the reason given for RunReference.
- CtcReference.CtcSoftmaxLayerGradientLog: requires a feasible label, for the reason given for RunReference.
- ConvTiled.ConvForwardTiled: requires that tiles divide the height, that the tile count divides the outputs, unit strides and no tile column that sticks out of the width, since the source writes outside the output otherwise; the backward direction of the weight preparation does nothing and the bias is ignored by the source.
- ConvTiled.RunGroups: requires what ConvTiled.ConvForwardTiled requires of the shape and the tiles.
- ConvRoute.ConvBackwardDataGemm: requires square stride and padding, packed planes, and an output plane of the size the column routines compute, since the source indexes its columns with that size.
- LstmRun.RunForward: the row arithmetic is a parameter; dropout between layers, the copy of activated gates into the second half of the reserve space and the copies to the host vectors are not modelled.
- LstmGradient.RecurrentGradient: one entry of the weight gradient at a time, with its per-row product as a parameter; gate-level back-propagation is not modelled.
- GRU and plain RNN hosts: the same packed schedule with another cell.
- LRN with different numbers of input and output channels, or planes of different size. With fewer output than input channels the third phase writes past the output; with more, the surplus channels are written only as far as the second phase reaches and are otherwise left as they were.
- XORWOW constants are parameters (table length and digit width); the generated header files are not part of this model, their generator is.
- The inliner's real file system and path resolution, and the wording of its messages: a map from path to text and an error value.
- Softmax, neuron, GEMM-driver, reduction and batch-norm hosts, driver classes, GPU buffers, library calls, timing, printing, command lines and random data: pointwise, input and output, or foreign code.
- The disabled blocks of driver/conv_verify.hpp.
