# Omniglot Siamese network: samplers and shape arithmetic in Dafny

This project models the two pieces of discrete logic in a Siamese-network
few-shot learner for the Omniglot handwritten-character corpus:

- **The pair sampler** (`OmniglotDataset`, omniglot/utils.py). The parity of the
  index decides the branch. An even index draws one character and two files from
  its directory, with label 1.0. An odd index draws two characters independently
  and one file from each, redrawing the second file until the two file names
  differ, with label 0.0.
- **The n-way one-shot episode sampler** (`NWayOneShotEvalSet`, omniglot/utils.py).
  It draws a query image and a label in `[0, numWay)`, then `numWay` candidates.
  The candidate at the label position comes from the query's own directory; every
  other candidate comes from a freshly drawn character.
- **The tensor shapes of the twin network** (`Net`, omniglot/model.py). This covers
  the layer widths fixed in the constructor, the four convolution stages of
  `convs` (valid convolution `d - k + 1`, 2 x 2 max pooling `floor(d / 2)`), the
  `view(-1, 256 * 6 * 6)` flatten, `fc1`, the broadcasting merge and `fcOut`.
- **The merge of the twin network's values**: one shared encoder embeds both images,
  the embeddings are merged by `|x1 - x2|`, and one linear head scores the result.

Randomness is an explicit oracle: a finite `seq<nat>` consumed from the front.
A draw from a sequence of length n uses the next number modulo n, so every
element is reachable (`Draws.ChooseReachesEvery`). The directory listing
(`os.listdir`) is a `map<string, seq<string>>`. Opening an image and the dataset
transform are caller-supplied functions. The errors the program raises become a
`Fault`:

- `EmptyChoice`: `random.choice` on an empty sequence.
- `NoSuchDirectory`: `os.listdir` on a path the listing lacks.
- `NonPositiveBound`: `np.random.randint(n)` with `n <= 0`.
- `Diverges`: a loop that can never be left.
- `OutOfDraws`: the supplied oracle ran out. This is a limit of a finite oracle, not something the program does.

Modules: `Outcome` (Result/Option), `Draws` (the oracle), `Corpus` (categories,
paths, listing, picks), `PairSampler`, `EpisodeSampler`, `Shapes`, `Merge`.
`PairSampler.Len` and `EpisodeSampler.Len` model `__len__` (the `setSize` field).

The two loops that redraw:

- The pair sampler's loop (utils.py:66-67) can be left exactly when the second
  directory lists a name other than the first image's name.
  `PairSampler.RedrawSecond` returns `Diverges` precisely when no name qualifies.
  `PairSampler.RedrawLoop` is the loop as written, and `RedrawAgreesWithLoop`
  relates the two: where `RedrawSecond` diverges, the literal loop uses up every
  finite supply of draws.
- The episode sampler's loop (utils.py:118-119) reassigns `testImgDir` the very
  value it already holds. `EpisodeSampler.SpinRedraw` is that loop run for a
  bounded number of iterations. It is left at once or never
  (`EpisodeSampler.SpinNeverRedraws`), so the candidate step as written
  (`EpisodeSampler.Candidate`) returns `Diverges` exactly when a non-label slot
  draws the query's own directory (`EpisodeSampler.CandidateAgreesWithSpin`).
  See Findings.

The corrected episode loop (`EpisodeSampler.RedrawDir`) draws a fresh category
and character on every iteration. It can still be stuck: when every character
the descriptor offers lives in the query's directory and no alphabet is empty,
every draw lands in the query's directory again, so the loop never exits. (An
empty alphabet does end it: `random.choice` raises `IndexError` once that
alphabet is drawn.) `RedrawDir` returns `Diverges` exactly then
(`AllCharactersIn`), and
`RedrawDirLoop` with `RedrawDirAgreesWithLoop` relates it to the loop taken
literally, as for the pair sampler.

Where a reader might expect more than the code does, the model follows the code:

- Different-class pairs compare only file names, never directories. The two images
  may come from the same character (`PairSampler.DifferentClassDirsMayCoincide`).
- Non-label episode candidates are never resampled. A draw of the query's own
  directory does not lead to a redraw; it leads to a loop that never ends.
- The two dropout layers are built but never applied in `convs` or `forward`.
- The program does not raise dedicated "empty character" or "image not found" errors.
  It raises Python's own `IndexError` (from `random.choice`) and `FileNotFoundError`
  (from `os.listdir`). These are `EmptyChoice` and `NoSuchDirectory` here.

`Corpus.ListDir` (`os.listdir`), `Corpus.Load` (`Image.open` of
`dir + '/' + name`, then the transform when one is set), `Shapes.Norm` (batch
normalisation keeps the shape and checks the channel count) and
`Shapes.Project` (a linear layer on a batch of rows) are building blocks whose
contracts only restate their bodies; the members built from them carry the
properties. In particular, that every returned image is the opened file passed
through the transform exactly when one is set is part of `PairSampler.Sourced`,
`EpisodeSampler.SlotFilled` and `EpisodeSampler.WellFormed`, which the samplers'
contracts guarantee.

## Model

| member | source | states |
|---|---|---|
| Draws.Choose | omniglot/utils.py:48-49 | `random.choice` fails on an empty sequence before using randomness; otherwise it returns an element of the sequence and consumes exactly one draw |
| Draws.ChooseReachesEvery | omniglot/utils.py:48-49 | every element of a non-empty sequence is the outcome of some draw, so the oracle abstraction loses no behaviour |
| Draws.RandBelow | omniglot/utils.py:103 | `np.random.randint(n)` yields a number in `[0, n)`, and fails when `n <= 0` |
| Draws.RandBelowReachesEvery | omniglot/utils.py:103 | every number in `[0, n)` can be the drawn label |
| Corpus.DrawFile | omniglot/utils.py:53-54 | a drawn file name is listed in its directory; a missing directory and an empty directory give their own errors |
| Corpus.DrawCharacter | omniglot/utils.py:48-49 | a category then one of its characters: the result is a character the descriptor offers, using two draws; the only failures are an empty choice or exhausted draws |
| Corpus.DrawCharacterReachesEvery | omniglot/utils.py:48-49 | every (alphabet, character) the descriptor offers can be drawn |
| PairSampler.Len | omniglot/utils.py:39-40 | the dataset's length is its configured `setSize`, independent of the corpus |
| PairSampler.RedrawLoop | omniglot/utils.py:66-67 | the loop as written exits only with a name other than the first, which is the initial draw or a listed name; it fails only by an empty choice or exhausted draws |
| PairSampler.RedrawSecond | omniglot/utils.py:64-67 | on exit the second name differs from the first and is the initial draw or a name listed in the second directory; it diverges iff the names are equal and every listed name is the first name |
| PairSampler.RedrawAgreesWithLoop | omniglot/utils.py:66-67 | the loop as written gives the same outcome wherever it can exit, and exhausts every finite oracle exactly where `RedrawSecond` reports divergence |
| PairSampler.RedrawCanExit | omniglot/utils.py:66-67 | when the directory lists another name, one draw of it leaves the loop with that name |
| PairSampler.SameClass | omniglot/utils.py:47-58 | both images come from one directory of one offered (alphabet, character), each is a listed file loaded through the transform, and the label is 1.0; it never diverges |
| PairSampler.DifferentClass | omniglot/utils.py:60-70 | both images are listed files of offered characters, their file names differ, and the label is 0.0; their directories are not constrained |
| PairSampler.PairAt | omniglot/utils.py:42-75 | the label is 1.0 iff the index is even and 0.0 iff it is odd, whatever the draws; even indices give same-class pairs and odd ones pairs with distinct names; only odd indices can diverge |
| PairSampler.LabelsBalanced | omniglot/utils.py:39-47 | sampling every index `0 .. __len__() - 1` once, ceil(n/2) of the returned labels are 1.0 and floor(n/2) are 0.0 |
| PairSampler.SameClassReaches | omniglot/utils.py:47-58 | every offered character and every two of its listed files, drawn in that order, give exactly that same-class pair |
| PairSampler.DifferentClassRedraws | omniglot/utils.py:60-70 | after two categories, two characters and one file from each directory, the odd branch returns exactly what the redraw loop on the second directory returns |
| PairSampler.DifferentClassOnDraws | omniglot/utils.py:60-70 | with distinct initial names the odd branch returns exactly the drawn pair; it diverges iff the names are equal and the second directory lists only that name |
| PairSampler.SameClassNamesMayCoincide | omniglot/utils.py:53-54 | the two same-class names are drawn with replacement and can be the same file |
| PairSampler.DifferentClassDirsMayCoincide | omniglot/utils.py:61-63 | the two different-class characters are drawn independently and can be the same directory |
| PairSampler.SingleFileCorpusDiverges | omniglot/utils.py:64-67 | in a corpus of one character holding one file, an odd index never returns |
| EpisodeSampler.Len | omniglot/utils.py:87-88 | the dataset's length is its configured `setSize`, independent of the corpus |
| EpisodeSampler.SpinRedraw | omniglot/utils.py:118-119 | the loop as written exits only with a directory other than the query's, and that directory is the one it started from or the one its body recomputes |
| EpisodeSampler.SpinNeverRedraws | omniglot/utils.py:117-119 | iterating the loop body any number of times leaves the directory unchanged, so the loop exits immediately (directory unchanged) or never |
| EpisodeSampler.Candidate | omniglot/utils.py:105-127 | the label slot is a listed file of the query's directory and character; any other slot is a listed file of an offered character whose directory differs from the query's; only other slots diverge |
| EpisodeSampler.CandidateAgreesWithSpin | omniglot/utils.py:115-119 | a non-label slot diverges exactly when the loop as written, run any number of times on the drawn character, has not exited; a completed slot has the directory the loop exits with |
| EpisodeSampler.CandidatesFrom | omniglot/utils.py:105-127 | the loop over positions yields one candidate per remaining position, each filled as its position requires; with the intended redraw it diverges only if every offered character lies in the query's directory |
| EpisodeSampler.SampleEpisode | omniglot/utils.py:90-127 | a returned episode is `WellFormed`: the label lies in `[0, numWay)`, there are exactly `numWay` candidates, the query is a listed file of an offered character, and every candidate is filled as its position requires; `numWay <= 0` fails; divergence needs `numWay >= 2`, and with the intended redraw all offered characters in one directory |
| EpisodeSampler.EpisodeAt | omniglot/utils.py:90-129 | `__getitem__` as written returns only `WellFormed` episodes, fails for `numWay <= 0`, and can diverge only when `numWay >= 2` |
| EpisodeSampler.EpisodeAtRedrawn | omniglot/utils.py:90-129 | with the intended redraw, `__getitem__` returns only `WellFormed` episodes and diverges only when all offered characters share one directory |
| EpisodeSampler.ExactlyOneMatch | omniglot/utils.py:103-127 | in every episode of the promised form (`WellFormed`, which `SampleEpisode` guarantees), the positions whose candidate shares the query's directory are exactly `{label}`, and no other candidate shares the query's (alphabet, character) |
| EpisodeSampler.SlotReaches | omniglot/utils.py:105-125 | every choice of listed file for the label slot, and of offered character outside the query's directory and listed file for any other slot, is what the step returns on the matching draws |
| EpisodeSampler.CandidatesFromReaches | omniglot/utils.py:105-127 | every fitting choice for all remaining positions is exactly the candidate list the loop returns, consuming exactly their draws |
| EpisodeSampler.EpisodeReaches | omniglot/utils.py:90-127 | every offered query, label in `[0, numWay)` and fitting choice of candidates is the episode the sampler returns on the matching draws |
| EpisodeSampler.OneCharacterEpisodeDiverges | omniglot/utils.py:115-119 | with one character in the descriptor, a two-way episode whose label is 0 never returns |
| EpisodeSampler.RedrawDir | omniglot/utils.py:115-119 | the intended redraw loop exits only with a character whose directory differs from the query's; it diverges iff it starts in the query's directory, every offered character lies there and no alphabet is empty (`AllCharactersIn`) |
| EpisodeSampler.RedrawDirLoop | omniglot/utils.py:115-119 | the intended loop taken literally exits only with a character outside the query's directory, and fails only by an empty choice or exhausted draws |
| EpisodeSampler.RedrawDirAgreesWithLoop | omniglot/utils.py:115-119 | the literal loop gives the same outcome as `RedrawDir` wherever it can exit, and exhausts every finite oracle exactly where `RedrawDir` reports divergence |
| EpisodeSampler.RedrawDirCanExit | omniglot/utils.py:115-119 | the intended loop exits as soon as it draws a character with another directory |
| EpisodeSampler.CandidateRedrawn | omniglot/utils.py:105-127 | with the intended redraw every slot is filled as its position requires, and a slot diverges only when every offered character lies in the query's directory |
| EpisodeSampler.RedrawnSlotDivergesIff | omniglot/utils.py:115-119 | with the intended redraw, a non-label slot diverges iff every offered character lies in the query's directory and no alphabet is empty (`AllCharactersIn`) |
| EpisodeSampler.SlotAsWrittenVersusRedrawn | omniglot/utils.py:115-120 | with two characters, on the same draws a slot whose first draw is the query's character diverges as written and completes with the intended redraw |
| Shapes.ConvSide | omniglot/model.py:29-31 | a valid convolution of kernel k is defined iff `1 <= k <= d`, giving `d - k + 1 >= 1` |
| Shapes.PoolSide | omniglot/model.py:32 | 2 x 2 pooling is defined iff `d >= 2`, giving the floor of `d / 2` |
| Shapes.Conv | omniglot/model.py:11-14 | a convolution accepts exactly its own input channel count and sides at least its kernel; it outputs its output channel count and sides `in - kernel + 1` |
| Shapes.Pool | omniglot/model.py:32-36 | pooling is defined iff both sides are at least 2; it keeps batch and channels and halves each side, rounding down |
| Shapes.Stage | omniglot/model.py:31-32 | `relu(bn(conv(x)))` then pooling is defined iff the channels match conv and norm and each side leaves at least 2 after the convolution; the output side is `(d - k + 1) / 2` with pooling and `d - k + 1` without |
| Shapes.Convs | omniglot/model.py:26-38 | `convs` accepts only the first convolution's channel count, keeps the batch, outputs the last convolution's channel count, and never grows a side |
| Shapes.KochSide | omniglot/model.py:30-37 | the four-stage side chain, where defined, yields at least 1 and at most an eighth of the input side |
| Shapes.KochWired | omniglot/model.py:11-22 | each convolution's output width equals its batch norm's width and the next convolution's input width; `fc1` feeds `fcOut`, which has one output |
| Shapes.KochSideDomain | omniglot/model.py:26-38 | the four-stage side chain is defined exactly for sides at least 65, and it yields `((((d - 9) / 2 - 6) / 2 - 3) / 2) - 3` |
| Shapes.ConvsShape | omniglot/model.py:26-38 | `convs` accepts exactly single-channel inputs whose sides the chain accepts, outputs 256 channels, and treats height and width independently |
| Shapes.ConvsOf105 | omniglot/model.py:30-38 | 1 x 105 x 105 becomes 256 x 6 x 6, stage by stage: 64 x 96 x 96 after `conv1` and 64 x 48 x 48 after pooling, then 128 x 42 x 42 and 21, 128 x 18 x 18 and 9, and 256 x 6 x 6 after `conv4`; and 256 * 6 * 6 equals the input width of `fc1` |
| Shapes.View | omniglot/model.py:46 | `view(-1, cols)` is defined iff the element count is positive and a multiple of `cols`, and it keeps the element count |
| Shapes.Broadcast | omniglot/model.py:54 | for operands of equal width, as both towers produce, `x1 - x2` needs equal row counts or a single row on one side |
| Shapes.Tower | omniglot/model.py:45-47 | one tower is defined only when `convs` is and `fc1` takes 256 * 6 * 6 inputs; it outputs `fc1`'s width and keeps the element count of the flattened map |
| Shapes.Forward | omniglot/model.py:41-55 | `forward` is defined only when both towers are and `fc1` feeds `fcOut`; it outputs `fcOut`'s width with the row count of one of the towers |
| Shapes.ForwardOf105 | omniglot/model.py:41-55 | on 105 x 105 inputs each tower gives a 4096-wide embedding per image, and `forward` gives one score per image pair |
| Shapes.KochSideIsSix | omniglot/model.py:31-37 | the side chain ends in 6 exactly for input sides 105 through 112 |
| Shapes.ViewKeepsBatch | omniglot/model.py:46-50 | flattening 256 maps of side s to rows of 9216 keeps one row per image iff s is 6 |
| Shapes.ForwardKeepsBatchIffView | omniglot/model.py:45-55 | the pair of towers gives one score per pair exactly when the flatten keeps one row per image |
| Shapes.ForwardKeepsBatch | omniglot/model.py:41-55 | for square single-channel inputs, `forward` returns one score per image pair iff the side is between 105 and 112; other accepted sides regroup rows |
| Merge.Abs | omniglot/model.py:54 | the absolute value is non-negative and is `x` or `-x` |
| Merge.AbsDiff | omniglot/model.py:54 | the merge has the embeddings' length, and each entry is non-negative and is `a[i] - b[i]` or `b[i] - a[i]` |
| Merge.AbsDiffSymmetric | omniglot/model.py:54 | swapping the two embeddings leaves the merge unchanged |
| Merge.AbsDiffZeroIff | omniglot/model.py:54 | the merge is all zeros iff the two embeddings are equal |
| Merge.DotZeros | omniglot/model.py:55 | the head applied to an all-zero merge gives 0 before the bias |
| Merge.Similarity | omniglot/model.py:45-55 | a score exists exactly when both embeddings have the head's input width |
| Merge.SimilaritySymmetric | omniglot/model.py:45-55 | since one encoder serves both images, the score does not depend on the order of the pair |
| Merge.SimilarityOfEqualEmbeddings | omniglot/model.py:45-55 | two images with the same embedding, such as one image passed twice, score exactly the head's bias |

## Left out

- `save_checkpoint` and `load_checkpoint` (utils.py:10-30): model serialisation and disk I/O. Their only logic is the early return on a `None` path.
- omniglot/train.py: gradient steps, device transfer and loss averaging. These are framework calls with floating-point results.
- The floating-point content of `Conv2d`, `BatchNorm2d`, `relu`, `sigmoid` and `Linear`: `Merge` keeps the encoder opaque and models the head as a real dot product plus bias. The embedding bound (0, 1) that `sigmoid` gives is therefore not stated.
- `relu` and `sigmoid` keep shapes, so `Shapes` has no member for them.
- `dropout1` and `dropout2` (model.py:19-20) are built but never applied, so there is nothing to model.
- Batch normalisation's training-mode refusal of a single value per channel is not modelled. It depends on the mode, and a batch of 105 x 105 images never triggers it.
- The uniformity of `random.choice` and `np.random.randint` is not modelled. Draws are an explicit oracle, and distributions cannot be stated here.
- `Image.open` is a total opaque function. A listed entry that is not a readable image, such as a subdirectory, would raise in the program but is not modelled.
- The returned label tensors (`float32` array of one element, `int` array of one element) are modelled as a `real` and a `nat`.
- Python's `len()` rejects a negative `__len__`. `Len` returns `setSize` unchecked, because that check belongs to the caller's protocol.
- `Merge.Similarity` scores one image pair. Batching is covered only at the level of shapes, in `Shapes.Forward`.
- `EpisodeSampler.EpisodeAt` takes the module-level `categories` and `root_dir` as explicit parameters. It ignores the dataset's own fields and the index, as the program does. utils.py itself never assigns these two module-level names, so as shipped `__getitem__` raises `NameError` at utils.py:92 unless a caller assigns both on the module; the model assumes a caller did.
- Shapes.Broadcast: models broadcasting only for operands of equal width; PyTorch also stretches a width of 1, which cannot occur at model.py:54 because both operands come from the same `fc1`.
- EpisodeSampler.SampleEpisode: with the intended redraw it states only that divergence requires all offered characters to share one directory; the converse is proved per slot (`RedrawnSlotDivergesIff`) and not lifted to whole episodes, whose other draws can fail first.
- EpisodeSampler.SpinRedraw: the literal loop is modelled with an iteration bound, because it may never exit; `SpinNeverRedraws` shows that no bound changes its outcome.

## Findings

| source | as written | input that shows it | evidently intended | confidence | as-written member | corrected member |
|---|---|---|---|---|---|---|
| omniglot/utils.py:118-119 | the loop body recomputes `testImgDir` from the same `testCategory` and `testCharacter`, so once it is entered it never exits | a descriptor with the alphabet greek holding the characters alpha and beta, a query from alpha and label 0; slot 1 first draws alpha, the query's own directory, although beta is available | redraw `testCategory` and `testCharacter` inside the loop until the directory differs | high; not executed | EpisodeSampler.SlotAsWrittenVersusRedrawn | EpisodeSampler.CandidateRedrawn |

The as-written behaviour is `EpisodeSampler.Candidate`. `EpisodeSampler.SpinNeverRedraws`
shows that its loop never changes its directory, and `EpisodeSampler.CandidateAgreesWithSpin`
ties the step's divergence to that loop. On the two-character input,
`EpisodeSampler.SlotAsWrittenVersusRedrawn` shows the step diverging as written and
completing with the intended redraw. The corrected step is `EpisodeSampler.CandidateRedrawn`,
built on `EpisodeSampler.RedrawDir`: it diverges only when every offered character lies
in the query's directory, where no redraw could help (`EpisodeSampler.RedrawnSlotDivergesIff`).
`EpisodeSampler.EpisodeAtRedrawn` is the episode sampler built from it.
`EpisodeSampler.EpisodeAt` keeps the program's behaviour.
