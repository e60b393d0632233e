# ZigZag learning-rate controller and text-to-raster data preparation

This project models two parts of a repository that trains image classifiers
to tell human answers from ChatGPT answers. Each answer is turned into
pictures of its part-of-speech tags.

**The learning-rate controller** (`lr_scheduler.dfy`)
- `ZigZagLROnPlateauRestarts` is a class whose `Step` updates its counters, the previous metric and the best rate.
- It also writes the learning rate of the optimizer it drives.
- `Next` is the same step as a pure function on a `State`. It carries the promised behaviour.
- The invariant "one streak is empty and neither outgrows its patience" is kept by every step.

**The data preparation of `data_pos.py`**
- `pos_tags.dfy`: the 36-entry tag dictionary `pos_dict` and `get_tags`. It maps the tagger's (word, tag) pairs to the codes of the known tags.
- `corpus_data.dfy` and the `Data` class:
  - splits the answer columns into paragraphs of sentences;
  - runs the worker that encodes each sentence, stacks every three consecutive rows into a zero-padded window, and saves each window that renders under a numbered file name;
  - runs the driver that applies the worker to a whole corpus;
  - writes the batches and the `batches.META` label file, and reads the labels back.
- `raster.dfy`: the functions that specify the worker, namely windows, padding, file names and the numbering of saved windows.
- `batch_meta.dfy`: the META text format with its writer and reader, and the batch and META paths.
- `pos_image_dataset.dfy`: `POSImageDataset`'s sorted class list, its `class_to_idx` and the label of each image.
- `strings.dfy`, `decimal.dfy`, `string_order.dfy` and `results.dfy`: helpers. They hold Python's join, split, strip, line iteration and lower-casing, `str`/`int` on integers, string ordering and `sorted(set(...))`, and an Option and Result type.

**What stands in for the outside world**
- Python exceptions become `Err` results.
- A local read before it is assigned is an `Option` that is `None`.
- The tagger is a parameter: a function from a sentence to its (word, tag) pairs.
- Whether a window's plot is drawn and saved is a parameter predicate `rendered` on the matrix.
- The batches the data loader yields are a parameter, given as their label lists.
- The files present when the labels are read back are a parameter: a map from path to contents.

## Model

| member | source | states |
|---|---|---|
| LrScheduler.ZigZagLROnPlateauRestarts.constructor | model.py:307-321 | Stores the factors as `1 + up_factor` and `1 - down_factor`. Both streaks and the epoch count start at 0, the best rate at `lr`, and the previous metric at +inf in mode "min" and -inf otherwise. The invariant holds from the start. |
| LrScheduler.Next | model.py:323-372 | One step. It counts one epoch and always sets the previous metric to the new one. An improvement records the rate from before any scaling, clears the bad streak, and scales up once the good streak exceeds its patience. A non-improvement keeps the best rate, clears the good streak, and scales down once the bad streak exceeds its patience. A due restart sets the rate to the best rate, overriding any scaling. It raises exactly when `restart_after` is 0. The invariant holds afterwards. |
| LrScheduler.ZigZagLROnPlateauRestarts.Step | model.py:323-374 | The object's new fields and the optimizer's new rate are `Next` of the old ones. The returned flag is the `ZeroDivisionError` of a zero `restart_after`. The invariant is kept. |
| LrScheduler.RunCountsEpochs | model.py:324 | With a non-zero restart interval, a run of n steps never raises and counts exactly n epochs. |
| LrScheduler.ZeroRestartRaises | model.py:371 | With `restart_after == 0`, the first step raises after counting its epoch. |
| LrScheduler.FirstStepImproves | model.py:317-327 | On a fresh controller, the first finite metric always improves on the starting infinity (in either mode). The best rate becomes the optimizer's rate. |
| LrScheduler.EqualMetricIsNoImprovement | model.py:326 | The comparison is strict. An equal metric improves in neither mode. |
| LrScheduler.RunKeepsRatesPositive | model.py:331-372 | With positive factors, the optimizer's rate and the best rate stay positive however many steps run. |
| LrScheduler.Run | model.py:323-372 | A run of steps raises exactly when `restart_after` is 0 and at least one metric is given. After any non-empty run the invariant holds. |
| LrScheduler.FourEpochTrace | model.py:323-372 | Mode "min", patiences 1, a restart every 3 epochs, metrics 5, 4, 4, 6. The rate scales up, is restored to the best rate by the restart, then scales down. |
| LrScheduler.FourEpochTraceOnObject | model.py:306-374 | The same four steps on a controller object driving an optimizer. The optimizer's rates after each step are r, 1.5r, r and 0.5r for up and down factors 0.5. |
| PosTags.TagsDistinct | data_pos.py:417-421 | The 36 listed tags are pairwise distinct. |
| PosTags.PosDictShape | data_pos.py:417-421 | `pos_dict` maps its 36 tags one to one onto the codes 1..36, each tag to its listed code. |
| PosTags.Lookup | data_pos.py:440 | `dict.get(tag, 0)` is the tag's code for a tag in the dictionary and 0 for a tag outside it. |
| PosTags.Codes | data_pos.py:440 | The first comprehension gives one code per (word, tag) pair. |
| PosTags.NonZero | data_pos.py:443 | The second comprehension is no longer than its input. It keeps only non-zero codes that were in the input. |
| PosTags.GetTagsWith | data_pos.py:440-445 | For any dictionary, the output is no longer than the input. Every output code is non-zero and is the code of some tag in the dictionary. |
| PosTags.GetTags | data_pos.py:440-445 | The output is no longer than the tagger's list, and every code lies in 1..36. |
| PosTags.EncodeKnown | data_pos.py:440-443 | For a dictionary with no code 0, dropping the zeros leaves exactly the codes of the known tags, in order. |
| PosTags.GetTagsCodesKnownTags | data_pos.py:440-445 | `get_tags` is the code of each known tag, in the original order. Unknown tags, and only those, are dropped. |
| PosTags.GetTagsDeterminesKnownTags | data_pos.py:417-445 | Two tagger outputs encode alike if and only if their known tags are equal. |
| PosTags.GetTagsAppend | data_pos.py:440-445 | Encoding a concatenation is the concatenation of the encodings. |
| PosTags.ThreeTagExample | data_pos.py:417-445 | DT, NN, VBD encode as 3, 12, 28. |
| CorpusData.CleanText | data_pos.py:68-71 | The joined text has no newline left, and every other character keeps its multiplicity. |
| Strings.RemoveCharCounts | data_pos.py:69 | Removing a character shortens the text by its number of occurrences and keeps the count of every other character. |
| Strings.RemoveCharAppend | data_pos.py:69 | Removing a character from a concatenation removes it from each part: the kept characters stay in order. |
| Strings.RemoveCharAbsent | data_pos.py:69 | A text without the character is left unchanged. |
| CorpusData.CleanTextAppend | data_pos.py:68-69 | One more answer adds exactly that answer without its newlines at the end of the cleaned text. An answer without newlines is added unchanged. |
| CorpusData.ToParagraph | data_pos.py:68-71 | There is one sentence more than the cleaned text has full stops. Joining the sentences with '.' gives back the cleaned text. |
| CorpusData.ParagraphPieces | data_pos.py:68-71 | No sentence contains '.' or '\n'. There is one more sentence than there are full stops. Joining the sentences with '.' gives back the cleaned text. |
| CorpusData.Paragraphs | data_pos.py:68-71 | One paragraph per row of the answer column, each row's own. |
| CorpusData.Data.constructor | data_pos.py:68-71 | The human and ChatGPT paragraphs are those of their columns. Neither directory attribute is set yet. |
| Raster.Encode | data_pos.py:88-92 | One row per sentence. Row i is `get_tags` of sentence i with its full stop put back. |
| Raster.EncodeWithLength | data_pos.py:89-92 | The intended pair from `get_tags`: the codes of `sentence + "."` and their number. |
| CorpusData.Data.EncodeParagraph | data_pos.py:86-92 | Its loop builds `arrs`, equal to `Encode` of the paragraph, and `arr_lens`, with `arr_lens[k] == len(arrs[k])` for every k. |
| Raster.UnpackAsWritten | data_pos.py:90 | The tuple unpacking as written succeeds exactly when a sentence has two known tags. |
| Raster.UnpackAsWrittenRejectsThreeTags | data_pos.py:90 | A three-tag sentence makes the unpacking raise. The intended pair is its codes and 3. |
| Raster.Pad | data_pos.py:107-108 | A padded row has the window's width, begins with the original row, and holds only zeros after it. |
| Raster.Window | data_pos.py:103-112 | A window has three rows. Their common width and contents are stated by `WindowShape`. |
| Raster.Windows | data_pos.py:101 | A paragraph of N >= 3 sentences has N - 2 windows. Window i starts at sentence i. |
| Raster.WindowShape | data_pos.py:103-112 | A window has three rows of one common length. Each row keeps its sentence's codes as a prefix and has only zeros after them. One row is unpadded, so the width is the largest of the three lengths. |
| CorpusData.Data.StackWindow | data_pos.py:104-112 | The inner loop, with copy and `extend` by zeros, yields exactly `Window(arrs, i)`. |
| CorpusData.Data.StackWindows | data_pos.py:101-112 | The outer loop yields every window, by start index. |
| Raster.FileName | data_pos.py:119 | A file name starts with the images directory and ends with ".png". |
| Raster.FileNameNumbers | data_pos.py:119 | A file name is the directory with `name + "_"`, then the paragraph and window numbers joined by the one underscore left in the rest. |
| Raster.FileNameInjective | data_pos.py:119 | Within one directory and dataset name, equal file names mean the same paragraph and window numbers. |
| Raster.Emit | data_pos.py:101-125 | No more images than windows, and each saved matrix renders. With a counter starting at k, the saved images are numbered k, k+1, ... in order. |
| Raster.Kept | data_pos.py:115-125 | The filter of the windows that render, in order: each kept matrix is a window and renders. |
| Raster.EmitSavesKept | data_pos.py:101-125 | With a counter, the saved matrices are exactly the windows that render, in order. A window that fails is skipped and later ones are still saved. |
| Raster.KeptAllRendered | data_pos.py:115-125 | When every window renders, every window is kept. |
| Raster.EmitUnboundSavesNothing | data_pos.py:119-125 | With the counter unbound, as written, no window is saved. |
| Raster.EmitSnoc | data_pos.py:115-122 | One more window is saved exactly when it renders, under the count of windows saved before it. |
| Raster.EmitSavesEveryRendered | data_pos.py:101-122 | When every window renders, window j is saved as number k + j, in order, none missing. |
| Raster.WorkerImages | data_pos.py:83-122 | A paragraph of fewer than three sentences saves nothing. A paragraph of N >= 3 sentences saves at most N - 2 images, one per window. This and the following members describe the corrected worker, whose window counter starts at 0. |
| Raster.WorkerImagesNamed | data_pos.py:119-122 | The images of a paragraph are named with window numbers 0, 1, ... in the order they are saved. |
| Raster.WorkerImagesShape | data_pos.py:83-122 | When every window renders, a paragraph of N >= 3 sentences saves exactly N - 2 images. Image i is window i under number i. |
| Raster.WorkerImagesPathsDistinct | data_pos.py:119 | No two images of one paragraph share a file. |
| CorpusData.Data.SaveRendered | data_pos.py:101-122 | The saving loop with a counter that starts at 0 and goes up after each saved window. It saves exactly `Emit` with counter 0. |
| CorpusData.Data.SaveWindows | data_pos.py:101-122 | Stacking then saving gives `Emit` of all windows with counter 0. |
| CorpusData.Data.CpuThreadWorker | data_pos.py:83-125 | A paragraph of fewer than three sentences saves nothing. Before `images_dir` (and with it `pos_obj`) is set, a longer paragraph raises. Otherwise the worker saves `WorkerImages` of the paragraph under the real `pos_dict`. This is the corrected worker: the window counter starts at 0 and each sentence's codes and their count are taken as a pair. |
| CorpusData.NormaliseName | data_pos.py:140-145 | The name becomes "human" if and only if it lower-cases to "human". Every other name becomes "ai". |
| CorpusData.NormaliseNameIdempotent | data_pos.py:140-145 | Normalising a normalised name changes nothing. |
| CorpusData.SubmitAsWritten | data_pos.py:161-165 | With a start value, one job per paragraph. |
| CorpusData.SubmitUnboundFails | data_pos.py:163-165 | As written, `itr` is never assigned, so a non-empty corpus raises at its first paragraph. |
| CorpusData.SubmitFromZeroNumbersByIndex | data_pos.py:161-165 | With `itr` starting at 0, paragraph i is submitted with number i. |
| CorpusData.CorpusImagesNext | data_pos.py:161-165 | One more paragraph adds its own images, numbered by its position, after those of the paragraphs before it. |
| CorpusData.ShortParagraphsSaveNothing | data_pos.py:161-165 | A corpus whose paragraphs all have fewer than three sentences saves no image. |
| CorpusData.CorpusPathsDistinct | data_pos.py:161-165 | Every image of a corpus is named after one of its paragraphs. No two images share a file. |
| CorpusData.Data.SavePosTaggedImages | data_pos.py:137-169 | Sets `images_dir`. The name chooses the human or the ChatGPT paragraphs and is normalised. It asks for `dir + "/" + name` to be created. Its images are those of every paragraph numbered by position. This is the corrected driver: `itr` starts at 0 and each paragraph runs the corrected worker. Nothing else changes. |
| CorpusData.Data.SaveTorchDataBatches | data_pos.py:180-205 | Sets `data_store_path`. It writes one batch file per batch, numbered from 1, and a META file whose text holds every label of every batch, in batch order. Nothing else changes. |
| BatchMeta.WriteMeta | data_pos.py:203-205 | The writing loop produces `MetaText` of the labels: one decimal line per label. |
| BatchMeta.MetaLineShape | data_pos.py:204 | A label's line ends in a newline and holds no other newline. |
| BatchMeta.MetaTextAppend | data_pos.py:204-205 | One more label adds exactly its own line at the end. |
| BatchMeta.FlattenAppend | data_pos.py:200 | `extend` by one more batch appends that batch's labels. |
| BatchMeta.FlattenLength | data_pos.py:200 | The flat list has the total number of labels and begins with the first batch. |
| BatchMeta.LinesOfMetaText | data_pos.py:229-230 | Iterating over the written text yields exactly one line per label. |
| BatchMeta.MetaRoundTrip | data_pos.py:203-232 | Reading what the writer wrote gives back the same labels, one line per label. |
| BatchMeta.ParseLabel | data_pos.py:231 | `int(line.strip())` succeeds exactly when the stripped line is a decimal literal. |
| BatchMeta.ParseLinesWith | data_pos.py:229-232 | On success, the reading loop yields one value per line. |
| BatchMeta.ParseLines | data_pos.py:229-232 | On success, there is one label per line. |
| BatchMeta.ParseMeta | data_pos.py:228-232 | On success, there is one label per line of the META text. |
| BatchMeta.ParseLabelOk | data_pos.py:231 | `int(line.strip())` succeeds if and only if the stripped line is a signed decimal literal. |
| BatchMeta.ParseLinesWithAll | data_pos.py:229-232 | The reading loop succeeds if and only if every line parses, and then yields the parsed values in order. |
| BatchMeta.ParseLinesAll | data_pos.py:229-232 | Reading succeeds if and only if every stripped line is a decimal literal, and yields one label per line. |
| BatchMeta.ParseLinesErrStays | data_pos.py:231 | After the first line that fails, the later lines do not matter. |
| BatchMeta.ReadLabels | data_pos.py:228-232 | The reading loop with `append`. It equals `ParseLinesWith`. |
| BatchMeta.ReadMeta | data_pos.py:228-232 | Reading the META text equals `ParseMeta`. |
| BatchMeta.DefaultPathsAgree | data_pos.py:221-229 | With the default batch directory, the reader opens the file the writer wrote. |
| CorpusData.BatchDir | data_pos.py:221-222 | A given batch path is used as is. Without one, the result is the default directory under `data_store_path` when that is set, and an error otherwise. |
| CorpusData.LoadLabels | data_pos.py:221-232 | The batch directory is the given path or the default under `data_store_path`. When it resolves and its META file exists, the result is the parse of that file. An unresolved directory gives its error, and a missing file gives an error. |
| CorpusData.GivenPathLoads | data_pos.py:208-232 | Labels written as META text under a given batch path are read back from it unchanged. |
| CorpusData.LoadBeforeSaveFails | data_pos.py:221-222 | With no batch path and no `data_store_path`, loading raises. |
| CorpusData.SavedLabelsLoad | data_pos.py:203-232 | Labels written under a folder are read back unchanged through the default directory. |
| CorpusData.Data.GetTrainTestValLabels | data_pos.py:221-232 | The label half of `get_train_test_val_data` equals `LoadLabels` of the object's state. |
| CorpusData.SaveThenLoad | data_pos.py:180-232 | Saving batches on an object, then loading with no batch path, gives back every label of every batch, in order. |
| ImageDataset.ClassOf | data_pos.py:364 | `split(os.sep)[-2]` exists if and only if the path contains a separator. |
| ImageDataset.ClassNames | data_pos.py:364 | The comprehension succeeds if and only if every file has a parent. It then gives one parent name per file, in order. |
| ImageDataset.Enumerate | data_pos.py:367 | The keys of `class_to_idx` are exactly the classes, and class i maps to i. |
| ImageDataset.FromNames | data_pos.py:364-367 | The root directory and file list are stored. The classes are sorted, have no repeats and are exactly the distinct names. `class_to_idx` numbers them by place. |
| ImageDataset.NewDataset | data_pos.py:355-367 | Construction succeeds if and only if every file path has a separator. |
| ImageDataset.ElementsOfNames | data_pos.py:364 | The set of names is the set of parent directories of the files. |
| ImageDataset.ClassesShape | data_pos.py:364-367 | A built dataset's classes are sorted, have no repeats and are exactly the parent directories. `class_to_idx` maps each class to its position. |
| ImageDataset.Label | data_pos.py:382-386 | An index past either end raises. A label that exists is one of the values of `class_to_idx`. |
| ImageDataset.LabelFromNames | data_pos.py:382-386 | In a dataset built from its names, every index in range has a label. That label is the position of the file's name among the classes. |
| ImageDataset.LabelOfClass | data_pos.py:386 | A file whose parent is a known class gets that class's number. |
| ImageDataset.LabelIsParentIndex | data_pos.py:382-386 | Every index in range, from either end, has a label: the position of the file's parent directory among the classes. |
| ImageDataset.LabelOutOfRange | data_pos.py:382 | An index past either end raises. |
| ImageDataset.AiHumanFromNames | data_pos.py:364-367 | Names drawn from "ai" and "human", both present, give the classes ["ai", "human"] numbered 0 and 1. |
| ImageDataset.AiAndHumanClasses | data_pos.py:364-367 | Images under `ai/` and `human/` give `ai` class 0 and `human` class 1, whatever order the files are listed in. |

## Left out

**Not modelled**
- The network architectures and the training, validation and test loops of model.py: tensor arithmetic, autograd and device handling.
- `verbose` printing in `step` and the `print(e)` in the worker's exception handler: output only.
- The nltk tokenizer and tagger: a foreign library. The tagger is a parameter.
- The matplotlib contour plot, `axis` and `savefig`: a graphics library. A saved window is its file name with its matrix, and whether drawing and saving succeeds is the parameter `rendered`.
- The multiprocessing pool and `tqdm`: concurrency and progress display. The jobs run one after the other.
  - Only `Pool` is imported, so `multiprocessing.Pool()` would raise `NameError`. That is not modelled either.
- Reading the CSV file and `ast.literal_eval`: I/O and foreign parsing. The constructor takes the answer columns as lists of strings.
- Directory creation, the recursive `glob`, and `torch.save` / `torch.load`: the file system.
  - Creating a directory is returned as the path to create.
  - The files found by `glob` are a parameter.
  - The files present at load time are a map.
  - The `'.pt'` glob pattern in `get_train_test_val_data` and the tensor concatenation are left out with the tensors.
- DataLoader shuffling and batching, the image transforms and `random_split`: randomness, floats and a foreign library. The batches are a parameter, given as their label lists.
- Opening and transforming the image in `POSImageDataset.__getitem__`: only the label is modelled.
- `POSImageDataset.__len__`: it only returns the length of the file list, which the model reads directly.
- `POSImageTensorDataset`: image conversion, outside the modelled core.

**Simplifications**
- LrScheduler: floats are exact reals.
  - The metric passed to `step` is finite; only the initial previous metric is an infinity.
  - NaN is not modelled.
- Strings.Lower: lower-cases ASCII letters only. Python's `str.lower` also lower-cases other letters. This only matters for names outside ASCII.
- Decimal.ParseInt: accepts an optional sign and ASCII digits. Python's `int` also accepts underscores between digits and non-ASCII digits, which the writer never produces.
- Strings.Lines: splits at `'\n'` only. Python's universal-newline reading also splits at `'\r'` and `'\r\n'`, which the writer never produces.
- ImageDataset: `os.sep` is fixed to `'/'`.
- CorpusData.Data.SavePosTaggedImages: the directory it creates is `images_dir + "/" + name`, but the worker saves under `images_dir + name + "/"`. The model keeps both as written and does not relate them.
- `min_len` at data_pos.py:103 is computed but never used; the model has no counterpart.
- CorpusData.Data.SaveWindows: stacks all windows, then saves them. The source stacks and saves one window at a time. Stacking depends only on `arrs`, so the saved images are the same.
- CorpusData.Data.CpuThreadWorker: the error it returns before `pos_obj` exists is one error for the call. The attribute's name is in the message, but the model does not distinguish it from other errors.
- The row copy at data_pos.py:107 protects `arrs` from `extend`. Dafny sequences are values, so `arrs` is never changed by stacking.

## Findings

| source | as written | input that shows it | evidently intended | confidence | as-written member | corrected member |
|---|---|---|---|---|---|---|
| data_pos.py:119-122 | `mini_itr` is read before it is ever assigned. The `+=` at :122 makes it a local, so the read raises `UnboundLocalError`, which the handler at :124 swallows. No window is ever saved. | any paragraph of three or more sentences | a counter starting at 0 for each paragraph, incremented after each saved window | not executed | Raster.EmitUnboundSavesNothing | Raster.EmitSavesEveryRendered |
| data_pos.py:163-165 | `itr` is never assigned before its first read, so the loop raises `UnboundLocalError` for the first paragraph | any non-empty corpus | `itr` starting at 0, numbering paragraphs by their position | not executed | CorpusData.SubmitUnboundFails | CorpusData.SubmitFromZeroNumbersByIndex |
| data_pos.py:90 | `arr, arr_len = get_tags(sentence)` unpacks the single list of codes into two names. It raises `ValueError` unless the sentence has exactly two known tags. | the sentence "The cat sat." tagged DT, NN, VBD | the pair of the code list and its length | not executed | Raster.UnpackAsWrittenRejectsThreeTags | Raster.EncodeWithLength |
