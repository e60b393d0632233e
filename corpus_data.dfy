/**
 * The `Data` container of data_pos.py: the corpus read into paragraphs of
 * sentences, the worker that turns one paragraph into saved windows, the
 * driver that runs the worker over a corpus, and the batch writer and
 * reader that keep the labels in `batches.META`.
 *
 * The CSV file and `ast.literal_eval` are not modelled: the constructor
 * takes the two answer columns as the lists of strings they hold. The
 * tagger, the renderer, the data loader and the file system are
 * parameters: what the tagger makes of a sentence, whether a window
 * renders, the label batches the loader yields, and the files present
 * when the labels are read back.
 */
module CorpusData {
  import opened Results
  import opened Strings
  import opened Decimal
  import opened Raster
  import opened BatchMeta
  import PosTags

  /** `''.join(answers).replace('\n', '')`. */
  function CleanText(answers: seq<string>): (r: string)
    ensures '\n' !in r
    ensures forall d :: d != '\n' ==> multiset(r)[d] == multiset(Concat(answers))[d]
  {
    RemoveCharCounts(Concat(answers), '\n');
    RemoveChar(Concat(answers), '\n')
  }

  /**
   * An answer more cleans to the text before it followed by that answer
   * without its newlines: the kept characters stay in their order.
   */
  lemma CleanTextAppend(answers: seq<string>, answer: string)
    ensures CleanText(answers + [answer]) == CleanText(answers) + RemoveChar(answer, '\n')
    ensures '\n' !in answer ==> CleanText(answers + [answer]) == CleanText(answers) + answer
  {
    ConcatAppend(answers, [answer]);
    RemoveCharAppend(Concat(answers), answer, '\n');
    if '\n' !in answer {
      RemoveCharAbsent(answer, '\n');
    }
  }

  /** One paragraph: the cleaned answers split at every full stop. */
  function ToParagraph(answers: seq<string>): (r: seq<string>)
    ensures |r| == multiset(CleanText(answers))['.'] + 1
    ensures Join(r, '.') == CleanText(answers)
  {
    var clean := CleanText(answers);
    SplitCount(clean, '.');
    JoinSplit(clean, '.');
    Split(clean, '.')
  }

  /**
   * The sentences of a paragraph hold neither a full stop nor a newline,
   * there is one more of them than there are full stops, and joining them
   * with full stops gives back the cleaned text.
   */
  lemma ParagraphPieces(answers: seq<string>)
    ensures forall p :: p in ToParagraph(answers) ==> '.' !in p && '\n' !in p
    ensures |ToParagraph(answers)| == multiset(CleanText(answers))['.'] + 1
    ensures Join(ToParagraph(answers), '.') == CleanText(answers)
  {
    var clean := CleanText(answers);
    SplitPiecesFree(clean, '.');
    SplitPiecesAvoid(clean, '.', '\n');
    SplitCount(clean, '.');
    JoinSplit(clean, '.');
  }

  /** Each row of an answer column becomes one paragraph. */
  function Paragraphs(column: seq<seq<string>>): (r: seq<seq<string>>)
    ensures |r| == |column|
    ensures forall i :: 0 <= i < |r| ==> r[i] == ToParagraph(column[i])
  {
    seq(|column|, i requires 0 <= i < |column| => ToParagraph(column[i]))
  }

  /** Whether a dataset name selects the human answers. */
  predicate IsHuman(name: string)
  {
    Lower(name) == "human"
  }

  /** The dataset name the images are stored under. */
  function NormaliseName(name: string): (r: string)
    ensures r == "human" <==> IsHuman(name)
    ensures r == "human" || r == "ai"
  {
    if IsHuman(name) then Lower(name) else "ai"
  }

  lemma LowerOfNormalNames()
    ensures Lower("human") == "human" && Lower("ai") == "ai"
  {
  }

  /** Normalising a normalised name changes nothing. */
  lemma NormaliseNameIdempotent(name: string)
    ensures NormaliseName(NormaliseName(name)) == NormaliseName(name)
  {
    LowerOfNormalNames();
  }

  /**
   * The job list the driver loop submits, as written: each paragraph goes
   * out with the value of `itr`, which then goes up by one. `start` is the
   * value `itr` has before the loop; `None` is the source, where it is
   * never assigned, so reading it raises for the first paragraph.
   */
  function SubmitAsWritten(paragraphs: seq<seq<string>>, start: Option<nat>): (r: Result<seq<(seq<string>, nat)>>)
    ensures start.Some? ==> r.Ok? && |r.value| == |paragraphs|
  {
    match start
    case None =>
      if paragraphs == [] then Ok([])
      else Err("UnboundLocalError: local variable 'itr' referenced before assignment")
    case Some(k) =>
      var jobs: seq<(seq<string>, nat)> := seq(|paragraphs|, i requires 0 <= i < |paragraphs| => (paragraphs[i], k + i));
      Ok(jobs)
  }

  /** As written, a non-empty corpus never gets past its first paragraph. */
  lemma SubmitUnboundFails(paragraphs: seq<seq<string>>)
    requires paragraphs != []
    ensures SubmitAsWritten(paragraphs, None).Err?
  {
  }

  /** With `itr` counted from 0, each paragraph is numbered by its place in the corpus. */
  lemma SubmitFromZeroNumbersByIndex(paragraphs: seq<seq<string>>)
    ensures SubmitAsWritten(paragraphs, Some(0)).Ok?
    ensures forall i :: 0 <= i < |paragraphs| ==> SubmitAsWritten(paragraphs, Some(0)).value[i] == (paragraphs[i], i)
  {
  }

  /** Every image the worker saves for each paragraph, paragraph `i` numbered `i`. */
  function CorpusImages(paragraphs: seq<seq<string>>, name: string, imagesDir: string,
                        posDict: map<string, nat>, tagger: Tagger, rendered: Matrix -> bool): (r: seq<Image>)
    decreases |paragraphs|
  {
    if paragraphs == [] then []
    else
      var n := |paragraphs| - 1;
      CorpusImages(paragraphs[..n], name, imagesDir, posDict, tagger, rendered)
      + WorkerImages(paragraphs[n], n, name, imagesDir, posDict, tagger, rendered)
  }

  /** One more paragraph adds its own images after those of the paragraphs before it. */
  lemma CorpusImagesNext(paragraphs: seq<seq<string>>, itr: nat, name: string, imagesDir: string,
                         posDict: map<string, nat>, tagger: Tagger, rendered: Matrix -> bool)
    requires itr < |paragraphs|
    ensures CorpusImages(paragraphs[..itr + 1], name, imagesDir, posDict, tagger, rendered)
            == CorpusImages(paragraphs[..itr], name, imagesDir, posDict, tagger, rendered)
               + WorkerImages(paragraphs[itr], itr, name, imagesDir, posDict, tagger, rendered)
  {
    assert paragraphs[..itr + 1][..itr] == paragraphs[..itr];
  }

  /** A corpus whose paragraphs all have fewer than three sentences saves no image. */
  lemma {:induction false} ShortParagraphsSaveNothing(paragraphs: seq<seq<string>>, name: string, imagesDir: string,
                                                      posDict: map<string, nat>, tagger: Tagger, rendered: Matrix -> bool)
    requires forall i :: 0 <= i < |paragraphs| ==> |paragraphs[i]| < 3
    ensures CorpusImages(paragraphs, name, imagesDir, posDict, tagger, rendered) == []
    decreases |paragraphs|
  {
    if paragraphs != [] {
      var n := |paragraphs| - 1;
      var init := paragraphs[..n];
      assert forall i :: 0 <= i < |init| ==> init[i] == paragraphs[i];
      ShortParagraphsSaveNothing(init, name, imagesDir, posDict, tagger, rendered);
    }
  }

  /** The file name of window `j` of paragraph `i`. */
  function PathOf(imagesDir: string, name: string): (nat, nat) -> string
  {
    (i: nat, j: nat) => FileName(imagesDir, name, i, j)
  }

  /** No two (paragraph, window) pairs share a name under `f`. */
  ghost predicate Injective(f: (nat, nat) -> string)
  {
    forall i1: nat, j1: nat, i2: nat, j2: nat :: f(i1, j1) == f(i2, j2) ==> i1 == i2 && j1 == j2
  }

  /** `path` is the name, under `f`, of a window of a paragraph below `n`. */
  ghost predicate NamedAt(path: string, f: (nat, nat) -> string, n: nat)
  {
    exists i: nat, j: nat :: i < n && path == f(i, j)
  }

  /** Every image is named, under `f`, after a paragraph below `n`. */
  ghost predicate NamedBelow(images: seq<Image>, f: (nat, nat) -> string, n: nat)
  {
    forall a :: 0 <= a < |images| ==> NamedAt(images[a].path, f, n)
  }

  /** Image `j` is named, under `f`, as window `j` of paragraph `n`. */
  ghost predicate NumberedAs(images: seq<Image>, f: (nat, nat) -> string, n: nat)
  {
    forall j :: 0 <= j < |images| ==> images[j].path == f(n, j)
  }

  ghost predicate PathsDistinct(images: seq<Image>)
  {
    forall a, b :: 0 <= a < b < |images| ==> images[a].path != images[b].path
  }

  lemma PathOfInjective(imagesDir: string, name: string)
    ensures Injective(PathOf(imagesDir, name))
  {
    forall i1: nat, j1: nat, i2: nat, j2: nat | PathOf(imagesDir, name)(i1, j1) == PathOf(imagesDir, name)(i2, j2)
      ensures i1 == i2 && j1 == j2
    {
      FileNameInjective(imagesDir, name, i1, j1, i2, j2);
    }
  }

  lemma NamedAppend(before: seq<Image>, last: seq<Image>, f: (nat, nat) -> string, n: nat)
    requires NamedBelow(before, f, n) && NumberedAs(last, f, n)
    ensures NamedBelow(before + last, f, n + 1)
  {
    var r := before + last;
    forall a | 0 <= a < |r| ensures NamedAt(r[a].path, f, n + 1) {
      if a < |before| {
        assert r[a] == before[a];
        var i: nat, j: nat :| i < n && before[a].path == f(i, j);
        assert i < n + 1 && r[a].path == f(i, j);
      } else {
        var j: nat := a - |before|;
        assert r[a] == last[j];
        assert n < n + 1 && r[a].path == f(n, j);
      }
    }
  }

  lemma DistinctAppend(before: seq<Image>, last: seq<Image>, f: (nat, nat) -> string, n: nat)
    requires Injective(f)
    requires NamedBelow(before, f, n) && NumberedAs(last, f, n)
    requires PathsDistinct(before)
    ensures PathsDistinct(before + last)
  {
    var r := before + last;
    forall a, b | 0 <= a < b < |r| ensures r[a].path != r[b].path {
      if b < |before| {
        assert r[a] == before[a] && r[b] == before[b];
      } else if a < |before| {
        assert r[a] == before[a] && r[b] == last[b - |before|];
        assert NamedAt(before[a].path, f, n);
        var i: nat, j: nat :| i < n && before[a].path == f(i, j);
        assert r[b].path == f(n, b - |before|);
      } else {
        assert r[a] == last[a - |before|] && r[b] == last[b - |before|];
        assert r[a].path == f(n, a - |before|) && r[b].path == f(n, b - |before|);
      }
    }
  }

  /** The images of paragraph `n` are numbered as its windows. */
  lemma WorkerImagesNumbered(paragraph: seq<string>, n: nat, name: string, imagesDir: string,
                             posDict: map<string, nat>, tagger: Tagger, rendered: Matrix -> bool)
    ensures NumberedAs(WorkerImages(paragraph, n, name, imagesDir, posDict, tagger, rendered), PathOf(imagesDir, name), n)
  {
    WorkerImagesNamed(paragraph, n, name, imagesDir, posDict, tagger, rendered);
  }

  /**
   * No two images of a corpus share a file, and each is named after one of
   * its paragraphs: paragraph and window number are both in the name.
   */
  lemma {:induction false} CorpusPathsDistinct(paragraphs: seq<seq<string>>, name: string, imagesDir: string,
                                               posDict: map<string, nat>, tagger: Tagger, rendered: Matrix -> bool)
    ensures var r := CorpusImages(paragraphs, name, imagesDir, posDict, tagger, rendered);
            NamedBelow(r, PathOf(imagesDir, name), |paragraphs|)
            && forall a, b :: 0 <= a < b < |r| ==> r[a].path != r[b].path
    decreases |paragraphs|
  {
    if paragraphs != [] {
      var n := |paragraphs| - 1;
      var init := paragraphs[..n];
      CorpusPathsDistinct(init, name, imagesDir, posDict, tagger, rendered);
      var before := CorpusImages(init, name, imagesDir, posDict, tagger, rendered);
      var last := WorkerImages(paragraphs[n], n, name, imagesDir, posDict, tagger, rendered);
      WorkerImagesNumbered(paragraphs[n], n, name, imagesDir, posDict, tagger, rendered);
      PathOfInjective(imagesDir, name);
      NamedAppend(before, last, PathOf(imagesDir, name), n);
      DistinctAppend(before, last, PathOf(imagesDir, name), n);
      assert CorpusImages(paragraphs, name, imagesDir, posDict, tagger, rendered) == before + last;
    }
  }

  /** Where `get_train_test_val_data` looks for the batches: the given directory, or the default under the store. */
  function BatchDir(dataStorePath: Option<string>, batchPath: Option<string>): (r: Result<string>)
    ensures batchPath.Some? ==> r == Ok(batchPath.value)
    ensures batchPath.None? ==> (r.Ok? <==> dataStorePath.Some?)
    ensures batchPath.None? && dataStorePath.Some? ==> r == Ok(DefaultBatchDir(dataStorePath.value))
  {
    match batchPath
    case Some(p) => Ok(p)
    case None =>
      match dataStorePath
      case None => Err("AttributeError: 'Data' object has no attribute 'data_store_path'")
      case Some(s) => Ok(DefaultBatchDir(s))
  }

  /** The labels read back from the META file among `files` (path to contents). */
  function LoadLabels(dataStorePath: Option<string>, batchPath: Option<string>,
                      files: map<string, string>): (r: Result<seq<int>>)
    ensures r.Ok? ==> BatchDir(dataStorePath, batchPath).Ok?
                      && ReadMetaPath(BatchDir(dataStorePath, batchPath).value) in files
                      && r == ParseMeta(files[ReadMetaPath(BatchDir(dataStorePath, batchPath).value)])
    ensures BatchDir(dataStorePath, batchPath).Ok? && ReadMetaPath(BatchDir(dataStorePath, batchPath).value) in files
            ==> r == ParseMeta(files[ReadMetaPath(BatchDir(dataStorePath, batchPath).value)])
    ensures BatchDir(dataStorePath, batchPath).Err? ==> r == Err(BatchDir(dataStorePath, batchPath).error)
    ensures BatchDir(dataStorePath, batchPath).Ok? && ReadMetaPath(BatchDir(dataStorePath, batchPath).value) !in files
            ==> r.Err?
  {
    match BatchDir(dataStorePath, batchPath)
    case Err(e) => Err(e)
    case Ok(dir) =>
      if ReadMetaPath(dir) in files then ParseMeta(files[ReadMetaPath(dir)])
      else Err("FileNotFoundError: no such file")
  }

  /** The labels written by the batch writer into `folderPath` read back, with the default directory, unchanged. */
  lemma SavedLabelsLoad(folderPath: string, labels: seq<int>, files: map<string, string>)
    requires WrittenMetaPath(folderPath) in files && files[WrittenMetaPath(folderPath)] == MetaText(labels)
    ensures LoadLabels(Some(folderPath), None, files) == Ok(labels)
  {
    DefaultPathsAgree(folderPath);
    MetaRoundTrip(labels);
  }

  /** Labels written as META text under a given batch directory are read back from it unchanged. */
  lemma GivenPathLoads(batchPath: string, dataStorePath: Option<string>, labels: seq<int>,
                       files: map<string, string>)
    requires ReadMetaPath(batchPath) in files && files[ReadMetaPath(batchPath)] == MetaText(labels)
    ensures LoadLabels(dataStorePath, Some(batchPath), files) == Ok(labels)
  {
    MetaRoundTrip(labels);
  }

  /** Without a directory and before any batch was written, loading raises. */
  lemma LoadBeforeSaveFails(files: map<string, string>)
    ensures LoadLabels(None, None, files).Err?
  {
  }

  class Data {
    var humanParagraphs: seq<seq<string>>
    var chatgptParagraphs: seq<seq<string>>
    /** `images_dir`: unset until images are first saved. */
    var imagesDir: Option<string>
    /** `data_store_path`: unset until batches are first saved. */
    var dataStorePath: Option<string>

    /** `Data(csv_name)` with `_read_csv`, given the answer columns of the file. */
    constructor (humanAnswers: seq<seq<string>>, chatgptAnswers: seq<seq<string>>)
      ensures humanParagraphs == Paragraphs(humanAnswers)
      ensures chatgptParagraphs == Paragraphs(chatgptAnswers)
      ensures imagesDir == None && dataStorePath == None
    {
      humanParagraphs := Paragraphs(humanAnswers);
      chatgptParagraphs := Paragraphs(chatgptAnswers);
      imagesDir := None;
      dataStorePath := None;
    }

    /**
     * `_cpu_thread_worker(paragraph, itr, name)` with the window counter
     * counted from 0. `pos_obj` is created together with `images_dir`, so
     * before images are first saved the tagging loop, which is outside the
     * exception handler, raises for any paragraph it reaches.
     */
    method CpuThreadWorker(paragraph: seq<string>, itr: nat, name: string,
                           tagger: Tagger, rendered: Matrix -> bool) returns (r: Result<seq<Image>>)
      ensures |paragraph| < 3 ==> r == Ok([])
      ensures imagesDir.None? && |paragraph| >= 3 ==> r.Err?
      ensures imagesDir.Some? ==> r == Ok(WorkerImages(paragraph, itr, name, imagesDir.value, PosTags.PosDict, tagger, rendered))
    {
      if |paragraph| < 3 {
        return Ok([]);
      }
      if imagesDir.None? {
        return Err("AttributeError: 'Data' object has no attribute 'pos_obj'");
      }
      var arrs, arrLens := EncodeParagraph(paragraph, tagger);
      var images := SaveWindows(arrs, arrLens, imagesDir.value, name, itr, rendered);
      r := Ok(images);
    }

    /**
     * The window loop of the worker: each window stacked, then saved under
     * the counter's number if it renders, the counter going up by one for
     * each saved window. Stacking a window does not depend on saving the
     * ones before it, so all windows are stacked first and saved after.
     */
    static method SaveWindows(arrs: seq<Row>, arrLens: seq<nat>, dir: string, name: string, itr: nat,
                              rendered: Matrix -> bool) returns (images: seq<Image>)
      requires |arrs| >= 3 && |arrLens| == |arrs|
      requires forall k :: 0 <= k < |arrs| ==> arrLens[k] == |arrs[k]|
      ensures images == Emit(Windows(arrs), rendered, dir, name, itr, Some(0))
    {
      var windows := StackWindows(arrs, arrLens);
      images := SaveRendered(windows, dir, name, itr, rendered);
    }

    /** Every window of the paragraph, by start index. */
    static method StackWindows(arrs: seq<Row>, arrLens: seq<nat>) returns (windows: seq<Matrix>)
      requires |arrs| >= 3 && |arrLens| == |arrs|
      requires forall k :: 0 <= k < |arrs| ==> arrLens[k] == |arrs[k]|
      ensures windows == Windows(arrs)
    {
      windows := [];
      for i := 0 to |arrs| - 2
        invariant |windows| == i
        invariant forall k :: 0 <= k < i ==> windows[k] == Window(arrs, k)
      {
        var data := StackWindow(arrs, arrLens, i);
        windows := windows + [data];
      }
    }

    /** The saving half of the window loop: `mini_itr` counts the windows saved so far. */
    static method SaveRendered(windows: seq<Matrix>, dir: string, name: string, itr: nat,
                               rendered: Matrix -> bool) returns (images: seq<Image>)
      ensures images == Emit(windows, rendered, dir, name, itr, Some(0))
    {
      images := [];
      var miniItr: nat := 0;
      for i := 0 to |windows|
        invariant images == Emit(windows[..i], rendered, dir, name, itr, Some(0))
        invariant miniItr == |images|
      {
        var data := windows[i];
        assert windows[..i + 1] == windows[..i] + [data];
        EmitSnoc(windows[..i], data, rendered, dir, name, itr, 0);
        if rendered(data) {
          images := images + [Image(FileName(dir, name, itr, miniItr), data)];
          miniItr := miniItr + 1;
        }
      }
      assert windows[..|windows|] == windows;
    }

    /** The first loop of the worker: each sentence tagged with its full stop put back, and the number of its codes. */
    static method EncodeParagraph(paragraph: seq<string>, tagger: Tagger) returns (arrs: seq<Row>, arrLens: seq<nat>)
      ensures arrs == Encode(PosTags.PosDict, tagger, paragraph)
      ensures |arrLens| == |arrs| && forall k :: 0 <= k < |arrs| ==> arrLens[k] == |arrs[k]|
    {
      arrs, arrLens := [], [];
      for i := 0 to |paragraph|
        invariant |arrs| == i && |arrLens| == i
        invariant forall k :: 0 <= k < i ==> arrs[k] == EncodeSentence(PosTags.PosDict, tagger, paragraph[k]) && arrLens[k] == |arrs[k]|
      {
        var (arr, arrLen) := EncodeWithLength(PosTags.PosDict, tagger, paragraph[i]);
        arrs := arrs + [arr];
        arrLens := arrLens + [arrLen];
      }
    }

    /** The inner loop of the worker: window `i`, each of its rows a copy extended with zeros to the widest. */
    static method StackWindow(arrs: seq<Row>, arrLens: seq<nat>, i: nat) returns (data: Matrix)
      requires i + 3 <= |arrs| && |arrLens| == |arrs|
      requires forall k :: 0 <= k < |arrs| ==> arrLens[k] == |arrs[k]|
      ensures data == Window(arrs, i)
    {
      var maxLen := Max(Max(arrLens[i], arrLens[i + 1]), arrLens[i + 2]);
      data := [];
      for j := 0 to 3
        invariant |data| == j
        invariant forall t :: 0 <= t < j ==> data[t] == Pad(arrs[i + t], maxLen)
      {
        var arr := arrs[i + j];
        arr := arr + Zeros(maxLen - arrLens[i + j]);
        data := data + [arr];
      }
    }

    /**
     * `save_pos_tagged_images(name, images_dir)` with `itr` counted from 0:
     * the paragraphs the name selects, each paragraph's images numbered by
     * its place in the corpus, and the directory it asks to be created.
     * The pool's jobs run one after the other here.
     */
    method SavePosTaggedImages(name: string, dir: string, tagger: Tagger, rendered: Matrix -> bool)
      returns (dirToCreate: string, images: seq<Image>)
      modifies this
      ensures imagesDir == Some(dir)
      ensures humanParagraphs == old(humanParagraphs) && chatgptParagraphs == old(chatgptParagraphs)
      ensures dataStorePath == old(dataStorePath)
      ensures dirToCreate == dir + "/" + NormaliseName(name)
      ensures images == CorpusImages(if IsHuman(name) then old(humanParagraphs) else old(chatgptParagraphs),
                                     NormaliseName(name), dir, PosTags.PosDict, tagger, rendered)
    {
      imagesDir := Some(dir);
      var paragraphs := if IsHuman(name) then humanParagraphs else chatgptParagraphs;
      var normal := NormaliseName(name);
      dirToCreate := dir + "/" + normal;
      images := [];
      var itr: nat := 0;
      while itr < |paragraphs|
        invariant itr <= |paragraphs|
        invariant imagesDir == Some(dir) && dataStorePath == old(dataStorePath)
        invariant humanParagraphs == old(humanParagraphs) && chatgptParagraphs == old(chatgptParagraphs)
        invariant images == CorpusImages(paragraphs[..itr], normal, dir, PosTags.PosDict, tagger, rendered)
      {
        var saved := CpuThreadWorker(paragraphs[itr], itr, normal, tagger, rendered);
        CorpusImagesNext(paragraphs, itr, normal, dir, PosTags.PosDict, tagger, rendered);
        images := images + saved.value;
        itr := itr + 1;
      }
      assert paragraphs[..|paragraphs|] == paragraphs;
    }

    /**
     * `save_torch_data_batches(folder_path)`, given the label lists of the
     * batches the loader yields: one batch file per batch, numbered from 1,
     * and the META file holding every label in batch order.
     */
    method SaveTorchDataBatches(folderPath: string, batches: seq<seq<int>>)
      returns (batchFiles: seq<string>, metaPath: string, metaText: string)
      modifies this
      ensures dataStorePath == Some(folderPath)
      ensures humanParagraphs == old(humanParagraphs) && chatgptParagraphs == old(chatgptParagraphs)
      ensures imagesDir == old(imagesDir)
      ensures |batchFiles| == |batches|
      ensures forall i :: 0 <= i < |batches| ==> batchFiles[i] == BatchPath(folderPath, i)
      ensures metaPath == WrittenMetaPath(folderPath)
      ensures metaText == MetaText(Flatten(batches))
    {
      dataStorePath := Some(folderPath);
      batchFiles := [];
      var batchLabels: seq<int> := [];
      for batchIdx := 0 to |batches|
        invariant |batchFiles| == batchIdx
        invariant forall i :: 0 <= i < batchIdx ==> batchFiles[i] == BatchPath(folderPath, i)
        invariant batchLabels == Flatten(batches[..batchIdx])
        invariant dataStorePath == Some(folderPath) && imagesDir == old(imagesDir)
        invariant humanParagraphs == old(humanParagraphs) && chatgptParagraphs == old(chatgptParagraphs)
      {
        batchFiles := batchFiles + [BatchPath(folderPath, batchIdx)];
        FlattenAppend(batches[..batchIdx], batches[batchIdx]);
        assert batches[..batchIdx + 1] == batches[..batchIdx] + [batches[batchIdx]];
        batchLabels := batchLabels + batches[batchIdx];
      }
      assert batches[..|batches|] == batches;
      metaPath := WrittenMetaPath(folderPath);
      metaText := WriteMeta(batchLabels);
    }

    /**
     * The label half of `get_train_test_val_data(batch_path)`: the META
     * file under the batch directory, read line by line.
     */
    method GetTrainTestValLabels(batchPath: Option<string>, files: map<string, string>)
      returns (r: Result<seq<int>>)
      ensures r == LoadLabels(dataStorePath, batchPath, files)
    {
      var dir: string;
      if batchPath.None? {
        if dataStorePath.None? {
          return Err("AttributeError: 'Data' object has no attribute 'data_store_path'");
        }
        dir := DefaultBatchDir(dataStorePath.value);
      } else {
        dir := batchPath.value;
      }
      var meta := ReadMetaPath(dir);
      if meta !in files {
        return Err("FileNotFoundError: no such file");
      }
      r := ReadMeta(files[meta]);
    }
  }

  /** Batches saved on an object are read back by the same object through the default directory. */
  method SaveThenLoad(data: Data, folderPath: string, batches: seq<seq<int>>, others: map<string, string>)
    returns (r: Result<seq<int>>)
    modifies data
    ensures r == Ok(Flatten(batches))
  {
    var batchFiles, metaPath, metaText := data.SaveTorchDataBatches(folderPath, batches);
    var files := others[metaPath := metaText];
    SavedLabelsLoad(folderPath, Flatten(batches), files);
    r := data.GetTrainTestValLabels(None, files);
  }
}
