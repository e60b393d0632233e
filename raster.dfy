/**
 * The text-to-raster step of `Data._cpu_thread_worker` (data_pos.py): each
 * sentence of a paragraph becomes a row of tag codes, every three
 * consecutive rows are right-padded with zeros to a common width and
 * stacked into a matrix, and each matrix that renders is saved under a
 * numbered file name.
 *
 * The contour plot and the PNG file are not modelled; a saved window is
 * the pair of its file name and the matrix it was drawn from, and whether
 * drawing and saving a matrix succeeds is the parameter `rendered`.
 */
module Raster {
  import opened Results
  import opened Decimal
  import opened Strings
  import PosTags

  /** The tag codes of one sentence. */
  type Row = seq<nat>

  /** A stack of rows, as `np.vstack` makes it. */
  type Matrix = seq<Row>

  /** What the tagger makes of a sentence: its (word, tag) pairs. */
  type Tagger = string -> seq<(string, string)>

  /** One saved window: the file it went to and the matrix drawn into it. */
  datatype Image = Image(path: string, pixels: Matrix)

  function Zeros(n: nat): (r: Row)
    ensures |r| == n
    ensures forall k :: 0 <= k < n ==> r[k] == 0
  {
    seq(n, k => 0)
  }

  /** A copy of `row` extended with `width - |row|` zeros. */
  function Pad(row: Row, width: nat): (r: Row)
    requires |row| <= width
    ensures |r| == width
    ensures r[..|row|] == row
    ensures forall k :: |row| <= k < width ==> r[k] == 0
  {
    row + Zeros(width - |row|)
  }

  function Max(a: nat, b: nat): nat
  {
    if a < b then b else a
  }

  /**
   * Window `i`: rows `i`, `i + 1` and `i + 2`, each padded with zeros to the
   * largest of their three lengths.
   */
  function Window(arrs: seq<Row>, i: nat): (r: Matrix)
    requires i + 3 <= |arrs|
    ensures |r| == 3
  {
    var width := Max(Max(|arrs[i]|, |arrs[i + 1]|), |arrs[i + 2]|);
    [Pad(arrs[i], width), Pad(arrs[i + 1], width), Pad(arrs[i + 2], width)]
  }

  /**
   * The rows of a window are equally long; each starts with its sentence's
   * codes and continues with zeros only; and one of them is not padded at
   * all, so the common length is the longest of the three.
   */
  lemma WindowShape(arrs: seq<Row>, i: nat)
    requires i + 3 <= |arrs|
    ensures var r := Window(arrs, i);
            (forall j :: 0 <= j < 3 ==> |r[j]| == |r[0]|)
            && (forall j :: 0 <= j < 3 ==>
                  |arrs[i + j]| <= |r[j]| && r[j][..|arrs[i + j]|] == arrs[i + j]
                  && forall k :: |arrs[i + j]| <= k < |r[j]| ==> r[j][k] == 0)
            && (exists j :: 0 <= j < 3 && |r[j]| == |arrs[i + j]|)
  {
    var r := Window(arrs, i);
    assert |r[0]| == |arrs[i]| || |r[1]| == |arrs[i + 1]| || |r[2]| == |arrs[i + 2]|;
  }

  /** Every window of a paragraph of at least three sentences, by start index. */
  function Windows(arrs: seq<Row>): (r: seq<Matrix>)
    requires |arrs| >= 3
    ensures |r| == |arrs| - 2
    ensures forall i :: 0 <= i < |r| ==> r[i] == Window(arrs, i)
  {
    seq(|arrs| - 2, i requires 0 <= i < |arrs| - 2 => Window(arrs, i))
  }

  /**
   * The codes of a sentence, tagged with its full stop put back, by the
   * `get_tags` of a `POSTags` object whose dictionary is `posDict`.
   */
  function EncodeSentence(posDict: map<string, nat>, tagger: Tagger, sentence: string): Row
  {
    PosTags.GetTagsWith(posDict, tagger(sentence + "."))
  }

  /** `arrs`: one row of codes per sentence. */
  function Encode(posDict: map<string, nat>, tagger: Tagger, paragraph: seq<string>): (r: seq<Row>)
    ensures |r| == |paragraph|
    ensures forall i :: 0 <= i < |r| ==> r[i] == EncodeSentence(posDict, tagger, paragraph[i])
  {
    seq(|paragraph|, i requires 0 <= i < |paragraph| => EncodeSentence(posDict, tagger, paragraph[i]))
  }

  /**
   * The tuple assignment that receives `get_tags`' result, as written: the
   * single list of codes is unpacked into two names, which raises
   * `ValueError` unless the list has exactly two elements, and then binds
   * the first two codes rather than a list and its length.
   */
  function UnpackAsWritten(codes: Row): (r: Result<(nat, nat)>)
    ensures r.Ok? <==> |codes| == 2
  {
    if |codes| == 2 then Ok((codes[0], codes[1]))
    else Err("ValueError: cannot unpack into (arr, arr_len)")
  }

  /** The pair the worker expects from `get_tags`: the codes and their number. */
  function EncodeWithLength(posDict: map<string, nat>, tagger: Tagger, sentence: string): (r: (Row, nat))
    ensures r.0 == EncodeSentence(posDict, tagger, sentence) && r.1 == |r.0|
  {
    var codes := EncodeSentence(posDict, tagger, sentence);
    (codes, |codes|)
  }

  /** A three-word sentence throws the unpacking, where the intended pair is its three codes and 3. */
  lemma UnpackAsWrittenRejectsThreeTags(tagger: Tagger)
    requires tagger("The cat sat.") == [("The", "DT"), ("cat", "NN"), ("sat", "VBD")]
    ensures UnpackAsWritten(EncodeSentence(PosTags.PosDict, tagger, "The cat sat")).Err?
    ensures EncodeWithLength(PosTags.PosDict, tagger, "The cat sat") == ([3, 12, 28], 3)
  {
    PosTags.ThreeTagExample();
    assert "The cat sat" + "." == "The cat sat.";
  }

  /** `f"{images_dir}{name}/{name}_{itr}_{k}.png"`. */
  function FileName(imagesDir: string, name: string, itr: nat, k: nat): (r: string)
    ensures |r| >= |imagesDir| + 4 && r[..|imagesDir|] == imagesDir && r[|r| - 4..] == ".png"
  {
    var rest := [name, "/", name, "_", NatToString(itr), "_", NatToString(k)];
    ConcatCons(imagesDir, rest + [".png"]);
    ConcatAppend(rest, [".png"]);
    assert [imagesDir] + (rest + [".png"]) == [imagesDir, name, "/", name, "_", NatToString(itr), "_", NatToString(k), ".png"];
    Concat([imagesDir, name, "/", name, "_", NatToString(itr), "_", NatToString(k), ".png"])
  }

  lemma DigitsHaveNoUnderscore(s: string)
    requires AllDigits(s)
    ensures '_' !in s
  {
    assert forall k :: 0 <= k < |s| ==> s[k] != '_';
  }

  /** The f-string's pieces, one after the other. */
  lemma FileNameSpelled(imagesDir: string, name: string, itr: nat, k: nat)
    ensures FileName(imagesDir, name, itr, k)
            == imagesDir + (name + ("/" + (name + ("_" + (NatToString(itr) + ("_" + (NatToString(k) + ".png")))))))
  {
    var a, b := NatToString(itr), NatToString(k);
    ConcatCons(".png", []);
    ConcatCons(b, [".png"]);
    ConcatCons("_", [b, ".png"]);
    ConcatCons(a, ["_", b, ".png"]);
    ConcatCons("_", [a, "_", b, ".png"]);
    ConcatCons(name, ["_", a, "_", b, ".png"]);
    ConcatCons("/", [name, "_", a, "_", b, ".png"]);
    ConcatCons(name, ["/", name, "_", a, "_", b, ".png"]);
    ConcatCons(imagesDir, [name, "/", name, "_", a, "_", b, ".png"]);
  }

  /** The directory and `name + "_"`, then the two numbers and the extension. */
  lemma FileNameParts(imagesDir: string, name: string, itr: nat, k: nat)
    ensures FileName(imagesDir, name, itr, k)
            == (imagesDir + name + "/" + name + "_") + (NatToString(itr) + "_" + (NatToString(k) + ".png"))
  {
    var a, b := NatToString(itr), NatToString(k) + ".png";
    FileNameSpelled(imagesDir, name, itr, k);
    var x := a + ("_" + b);
    assert a + "_" + b == x;
    assert imagesDir + (name + ("/" + (name + ("_" + x)))) == (imagesDir + name + "/" + name + "_") + x;
  }

  /** The numbers part of a file name splits at its one underscore into the two numbers. */
  lemma NumbersSplit(itr: nat, k: nat)
    ensures Split(NatToString(itr) + "_" + (NatToString(k) + ".png"), '_') == [NatToString(itr), NatToString(k) + ".png"]
  {
    var a, b := NatToString(itr), NatToString(k) + ".png";
    assert Join([a, b], '_') == a + "_" + b;
    DigitsHaveNoUnderscore(a);
    DigitsHaveNoUnderscore(NatToString(k));
    assert '_' !in b;
    SplitJoin([a, b], '_');
  }

  /**
   * A file name is the directory and `name + "_"`, then the two numbers
   * joined by the one underscore that the rest contains.
   */
  lemma FileNameNumbers(imagesDir: string, name: string, itr: nat, k: nat)
    ensures var suffix := NatToString(itr) + "_" + (NatToString(k) + ".png");
            FileName(imagesDir, name, itr, k) == (imagesDir + name + "/" + name + "_") + suffix
            && Split(suffix, '_') == [NatToString(itr), NatToString(k) + ".png"]
  {
    FileNameParts(imagesDir, name, itr, k);
    NumbersSplit(itr, k);
  }

  /** Two file names for the same directory and dataset name agree only for the same paragraph and window. */
  lemma FileNameInjective(imagesDir: string, name: string, itr1: nat, k1: nat, itr2: nat, k2: nat)
    requires FileName(imagesDir, name, itr1, k1) == FileName(imagesDir, name, itr2, k2)
    ensures itr1 == itr2 && k1 == k2
  {
    var prefix := imagesDir + name + "/" + name + "_";
    FileNameNumbers(imagesDir, name, itr1, k1);
    FileNameNumbers(imagesDir, name, itr2, k2);
    var b1, b2 := NatToString(k1) + ".png", NatToString(k2) + ".png";
    var s1, s2 := NatToString(itr1) + "_" + b1, NatToString(itr2) + "_" + b2;
    assert s1 == (prefix + s1)[|prefix|..] && s2 == (prefix + s2)[|prefix|..];
    assert NatToString(itr1) == NatToString(itr2) && b1 == b2;
    assert NatToString(k1) == b1[..|b1| - 4];
    assert NatToString(k2) == b2[..|b2| - 4];
    NatToStringInjective(itr1, itr2);
    NatToStringInjective(k1, k2);
  }

  /**
   * The window loop (data_pos.py:101-125). `counter` is the window counter
   * that names the files: `None` when it is unbound, as in the source,
   * where reading it raises and the handler skips the window; `Some(k)`
   * when the first window saved becomes number `k`. A window that fails
   * to render is skipped without using up a number, so the last window is
   * saved under `k` plus the number of windows saved before it.
   */
  function Emit(windows: seq<Matrix>, rendered: Matrix -> bool, imagesDir: string, name: string,
                itr: nat, counter: Option<nat>): (r: seq<Image>)
    ensures |r| <= |windows|
    ensures forall j :: 0 <= j < |r| ==> rendered(r[j].pixels)
    ensures counter.Some? ==>
              forall j :: 0 <= j < |r| ==> r[j].path == FileName(imagesDir, name, itr, counter.value + j)
  {
    if windows == [] then []
    else
      var before := Emit(windows[..|windows| - 1], rendered, imagesDir, name, itr, counter);
      var w := windows[|windows| - 1];
      match counter
      case None => before
      case Some(k) =>
        if rendered(w) then before + [Image(FileName(imagesDir, name, itr, k + |before|), w)]
        else before
  }

  /** The windows that render, in their original order. */
  function Kept(windows: seq<Matrix>, rendered: Matrix -> bool): (r: seq<Matrix>)
    ensures |r| <= |windows|
    ensures forall m :: m in r ==> m in windows && rendered(m)
  {
    if windows == [] then []
    else
      var w := windows[|windows| - 1];
      Kept(windows[..|windows| - 1], rendered) + (if rendered(w) then [w] else [])
  }

  /**
   * With a counter, the saved matrices are exactly the windows that
   * render, in order: a window that fails is skipped and the ones after it
   * are still saved.
   */
  lemma {:induction false} EmitSavesKept(windows: seq<Matrix>, rendered: Matrix -> bool,
                                         imagesDir: string, name: string, itr: nat, k: nat)
    ensures var r := Emit(windows, rendered, imagesDir, name, itr, Some(k));
            |r| == |Kept(windows, rendered)|
            && forall j :: 0 <= j < |r| ==> r[j].pixels == Kept(windows, rendered)[j]
    decreases |windows|
  {
    if windows != [] {
      var n := |windows| - 1;
      var init, w := windows[..n], windows[n];
      EmitSavesKept(init, rendered, imagesDir, name, itr, k);
      var before := Emit(init, rendered, imagesDir, name, itr, Some(k));
      var kept := Kept(init, rendered);
      var r := Emit(windows, rendered, imagesDir, name, itr, Some(k));
      if rendered(w) {
        assert r == before + [Image(FileName(imagesDir, name, itr, k + |before|), w)];
        assert Kept(windows, rendered) == kept + [w];
        forall j | 0 <= j < |r| ensures r[j].pixels == Kept(windows, rendered)[j] {
          if j < |before| {
            assert r[j] == before[j];
          }
        }
      } else {
        assert r == before;
        assert Kept(windows, rendered) == kept;
      }
    }
  }

  /** When every window renders, all of them are kept. */
  lemma {:induction false} KeptAllRendered(windows: seq<Matrix>, rendered: Matrix -> bool)
    requires forall i :: 0 <= i < |windows| ==> rendered(windows[i])
    ensures Kept(windows, rendered) == windows
    decreases |windows|
  {
    if windows != [] {
      var n := |windows| - 1;
      KeptAllRendered(windows[..n], rendered);
      assert windows[..n] + [windows[n]] == windows;
    }
  }

  /** With the counter unbound, as written, no window is ever saved. */
  lemma {:induction false} EmitUnboundSavesNothing(windows: seq<Matrix>, rendered: Matrix -> bool,
                                                   imagesDir: string, name: string, itr: nat)
    ensures Emit(windows, rendered, imagesDir, name, itr, None) == []
    decreases |windows|
  {
    if windows != [] {
      EmitUnboundSavesNothing(windows[..|windows| - 1], rendered, imagesDir, name, itr);
    }
  }

  /**
   * One more window at the end: it is saved, under the number the windows
   * before it have counted up to, exactly when it renders.
   */
  lemma EmitSnoc(windows: seq<Matrix>, w: Matrix, rendered: Matrix -> bool,
                 imagesDir: string, name: string, itr: nat, k: nat)
    ensures var before := Emit(windows, rendered, imagesDir, name, itr, Some(k));
            Emit(windows + [w], rendered, imagesDir, name, itr, Some(k))
            == before + (if rendered(w) then [Image(FileName(imagesDir, name, itr, k + |before|), w)] else [])
  {
    assert (windows + [w])[..|windows|] == windows;
  }

  /** With a counter, every window that renders is saved, in order, numbered from the counter on. */
  lemma {:induction false} EmitSavesEveryRendered(windows: seq<Matrix>, rendered: Matrix -> bool,
                                                  imagesDir: string, name: string, itr: nat, k: nat)
    requires forall i :: 0 <= i < |windows| ==> rendered(windows[i])
    ensures |Emit(windows, rendered, imagesDir, name, itr, Some(k))| == |windows|
    ensures forall j :: 0 <= j < |windows| ==>
              Emit(windows, rendered, imagesDir, name, itr, Some(k))[j]
              == Image(FileName(imagesDir, name, itr, k + j), windows[j])
    decreases |windows|
  {
    if windows != [] {
      var n := |windows| - 1;
      var init, w := windows[..n], windows[n];
      assert windows == init + [w];
      EmitSavesEveryRendered(init, rendered, imagesDir, name, itr, k);
      EmitSnoc(init, w, rendered, imagesDir, name, itr, k);
    }
  }

  /**
   * What `_cpu_thread_worker` saves for paragraph number `itr`: nothing for
   * fewer than three sentences, otherwise the rendered windows numbered
   * from 0.
   */
  function WorkerImages(paragraph: seq<string>, itr: nat, name: string, imagesDir: string,
                        posDict: map<string, nat>, tagger: Tagger, rendered: Matrix -> bool): (r: seq<Image>)
    ensures |paragraph| < 3 ==> r == []
    ensures |paragraph| >= 3 ==> |r| <= |paragraph| - 2
  {
    if |paragraph| < 3 then []
    else
      var arrs := Encode(posDict, tagger, paragraph);
      var windows := Windows(arrs);
      assert |windows| == |paragraph| - 2;
      Emit(windows, rendered, imagesDir, name, itr, Some(0))
  }

  /** The images of paragraph `itr` are numbered 0, 1, ... in the order they are saved. */
  lemma WorkerImagesNamed(paragraph: seq<string>, itr: nat, name: string, imagesDir: string,
                          posDict: map<string, nat>, tagger: Tagger, rendered: Matrix -> bool)
    ensures var r := WorkerImages(paragraph, itr, name, imagesDir, posDict, tagger, rendered);
            forall j :: 0 <= j < |r| ==> r[j].path == FileName(imagesDir, name, itr, j)
  {
    if |paragraph| >= 3 {
      var windows := Windows(Encode(posDict, tagger, paragraph));
      var r := Emit(windows, rendered, imagesDir, name, itr, Some(0));
      assert WorkerImages(paragraph, itr, name, imagesDir, posDict, tagger, rendered) == r;
      forall j | 0 <= j < |r| ensures r[j].path == FileName(imagesDir, name, itr, j) {
        assert r[j].path == FileName(imagesDir, name, itr, 0 + j);
      }
    }
  }

  /**
   * A paragraph of `n >= 3` sentences whose windows all render gives
   * exactly `n - 2` images, image `i` being window `i` saved as number `i`;
   * a shorter paragraph gives none.
   */
  lemma WorkerImagesShape(paragraph: seq<string>, itr: nat, name: string, imagesDir: string,
                          posDict: map<string, nat>, tagger: Tagger, rendered: Matrix -> bool)
    requires forall m :: rendered(m)
    ensures var r := WorkerImages(paragraph, itr, name, imagesDir, posDict, tagger, rendered);
            (|paragraph| < 3 ==> r == [])
            && (|paragraph| >= 3 ==>
                  |r| == |paragraph| - 2
                  && forall i :: 0 <= i < |r| ==>
                       r[i] == Image(FileName(imagesDir, name, itr, i), Window(Encode(posDict, tagger, paragraph), i)))
  {
    if |paragraph| >= 3 {
      var arrs := Encode(posDict, tagger, paragraph);
      var windows := Windows(arrs);
      EmitSavesEveryRendered(windows, rendered, imagesDir, name, itr, 0);
    }
  }

  /** No two images of one paragraph share a file. */
  lemma WorkerImagesPathsDistinct(paragraph: seq<string>, itr: nat, name: string, imagesDir: string,
                                  posDict: map<string, nat>, tagger: Tagger, rendered: Matrix -> bool)
    ensures var r := WorkerImages(paragraph, itr, name, imagesDir, posDict, tagger, rendered);
            forall a, b :: 0 <= a < b < |r| ==> r[a].path != r[b].path
  {
    var r := WorkerImages(paragraph, itr, name, imagesDir, posDict, tagger, rendered);
    WorkerImagesNamed(paragraph, itr, name, imagesDir, posDict, tagger, rendered);
    forall a, b | 0 <= a < b < |r| ensures r[a].path != r[b].path {
      if r[a].path == r[b].path {
        FileNameInjective(imagesDir, name, itr, a, itr, b);
      }
    }
  }
}
