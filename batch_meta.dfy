/**
 * The label metadata file `batches.META` (data_pos.py): `save_torch_data_batches`
 * writes one decimal label per line, and `get_train_test_val_data` reads the
 * file back line by line with `int(line.strip())`.
 */
module BatchMeta {
  import opened Results
  import opened Strings
  import opened Decimal

  /** `f"{label}\n"`. */
  function MetaLine(cls: int): (r: string)
  {
    IntToString(cls) + "\n"
  }

  /** The whole file the writer leaves: the lines of all labels, in order. */
  function MetaText(labels: seq<int>): (r: string)
  {
    if labels == [] then "" else MetaLine(labels[0]) + MetaText(labels[1..])
  }

  lemma {:induction false} MetaTextAppend(labels: seq<int>, cls: int)
    ensures MetaText(labels + [cls]) == MetaText(labels) + MetaLine(cls)
  {
    if labels == [] {
      assert labels + [cls] == [cls];
    } else {
      assert (labels + [cls])[1..] == labels[1..] + [cls];
      MetaTextAppend(labels[1..], cls);
    }
  }

  /** The writer's loop: one `f.write(f"{label}\n")` per label. */
  method WriteMeta(labels: seq<int>) returns (text: string)
    ensures text == MetaText(labels)
  {
    text := "";
    for i := 0 to |labels|
      invariant text == MetaText(labels[..i])
    {
      MetaTextAppend(labels[..i], labels[i]);
      assert labels[..i + 1] == labels[..i] + [labels[i]];
      text := text + MetaLine(labels[i]);
    }
    assert labels[..|labels|] == labels;
  }

  /** `int(line.strip())`. */
  function ParseLabel(line: string): (r: Result<int>)
    ensures r.Ok? <==> IsIntLiteral(Strip(line))
  {
    ParseInt(Strip(line))
  }

  /**
   * The reader's loop with `parse` for the body: each line parsed in turn,
   * the first line that fails ending the loop with its error.
   */
  function ParseLinesWith(parse: string -> Result<int>, lines: seq<string>): (r: Result<seq<int>>)
    ensures r.Ok? ==> |r.value| == |lines|
    decreases |lines|
  {
    if lines == [] then Ok([])
    else
      match ParseLinesWith(parse, lines[..|lines| - 1])
      case Err(e) => Err(e)
      case Ok(labels) =>
        match parse(lines[|lines| - 1])
        case Err(e) => Err(e)
        case Ok(cls) => Ok(labels + [cls])
  }

  /** The reader's loop: `int(line.strip())` for each line. */
  function ParseLines(lines: seq<string>): (r: Result<seq<int>>)
    ensures r.Ok? ==> |r.value| == |lines|
  {
    ParseLinesWith(ParseLabel, lines)
  }

  /** Reading `text` as the file `batches.META`. */
  function ParseMeta(text: string): (r: Result<seq<int>>)
    ensures r.Ok? ==> |r.value| == |Lines(text)|
  {
    ParseLines(Lines(text))
  }

  /** The loop succeeds exactly when every line parses, and then yields the parsed values in order. */
  lemma {:induction false} ParseLinesWithAll(parse: string -> Result<int>, lines: seq<string>)
    ensures ParseLinesWith(parse, lines).Ok? <==> forall i :: 0 <= i < |lines| ==> parse(lines[i]).Ok?
    ensures ParseLinesWith(parse, lines).Ok? ==>
              forall i :: 0 <= i < |lines| ==> ParseLinesWith(parse, lines).value[i] == parse(lines[i]).value
    decreases |lines|
  {
    if lines != [] {
      var init := lines[..|lines| - 1];
      ParseLinesWithAll(parse, init);
      assert forall i :: 0 <= i < |init| ==> init[i] == lines[i];
    }
  }

  lemma ParseLabelOk(line: string)
    ensures ParseLabel(line).Ok? <==> IsIntLiteral(Strip(line))
  {
  }

  /**
   * Reading a META file succeeds exactly when every line, stripped, is a
   * decimal integer, and yields those integers in order, one per line.
   */
  lemma ParseLinesAll(lines: seq<string>)
    ensures ParseLines(lines).Ok? <==> forall i :: 0 <= i < |lines| ==> IsIntLiteral(Strip(lines[i]))
    ensures ParseLines(lines).Ok? ==>
              |ParseLines(lines).value| == |lines|
              && forall i :: 0 <= i < |lines| ==> ParseLines(lines).value[i] == ParseLabel(lines[i]).value
  {
    forall i | 0 <= i < |lines| ensures ParseLabel(lines[i]).Ok? <==> IsIntLiteral(Strip(lines[i])) {
      ParseLabelOk(lines[i]);
    }
    ParseLinesWithAll(ParseLabel, lines);
  }

  /** A label line comes back as the label's digits once `strip` has taken off the newline. */
  lemma StripMetaLine(cls: int)
    ensures Strip(MetaLine(cls)) == IntToString(cls)
  {
    var s := IntToString(cls);
    var line := MetaLine(cls);
    assert !IsSpace(line[0]) by {
      assert line[0] == s[0];
    }
    assert StripStart(line) == line;
    assert line[..|line| - 1] == s;
    assert !IsSpace(s[|s| - 1]);
    assert StripEnd(line) == StripEnd(s);
  }

  /** A label line is one line: it ends in the newline and holds no other. */
  lemma MetaLineShape(cls: int)
    ensures |MetaLine(cls)| >= 2 && MetaLine(cls)[|MetaLine(cls)| - 1] == '\n'
    ensures forall k :: 0 <= k < |MetaLine(cls)| - 1 ==> MetaLine(cls)[k] != '\n'
  {
  }

  /** The lines the writer writes, one per label. */
  function MetaLines(labels: seq<int>): (r: seq<string>)
    ensures |r| == |labels|
    ensures forall i :: 0 <= i < |labels| ==> r[i] == MetaLine(labels[i])
  {
    if labels == [] then [] else [MetaLine(labels[0])] + MetaLines(labels[1..])
  }

  /** Iterating over the written file yields exactly the label lines. */
  lemma {:induction false} LinesOfMetaText(labels: seq<int>)
    ensures Lines(MetaText(labels)) == MetaLines(labels)
  {
    if labels != [] {
      var s := IntToString(labels[0]);
      assert '\n' !in s by {
        assert forall k :: 0 <= k < |s| ==> s[k] != '\n';
      }
      LinesCons(s, MetaText(labels[1..]));
      LinesOfMetaText(labels[1..]);
    }
  }

  lemma ParseMetaLine(cls: int)
    ensures ParseLabel(MetaLine(cls)) == Ok(cls)
  {
    StripMetaLine(cls);
    ParseIntRoundTrip(cls);
  }

  /** Parsing the label lines gives back the labels. */
  lemma ParseMetaLines(labels: seq<int>)
    ensures ParseLines(MetaLines(labels)) == Ok(labels)
  {
    var lines := MetaLines(labels);
    forall i | 0 <= i < |labels| ensures ParseLabel(lines[i]) == Ok(labels[i]) {
      ParseMetaLine(labels[i]);
    }
    ParseLinesWithAll(ParseLabel, lines);
    var r := ParseLinesWith(ParseLabel, lines);
    assert r.value == labels;
  }

  /** What the writer leaves, the reader reads back: the same labels, one line each. */
  lemma MetaRoundTrip(labels: seq<int>)
    ensures |Lines(MetaText(labels))| == |labels|
    ensures ParseMeta(MetaText(labels)) == Ok(labels)
  {
    LinesOfMetaText(labels);
    ParseMetaLines(labels);
  }

  /** One more line: the loop so far, then that line. */
  lemma ParseLinesWithStep(parse: string -> Result<int>, lines: seq<string>, i: nat)
    requires i < |lines|
    ensures ParseLinesWith(parse, lines[..i + 1])
            == match ParseLinesWith(parse, lines[..i])
               case Err(e) => Err(e)
               case Ok(labels) =>
                 match parse(lines[i])
                 case Err(e) => Err(e)
                 case Ok(cls) => Ok(labels + [cls])
  {
    assert lines[..i + 1][..i] == lines[..i];
  }

  /** The reader: `int(line.strip())` for each line of the file, in order. */
  method ReadMeta(text: string) returns (r: Result<seq<int>>)
    ensures r == ParseMeta(text)
  {
    r := ReadLabels(ParseLabel, Lines(text));
  }

  /** The reader's loop over the lines of the file, appending each label as `parse` reads it. */
  method ReadLabels(parse: string -> Result<int>, lines: seq<string>) returns (r: Result<seq<int>>)
    ensures r == ParseLinesWith(parse, lines)
  {
    var labels: seq<int> := [];
    for i := 0 to |lines|
      invariant ParseLinesWith(parse, lines[..i]) == Ok(labels)
    {
      ParseLinesWithStep(parse, lines, i);
      var cls := parse(lines[i]);
      if cls.Err? {
        ParseLinesErrStays(parse, lines[..i + 1], lines[i + 1..]);
        assert lines[..i + 1] + lines[i + 1..] == lines;
        return Err(cls.error);
      }
      labels := labels + [cls.value];
    }
    assert lines[..|lines|] == lines;
    r := Ok(labels);
  }

  /** Once a line has failed, the lines after it do not matter. */
  lemma {:induction false} ParseLinesErrStays(parse: string -> Result<int>, lines: seq<string>, more: seq<string>)
    requires ParseLinesWith(parse, lines).Err?
    ensures ParseLinesWith(parse, lines + more) == ParseLinesWith(parse, lines)
    decreases |more|
  {
    if more == [] {
      assert lines + more == lines;
    } else {
      var init := more[..|more| - 1];
      ParseLinesErrStays(parse, lines, init);
      assert (lines + more)[..|lines + more| - 1] == lines + init;
    }
  }

  /** `f"{folder_path}/batches/data_batch_{batch_idx + 1}.pt"`. */
  function BatchPath(folderPath: string, batchIdx: nat): string
  {
    folderPath + "/batches/data_batch_" + NatToString(batchIdx + 1) + ".pt"
  }

  /** Where the writer puts the META file. */
  function WrittenMetaPath(folderPath: string): string
  {
    folderPath + "/batches/batches.META"
  }

  /** The batch directory the reader falls back to: `f"{data_store_path}/batches/"`. */
  function DefaultBatchDir(dataStorePath: string): string
  {
    dataStorePath + "/batches/"
  }

  /** Where the reader looks for the META file: `f"{batch_path}batches.META"`. */
  function ReadMetaPath(batchPath: string): string
  {
    batchPath + "batches.META"
  }

  /** With the default batch directory, the reader opens the file the writer wrote. */
  lemma DefaultPathsAgree(folderPath: string)
    ensures ReadMetaPath(DefaultBatchDir(folderPath)) == WrittenMetaPath(folderPath)
  {
  }

  /** `batch_labels.extend(labels)` over the batches, in order. */
  function Flatten(batches: seq<seq<int>>): (r: seq<int>)
  {
    if batches == [] then [] else batches[0] + Flatten(batches[1..])
  }

  lemma {:induction false} FlattenAppend(batches: seq<seq<int>>, batch: seq<int>)
    ensures Flatten(batches + [batch]) == Flatten(batches) + batch
  {
    if batches == [] {
      assert batches + [batch] == [batch];
    } else {
      assert (batches + [batch])[1..] == batches[1..] + [batch];
      FlattenAppend(batches[1..], batch);
    }
  }

  /** Every label of every batch is kept, in order: the batches can be read back off the flat list. */
  lemma {:induction false} FlattenLength(batches: seq<seq<int>>)
    ensures |Flatten(batches)| == SumLengths(batches)
    ensures batches != [] ==> Flatten(batches)[..|batches[0]|] == batches[0]
  {
    if batches != [] {
      FlattenLength(batches[1..]);
    }
  }

  function SumLengths(batches: seq<seq<int>>): nat
  {
    if batches == [] then 0 else |batches[0]| + SumLengths(batches[1..])
  }
}
