/**
 * `POSImageDataset` (data_pos.py): the class names are the distinct parent
 * directories of the image files, sorted; each class is numbered by its
 * place in that list, and an image's label is the number of its parent
 * directory.
 *
 * The recursive `glob` that finds the files is not modelled: the list of
 * files it returned is a parameter. Opening and transforming the image
 * itself is not modelled either; `Label` gives the label half of
 * `__getitem__`.
 */
module ImageDataset {
  import opened Results
  import opened Strings
  import opened StringOrder

  /** `os.sep` on a POSIX system. */
  const Sep := '/'

  /** `image_file.split(os.sep)[-2]`: the parent directory's name, or `IndexError` for a bare file name. */
  function ClassOf(imageFile: string): (r: Result<string>)
    ensures r.Ok? <==> Sep in imageFile
  {
    var parts := Split(imageFile, Sep);
    SplitCount(imageFile, Sep);
    if |parts| < 2 then Err("IndexError: list index out of range") else Ok(parts[|parts| - 2])
  }

  /** The list comprehension over all files; the first file without a parent raises. */
  function ClassNames(imageFiles: seq<string>): (r: Result<seq<string>>)
    ensures r.Ok? <==> forall i :: 0 <= i < |imageFiles| ==> ClassOf(imageFiles[i]).Ok?
    ensures r.Ok? ==> |r.value| == |imageFiles|
                      && forall i :: 0 <= i < |imageFiles| ==> r.value[i] == ClassOf(imageFiles[i]).value
  {
    if imageFiles == [] then Ok([])
    else
      match ClassOf(imageFiles[0])
      case Err(e) => Err(e)
      case Ok(c) =>
        match ClassNames(imageFiles[1..])
        case Err(e) => Err(e)
        case Ok(cs) => Ok([c] + cs)
  }

  datatype PosImageDataset = PosImageDataset(
    rootDir: string,
    imageFiles: seq<string>,
    classes: seq<string>,
    classToIdx: map<string, nat>)

  /** `{cls: i for i, cls in enumerate(classes)}` for a list without repeats. */
  function Enumerate(classes: seq<string>): (r: map<string, nat>)
    requires StrictlySorted(classes)
    ensures r.Keys == Elements(classes)
    ensures forall i :: 0 <= i < |classes| ==> r[classes[i]] == i
  {
    forall i, j | 0 <= i < j < |classes| ensures classes[i] != classes[j] {
      if classes[i] == classes[j] {
        LessIrreflexive(classes[i]);
      }
    }
    map i | 0 <= i < |classes| :: classes[i] := i
  }

  /** The dataset once the parent names of the files are known. */
  function FromNames(rootDir: string, imageFiles: seq<string>, names: seq<string>): (ds: PosImageDataset)
    ensures ds.rootDir == rootDir && ds.imageFiles == imageFiles
    ensures StrictlySorted(ds.classes) && Elements(ds.classes) == Elements(names)
    ensures ds.classToIdx.Keys == Elements(ds.classes)
    ensures forall i :: 0 <= i < |ds.classes| ==> ds.classToIdx[ds.classes[i]] == i
  {
    var classes := SortedSet(names);
    PosImageDataset(rootDir, imageFiles, classes, Enumerate(classes))
  }

  /** `POSImageDataset(root_dir)` over the files the glob found. */
  function NewDataset(rootDir: string, imageFiles: seq<string>): (r: Result<PosImageDataset>)
    ensures r.Ok? <==> forall i :: 0 <= i < |imageFiles| ==> Sep in imageFiles[i]
    ensures r.Ok? ==> r.value == FromNames(rootDir, imageFiles, ClassNames(imageFiles).value)
  {
    match ClassNames(imageFiles)
    case Err(e) => Err(e)
    case Ok(names) => Ok(FromNames(rootDir, imageFiles, names))
  }

  /**
   * The label `__getitem__(index)` returns: Python's list indexing (a
   * negative index counts from the end), then the parent directory's
   * class number.
   */
  function Label(ds: PosImageDataset, index: int): (r: Result<nat>)
    ensures !(-|ds.imageFiles| <= index < |ds.imageFiles|) ==> r.Err?
    ensures r.Ok? ==> r.value in ds.classToIdx.Values
  {
    if !(-|ds.imageFiles| <= index < |ds.imageFiles|) then Err("IndexError: list index out of range")
    else
      var imageFile := ds.imageFiles[if index < 0 then index + |ds.imageFiles| else index];
      match ClassOf(imageFile)
      case Err(e) => Err(e)
      case Ok(c) => if c in ds.classToIdx then Ok(ds.classToIdx[c]) else Err("KeyError")
  }

  /** The distinct entries of `names`, as a set. */
  lemma ElementsOfNames(imageFiles: seq<string>, names: seq<string>)
    requires |names| == |imageFiles|
    requires forall i :: 0 <= i < |imageFiles| ==> ClassOf(imageFiles[i]).Ok? && names[i] == ClassOf(imageFiles[i]).value
    ensures Elements(names) == (set i | 0 <= i < |imageFiles| :: ClassOf(imageFiles[i]).value)
  {
    var want := set i | 0 <= i < |imageFiles| :: ClassOf(imageFiles[i]).value;
    forall c ensures c in Elements(names) <==> c in want {
      if c in Elements(names) {
        var i :| 0 <= i < |names| && names[i] == c;
        assert ClassOf(imageFiles[i]).value == c;
      }
      if c in want {
        var i :| 0 <= i < |imageFiles| && ClassOf(imageFiles[i]).value == c;
        assert names[i] == c;
      }
    }
  }

  /**
   * The classes of a built dataset are sorted and free of repeats, they are
   * exactly the parent directories of its files, and `class_to_idx` maps
   * each class to its place in the list.
   */
  lemma ClassesShape(rootDir: string, imageFiles: seq<string>)
    requires NewDataset(rootDir, imageFiles).Ok?
    ensures var ds := NewDataset(rootDir, imageFiles).value;
            StrictlySorted(ds.classes)
            && Elements(ds.classes) == (set i | 0 <= i < |imageFiles| :: ClassOf(imageFiles[i]).value)
            && ds.classToIdx.Keys == Elements(ds.classes)
            && forall i :: 0 <= i < |ds.classes| ==> ds.classToIdx[ds.classes[i]] == i
  {
    ElementsOfNames(imageFiles, ClassNames(imageFiles).value);
  }

  /** The label of file `k` in a dataset built from its names is the place of its name among the classes. */
  lemma LabelFromNames(rootDir: string, imageFiles: seq<string>, names: seq<string>, index: int)
    requires |names| == |imageFiles|
    requires forall i :: 0 <= i < |imageFiles| ==> ClassOf(imageFiles[i]) == Ok(names[i])
    requires -|imageFiles| <= index < |imageFiles|
    ensures var ds := FromNames(rootDir, imageFiles, names);
            var k := if index < 0 then index + |imageFiles| else index;
            Label(ds, index).Ok?
            && Label(ds, index).value < |ds.classes|
            && ds.classes[Label(ds, index).value] == names[k]
  {
    var ds := FromNames(rootDir, imageFiles, names);
    var k := if index < 0 then index + |imageFiles| else index;
    var c := names[k];
    assert c in Elements(ds.classes) by {
      assert names[k] == c;
    }
    var j :| 0 <= j < |ds.classes| && ds.classes[j] == c;
    LabelOfClass(ds, index, c);
  }

  /** A file whose parent is a known class gets that class's number. */
  lemma LabelOfClass(ds: PosImageDataset, index: int, c: string)
    requires -|ds.imageFiles| <= index < |ds.imageFiles|
    requires ClassOf(ds.imageFiles[if index < 0 then index + |ds.imageFiles| else index]) == Ok(c)
    requires c in ds.classToIdx
    ensures Label(ds, index) == Ok(ds.classToIdx[c])
  {
  }

  /**
   * In a built dataset every index in range, from either end, has a label,
   * and that label is the place of the file's parent directory among the
   * classes.
   */
  lemma LabelIsParentIndex(rootDir: string, imageFiles: seq<string>, index: int)
    requires NewDataset(rootDir, imageFiles).Ok?
    requires -|imageFiles| <= index < |imageFiles|
    ensures var ds := NewDataset(rootDir, imageFiles).value;
            var k := if index < 0 then index + |imageFiles| else index;
            Label(ds, index).Ok?
            && Label(ds, index).value < |ds.classes|
            && ds.classes[Label(ds, index).value] == ClassOf(imageFiles[k]).value
  {
    var names := ClassNames(imageFiles).value;
    LabelFromNames(rootDir, imageFiles, names, index);
  }

  /** An index past either end raises `IndexError`. */
  lemma LabelOutOfRange(ds: PosImageDataset, index: int)
    requires !(-|ds.imageFiles| <= index < |ds.imageFiles|)
    ensures Label(ds, index).Err?
  {
  }

  /** The one sorted list without repeats of the names "ai" and "human". */
  lemma AiHumanSorted(classes: seq<string>)
    requires StrictlySorted(classes) && Elements(classes) == {"ai", "human"}
    ensures classes == ["ai", "human"]
  {
    var two := ["ai", "human"];
    assert Less("ai", "human");
    assert StrictlySorted(two);
    assert Elements(two) == {"ai", "human"} by {
      ElementsCons("ai", ["human"]);
      ElementsCons("human", []);
      assert ["ai"] + ["human"] == two;
    }
    StrictlySortedUnique(classes, two);
  }

  /** Names drawn from "ai" and "human" alone, both present, make the classes 0 and 1. */
  lemma AiHumanFromNames(rootDir: string, imageFiles: seq<string>, names: seq<string>)
    requires Elements(names) == {"ai", "human"}
    ensures FromNames(rootDir, imageFiles, names).classes == ["ai", "human"]
    ensures FromNames(rootDir, imageFiles, names).classToIdx == map["ai" := 0, "human" := 1]
  {
    var ds := FromNames(rootDir, imageFiles, names);
    AiHumanSorted(ds.classes);
    assert ds.classToIdx.Keys == {"ai", "human"};
  }

  /** Images under `ai/` and `human/` make the two classes 0 and 1, whatever order the glob lists them in. */
  lemma AiAndHumanClasses(rootDir: string, imageFiles: seq<string>)
    requires NewDataset(rootDir, imageFiles).Ok?
    requires (set i | 0 <= i < |imageFiles| :: ClassOf(imageFiles[i]).value) == {"ai", "human"}
    ensures NewDataset(rootDir, imageFiles).value.classes == ["ai", "human"]
    ensures NewDataset(rootDir, imageFiles).value.classToIdx == map["ai" := 0, "human" := 1]
  {
    var names := ClassNames(imageFiles).value;
    ElementsOfNames(imageFiles, names);
    AiHumanFromNames(rootDir, imageFiles, names);
  }
}
