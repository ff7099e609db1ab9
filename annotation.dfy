/** The image annotator's bookkeeping: the predefined class list it writes for
    LabelImg, the annotation files it finds, and the per-class counts it gathers from
    them. The annotation folder is an input (absent, or its files with their parsed
    contents); launching LabelImg is left out. */
module Annotation {
  import opened Wrappers
  import opened Config
  import opened Text
  import Tally

  /** An annotation file as the XML parser sees it: unparsable, or the `<name>` of
      each `<object>` in order, `None` for an object without one (reading it
      raises). */
  datatype AnnotationXml = Unparsable | Objects(names: seq<Option<string>>)

  /** One file in the annotation folder. */
  datatype FolderFile = FolderFile(fileName: string, content: AnnotationXml)

  /** The dictionary `get_annotation_stats` returns. */
  datatype AnnotationStats = AnnotationStats(totalImages: nat, totalObjects: nat, classes: Tally.Tally)

  /** The `*.xml` pattern. */
  predicate IsXml(fileName: string) {
    |fileName| >= 4 && fileName[|fileName| - 4..] == ".xml"
  }

  /** The files `glob("*.xml")` yields, in folder order. */
  function XmlFiles(files: seq<FolderFile>): (xml: seq<FolderFile>)
    ensures |xml| <= |files|
    ensures forall f :: f in xml <==> f in files && IsXml(f.fileName)
  {
    if |files| == 0 then []
    else XmlFiles(files[..|files| - 1]) + (if IsXml(files[|files| - 1].fileName) then [files[|files| - 1]] else [])
  }

  /** The names counted from one file's objects: those before the first object
      without a name, whose read raises and ends the file's loop. */
  function NamesBeforeFailure(names: seq<Option<string>>): (counted: seq<string>)
    ensures |counted| <= |names|
    ensures forall i :: 0 <= i < |counted| ==> names[i] == Some(counted[i])
    ensures |counted| < |names| ==> names[|counted|].None?
  {
    if |names| == 0 || names[0].None? then [] else [names[0].value] + NamesBeforeFailure(names[1..])
  }

  /** The names one file contributes: none from an unparsable file. */
  function CountedIn(content: AnnotationXml): seq<string>
  {
    if content.Unparsable? then [] else NamesBeforeFailure(content.names)
  }

  /** Every name counted across the files, in reading order. */
  function CountedNames(files: seq<FolderFile>): seq<string>
  {
    if |files| == 0 then [] else CountedNames(files[..|files| - 1]) + CountedIn(files[|files| - 1].content)
  }

  /** The text written to `predefined_classes.txt`: one class name per line. */
  function PredefinedClassesText(): string
  {
    Terminated(ClassNames)
  }

  /** Reading `predefined_classes.txt` back line by line gives the six class names
      in class-id order, followed by the empty piece after the last line break. */
  lemma PredefinedClassesLines()
    ensures Split(PredefinedClassesText(), '\n') == ClassNames + [""]
  {
    ClassNamesSnakeCase();
    forall k | 0 <= k < |ClassNames| ensures NoNewline(ClassNames[k]) {
      assert SnakeCase(ClassNames[k]);
    }
    SplitTerminated(ClassNames);
  }

  class ImageAnnotator {
    var imagesDir: string
    var annotationsDir: string
    /** What the constructor writes to `predefined_classes.txt`. */
    var predefinedClasses: string

    /** Annotations go to the given folder, or to the images folder when none (or
        an empty path) is given; the class list is written on creation. */
    constructor (imagesDir: string, annotationsDir: Option<string>)
      ensures this.imagesDir == imagesDir
      ensures this.annotationsDir == Or(annotationsDir, "", imagesDir)
      ensures predefinedClasses == PredefinedClassesText()
    {
      this.imagesDir := imagesDir;
      this.annotationsDir := Or(annotationsDir, "", imagesDir);
      new;
      predefinedClasses := CreatePredefinedClasses();
    }

    /** `get_annotation_files`: no files for a missing folder, otherwise the XML
        files in it. */
    method GetAnnotationFiles(folder: Option<seq<FolderFile>>) returns (files: seq<FolderFile>)
      ensures folder.None? ==> files == []
      ensures folder.Some? ==> files == XmlFiles(folder.value)
    {
      if folder.None? {
        return [];
      }
      files := XmlFiles(folder.value);
    }

    /** `get_annotation_stats`: every XML file counts as an image, even one that
        does not parse; each named object adds one to the total and to its class,
        and the counts made before a failure are kept. */
    method GetAnnotationStats(folder: Option<seq<FolderFile>>) returns (stats: AnnotationStats)
      ensures var files := if folder.None? then [] else XmlFiles(folder.value);
        stats.totalImages == |files| &&
        stats.classes == Tally.TallyOf(CountedNames(files)) &&
        stats.totalObjects == |CountedNames(files)|
      ensures stats.totalObjects == Tally.Total(stats.classes)
      ensures folder.None? || XmlFiles(folder.value) == [] ==> stats == AnnotationStats(0, 0, [])
    {
      var files := GetAnnotationFiles(folder);
      if |files| == 0 {
        return AnnotationStats(0, 0, []);
      }
      var totalObjects, classesCount := CountFiles(files);
      Tally.TallyOfProperties(CountedNames(files));
      stats := AnnotationStats(|files|, totalObjects, classesCount);
    }
  }

  /** The loop over the annotation files of `get_annotation_stats`: an unparsable
      file adds nothing, a parsed one adds its objects' names. */
  method CountFiles(files: seq<FolderFile>) returns (totalObjects: nat, classesCount: Tally.Tally)
    ensures classesCount == Tally.TallyOf(CountedNames(files))
    ensures totalObjects == |CountedNames(files)|
  {
    totalObjects := 0;
    classesCount := [];
    ghost var counted: seq<string> := [];
    for i := 0 to |files|
      invariant counted == CountedNames(files[..i])
      invariant classesCount == Tally.TallyOf(counted) && totalObjects == |counted|
    {
      assert files[..i + 1][..i] == files[..i];
      var content := files[i].content;
      if content.Objects? {
        counted, classesCount, totalObjects := CountObjects(content.names, counted, classesCount, totalObjects);
      }
    }
    assert files[..|files|] == files;
  }

  /** The loop over one file's objects: each named object bumps the total and its
      class; the first object without a name ends the loop. */
  method CountObjects(names: seq<Option<string>>, ghost counted: seq<string>, classesCount: Tally.Tally, totalObjects: nat)
    returns (ghost counted': seq<string>, classes': Tally.Tally, total': nat)
    requires classesCount == Tally.TallyOf(counted) && totalObjects == |counted|
    ensures counted' == counted + NamesBeforeFailure(names)
    ensures classes' == Tally.TallyOf(counted') && total' == |counted'|
    ensures total' == totalObjects + |NamesBeforeFailure(names)|
  {
    counted', classes', total' := counted, classesCount, totalObjects;
    var j := 0;
    while j < |names| && names[j].Some?
      invariant 0 <= j <= |names|
      invariant forall k :: 0 <= k < j ==> names[k].Some?
      invariant counted' == counted + seq(j, k requires 0 <= k < j => names[k].value)
      invariant classes' == Tally.TallyOf(counted') && total' == |counted'|
    {
      var name := names[j].value;
      total' := total' + 1;
      classes' := Tally.Bump(classes', name);
      assert (counted' + [name])[..|counted'|] == counted';
      counted' := counted' + [name];
      j := j + 1;
    }
    PartialCountsKept(names, j);
  }

  /** A file counts exactly the names of its objects before the first nameless one
      (all of them when every object has a name): the counts made before a failure
      are kept, and nothing after it is counted. */
  lemma {:induction false} PartialCountsKept(names: seq<Option<string>>, j: int)
    requires 0 <= j <= |names|
    requires forall k :: 0 <= k < j ==> names[k].Some?
    requires j == |names| || names[j].None?
    ensures NamesBeforeFailure(names) == seq(j, k requires 0 <= k < j => names[k].value)
  {
    if j > 0 {
      assert names[0].Some?;
      assert NamesBeforeFailure(names) == [names[0].value] + NamesBeforeFailure(names[1..]);
      PartialCountsKept(names[1..], j - 1);
      var all := seq(j, k requires 0 <= k < j => names[k].value);
      var rest := seq(j - 1, k requires 0 <= k < j - 1 => names[1..][k].value);
      assert all == [names[0].value] + rest;
    }
  }

  /** `_create_predefined_classes`: one line per class, written in order. */
  method CreatePredefinedClasses() returns (text: string)
    ensures text == PredefinedClassesText()
  {
    text := "";
    assert ClassNames[..0] == [];
    for i := 0 to |ClassNames|
      invariant text == Terminated(ClassNames[..i])
    {
      TerminatedSnoc(ClassNames[..i], ClassNames[i]);
      assert ClassNames[..i + 1] == ClassNames[..i] + [ClassNames[i]];
      text := text + ClassNames[i] + "\n";
    }
    assert ClassNames[..|ClassNames|] == ClassNames;
  }
}
