/** The YOLO trainer's dataset preparation: numbering training runs, splitting the
    annotation files into train/val/test, converting Pascal VOC boxes into YOLO's
    normalised boxes, and writing `data.yaml`. The file system, the XML parser and the
    random shuffle are inputs here: a run folder is an `Entry`, a parsed annotation a
    `VocFile`, and the shuffled file list is passed in already shuffled. */
module Training {
  import opened Wrappers
  import opened Config
  import opened Numbers
  import opened Text
  import opened Foreign
  import opened Descriptive
  import Detector

  // ---------------------------------------------------------------- run numbers

  /** One item of the project folder: its name and whether it is a folder. */
  datatype Entry = Entry(name: string, isDir: bool)

  const RunPrefix: string := "yolov8_"

  /** The longest run of decimal digits at the start of `s` (what `\d+` matches). */
  function LeadingDigits(s: string): (d: string)
    ensures d <= s
    ensures forall i :: 0 <= i < |d| ==> IsDigit(d[i])
    ensures |d| < |s| ==> !IsDigit(s[|d|])
  {
    if |s| == 0 || !IsDigit(s[0]) then "" else [s[0]] + LeadingDigits(s[1..])
  }

  /** `re.match(r'yolov8_(\d+)', name)`: the number right after the prefix, when at
      least one digit follows it; anything after the digits is ignored. */
  function RunNumber(name: string): (n: Option<nat>)
    ensures n.Some? <==>
      |name| > |RunPrefix| && name[..|RunPrefix|] == RunPrefix && IsDigit(name[|RunPrefix|])
  {
    if |name| >= |RunPrefix| && name[..|RunPrefix|] == RunPrefix then
      var digits := LeadingDigits(name[|RunPrefix|..]);
      if |digits| > 0 then Some(DigitsValue(digits)) else None
    else None
  }

  /** The folder name `train_model` gives run `n`. */
  function RunName(n: nat): (name: string)
    ensures |name| > |RunPrefix| && name[..|RunPrefix|] == RunPrefix
  {
    RunPrefix + NatToString(n)
  }

  /** The run number of a folder that counts: a folder whose name matches. */
  predicate IsRun(e: Entry, n: int) {
    e.isDir && RunNumber(e.name) == Some(n)
  }

  /** The largest run number among the folders, 0 when none matches. */
  function MaxRun(entries: seq<Entry>): nat
  {
    if |entries| == 0 then 0
    else
      var m := MaxRun(entries[..|entries| - 1]);
      var e := entries[|entries| - 1];
      if e.isDir && RunNumber(e.name).Some? && RunNumber(e.name).value > m then RunNumber(e.name).value else m
  }

  lemma {:induction false} AllDigitsLeading(s: string)
    requires forall i :: 0 <= i < |s| ==> IsDigit(s[i])
    ensures LeadingDigits(s) == s
  {
    if |s| > 0 {
      AllDigitsLeading(s[1..]);
      assert [s[0]] + s[1..] == s;
    }
  }

  lemma {:induction false} LeadingDigitsBeforeRest(s: string, rest: string)
    requires forall i :: 0 <= i < |s| ==> IsDigit(s[i])
    requires |rest| == 0 || !IsDigit(rest[0])
    ensures LeadingDigits(s + rest) == s
  {
    if |s| == 0 {
      assert s + rest == rest;
    } else {
      LeadingDigitsBeforeRest(s[1..], rest);
      assert (s + rest)[1..] == s[1..] + rest;
      assert [s[0]] + s[1..] == s;
    }
  }

  /** The folder created for run `n`, even with a suffix that does not start with a
      digit, is read back as run `n`. */
  lemma RunNameRoundTrip(n: nat, suffix: string)
    requires |suffix| == 0 || !IsDigit(suffix[0])
    ensures RunNumber(RunName(n) + suffix) == Some(n)
  {
    var name := RunName(n) + suffix;
    assert name[..|RunPrefix|] == RunPrefix;
    assert name[|RunPrefix|..] == NatToString(n) + suffix;
    LeadingDigitsBeforeRest(NatToString(n), suffix);
    DigitsValueOfNatToString(n);
  }

  /** `MaxRun` bounds every run number present and, when positive, is one of them. */
  lemma {:induction false} MaxRunIsMaximum(entries: seq<Entry>)
    ensures forall i, n :: 0 <= i < |entries| && IsRun(entries[i], n) ==> n <= MaxRun(entries)
    ensures MaxRun(entries) == 0 || exists i :: 0 <= i < |entries| && IsRun(entries[i], MaxRun(entries))
  {
    if |entries| > 0 {
      var init := entries[..|entries| - 1];
      MaxRunIsMaximum(init);
      forall i, n | 0 <= i < |entries| && IsRun(entries[i], n) ensures n <= MaxRun(entries) {
        if i < |entries| - 1 {
          assert entries[i] == init[i];
        }
      }
      if MaxRun(entries) != 0 && MaxRun(entries) == MaxRun(init) {
        var i :| 0 <= i < |init| && IsRun(init[i], MaxRun(init));
        assert entries[i] == init[i];
      }
    }
  }

  /** Creating the folder for the next run makes the following number one larger:
      successive trainings in one project get consecutive numbers. */
  lemma NextAfterNewRun(entries: seq<Entry>)
    ensures MaxRun(entries + [Entry(RunName(MaxRun(entries) + 1), true)]) == MaxRun(entries) + 1
  {
    var next := MaxRun(entries) + 1;
    var all := entries + [Entry(RunName(next), true)];
    assert all[..|all| - 1] == entries;
    RunNameRoundTrip(next, "");
    assert RunName(next) + "" == RunName(next);
  }

  // ---------------------------------------------------------------- splits

  /** Python's normalisation of a slice bound: a negative bound counts from the end,
      and both are clamped to the sequence. */
  function SliceBound(i: int, n: nat): (b: nat)
    ensures b <= n
    ensures 0 <= i <= n ==> b == i
    ensures i > n ==> b == n
    ensures i < 0 ==> b == if i + n < 0 then 0 else i + n
  {
    if i < 0 then (if i + n < 0 then 0 else i + n) else if i > n then n else i
  }

  /** `xs[lo:hi]`. */
  function Slice<T>(xs: seq<T>, lo: int, hi: int): (r: seq<T>)
    ensures 0 <= lo <= hi <= |xs| ==> r == xs[lo..hi]
  {
    var a := SliceBound(lo, |xs|);
    var b := SliceBound(hi, |xs|);
    if a < b then xs[a..b] else []
  }

  /** One value per split. */
  datatype Partition<T> = Partition(train: T, val: T, test: T)

  /** The slicing of the shuffled file list in `convert_voc_to_yolo`: a small list
      (at most 10 files) gives a fifth (at least one) to validation and a tenth to
      test; a larger one gives the requested proportions to train and validation and
      the remainder to test. */
  function SplitFiles<T>(files: seq<T>, trainSplit: real, valSplit: real): Partition<seq<T>>
  {
    var total := |files|;
    if total <= 10 then
      var fifth := Trunc(total as real * 0.2);
      var tenth := Trunc(total as real * 0.1);
      var nVal := if fifth > 1 then fifth else 1;
      var nTest := if tenth > 0 then tenth else 0;
      var nTrain := total - nVal - nTest;
      Partition(Slice(files, 0, nTrain), Slice(files, nTrain, nTrain + nVal),
            if nTest > 0 then Slice(files, nTrain + nVal, total) else [])
    else
      Cut(files, ShareOf(total, trainSplit), ShareOf(total, valSplit))
  }

  /** `xs[:a]`, `xs[a:a + b]` and `xs[a + b:]`. */
  function Cut<T>(xs: seq<T>, a: int, b: int): Partition<seq<T>>
  {
    Partition(Slice(xs, 0, a), Slice(xs, a, a + b), Slice(xs, a + b, |xs|))
  }

  /** Cuts that fit give parts of exactly the requested sizes, the last one the rest. */
  lemma CutSizes<T>(xs: seq<T>, a: int, b: int)
    requires 0 <= a && 0 <= b && a + b <= |xs|
    ensures |Cut(xs, a, b).train| == a && |Cut(xs, a, b).val| == b
    ensures |Cut(xs, a, b).test| == |xs| - a - b
  {
  }

  /** `int(total * share)` for a proportion `share`. */
  function ShareOf(total: nat, share: real): int
  {
    Trunc(total as real * share)
  }

  lemma ShareBounds(total: nat, share: real)
    requires share >= 0.0
    ensures ShareOf(total, share) == (total as real * share).Floor >= 0
  {
    ScaleBelow(0.0, share, total as real);
    assert total as real * share == share * total as real;
  }

  /** Cutting at two non-negative offsets splits a sequence into three contiguous
      parts that put it back together. */
  lemma ThreeSlices<T>(xs: seq<T>, a: int, b: int)
    requires 0 <= a && 0 <= b
    ensures Cut(xs, a, b).train + Cut(xs, a, b).val + Cut(xs, a, b).test == xs
  {
    var n := |xs|;
    var i := if a > n then n else a;
    var j := if a + b > n then n else a + b;
    assert Slice(xs, 0, a) == xs[..i];
    assert Slice(xs, a, a + b) == xs[i..j];
    assert Slice(xs, a + b, n) == xs[j..];
    assert xs[..i] + xs[i..j] + xs[j..] == xs;
  }

  /** With non-negative proportions the three slices are contiguous and together hold
      exactly the shuffled list, each file once, in order. */
  lemma SplitPartition<T>(files: seq<T>, trainSplit: real, valSplit: real)
    requires trainSplit >= 0.0 && valSplit >= 0.0
    ensures var s := SplitFiles(files, trainSplit, valSplit); s.train + s.val + s.test == files
  {
    var total := |files|;
    if total > 10 {
      ShareBounds(total, trainSplit);
      ShareBounds(total, valSplit);
      ThreeSlices(files, ShareOf(total, trainSplit), ShareOf(total, valSplit));
    } else if total > 0 {
      var fifth := Trunc(total as real * 0.2);
      var tenth := Trunc(total as real * 0.1);
      var nVal := if fifth > 1 then fifth else 1;
      var nTest := if tenth > 0 then tenth else 0;
      var nTrain := total - nVal - nTest;
      assert nTrain >= 0;
      ThreeSlices(files, nTrain, nVal);
      assert nTest == 0 ==> Slice(files, nTrain + nVal, total) == [];
    }
  }

  /** For a small list (1 to 10 files) validation always gets a file: one, or two for
      exactly ten files; only exactly ten files give a test split, of one file. */
  lemma SmallSplitSizes<T>(files: seq<T>, trainSplit: real, valSplit: real)
    requires 1 <= |files| <= 10
    ensures var s := SplitFiles(files, trainSplit, valSplit);
      |s.val| == (if |files| == 10 then 2 else 1) &&
      |s.test| == (if |files| == 10 then 1 else 0) &&
      |s.train| == |files| - |s.val| - |s.test|
  {
  }

  /** For a larger list with proportions that sum to at most one, train and
      validation get the floors of their shares and test the rest. */
  lemma LargeSplitSizes<T>(files: seq<T>, trainSplit: real, valSplit: real)
    requires |files| > 10
    requires trainSplit >= 0.0 && valSplit >= 0.0 && trainSplit + valSplit <= 1.0
    ensures var s := SplitFiles(files, trainSplit, valSplit);
      |s.train| == (|files| as real * trainSplit).Floor &&
      |s.val| == (|files| as real * valSplit).Floor &&
      |s.test| == |files| - |s.train| - |s.val|
  {
    var total := |files|;
    ShareBounds(total, trainSplit);
    ShareBounds(total, valSplit);
    SharesFit(total, trainSplit, valSplit);
    CutSizes(files, ShareOf(total, trainSplit), ShareOf(total, valSplit));
  }

  /** Shares of proportions summing to at most one fit in the total. */
  lemma SharesFit(total: nat, x: real, y: real)
    requires x >= 0.0 && y >= 0.0 && x + y <= 1.0
    ensures ShareOf(total, x) + ShareOf(total, y) <= total
  {
    var a, b := total as real * x, total as real * y;
    ShareBounds(total, x);
    ShareBounds(total, y);
    assert ShareOf(total, x) == a.Floor && ShareOf(total, y) == b.Floor;
    FloorsOfPartsFit(total as real, x, y, total);
    assert a.Floor + b.Floor <= total;
  }

  /** The floors of two parts of a whole number `n` fit in `n` when the parts' shares
      sum to at most one. */
  lemma FloorsOfPartsFit(t: real, x: real, y: real, n: int)
    requires t == n as real && t >= 0.0 && x >= 0.0 && y >= 0.0 && x + y <= 1.0
    ensures (t * x).Floor + (t * y).Floor <= n
  {
    PartsFit(t, x, y);
    FloorsFit(t * x, t * y, n);
  }

  /** Two non-negative parts of a whole that sum to at most one fit in it. */
  lemma PartsFit(t: real, x: real, y: real)
    requires t >= 0.0 && x >= 0.0 && y >= 0.0 && x + y <= 1.0
    ensures t * x + t * y <= t
  {
    ScaleBelow(x + y, 1.0, t);
    assert (x + y) * t == t * x + t * y;
  }

  /** Two floors fit wherever their sum does. */
  lemma FloorsFit(a: real, b: real, n: int)
    requires a + b <= n as real
    ensures a.Floor + b.Floor <= n
  {
    assert a.Floor as real <= a && b.Floor as real <= b;
    assert (a.Floor + b.Floor) as real <= n as real;
  }

  /** The default proportions on twenty files: 16 / 3 / 1. */
  lemma DefaultSplitOfTwenty<T>(files: seq<T>)
    requires |files| == 20
    ensures var s := SplitFiles(files, 0.8, 0.15); |s.train| == 16 && |s.val| == 3 && |s.test| == 1
  {
    LargeSplitSizes(files, 0.8, 0.15);
  }

  // ---------------------------------------------------------------- boxes

  /** A box corner pair as LabelImg writes it, in pixels. */
  datatype Corners = Corners(xmin: real, ymin: real, xmax: real, ymax: real)

  /** One `<object>`: its name and box, each absent when the XML lacks it or a
      coordinate does not parse as a number. */
  datatype VocObject = VocObject(name: Option<string>, bndbox: Option<Corners>)

  /** A parsed annotation file, or `Unreadable` when parsing fails or the size or
      file name is missing or malformed. */
  datatype VocFile = Unreadable | VocFile(width: int, height: int, filename: string, objects: seq<VocObject>)

  /** A YOLO box: class id and centre and size, each relative to the image. */
  datatype YoloBox = YoloBox(classId: nat, xCenter: real, yCenter: real, width: real, height: real)

  /** The first position of `x` in `xs` (`list.index`), `None` when absent. */
  function IndexOf(xs: seq<string>, x: string): (r: Option<nat>)
    ensures r.Some? ==> r.value < |xs| && xs[r.value] == x && forall j :: 0 <= j < r.value ==> xs[j] != x
    ensures r.None? ==> x !in xs
  {
    if |xs| == 0 then None
    else if xs[0] == x then Some(0)
    else
      var r := IndexOf(xs[1..], x);
      if r.Some? then Some(r.value + 1) else None
  }

  /** The class id of an object name: its lower-cased form's position among the six
      classes, `None` for an unknown class. */
  function ClassIndex(name: string): (r: Option<nat>)
    ensures r.Some? ==> r.value < |ClassNames| && ClassNames[r.value] == Lower(name)
    ensures r.None? <==> Lower(name) !in ClassNames
  {
    IndexOf(ClassNames, Lower(name))
  }

  /** Corners to centre and size, relative to a `w` × `h` image. */
  function Normalize(c: Corners, w: int, h: int, classId: nat): (b: YoloBox)
    requires w != 0 && h != 0
    ensures b.classId == classId
  {
    var W := w as real;
    var H := h as real;
    YoloBox(classId, ((c.xmin + c.xmax) / 2.0) / W, ((c.ymin + c.ymax) / 2.0) / H,
            (c.xmax - c.xmin) / W, (c.ymax - c.ymin) / H)
  }

  /** Centre and size back to corners in pixels. */
  function Denormalize(b: YoloBox, w: int, h: int): Corners
  {
    var W := w as real;
    var H := h as real;
    Corners((b.xCenter - b.width / 2.0) * W, (b.yCenter - b.height / 2.0) * H,
            (b.xCenter + b.width / 2.0) * W, (b.yCenter + b.height / 2.0) * H)
  }

  /** The validity filter: the centre inside the image, a positive size no larger
      than the image. */
  predicate ValidBox(b: YoloBox) {
    0.0 <= b.xCenter <= 1.0 && 0.0 <= b.yCenter <= 1.0 && 0.0 < b.width <= 1.0 && 0.0 < b.height <= 1.0
  }

  lemma CentreAndHalf(lo: real, hi: real, W: real)
    requires W != 0.0
    ensures ((lo + hi) / 2.0) / W - ((hi - lo) / W) / 2.0 == lo / W
    ensures ((lo + hi) / 2.0) / W + ((hi - lo) / W) / 2.0 == hi / W
  {
  }

  lemma DivTimes(x: real, W: real)
    requires W != 0.0
    ensures (x / W) * W == x
  {
  }

  /** Denormalising a normalised box gives back its corners. */
  lemma NormalizeRoundTrip(c: Corners, w: int, h: int, classId: nat)
    requires w != 0 && h != 0
    ensures Denormalize(Normalize(c, w, h, classId), w, h) == c
  {
    var W := w as real;
    var H := h as real;
    CentreAndHalf(c.xmin, c.xmax, W);
    CentreAndHalf(c.ymin, c.ymax, H);
    DivTimes(c.xmin, W);
    DivTimes(c.xmax, W);
    DivTimes(c.ymin, H);
    DivTimes(c.ymax, H);
  }

  /** For a positive `W`, `x / W` lies in [0, 1] exactly when `x` lies in [0, W], and
      in (0, 1] exactly when `x` lies in (0, W]. */
  lemma UnitInterval(x: real, W: real)
    requires W > 0.0
    ensures 0.0 <= x / W <= 1.0 <==> 0.0 <= x <= W
    ensures 0.0 < x / W <= 1.0 <==> 0.0 < x <= W
  {
    var q := x / W;
    DivTimes(x, W);
    if q >= 0.0 {
      ScaleBelow(0.0, q, W);
    } else {
      ScaleBelow(q, 0.0, W);
    }
    if q <= 1.0 {
      ScaleBelow(q, 1.0, W);
    } else {
      ScaleBelow(1.0, q, W);
    }
    assert q * W == x;
  }

  /** On an image of positive size the filter keeps a box exactly when the box's
      centre lies inside the image and it is wider and taller than nothing but no
      wider or taller than the image; a box partly outside the image can pass. */
  lemma ValidBoxIff(c: Corners, w: int, h: int, classId: nat)
    requires w > 0 && h > 0
    ensures ValidBox(Normalize(c, w, h, classId)) <==>
      0.0 <= c.xmin + c.xmax <= 2.0 * w as real && 0.0 <= c.ymin + c.ymax <= 2.0 * h as real &&
      0.0 < c.xmax - c.xmin <= w as real && 0.0 < c.ymax - c.ymin <= h as real
  {
    var W := w as real;
    var H := h as real;
    UnitInterval((c.xmin + c.xmax) / 2.0, W);
    UnitInterval((c.ymin + c.ymax) / 2.0, H);
    UnitInterval(c.xmax - c.xmin, W);
    UnitInterval(c.ymax - c.ymin, H);
  }

  /** A box drawn inside the image always passes the filter. */
  lemma InsideBoxKept(c: Corners, w: int, h: int, classId: nat)
    requires w > 0 && h > 0
    requires 0.0 <= c.xmin < c.xmax <= w as real && 0.0 <= c.ymin < c.ymax <= h as real
    ensures ValidBox(Normalize(c, w, h, classId))
  {
    ValidBoxIff(c, w, h, classId);
  }

  /** What happens to one object: the conversion fails (a missing name or box, or a
      zero image dimension dividing), the object is dropped (unknown class or a box
      the filter rejects), or its YOLO box is kept. */
  datatype ObjectStep = Fails | Dropped | Kept(box: YoloBox)

  function ObjectStepOf(o: VocObject, w: int, h: int): (s: ObjectStep)
    ensures s.Kept? ==> ValidBox(s.box) && s.box.classId < |ClassNames|
    ensures s.Kept? ==> o.name.Some? && ClassNames[s.box.classId] == Lower(o.name.value)
  {
    if o.name.None? then Fails
    else
      var id := ClassIndex(o.name.value);
      if id.None? then Dropped
      else if o.bndbox.None? || w == 0 || h == 0 then Fails
      else
        var b := Normalize(o.bndbox.value, w, h, id.value);
        if ValidBox(b) then Kept(b) else Dropped
  }

  /** The boxes kept from a file's objects in order, or `None` when some object
      makes the conversion fail. */
  function KeptBoxes(objects: seq<VocObject>, w: int, h: int): (r: Option<seq<YoloBox>>)
    ensures r.Some? ==> |r.value| <= |objects|
    ensures r.Some? ==> forall i :: 0 <= i < |r.value| ==> ValidBox(r.value[i]) && r.value[i].classId < |ClassNames|
  {
    if |objects| == 0 then Some([])
    else
      var init := KeptBoxes(objects[..|objects| - 1], w, h);
      var step := ObjectStepOf(objects[|objects| - 1], w, h);
      if init.None? || step.Fails? then None
      else if step.Kept? then Some(init.value + [step.box])
      else init
  }

  /** The label file line for a box: the class id and the four numbers with six
      decimals. */
  function BoxLine(b: YoloBox, lib: Library): (line: string)
    ensures NatToString(b.classId) + " " <= line
  {
    var prefix := NatToString(b.classId) + " ";
    var line := prefix + (lib.fixed(b.xCenter, 6) + " " + lib.fixed(b.yCenter, 6) + " " +
      lib.fixed(b.width, 6) + " " + lib.fixed(b.height, 6));
    assert line[..|prefix|] == prefix;
    line
  }

  function BoxLines(boxes: seq<YoloBox>, lib: Library): (lines: seq<string>)
    ensures |lines| == |boxes|
    ensures forall i :: 0 <= i < |boxes| ==> lines[i] == BoxLine(boxes[i], lib)
  {
    seq(|boxes|, i requires 0 <= i < |boxes| => BoxLine(boxes[i], lib))
  }

  /** A written label file: the image it belongs to and its text. */
  datatype LabelFile = LabelFile(image: string, text: string)

  /** What converting one annotation file does: nothing readable, no such image,
      image copied but the conversion failed or kept no box, or image copied and a
      label file written. */
  datatype FileOutcome = NotRead | ImageMissing | Failed | NoBoxes | Written(labelFile: LabelFile)

  function FileOutcomeOf(f: VocFile, images: set<string>, lib: Library): (o: FileOutcome)
    ensures o.Written? ==> f.VocFile? && f.filename in images && o.labelFile.image == f.filename
    ensures Copies(o) ==> f.VocFile? && f.filename in images
  {
    if f.Unreadable? then NotRead
    else if f.filename !in images then ImageMissing
    else
      var boxes := KeptBoxes(f.objects, f.width, f.height);
      if boxes.None? then Failed
      else if |boxes.value| == 0 then NoBoxes
      else Written(LabelFile(f.filename, Join(BoxLines(boxes.value, lib), '\n')))
  }

  /** The image is copied once the annotation is read and the image exists. */
  predicate Copies(o: FileOutcome) {
    o.Failed? || o.NoBoxes? || o.Written?
  }

  function Outcomes(files: seq<VocFile>, images: set<string>, lib: Library): (os: seq<FileOutcome>)
    ensures |os| == |files|
    ensures forall i :: 0 <= i < |files| ==> os[i] == FileOutcomeOf(files[i], images, lib)
  {
    seq(|files|, i requires 0 <= i < |files| => FileOutcomeOf(files[i], images, lib))
  }

  function WrittenLabels(os: seq<FileOutcome>): seq<LabelFile>
  {
    if |os| == 0 then []
    else WrittenLabels(os[..|os| - 1]) + (if os[|os| - 1].Written? then [os[|os| - 1].labelFile] else [])
  }

  /** The images copied while converting `files`, in order. */
  function CopiedImages(files: seq<VocFile>, images: set<string>, lib: Library): (copied: seq<string>)
    ensures forall i :: 0 <= i < |copied| ==> copied[i] in images
  {
    if |files| == 0 then []
    else
      var f := files[|files| - 1];
      CopiedImages(files[..|files| - 1], images, lib) +
        (if Copies(FileOutcomeOf(f, images, lib)) then [f.filename] else [])
  }

  /** The lines of a written label file are recovered by splitting on line breaks:
      one line per kept box, in order, and there is at least one. */
  lemma LabelFileLines(f: VocFile, images: set<string>, lib: Library)
    requires SingleLineFormat(lib)
    requires FileOutcomeOf(f, images, lib).Written?
    ensures var boxes := KeptBoxes(f.objects, f.width, f.height).value;
      |boxes| > 0 &&
      Split(FileOutcomeOf(f, images, lib).labelFile.text, '\n') == BoxLines(boxes, lib)
  {
    var boxes := KeptBoxes(f.objects, f.width, f.height).value;
    var lines := BoxLines(boxes, lib);
    forall i | 0 <= i < |lines| ensures '\n' !in lines[i] {
      BoxLineSingle(boxes[i], lib);
    }
    SplitJoin(lines, '\n');
  }

  lemma BoxLineSingle(b: YoloBox, lib: Library)
    requires SingleLineFormat(lib)
    ensures NoNewline(BoxLine(b, lib))
  {
    FixedSingle(lib, b.xCenter, 6);
    FixedSingle(lib, b.yCenter, 6);
    FixedSingle(lib, b.width, 6);
    FixedSingle(lib, b.height, 6);
    var digits := NatToString(b.classId);
    assert forall i :: 0 <= i < |digits| ==> IsDigit(digits[i]);
    assert NoNewline(digits);
  }

  /** The counters `_convert_split` prints and the files it writes. */
  datatype SplitReport = SplitReport(converted: nat, skipped: nat, copied: seq<string>, labels: seq<LabelFile>)

  /** `report` is what `_convert_split` reports for `files`: each file converted or
      skipped, the label files written and the images copied, in file order. */
  predicate Reports(report: SplitReport, files: seq<VocFile>, images: set<string>, lib: Library) {
    && report.converted + report.skipped == |files|
    && report.labels == WrittenLabels(Outcomes(files, images, lib))
    && report.converted == |report.labels|
    && report.copied == CopiedImages(files, images, lib)
  }

  // ---------------------------------------------------------------- data.yaml

  const TrainLine: string := "train: train/images"
  const ValLine: string := "val: val/images"
  const TestLine: string := "test: test/images"

  /** The YAML list entries for the class names. */
  function NameLines(names: seq<string>): (lines: seq<string>)
    ensures |lines| == |names|
    ensures forall i :: 0 <= i < |names| ==> lines[i] == "  - " + names[i]
  {
    seq(|names|, i requires 0 <= i < |names| => "  - " + names[i])
  }

  /** Everything before the class names. */
  function YamlHead(path: string, hasTest: bool): seq<string>
  {
    ["path: " + path, TrainLine, ValLine] + (if hasTest then [TestLine] else []) +
      ["", "nc: " + NatToString(|ClassNames|), "names:"]
  }

  /** The lines of `data.yaml` for a dataset path. */
  function YamlLines(path: string, hasTest: bool): seq<string>
  {
    YamlHead(path, hasTest) + NameLines(ClassNames)
  }

  /** Reading `data.yaml` back line by line: the path on the first line, train and val
      always, the test line exactly when there is a test split, six classes, and the
      class names last in class-id order. */
  lemma YamlRecoverable(path: string, hasTest: bool)
    requires NoNewline(path)
    ensures var lines := YamlLines(path, hasTest);
      Split(Terminated(lines), '\n') == lines + [""] &&
      lines[0] == "path: " + path && lines[1] == TrainLine && lines[2] == ValLine &&
      (TestLine in lines <==> hasTest) &&
      "nc: 6" in lines &&
      lines[|lines| - |ClassNames|..] == NameLines(ClassNames)
  {
    var lines := YamlLines(path, hasTest);
    var head := YamlHead(path, hasTest);
    YamlSingleLines(path, hasTest);
    SplitTerminated(lines);
    YamlTestLine(path, hasTest);
    assert NatToString(|ClassNames|) == "6";
    assert lines[|head| - 2] == "nc: 6";
    assert lines[|lines| - |ClassNames|..] == NameLines(ClassNames);
  }

  lemma YamlSingleLines(path: string, hasTest: bool)
    requires NoNewline(path)
    ensures forall i :: 0 <= i < |YamlLines(path, hasTest)| ==> NoNewline(YamlLines(path, hasTest)[i])
  {
    var lines := YamlLines(path, hasTest);
    var head := YamlHead(path, hasTest);
    YamlHeadSingle(path, hasTest);
    NameLinesSingle();
    forall i | 0 <= i < |lines| ensures NoNewline(lines[i]) {
      if i < |head| {
        assert lines[i] == head[i];
      } else {
        assert lines[i] == NameLines(ClassNames)[i - |head|];
      }
    }
  }

  lemma YamlHeadSingle(path: string, hasTest: bool)
    requires NoNewline(path)
    ensures forall i :: 0 <= i < |YamlHead(path, hasTest)| ==> NoNewline(YamlHead(path, hasTest)[i])
  {
    var head := YamlHead(path, hasTest);
    var digits := NatToString(|ClassNames|);
    assert forall i :: 0 <= i < |digits| ==> IsDigit(digits[i]);
    assert head[0] == "path: " + path;
  }

  lemma NameLinesSingle()
    ensures forall i :: 0 <= i < |ClassNames| ==> NoNewline(NameLines(ClassNames)[i])
  {
    ClassNamesSnakeCase();
    forall i | 0 <= i < |ClassNames| ensures NoNewline(NameLines(ClassNames)[i]) {
      assert SnakeCase(ClassNames[i]);
      assert NameLines(ClassNames)[i] == "  - " + ClassNames[i];
    }
  }

  /** The test line is there exactly when there is a test split. */
  lemma YamlTestLine(path: string, hasTest: bool)
    ensures TestLine in YamlLines(path, hasTest) <==> hasTest
  {
    var lines := YamlLines(path, hasTest);
    var head := YamlHead(path, hasTest);
    if hasTest {
      assert lines[3] == TestLine;
    } else {
      forall i | 0 <= i < |lines| ensures lines[i] != TestLine {
        if i == 0 {
          assert lines[0][0] == 'p';
        } else if i >= |head| {
          assert lines[i] == "  - " + ClassNames[i - |head|];
          assert lines[i][0] == ' ';
        } else {
          assert |lines[i]| != |TestLine|;
        }
      }
    }
  }

  /** The training class id of a name the detector reports for a class in range is
      that class: ids survive the round trip through the annotation names. */
  lemma ClassIdRoundTrip(classId: int)
    requires 0 <= classId < |ClassNames|
    ensures ClassIndex(Detector.ClassName(None, classId)) == Some(classId as nat)
  {
    ClassNamesLowercase();
    DefaultsConsistent();
    IndexOfDistinct(ClassNames, classId);
  }

  lemma SnakeCaseLower(s: string)
    requires SnakeCase(s)
    ensures Lower(s) == s
  {
  }

  /** The six class names are already lower case, so lower-casing an annotation
      name that is one of them changes nothing. */
  lemma ClassNamesLowercase()
    ensures forall k :: 0 <= k < |ClassNames| ==> Lower(ClassNames[k]) == ClassNames[k]
  {
    ClassNamesSnakeCase();
    forall k | 0 <= k < |ClassNames| ensures Lower(ClassNames[k]) == ClassNames[k] {
      SnakeCaseLower(ClassNames[k]);
    }
  }

  lemma {:induction false} IndexOfDistinct(xs: seq<string>, k: int)
    requires 0 <= k < |xs|
    requires forall i, j :: 0 <= i < j < |xs| ==> xs[i] != xs[j]
    ensures IndexOf(xs, xs[k]) == Some(k as nat)
  {
    if k > 0 {
      assert xs[0] != xs[k];
      assert xs[1..][k - 1] == xs[k];
      IndexOfDistinct(xs[1..], k - 1);
    }
  }

  /** The opening lines of `data.yaml`: the dataset path, the split folders, the
      class count and the names header, appended one by one. */
  method WriteYamlHead(path: string, hasTest: bool) returns (content: string)
    ensures content == Terminated(YamlHead(path, hasTest))
  {
    content := "path: " + path + "\n" + TrainLine + "\n" + ValLine + "\n";
    ghost var lines := ["path: " + path, TrainLine, ValLine];
    TerminatedThree("path: " + path, TrainLine, ValLine);
    if hasTest {
      content := content + TestLine + "\n";
      TerminatedSnoc(lines, TestLine);
      lines := lines + [TestLine];
    }
    content := content + ("\n" + "nc: " + NatToString(|ClassNames|) + "\n" + "names:" + "\n");
    TerminatedAppend(lines, ["", "nc: " + NatToString(|ClassNames|), "names:"]);
    ghost var count := "nc: " + NatToString(|ClassNames|);
    TerminatedThree("", count, "names:");
    assert Terminated(["", count, "names:"]) == "\n" + "nc: " + NatToString(|ClassNames|) + "\n" + "names:" + "\n";
    assert lines + ["", count, "names:"] == YamlHead(path, hasTest);
  }

  /** The loop that appends one YAML list entry per class name. */
  method AppendClassNames(text: string) returns (content: string)
    ensures content == text + Terminated(NameLines(ClassNames))
  {
    content := text;
    assert NameLines(ClassNames[..0]) == [];
    for i := 0 to |ClassNames|
      invariant content == text + Terminated(NameLines(ClassNames[..i]))
    {
      var before := Terminated(NameLines(ClassNames[..i]));
      var line := "  - " + ClassNames[i];
      TerminatedSnoc(NameLines(ClassNames[..i]), line);
      assert NameLines(ClassNames[..i + 1]) == NameLines(ClassNames[..i]) + [line];
      AppendAfterPrefix(text, before, line + "\n");
      AppendAfterPrefix(before, line, "\n");
      content := content + (line + "\n");
    }
    assert ClassNames[..|ClassNames|] == ClassNames;
  }

  // ---------------------------------------------------------------- the trainer

  class YoloTrainer {
    /** The absolute dataset folder, as the operating system writes it. */
    var datasetDir: string
    var hasTestSplit: bool

    constructor (datasetDir: string)
      ensures this.datasetDir == datasetDir && !hasTestSplit
    {
      this.datasetDir := datasetDir;
      hasTestSplit := false;
    }

    /** `_get_next_training_number`: 1 for a project without a folder, otherwise one
        more than the largest run number among its folders. */
    method NextTrainingNumber(projectDir: Option<seq<Entry>>) returns (n: nat)
      ensures projectDir.None? ==> n == 1
      ensures projectDir.Some? ==> n == MaxRun(projectDir.value) + 1
      ensures projectDir.Some? ==> forall i, k :: 0 <= i < |projectDir.value| && IsRun(projectDir.value[i], k) ==> k < n
    {
      if projectDir.None? {
        return 1;
      }
      var entries := projectDir.value;
      var maxNum := 0;
      for i := 0 to |entries|
        invariant maxNum == MaxRun(entries[..i])
      {
        assert entries[..i + 1][..i] == entries[..i];
        var folder := entries[i];
        if folder.isDir {
          var m := RunNumber(folder.name);
          if m.Some? && m.value > maxNum {
            maxNum := m.value;
          }
        }
      }
      assert entries[..|entries|] == entries;
      MaxRunIsMaximum(entries);
      n := maxNum + 1;
    }

    /** `_convert_split`: every file is either converted (its label file written) or
        skipped, and the copied images and label files come in file order. */
    method ConvertSplit(files: seq<VocFile>, images: set<string>, lib: Library) returns (report: SplitReport)
      ensures report.converted + report.skipped == |files|
      ensures report.labels == WrittenLabels(Outcomes(files, images, lib))
      ensures report.converted == |report.labels|
      ensures report.copied == CopiedImages(files, images, lib)
    {
      var converted, skipped := 0, 0;
      var copied: seq<string> := [];
      var labels: seq<LabelFile> := [];
      ghost var os := Outcomes(files, images, lib);
      for i := 0 to |files|
        invariant converted + skipped == i
        invariant labels == WrittenLabels(os[..i]) && converted == |labels|
        invariant copied == CopiedImages(files[..i], images, lib)
      {
        assert os[..i + 1][..i] == os[..i];
        assert files[..i + 1][..i] == files[..i];
        var outcome := FileOutcomeOf(files[i], images, lib);
        if Copies(outcome) {
          copied := copied + [files[i].filename];
        }
        if outcome.Written? {
          labels := labels + [outcome.labelFile];
          converted := converted + 1;
        } else {
          skipped := skipped + 1;
        }
      }
      assert os[..|files|] == os;
      assert files[..|files|] == files;
      report := SplitReport(converted, skipped, copied, labels);
    }

    /** `_create_data_yaml`: the YAML text, built piece by piece, with the dataset
        path's backslashes turned into slashes. */
    method CreateDataYaml() returns (content: string)
      ensures content == Terminated(YamlLines(ReplaceChar(datasetDir, '\\', '/'), hasTestSplit))
    {
      var datasetPath := ReplaceChar(datasetDir, '\\', '/');
      content := WriteYamlHead(datasetPath, hasTestSplit);
      content := AppendClassNames(content);
      TerminatedAppend(YamlHead(datasetPath, hasTestSplit), NameLines(ClassNames));
    }

    /** `convert_voc_to_yolo` on the shuffled annotation files: no file raises
        `FileNotFoundError`; otherwise the files are split, each split is converted
        and reported in full (an empty split, which the source skips, reports
        nothing), `hasTestSplit` records whether the test split has files, and
        `data.yaml` is written. */
    method ConvertVocToYolo(shuffled: seq<VocFile>, images: set<string>, trainSplit: real, valSplit: real, lib: Library)
      returns (r: Result<(Partition<SplitReport>, string), string>)
      modifies this
      ensures |shuffled| == 0 ==> r == Err("FileNotFoundError") && hasTestSplit == old(hasTestSplit)
      ensures datasetDir == old(datasetDir)
      ensures |shuffled| > 0 ==>
        var s := SplitFiles(shuffled, trainSplit, valSplit);
        hasTestSplit == (|s.test| > 0) && r.Ok? &&
        Reports(r.value.0.train, s.train, images, lib) &&
        Reports(r.value.0.val, s.val, images, lib) &&
        Reports(r.value.0.test, s.test, images, lib) &&
        r.value.1 == Terminated(YamlLines(ReplaceChar(datasetDir, '\\', '/'), hasTestSplit))
    {
      if |shuffled| == 0 {
        return Err("FileNotFoundError");
      }
      var s := SplitFiles(shuffled, trainSplit, valSplit);
      hasTestSplit := |s.test| > 0;
      var train := ConvertSplit(s.train, images, lib);
      var val := ConvertSplit(s.val, images, lib);
      var test := ConvertSplit(s.test, images, lib);
      var yaml := CreateDataYaml();
      r := Ok((Partition(train, val, test), yaml));
    }
  }
}
