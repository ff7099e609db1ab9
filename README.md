# Microplastic particle analysis — a verified model

This project models the computational core of a microplastic image-analysis system in
Dafny. The core has three parts:

- **Particle measurement.** Connected regions from the image processor, or bounding
  boxes from the YOLOv8 detector, become particles with sizes in micrometres.
- **Classification and statistics.** Particles are classified by size and by aspect
  ratio into half-open ranges. The statistical analyser builds particle tables from
  them and works out descriptive statistics, category counts and percentages,
  significance tests between samples, concentrations and a fixed-layout text report.
- **Dataset tooling.** The YOLO trainer numbers its training runs, splits LabelImg
  annotations into train, validation and test, turns Pascal VOC boxes into YOLO boxes
  and writes `data.yaml`. The image annotator writes the list of predefined classes and
  counts annotated objects per class.

Outside code is passed in as values:

- The numerical libraries are a `Foreign.Library` record. It holds the square root,
  the scipy tests and fixed-point number formatting.
- Segmentation output is a sequence of `Regions.Region` measurements.
- Detector output is a sequence of `Detector.RawDetection` boxes.
- Parsed XML files are `Training.VocFile` and `Annotation.AnnotationXml` values.
- Folder listings are `Option` values, where `None` means the folder does not exist.

Python exceptions are error values (`Frames.Error`, `Result`, `Option`), not
preconditions. Python's `x or default`, `int(x)` truncation and slice normalisation are
written out as `Wrappers.Or`, `Numbers.Trunc` and `Training.Slice`.

Module layout:

- `Config`: the category tables, the image parameters and the six class names.
- `Classifier`: the first-match classifier.
- `Frames`: the part of a pandas DataFrame the analyser uses.
- `Tally`: insertion-ordered count dictionaries.
- `Sorting`: a stable sort by key (equal keys keep their input order).
- `Descriptive`: count, mean, median, std, quantiles.
- `Analyzer`: `StatisticalAnalyzer`.
- `Report`: `generate_summary_report`.
- `Detector`: `YOLODetector`.
- `Regions`: `ImageProcessor.extract_particles`.
- `Training`: `YOLOTrainer`.
- `Annotation`: `ImageAnnotator`.
- `Text`, `Wrappers`, `Numbers`, `Foreign`: string helpers, Option/Result,
  truncation, and the foreign library record.

Two error paths of the code are kept as errors:

- `particles_to_dataframe([])` raises `KeyError`, because the empty table has no
  `equivalent_diameter_um` column. See `Analyzer.ParticlesToDataFrame`.
- `calculate_concentration` with volume 0 raises `ZeroDivisionError`. It is modelled as
  `Err(ZeroDivisionError)`, not as a precondition.

## Model

| member | source | states |
|---|---|---|
| Wrappers.Or | src/image_processing.py:29 | Python's `x or default`: a missing or zero value gives the fallback, any other value is kept |
| Numbers.Trunc | src/yolo_detector.py:105-107 | `int(x)` truncates toward zero: the floor for non-negative `x`, the ceiling for negative `x` |
| Text.NatToString | src/train_yolo.py:322 | `str(n)` is a non-empty string of decimal digits |
| Text.DigitsValueOfNatToString | src/train_yolo.py:88-90 | reading back the digits written for `n` gives `n` |
| Text.IntToStringInjective | src/yolo_detector.py:211 | different ids give different `clase_<id>` suffixes |
| Text.SplitJoin | src/statistical_analysis.py:311 | splitting `"\n".join(lines)` gives back the lines when none contains a line break |
| Text.SplitTerminated | src/image_annotation.py:49-51 | splitting newline-terminated lines gives the lines plus one empty piece |
| Text.TerminatedAppend | src/train_yolo.py:269-282 | text built by appending terminated lines is the terminated concatenation |
| Text.Lower | src/train_yolo.py:211 | `str.lower()` on ASCII and Latin-1 letters: keeps the length and lower-cases each character |
| Text.Capitalize | src/statistical_analysis.py:286 | `str.capitalize()`: the first character upper-cased, the rest lower-cased, same length, on ASCII and Latin-1 letters |
| Text.ReplaceChar | src/train_yolo.py:266 | `replace('\\', '/')` changes exactly the backslashes |
| Config.SizeTablePartitions | config/config.py:39-43 | the size ranges are adjacent, start at 0 and end at infinity; every non-negative diameter lies in exactly one, a negative one in none |
| Config.AspectTablePartitions | config/config.py:46-50 | the aspect ranges are adjacent from 0.8 upwards; every ratio ≥ 0.8 lies in exactly one, every ratio below 0.8 in none |
| Config.DefaultsConsistent | config/config.py:24-33 | example: the calibration default is 1.0, the area window 10 ≤ 50000 is non-empty, and the six class names are distinct |
| Config.ClassNamesSnakeCase | src/train_yolo.py:28-35 | every class name is lower-case letters and underscores |
| Classifier.ClassifyIsFirstMatch | src/statistical_analysis.py:55-67 | classification returns the name of the first range, in table order, holding the value, and `indefinido` when none does |
| Classifier.MatchOrNot | src/statistical_analysis.py:57-60 | every value has a first matching range or matches none |
| Classifier.SizeClassification | src/statistical_analysis.py:55-60 | with the default table a diameter gets a category iff it is non-negative: `pequeño` below 50, `mediano` below 200, `grande` from 200 |
| Classifier.AspectClassification | src/statistical_analysis.py:62-67 | a ratio gets a shape iff it is at least 0.8: `esférico` below 1.2, `alargado` below 3.0, `fibra` from 3.0 |
| Classifier.BoundaryExamples | src/statistical_analysis.py:57-58 | example: 50.0 is `mediano`, 200.0 is `grande`, and the sentinel ratio 0 is `indefinido` |
| Frames.FromRecords | src/statistical_analysis.py:38 | `pd.DataFrame(particles)` keeps the rows in order; an empty list has no columns |
| Frames.Column | src/statistical_analysis.py:44 | `df[name]` fails exactly for an unknown column and has one cell per row |
| Frames.Numbers | src/statistical_analysis.py:81 | `dropna()` keeps the present numbers; a text cell is a `TypeError` |
| Frames.WithColumn | src/statistical_analysis.py:41 | `df[name] = cells` sets the column in every row and adds it to the columns |
| Tally.TallyOfProperties | src/yolo_detector.py:316-318 | the counting loop's dictionary has distinct keys in first-seen order, one count per occurrence, and counts summing to the number of items |
| Tally.BumpGet | src/image_annotation.py:201 | `d[k] = d.get(k, 0) + 1` adds one to `k` and leaves every other count alone |
| Tally.BumpKeys | src/image_annotation.py:201 | a bump keeps keys distinct and appends a new key last |
| Tally.BumpTotal | src/image_annotation.py:200-201 | a bump adds exactly one to the total |
| Sorting.SortByProperties | src/statistical_analysis.py:115 | the sort gives a sorted permutation of its input |
| Sorting.SortByStable | src/statistical_analysis.py:115 | the sort is stable: the elements with any one key come out in their input order |
| Descriptive.MinOf | src/statistical_analysis.py:88 | `min()` is an element no larger than any other |
| Descriptive.MaxOf | src/statistical_analysis.py:89 | `max()` is an element no smaller than any other |
| Descriptive.Position | src/statistical_analysis.py:90-91 | the interpolation rank `q·(n−1)` lies between 0 and n−1 |
| Descriptive.Describe | src/statistical_analysis.py:81-94 | `count` is the number of values; an empty column has every statistic NaN; std needs two values; `cv` is std/mean·100, and exactly 0 when the mean is 0 |
| Descriptive.DescribeOrdered | src/statistical_analysis.py:85-92 | for a non-empty column min ≤ q25 ≤ median ≤ q75 ≤ max, the mean lies between min and max, and iqr = q75 − q25 ≥ 0 |
| Descriptive.MeanBetweenExtremes | src/yolo_detector.py:325-328 | the mean lies between the smallest and the largest value |
| Descriptive.SortedEnds | src/statistical_analysis.py:88-89 | sorted data starts with the minimum and ends with the maximum |
| Descriptive.InterpolateBounds | src/statistical_analysis.py:90-91 | an interpolated quantile lies between the extremes |
| Descriptive.InterpolateMonotone | src/statistical_analysis.py:90-91 | interpolated quantiles grow with `q` |
| Descriptive.MedianIsHalfQuantile | src/statistical_analysis.py:86 | the median equals the 0.5 quantile |
| Analyzer.CategoryOf | src/statistical_analysis.py:44-51 | a missing cell is `indefinido`; a number gets its table category |
| Analyzer.ClassifyCells | src/statistical_analysis.py:44-51 | `apply(classify)` gives one category per cell, and `TypeError` iff some cell holds text |
| Analyzer.AddCategory | src/statistical_analysis.py:44-51 | an unknown source column is `KeyError`; on success every row gains its category and nothing else changes |
| Analyzer.ClassifiedRowOf | src/statistical_analysis.py:40-51 | tagging a particle and adding both categories gives its classified row |
| Analyzer.TaggedTableBuilt | src/statistical_analysis.py:38-41 | the table holds one row per particle, in order, with `sample_id` set only for a non-empty id |
| Analyzer.TaggedClassifiable | src/statistical_analysis.py:38-46 | the tagged table classifies iff the particles' own diameters do |
| Analyzer.SizedClassifiable | src/statistical_analysis.py:44-51 | adding the size category leaves the aspect-ratio column as the particles have it |
| Analyzer.BothCategoriesAdded | src/statistical_analysis.py:38-53 | after both categories the table has the promised columns, and every row is its particle's classified row |
| Analyzer.SampleIds | src/statistical_analysis.py:41 | the constant `sample_id` column has one entry per row |
| Analyzer.ParticlesToDataFrame | src/statistical_analysis.py:26-53 | succeeds iff the particles are classifiable (`[]` gives `KeyError`); one row per particle in order, each with its categories, its sample id when one is given, and all other fields unchanged |
| Analyzer.DescribeColumn | src/statistical_analysis.py:69-96 | an unknown column is `KeyError`; the count is the number of non-missing cells |
| Analyzer.DescribeColumns | src/statistical_analysis.py:108-112 | one named statistics entry per requested column, in order; any unknown column fails |
| Analyzer.Labels | src/statistical_analysis.py:115 | the category labels after dropping missing cells |
| Analyzer.ValueCounts | src/statistical_analysis.py:115 | `value_counts()` is a permutation of the first-seen tally, sorted by descending count, summing to the number of labels |
| Analyzer.ValueCountsTies | src/statistical_analysis.py:115 | labels with equal counts keep the tally's first-seen order |
| Analyzer.SortedTotal | src/statistical_analysis.py:115 | sorting the counts keeps their total |
| Analyzer.PercentTimesTotal | src/statistical_analysis.py:121 | a percentage times the total is the count times 100 |
| Analyzer.Percentages | src/statistical_analysis.py:119-122 | one percentage per category, in the counts' order, each equal to count/total·100; no division without counts |
| Analyzer.PercentAdd | src/statistical_analysis.py:121 | percentages of the same total add |
| Analyzer.PercentagesSum | src/statistical_analysis.py:119-122 | the percentages sum to the counts' share of the total |
| Analyzer.AnalyzeDistribution | src/statistical_analysis.py:108-124 | statistics first, then `value_counts`, then percentages of `len(df)`; it fails iff one of them does |
| Analyzer.AnalyzeSizeDistribution | src/statistical_analysis.py:98-124 | a missing `area_um2` is `KeyError`; area, perimeter and diameter statistics in that order, the area count being its present cells; one percentage per size category |
| Analyzer.AnalyzeShapeDistribution | src/statistical_analysis.py:126-152 | a missing `aspect_ratio` is `KeyError`; aspect-ratio, eccentricity and solidity statistics in that order; one percentage per shape category |
| Analyzer.DistributionTotals | src/statistical_analysis.py:115-122 | on a table with both category columns the counts sum to the row count, and for a non-empty table the percentages sum to 100 |
| Analyzer.WholePercentages | src/statistical_analysis.py:119-122 | counts covering the total give percentages summing to 100 |
| Analyzer.CountsCoverRows | src/statistical_analysis.py:143-150 | on a fully labelled column `value_counts` succeeds and counts every row once |
| Analyzer.ClassifiedRowsLabelled | src/statistical_analysis.py:44-51 | tables built by `particles_to_dataframe` carry a text label in both category columns |
| Analyzer.Normality | src/statistical_analysis.py:185 | `is_normal` iff p > 0.05 |
| Analyzer.Significance | src/statistical_analysis.py:199 | `significant` iff p < 0.05 |
| Analyzer.Groups | src/statistical_analysis.py:212 | the per-sample values after `dropna()`, in order; it fails iff some sample fails |
| Analyzer.ShapiroEntriesProperties | src/statistical_analysis.py:178-186 | Shapiro–Wilk entries are keyed `<id>_shapiro` for exactly the samples with at least three values, in order, and `is_normal` iff p > 0.05 |
| Analyzer.ShapiroNoneExtends | src/statistical_analysis.py:178-186 | a raising test ends the whole comparison |
| Analyzer.DispatchTests | src/statistical_analysis.py:188-228 | one sample: no test; two: `t_test` and `mann_whitney`; more: `anova` and `kruskal_wallis`; `significant` iff p < 0.05 |
| Analyzer.DescribeSamples | src/statistical_analysis.py:172-175 | every sample gets its statistics, in order; the first failing column raises |
| Analyzer.NormalityTests | src/statistical_analysis.py:178-186 | the normality loop produces exactly the Shapiro–Wilk entries |
| Analyzer.GroupTests | src/statistical_analysis.py:188-228 | two samples get a t-test and a Mann–Whitney test, more get ANOVA and Kruskal–Wallis, fewer get none; a failing test fails the comparison |
| Analyzer.CompareSamples | src/statistical_analysis.py:154-230 | a missing column raises before any test; otherwise every sample's statistics, then the Shapiro–Wilk entries, then the tests chosen by the number of samples |
| Analyzer.GroupsFirstError | src/statistical_analysis.py:172-175 | the comparison fails with the first failing sample's error |
| Analyzer.PerMlTimesVolume | src/statistical_analysis.py:249-251 | an amount per millilitre times the volume is the diluted amount |
| Analyzer.MeanPerMl | src/statistical_analysis.py:251 | the mean area per millilitre exists iff some area is present |
| Analyzer.CalculateConcentration | src/statistical_analysis.py:246-254 | zero volume gives `ZeroDivisionError`; otherwise particles per ml is n·dilution/volume and total area per ml is Σarea·dilution/volume |
| Analyzer.PerMlLinear | src/statistical_analysis.py:249-251 | an amount per millilitre is linear in the dilution |
| Analyzer.ConcentrationLinear | src/statistical_analysis.py:249-251 | scaling the dilution by k scales every concentration by k |
| Analyzer.MeanPerMlLinear | src/statistical_analysis.py:251 | the mean area per millilitre is linear in the dilution |
| Report.CategoryLines | src/statistical_analysis.py:284-286 | one `  <Category>: <n> partículas (<p>%)` line per percentage entry, in order |
| Report.AppendAreaLines | src/statistical_analysis.py:291-297 | the area block is appended, line by line |
| Report.AppendCategoryLines | src/statistical_analysis.py:284-286 | the category loop appends exactly the category lines |
| Report.GenerateSummaryReport | src/statistical_analysis.py:256-311 | the size analysis's error comes first, then the shape analysis's; on success the text is the report lines joined by newlines |
| Report.ReportLayout | src/statistical_analysis.py:268-309 | 21 lines plus one per category plus the optional sample line: rules, title, particle count, size section, area heading, and the closing rule |
| Report.CaseMappingKeepsLines | src/statistical_analysis.py:286 | capitalising a single-line category keeps it on one line |
| Report.CategoryLinesSingle | src/statistical_analysis.py:286 | category lines contain no line break |
| Report.ReportLinesRecoverable | src/statistical_analysis.py:311 | splitting the report text on newlines gives back exactly its lines |
| Detector.Morphology | src/yolo_detector.py:189-190 | the centroid is the box midpoint in pixels |
| Detector.RectangleInMicrometres | src/yolo_detector.py:153-164 | in micrometres, area = width·height and perimeter = 2(width + height) |
| Detector.CalibrationScaling | src/yolo_detector.py:157-178 | scaling the calibration by k scales lengths by k and the area by k²; ratios and centroid are unchanged |
| Detector.ElongationAtLeastOne | src/yolo_detector.py:174 | elongation is at least 1, and exactly 1 for a square |
| Detector.AreaPerimeter | src/yolo_detector.py:155-163 | 16·area ≤ perimeter², with equality for a square |
| Detector.CircularityAtMost | src/yolo_detector.py:171 | the circularity formula stays at or below π/4 |
| Detector.CircularityBound | src/yolo_detector.py:171 | a box's circularity is at most π/4 and reaches it for a square; it is non-negative for a non-inverted box |
| Detector.AspectRatioOfBox | src/yolo_detector.py:167 | aspect ratio is width/height, below 1 for a tall box, and 1 when the height is not positive |
| Detector.EquivalentDiameter | src/yolo_detector.py:177-178 | with an exact square root, the diameter squared is 4·area/π in micrometres too |
| Detector.ClassNameInjective | src/yolo_detector.py:204-211 | without model names, different ids get different names |
| Detector.FallbackInitial | src/yolo_detector.py:208-211 | only fallback names begin with `c` |
| Detector.YoloDetector.constructor | src/yolo_detector.py:58-60 | a missing or zero calibration falls back to 1.0; thresholds are kept |
| Detector.YoloDetector.DetectParticles | src/yolo_detector.py:96-125 | one particle per detection in order, with `particle_id` 1..n, truncated class id and bbox, and its box morphology |
| Detector.YoloDetector.GetDetectionSummary | src/yolo_detector.py:293-329 | an empty list gives zeros and no extremes; otherwise the class counts sum to the total and equal the occurrences, the averages are means, and min ≤ mean area ≤ max |
| Regions.AreaWindow | src/image_processing.py:119-120 | a missing or zero bound takes the default 10 or 50000 |
| Regions.ImageProcessor.constructor | src/image_processing.py:29 | a missing or zero calibration falls back to 1.0 |
| Regions.ImageProcessor.ExtractParticles | src/image_processing.py:105-159 | one particle per region inside the inclusive window, in region order, measured at this calibration |
| Regions.KeptMembers | src/image_processing.py:126-128 | a region is kept iff it lies in the window; nothing is added |
| Regions.KeptAppend | src/image_processing.py:125-157 | filtering preserves relative order |
| Regions.KeptAll | src/image_processing.py:128 | when every region is in the window nothing is dropped |
| Regions.MeasureProperties | src/image_processing.py:145-150 | aspect ratio is major/minor on pixel lengths, 0 for a non-positive minor axis |
| Regions.CalibrationScaling | src/image_processing.py:129-155 | scaling the calibration by k scales lengths by k and the area by k², and leaves the aspect ratio and pass-through fields unchanged |
| Training.LeadingDigits | src/train_yolo.py:88 | `\d+` takes the longest prefix of digits |
| Training.RunNumber | src/train_yolo.py:88-90 | a name matches iff it starts with `yolov8_` followed by a digit |
| Training.RunName | src/train_yolo.py:321-322 | the run folder name starts with `yolov8_` |
| Training.RunNameRoundTrip | src/train_yolo.py:88-90 | the folder for run n, with any non-digit suffix, reads back as n |
| Training.MaxRunIsMaximum | src/train_yolo.py:85-93 | the maximum bounds every run number and is 0 or attained |
| Training.NextAfterNewRun | src/train_yolo.py:86-93 | creating the next run's folder makes the following number one larger |
| Training.SliceBound | src/train_yolo.py:137-147 | Python slice bounds count negatives from the end and are clamped |
| Training.Slice | src/train_yolo.py:137-147 | in-range slices are ordinary subsequences |
| Training.ShareBounds | src/train_yolo.py:142-143 | `int(total·share)` is the floor for a non-negative share |
| Training.ThreeSlices | src/train_yolo.py:145-147 | cutting at two offsets gives three parts that put the list back together |
| Training.SplitPartition | src/train_yolo.py:127-147 | train + val + test is exactly the shuffled list, in order |
| Training.SmallSplitSizes | src/train_yolo.py:131-139 | for 1–10 files validation gets one file (two at ten); only ten files give a one-file test split |
| Training.LargeSplitSizes | src/train_yolo.py:140-147 | train and val get the floors of their shares and test the rest |
| Training.DefaultSplitOfTwenty | src/train_yolo.py:140-147 | example: 20 files with 0.8/0.15 split 16/3/1 |
| Training.IndexOf | src/train_yolo.py:218 | `list.index` is the first position, `None` when absent |
| Training.ClassIndex | src/train_yolo.py:211-218 | the class id is the lower-cased name's position among the six classes; unknown names have none |
| Training.Normalize | src/train_yolo.py:228-231 | the normalised box keeps the class id |
| Training.NormalizeRoundTrip | src/train_yolo.py:228-231 | denormalising a normalised box gives back its corners |
| Training.ValidBoxIff | src/train_yolo.py:234-235 | the filter keeps a box iff its centre is in the image and its size is positive and within the image |
| Training.InsideBoxKept | src/train_yolo.py:234-235 | a box drawn inside the image always passes |
| Training.ObjectStepOf | src/train_yolo.py:210-239 | a kept object has a valid box whose class id names its lower-cased name |
| Training.KeptBoxes | src/train_yolo.py:209-239 | kept boxes are valid, in range, and no more than the objects |
| Training.BoxLine | src/train_yolo.py:237-238 | a label line starts with the class id and a space |
| Training.BoxLines | src/train_yolo.py:236-239 | one line per kept box, in order |
| Training.FileOutcomeOf | src/train_yolo.py:186-252 | a label file is written only for a read annotation whose image exists, and belongs to that image |
| Training.CopiedImages | src/train_yolo.py:200-206 | only existing images are copied |
| Training.LabelFileLines | src/train_yolo.py:242-245 | a written label file splits back into its box lines, at least one |
| Training.NameLines | src/train_yolo.py:281-282 | one `  - <name>` line per class |
| Training.YamlRecoverable | src/train_yolo.py:266-282 | `data.yaml` splits into its lines: the path first, train and val, the test line iff there is a test split, `nc: 6`, the class names last in id order |
| Training.YamlTestLine | src/train_yolo.py:275-276 | the test line is present iff there is a test split |
| Training.ClassIdRoundTrip | src/train_yolo.py:218 | the detector's fallback name for ids 0–5 maps back to the same training class id |
| Training.ClassNamesLowercase | src/train_yolo.py:211-214 | lower-casing a class name changes nothing |
| Training.IndexOfDistinct | src/train_yolo.py:218 | in a list of distinct names, each name's index is its position |
| Training.WriteYamlHead | src/train_yolo.py:269-278 | the appended head text is the terminated head lines |
| Training.AppendClassNames | src/train_yolo.py:281-282 | the loop appends exactly the terminated class-name lines |
| Training.YoloTrainer.constructor | src/train_yolo.py:55-67 | a new trainer has no test split |
| Training.YoloTrainer.NextTrainingNumber | src/train_yolo.py:69-93 | 1 without a project folder, else one more than the largest run number; strictly above every existing run |
| Training.YoloTrainer.ConvertSplit | src/train_yolo.py:171-254 | every file is converted or skipped; label files and copied images come in file order |
| Training.YoloTrainer.CreateDataYaml | src/train_yolo.py:256-290 | the YAML text is the terminated lines for the slash-converted dataset path |
| Training.YoloTrainer.ConvertVocToYolo | src/train_yolo.py:95-169 | no files is `FileNotFoundError`; otherwise the split flag is set iff test is non-empty, each of the three split reports counts every file as converted or skipped and lists the label files written and the images copied, in file order; the YAML is written |
| Annotation.XmlFiles | src/image_annotation.py:170 | `glob("*.xml")` keeps exactly the `.xml` files |
| Annotation.NamesBeforeFailure | src/image_annotation.py:198-203 | a file counts the names before its first nameless object |
| Annotation.PredefinedClassesLines | src/image_annotation.py:40-51 | the class file reads back as the six class names, one per line |
| Annotation.ImageAnnotator.constructor | src/image_annotation.py:19-36 | annotations default to the images folder; the class file is written |
| Annotation.ImageAnnotator.GetAnnotationFiles | src/image_annotation.py:160-170 | a missing folder gives no files, otherwise its XML files |
| Annotation.ImageAnnotator.GetAnnotationStats | src/image_annotation.py:172-209 | every XML file counts as an image; the class counts are the tally of the counted names and sum to the object total; no files gives zeros |
| Annotation.CountFiles | src/image_annotation.py:193-203 | the counts over all files are the tally and the number of the names counted file by file, an unparsable file adding none |
| Annotation.CountObjects | src/image_annotation.py:198-201 | each named object bumps the total and its class, until the first nameless one |
| Annotation.PartialCountsKept | src/image_annotation.py:194-203 | counts made before a failure are kept, and nothing after it is counted |
| Annotation.CreatePredefinedClasses | src/image_annotation.py:38-51 | one line per class, written in order |

## Left out

- File system, image and XML input/output are not modelled: reading and writing files,
  `mkdir`, `shutil.copy`, `glob` and `ElementTree` parsing. Their results are inputs.
- OpenCV and scikit-image processing is not modelled: loading, preprocessing,
  segmentation and overlays. A region's properties are inputs, so how
  `regionprops` computes them is outside the model.
- YOLO inference, training, validation and export are foreign calls. The detector
  model's `names` table is an input (`modelNames`), so `hasattr(self.model, 'names')`
  is modelled as `None`.
- The `ImportError` raised when ultralytics is missing is not modelled.
- The scipy tests (`shapiro`, `ttest_ind`, `mannwhitneyu`, `f_oneway`, `kruskal`) and
  the square root are opaque fields of `Foreign.Library`. Pandas `std` is modelled as
  the square root of the sample variance.
- Floating point is not modelled: reals are exact, and rounding is absent.
- String formatting is not modelled. `:.1f`, `:.2f` and `:.6f` are the abstract
  `lib.fixed`.
- Detector.Morphology: does not model the final `round(..., 2/3/1)`, because reals are
  exact here; the other fields' properties are lemmas about it.
- Detector.YoloDetector.GetDetectionSummary: does not model `round(..., 3)` and
  `round(..., 2)` on the averages and extremes, for the same reason.
- The split sizes use exact floors of real products, not floating-point `int(...)`.
- Drawing annotations (`_annotate_detection`, `save_annotated_image`), plotting
  (`visualization.py`) and results management (`results_manager.py`) are not modelled.
  They produce images or filesystem summaries, not values the core computes.
- `launch_labelimg` is not modelled; it starts a GUI subprocess.
- The GUI front ends and example scripts are not modelled.
- The random shuffle in `convert_voc_to_yolo` is not modelled; the shuffled list is an
  input.
- The label file's name (`Path(filename).stem + ".txt"`) is not modelled; a label file
  is recorded by its image file name.
- Annotation.NamesBeforeFailure / CountObjects / CountFiles /
  ImageAnnotator.GetAnnotationStats: an `<object>` whose `<name/>` element is empty is modelled like a missing name. In
  the source its `None` text becomes a `None` key in `get_annotation_stats` and fails
  `.lower()` in `_convert_split`.
- Training.LeadingDigits / RunNumber: non-ASCII digits, which Python's `\d` also
  matches, are not modelled in run numbers.
- Annotation.XmlFiles: case-insensitive globbing on Windows is not modelled: `*.xml` is matched with
  case.
- Analyzer.Labels / Analyzer.ValueCounts: a numeric cell in a category column gives
  `Err(TypeError)`, where pandas' `value_counts()` counts the number as a label of its
  own. `Report.GenerateSummaryReport` then reports `TypeError`, where the source
  would raise `AttributeError` at `.capitalize()` on that number. Tables built by
  `particles_to_dataframe` never hold such a cell (`Analyzer.ClassifiedRowsLabelled`).
- Text.Lower / Text.Capitalize: `str.lower()` and `str.capitalize()` are modelled on
  ASCII and the Latin-1 letters other than `ß`, `ÿ` and `µ`, which are left unchanged.
  Python gives `Ss`, `Ÿ` and `Μ` for them, so for `ß` the result is one character
  longer than the model's. Letters outside Latin-1, such as Greek and Cyrillic, are
  left unchanged, where Python changes their case; `'İ'.lower()` has two characters
  in Python. The category names capitalized by the report start with ASCII letters.
- The remaining pure helpers of the classes (`load_image`, `process_image`,
  `train_model`, `evaluate_model`, `export_model`) are I/O or foreign calls.
