/** The image-upload panel: an additive collection of at most ten validated images, removal
    and clearing, the aspect-preserving resize applied before prediction, and the strictly
    sequential batch run that gives every image a status, collects the recognised letters
    into a space-separated string and summarises the outcome. Each image's preprocessing
    and backend call is given as an outcome parameter; the random ids new images receive
    are parameters as well. */
module ImageUpload {
  import opened Wrappers
  import Text
  import Backend
  import Pixels

  const AllowedTypes: seq<string> := ["image/jpeg", "image/jpg", "image/png", "image/bmp"]
  /** 10 MiB per file. */
  const MaxFileBytes: nat := 10 * 1024 * 1024
  const MaxImages: nat := 10
  /** Longest side of the canvas an upload is drawn on. */
  const MaxSide: nat := 1280

  datatype UploadFile = UploadFile(name: string, mime: string, size: nat)

  // ---------------------------------------------------------------------------------
  // Validation of an addition

  /** The error a file contributes, if any: type is checked before size. */
  function FileProblem(f: UploadFile): Option<string>
  {
    if f.mime !in AllowedTypes then Some(f.name + ": Invalid file type")
    else if f.size > MaxFileBytes then Some(f.name + ": File too large (max 10MB)")
    else None
  }

  predicate Acceptable(f: UploadFile)
  {
    f.mime in AllowedTypes && f.size <= MaxFileBytes
  }

  /** The files of `files` that pass, in order. */
  function ValidOf(files: seq<UploadFile>): seq<UploadFile>
  {
    if |files| == 0 then []
    else ValidOf(files[..|files| - 1]) + (if FileProblem(files[|files| - 1]).None? then [files[|files| - 1]] else [])
  }

  /** The messages of the files that fail, in order. */
  function ErrorsOf(files: seq<UploadFile>): seq<string>
  {
    if |files| == 0 then []
    else ErrorsOf(files[..|files| - 1]) + (match FileProblem(files[|files| - 1]) case Some(m) => [m] case None => [])
  }

  /** Every file is either kept or reported, never both; kept files are exactly the
      acceptable ones. */
  lemma ValidationPartitions(files: seq<UploadFile>)
    ensures |ValidOf(files)| + |ErrorsOf(files)| == |files|
    ensures forall f :: f in ValidOf(files) <==> f in files && Acceptable(f)
    ensures ErrorsOf(files) == [] <==> forall k :: 0 <= k < |files| ==> Acceptable(files[k])
    ensures ErrorsOf(files) == [] ==> ValidOf(files) == files
  {
    ValidationCounts(files);
    ValidMembers(files);
    NoErrorsKeepsAll(files);
  }

  lemma {:induction false} ValidationCounts(files: seq<UploadFile>)
    ensures |ValidOf(files)| + |ErrorsOf(files)| == |files|
  {
    if |files| > 0 {
      ValidationCounts(files[..|files| - 1]);
    }
  }

  lemma {:induction false} ValidMembers(files: seq<UploadFile>)
    ensures forall f :: f in ValidOf(files) <==> f in files && Acceptable(f)
  {
    if |files| > 0 {
      var init, last := files[..|files| - 1], files[|files| - 1];
      ValidMembers(init);
      assert files == init + [last];
    }
  }

  lemma {:induction false} NoErrorsKeepsAll(files: seq<UploadFile>)
    ensures ErrorsOf(files) == [] <==> forall k :: 0 <= k < |files| ==> Acceptable(files[k])
    ensures ErrorsOf(files) == [] ==> ValidOf(files) == files
  {
    if |files| > 0 {
      var init, last := files[..|files| - 1], files[|files| - 1];
      NoErrorsKeepsAll(init);
      assert files == init + [last];
      assert ErrorsOf(files) == [] <==> ErrorsOf(init) == [] && Acceptable(last);
    }
  }

  /** The `forEach` that sorts an addition into valid files and error messages. */
  method ValidateFiles(files: seq<UploadFile>) returns (valid: seq<UploadFile>, errors: seq<string>)
    ensures valid == ValidOf(files) && errors == ErrorsOf(files)
  {
    valid, errors := [], [];
    var i := 0;
    while i < |files|
      invariant 0 <= i <= |files|
      invariant valid == ValidOf(files[..i]) && errors == ErrorsOf(files[..i])
    {
      var file := files[i];
      assert files[..i + 1][..i] == files[..i];
      if file.mime !in AllowedTypes {
        errors := errors + [file.name + ": Invalid file type"];
      } else if file.size > MaxFileBytes {
        errors := errors + [file.name + ": File too large (max 10MB)"];
      } else {
        valid := valid + [file];
      }
      i := i + 1;
    }
    assert files[..i] == files;
  }

  // ---------------------------------------------------------------------------------
  // Resize before prediction

  /** The canvas size an image of `width` x `height` is drawn at: unchanged when its longer
      side is at most 1280, otherwise scaled so that the longer side is 1280. A square image
      takes the height branch. */
  function FitWithin(width: nat, height: nat): (size: (real, real))
    ensures size.0 * height as real == size.1 * width as real
    ensures size.0 <= MaxSide as real && size.1 <= MaxSide as real
    ensures width <= MaxSide && height <= MaxSide ==> size == (width as real, height as real)
    ensures width > MaxSide || height > MaxSide ==> size.0 == MaxSide as real || size.1 == MaxSide as real
    ensures size.0 <= width as real && size.1 <= height as real
  {
    var w, h, m := width as real, height as real, MaxSide as real;
    if width > height then
      if width > MaxSide then
        assert h * m / w <= m by { ScaledSideBounded(h, w, m); }
        assert h * m / w <= h by { ScaledSideBounded(m, w, h); }
        assert m * h == (h * m / w) * w;
        (m, h * m / w)
      else (w, h)
    else
      if height > MaxSide then
        assert w * m / h <= m by { ScaledSideBounded(w, h, m); }
        assert w * m / h <= w by { ScaledSideBounded(m, h, w); }
        assert w * m == (w * m / h) * h;
        (w * m / h, m)
      else (w, h)
  }

  lemma ScaledSideBounded(a: real, b: real, c: real)
    requires 0.0 <= a <= b && b > 0.0 && c >= 0.0
    ensures a * c / b <= c
  {
    assert a * c <= b * c;
  }

  /** `preprocessImageForPrediction` once the image is decoded and drawn: the canvas size it
      chooses and the in-place contrast pass over the drawn pixels. Decoding, drawing and
      JPEG encoding are browser work and are not modelled. */
  method Preprocess(width: nat, height: nat, drawn: array<Pixels.Byte>) returns (canvasWidth: real, canvasHeight: real)
    requires drawn.Length % 4 == 0
    modifies drawn
    ensures (canvasWidth, canvasHeight) == FitWithin(width, height)
    ensures Pixels.ContrastApplied(old(drawn[..]), drawn[..], Pixels.ContrastGain)
  {
    var w, h := width as real, height as real;
    if w > h {
      if w > MaxSide as real {
        h := (h * MaxSide as real) / w;
        w := MaxSide as real;
      }
    } else {
      if h > MaxSide as real {
        w := (w * MaxSide as real) / h;
        h := MaxSide as real;
      }
    }
    canvasWidth, canvasHeight := w, h;
    Pixels.EnhanceContrast(drawn);
  }

  // ---------------------------------------------------------------------------------
  // The collection

  datatype Status = Ready | Processing | Completed | Failed

  datatype Item = Item(id: real, file: UploadFile, status: Status, result: Option<Backend.Prediction>, error: Option<string>)

  /** One row of the batch results list. */
  datatype BatchRecord = BatchRecord(imageId: real, imageName: string, result: Backend.Prediction)

  function NewItems(files: seq<UploadFile>, ids: seq<real>): (items: seq<Item>)
    requires |ids| == |files|
    ensures |items| == |files|
    ensures forall k :: 0 <= k < |files| ==> items[k] == Item(ids[k], files[k], Ready, None, None)
  {
    seq(|files|, k requires 0 <= k < |files| => Item(ids[k], files[k], Ready, None, None))
  }

  function TooManyMessage(have: nat, adding: nat): string
  {
    "Maximum 10 images total. You have " + Text.NatToString(have) + ", trying to add " + Text.NatToString(adding)
  }

  predicate DistinctIds(items: seq<Item>)
  {
    forall a, b :: 0 <= a < b < |items| ==> items[a].id != items[b].id
  }

  /** `prev.filter(keep)` */
  function Filter<T(!new)>(s: seq<T>, keep: T -> bool): (r: seq<T>)
    ensures |r| <= |s|
    ensures forall x :: x in r <==> x in s && keep(x)
  {
    if |s| == 0 then []
    else (if keep(s[0]) then [s[0]] else []) + Filter(s[1..], keep)
  }

  /** Filtering keeps the relative order of what it keeps: it commutes with concatenation. */
  lemma {:induction false} FilterAppend<T(!new)>(a: seq<T>, b: seq<T>, keep: T -> bool)
    ensures Filter(a + b, keep) == Filter(a, keep) + Filter(b, keep)
  {
    if |a| > 0 {
      assert (a + b)[1..] == a[1..] + b;
      FilterAppend(a[1..], b, keep);
    } else {
      assert a + b == b;
    }
  }

  /** `prev.map(img => img.id === id ? change(img) : img)` */
  function UpdateWhere(items: seq<Item>, id: real, change: Item -> Item): (r: seq<Item>)
    ensures |r| == |items|
    ensures forall k :: 0 <= k < |items| ==> r[k] == if items[k].id == id then change(items[k]) else items[k]
  {
    seq(|items|, k requires 0 <= k < |items| => if items[k].id == id then change(items[k]) else items[k])
  }

  // ---------------------------------------------------------------------------------
  // The batch run, as a specification

  /** What preprocessing plus the backend call did for one image: returned a reply (which
      may itself say `success: false`) or threw with a message. */
  datatype Outcome = Returned(result: Backend.Prediction) | Threw(message: string)

  function FinalStatus(o: Outcome): Status
  {
    if o.Returned? then Completed else Failed
  }

  /** The item once its turn in the batch is over. */
  function Finished(item: Item, o: Outcome): Item
  {
    match o
    case Returned(result) => item.(status := Completed, result := Some(result))
    case Threw(message) => item.(status := Failed, error := Some(message))
  }

  function RecordOf(item: Item, o: Outcome): BatchRecord
  {
    match o
    case Returned(result) => BatchRecord(item.id, item.file.name, result)
    case Threw(message) => BatchRecord(item.id, item.file.name, Backend.Prediction(false, "", None, "", "", message))
  }

  function Records(items: seq<Item>, outcomes: seq<Outcome>): (rs: seq<BatchRecord>)
    requires |outcomes| == |items|
    ensures |rs| == |items|
    ensures forall k :: 0 <= k < |items| ==> rs[k] == RecordOf(items[k], outcomes[k])
  {
    seq(|items|, k requires 0 <= k < |items| => RecordOf(items[k], outcomes[k]))
  }

  /** The letters that go into the prediction string: successful replies with a letter other
      than "No hand detected", in input order. */
  function LettersOf(outcomes: seq<Outcome>): seq<string>
  {
    if |outcomes| == 0 then []
    else
      var o := outcomes[|outcomes| - 1];
      LettersOf(outcomes[..|outcomes| - 1]) +
        (if o.Returned? && Backend.CarriesLetter(o.result) then [o.result.prediction] else [])
  }

  /** What an observer of the panel sees happen, in order. */
  datatype Event =
    | Started(index: nat)                 // status set to processing
    | Ended(index: nat, status: Status)   // status set to completed or error
    | Reported(index: nat)                // reply handed to the page for its histories
    | Paused                              // the 500 ms pause between requests

  function ItemEvents(i: nat, n: nat, o: Outcome): seq<Event>
  {
    [Started(i), Ended(i, FinalStatus(o))]
      + (if o.Returned? then [Reported(i)] + (if i < n - 1 then [Paused] else []) else [])
  }

  /** The events of the first `k` images of a batch of `n`. */
  function BatchEvents(outcomes: seq<Outcome>, n: nat, k: nat): seq<Event>
    requires k <= |outcomes|
  {
    if k == 0 then [] else BatchEvents(outcomes, n, k - 1) + ItemEvents(k - 1, n, outcomes[k - 1])
  }

  function StartsOf(events: seq<Event>): seq<nat>
  {
    if |events| == 0 then []
    else StartsOf(events[..|events| - 1]) + (if events[|events| - 1].Started? then [events[|events| - 1].index] else [])
  }

  lemma {:induction false} StartsOfAppend(a: seq<Event>, b: seq<Event>)
    ensures StartsOf(a + b) == StartsOf(a) + StartsOf(b)
    decreases |b|
  {
    if |b| == 0 {
      assert a + b == a;
    } else {
      var b' := b[..|b| - 1];
      assert (a + b)[..|a + b| - 1] == a + b';
      assert (a + b)[|a + b| - 1] == b[|b| - 1];
      StartsOfAppend(a, b');
    }
  }

  function Range(k: nat): (r: seq<nat>)
    ensures |r| == k && forall j :: 0 <= j < k ==> r[j] == j
  {
    seq(k, j requires 0 <= j < k => j)
  }

  /** The batch visits the images strictly in input order, each exactly once. */
  lemma {:induction false} BatchVisitsInOrder(outcomes: seq<Outcome>, n: nat, k: nat)
    requires k <= |outcomes|
    ensures StartsOf(BatchEvents(outcomes, n, k)) == Range(k)
  {
    if k > 0 {
      BatchVisitsInOrder(outcomes, n, k - 1);
      StartsOfAppend(BatchEvents(outcomes, n, k - 1), ItemEvents(k - 1, n, outcomes[k - 1]));
      ItemStartsOnce(k - 1, n, outcomes[k - 1]);
      RangeGrows(k - 1);
    }
  }

  /** One image's events start that image once. */
  lemma ItemStartsOnce(i: nat, n: nat, o: Outcome)
    ensures StartsOf(ItemEvents(i, n, o)) == [i]
  {
    var tail := ItemEvents(i, n, o);
    assert tail == [Started(i)] + tail[1..];
    StartsOfAppend([Started(i)], tail[1..]);
    assert [Started(i)][..0] == [];
    NoStartsAfterFirst(i, n, o);
  }

  lemma RangeGrows(k: nat)
    ensures Range(k) + [k] == Range(k + 1)
  {
  }

  lemma NoStartsAfterFirst(i: nat, n: nat, o: Outcome)
    ensures StartsOf(ItemEvents(i, n, o)[1..]) == []
  {
    var t := ItemEvents(i, n, o)[1..];
    forall j | 0 <= j <= |t| ensures StartsOf(t[..j]) == [] {
      StartsOfEmpty(t, j);
    }
    assert t[..|t|] == t;
  }

  lemma {:induction false} StartsOfEmpty(t: seq<Event>, j: nat)
    requires j <= |t| && forall m :: 0 <= m < |t| ==> !t[m].Started?
    ensures StartsOf(t[..j]) == []
  {
    if j > 0 {
      StartsOfEmpty(t, j - 1);
      assert t[..j][..j - 1] == t[..j - 1];
    }
  }

  /** Within one image's events a pause can only come last, and only before another image. */
  lemma ItemEventsShape(i: nat, n: nat, o: Outcome)
    ensures var t := ItemEvents(i, n, o);
      && |t| >= 2 && t[0] == Started(i)
      && (forall m :: 0 <= m < |t| - 1 ==> !t[m].Paused?)
      && (t[|t| - 1].Paused? ==> i < n - 1)
  {
  }

  predicate PausesLeadIntoStarts(es: seq<Event>)
  {
    forall j :: 0 <= j < |es| - 1 && es[j].Paused? ==> es[j + 1].Started?
  }

  /** The pause only ever separates two images: every pause is followed by the start of an
      image, and a batch never ends on a pause. */
  lemma {:induction false} PauseOnlyBetweenItems(outcomes: seq<Outcome>, n: nat, k: nat)
    requires k <= |outcomes| && k <= n
    ensures var es := BatchEvents(outcomes, n, k);
      && PausesLeadIntoStarts(es)
      && (|es| > 0 && es[|es| - 1].Paused? ==> k < n)
  {
    if k > 0 {
      PauseOnlyBetweenItems(outcomes, n, k - 1);
      var prev := BatchEvents(outcomes, n, k - 1);
      var tail := ItemEvents(k - 1, n, outcomes[k - 1]);
      ItemEventsShape(k - 1, n, outcomes[k - 1]);
      var es := prev + tail;
      assert es == BatchEvents(outcomes, n, k);
      assert PausesLeadIntoStarts(prev);
      forall j | 0 <= j < |es| - 1 && es[j].Paused?
        ensures es[j + 1].Started?
      {
        if j < |prev| - 1 {
          assert es[j] == prev[j] && es[j + 1] == prev[j + 1];
          assert prev[j].Paused?;
          assert prev[j + 1].Started?;
        } else if j == |prev| - 1 {
          assert es[j + 1] == tail[0];
          assert tail[0].Started?;
        }
      }
      assert es[|es| - 1] == tail[|tail| - 1];
    }
  }

  // ---------------------------------------------------------------------------------
  // Summary of a batch

  /** The "Successful" figure: how many records succeeded. */
  function SuccessCount(results: seq<BatchRecord>): (n: nat)
    ensures n <= |results|
    ensures n == 0 <==> forall k :: 0 <= k < |results| ==> !results[k].result.success
    ensures n == |results| <==> forall k :: 0 <= k < |results| ==> results[k].result.success
  {
    if |results| == 0 then 0
    else
      var init := results[..|results| - 1];
      assert forall k :: 0 <= k < |init| ==> init[k] == results[k];
      SuccessCount(init) + (if results[|results| - 1].result.success then 1 else 0)
  }

  /** The "Failed" figure: how many records failed. */
  function FailureCount(results: seq<BatchRecord>): (n: nat)
    ensures n <= |results|
    ensures n == 0 <==> forall k :: 0 <= k < |results| ==> results[k].result.success
    ensures n == |results| <==> forall k :: 0 <= k < |results| ==> !results[k].result.success
  {
    if |results| == 0 then 0
    else
      var init := results[..|results| - 1];
      assert forall k :: 0 <= k < |init| ==> init[k] == results[k];
      FailureCount(init) + (if results[|results| - 1].result.success then 0 else 1)
  }

  /** Successful and failed add up to the number processed. */
  lemma {:induction false} SummaryAddsUp(results: seq<BatchRecord>)
    ensures SuccessCount(results) + FailureCount(results) == |results|
  {
    if |results| > 0 {
      SummaryAddsUp(results[..|results| - 1]);
    }
  }

  /** Sum of the confidences of the successful records; `None` when one of them has none
      (the sum is then NaN in the page). */
  function ConfidenceSum(results: seq<BatchRecord>): (c: Option<real>)
    ensures c.None? <==> MissingConfidence(results)
  {
    if |results| == 0 then Some(0.0)
    else
      var r := results[|results| - 1];
      var init := results[..|results| - 1];
      assert forall k :: 0 <= k < |init| ==> init[k] == results[k];
      var rest := ConfidenceSum(init);
      if !r.result.success then rest
      else if rest.Some? && r.result.confidence.Some? then Some(rest.value + r.result.confidence.value)
      else None
  }

  /** Some successful record came back without a confidence. */
  predicate MissingConfidence(results: seq<BatchRecord>)
  {
    exists k :: 0 <= k < |results| && results[k].result.success && results[k].result.confidence.None?
  }

  /** The "Avg Confidence" figure, in percent, before rounding for display: 0 when
      nothing succeeded, undefined (NaN in the page) exactly when a success lacks a
      confidence. */
  function AverageConfidencePercent(results: seq<BatchRecord>): (a: Option<real>)
    ensures SuccessCount(results) == 0 ==> a == Some(0.0)
    ensures a.None? <==> MissingConfidence(results)
  {
    if SuccessCount(results) == 0 then Some(0.0)
    else match ConfidenceSum(results)
      case Some(total) => Some(total / SuccessCount(results) as real * 100.0)
      case None => None
  }

  predicate ConfidencesInUnitRange(results: seq<BatchRecord>)
  {
    forall k :: 0 <= k < |results| && results[k].result.success && results[k].result.confidence.Some? ==>
      0.0 <= results[k].result.confidence.value <= 1.0
  }

  lemma {:induction false} ConfidenceSumBounded(results: seq<BatchRecord>)
    requires ConfidencesInUnitRange(results)
    ensures ConfidenceSum(results).Some? ==> 0.0 <= ConfidenceSum(results).value <= SuccessCount(results) as real
  {
    if |results| > 0 {
      var init := results[..|results| - 1];
      assert forall k :: 0 <= k < |init| ==> init[k] == results[k];
      ConfidenceSumBounded(init);
    }
  }

  /** With confidences in [0, 1] the average shown lies in [0, 100]. */
  lemma AveragePercentBounded(results: seq<BatchRecord>)
    requires ConfidencesInUnitRange(results)
    ensures AverageConfidencePercent(results).Some? ==> 0.0 <= AverageConfidencePercent(results).value <= 100.0
  {
    ConfidenceSumBounded(results);
    if SuccessCount(results) > 0 && ConfidenceSum(results).Some? {
      var total, n := ConfidenceSum(results).value, SuccessCount(results) as real;
      assert AverageConfidencePercent(results).value == total / n * 100.0;
      PercentOfFraction(total, n);
    }
  }

  lemma PercentOfFraction(part: real, whole: real)
    requires 0.0 <= part <= whole && whole > 0.0
    ensures 0.0 <= part / whole * 100.0 <= 100.0
  {
    assert part / whole <= 1.0;
  }

  /** The Tailwind colour family of a status badge; gray is also the fallback. */
  function Hue(status: Status): string
  {
    match status
    case Ready => "gray"
    case Processing => "blue"
    case Completed => "green"
    case Failed => "red"
  }

  /** The badge style of a status: a light background and a dark text of one hue. */
  function StatusColor(status: Status): string
  {
    "bg-" + Hue(status) + "-100 text-" + Hue(status) + "-700"
  }

  /** Each status has a badge of its own: the fourth and sixth characters of the style
      (the first and third letters of its hue) already tell them apart. */
  lemma StatusColorsDistinct(a: Status, b: Status)
    ensures a != b ==> StatusColor(a) != StatusColor(b)
  {
    assert forall s: Status :: StatusColor(s)[3] == Hue(s)[0] && StatusColor(s)[5] == Hue(s)[2];
  }

  // ---------------------------------------------------------------------------------
  // The component state

  class UploadPanel {
    /** `selectedImages` */
    var images: seq<Item>
    /** `results` */
    var results: seq<BatchRecord>
    /** `predictionString` */
    var predictionString: string
    /** `error` */
    var error: Option<string>
    var isLoading: bool
    var processingIndex: int

    ghost predicate Valid()
      reads this
    {
      |images| <= MaxImages && DistinctIds(images)
    }

    constructor ()
      ensures Valid()
      ensures images == [] && results == [] && predictionString == "" && error == None
      ensures !isLoading && processingIndex == -1
    {
      images, results, predictionString, error := [], [], "", None;
      isLoading, processingIndex := false, -1;
    }

    /** `addImagesToCollection(files)`. `ids` are the ids the new images receive, one per
        file, all new. */
    method AddImages(files: seq<UploadFile>, ids: seq<real>)
      requires Valid()
      requires |ids| == |files|
      requires forall a, b :: 0 <= a < b < |ids| ==> ids[a] != ids[b]
      requires forall a, b :: 0 <= a < |ids| && 0 <= b < |images| ==> ids[a] != images[b].id
      modifies this
      ensures Valid()
      ensures results == old(results) && predictionString == old(predictionString)
      ensures isLoading == old(isLoading) && processingIndex == old(processingIndex)
      ensures ErrorsOf(files) != [] ==>
        images == old(images) && error == Some(Text.Join(ErrorsOf(files), ", "))
      ensures ErrorsOf(files) == [] && |old(images)| + |files| > MaxImages ==>
        images == old(images) && error == Some(TooManyMessage(|old(images)|, |files|))
      ensures ErrorsOf(files) == [] && |old(images)| + |files| <= MaxImages ==>
        images == old(images) + NewItems(files, ids) && error == None
    {
      var validFiles, errors := ValidateFiles(files);
      if |errors| > 0 {
        error := Some(Text.Join(errors, ", "));
        return;
      }
      NoErrorsKeepsAll(files);
      assert validFiles == files;
      if |images| + |validFiles| > MaxImages {
        error := Some(TooManyMessage(|images|, |validFiles|));
        return;
      }
      error := None;
      var newImages := NewItems(validFiles, ids);
      AppendKeepsDistinct(images, validFiles, ids);
      images := images + newImages;
    }

    /** `removeImage(id)` */
    method RemoveImage(id: real)
      requires Valid()
      modifies this
      ensures Valid()
      ensures images == Filter(old(images), (img: Item) => img.id != id)
      ensures results == Filter(old(results), (r: BatchRecord) => r.imageId != id)
      ensures forall img :: img in images <==> img in old(images) && img.id != id
      ensures predictionString == old(predictionString) && error == old(error)
      ensures isLoading == old(isLoading) && processingIndex == old(processingIndex)
    {
      images := Filter(images, (img: Item) => img.id != id);
      results := Filter(results, (r: BatchRecord) => r.imageId != id);
      FilterKeepsDistinct(old(images), id);
    }

    /** `clearAllImages` */
    method ClearAll()
      requires Valid()
      modifies this
      ensures Valid()
      ensures images == [] && results == [] && predictionString == "" && error == None
      ensures isLoading == old(isLoading) && processingIndex == old(processingIndex)
    {
      images, results, predictionString, error := [], [], "", None;
    }

    /** One turn of the batch loop: the image at `i` goes to processing and then to completed
        (keeping the reply) or to error (keeping the message); returns its results row, the
        letter it contributes to the prediction string, if any, and what is observed. */
    method ProcessImage(i: nat, outcome: Outcome) returns (record: BatchRecord, letters: seq<string>, step: seq<Event>)
      requires DistinctIds(images) && i < |images|
      modifies this
      ensures images == old(images)[i := Finished(old(images)[i], outcome)] && DistinctIds(images)
      ensures record == RecordOf(old(images)[i], outcome)
      ensures letters == if outcome.Returned? && Backend.CarriesLetter(outcome.result) then [outcome.result.prediction] else []
      ensures step == ItemEvents(i, |images|, outcome)
      ensures processingIndex == i
      ensures results == old(results) && predictionString == old(predictionString)
      ensures error == old(error) && isLoading == old(isLoading)
    {
      var n := |images|;
      var image := images[i];
      processingIndex := i;
      UpdateOne(images, i, (img: Item) => img.(status := Processing));
      images := UpdateWhere(images, image.id, (img: Item) => img.(status := Processing));
      step := [Started(i)];
      letters := [];
      match outcome {
        case Returned(result) =>
          record := BatchRecord(image.id, image.file.name, result);
          if result.success && result.prediction != "" && result.prediction != Backend.NoHandDetected {
            letters := [result.prediction];
          }
          UpdateOne(images, i, (img: Item) => img.(status := Completed, result := Some(result)));
          images := UpdateWhere(images, image.id, (img: Item) => img.(status := Completed, result := Some(result)));
          step := step + [Ended(i, Completed), Reported(i)];
          if i < n - 1 {
            step := step + [Paused];
          }
        case Threw(message) =>
          record := BatchRecord(image.id, image.file.name, Backend.Prediction(false, "", None, "", "", message));
          UpdateOne(images, i, (img: Item) => img.(status := Failed, error := Some(message)));
          images := UpdateWhere(images, image.id, (img: Item) => img.(status := Failed, error := Some(message)));
          step := step + [Ended(i, Failed)];
      }
    }

    /** The `for` loop of `predictAllImages`: one image after the other, each to its final
        status, collecting the results rows and the usable letters. */
    method RunBatch(outcomes: seq<Outcome>) returns (newResults: seq<BatchRecord>, predictionLetters: seq<string>, events: seq<Event>)
      requires DistinctIds(images) && |outcomes| == |images|
      modifies this
      ensures |images| == |old(images)| && DistinctIds(images)
      ensures forall k :: 0 <= k < |images| ==> images[k] == Finished(old(images)[k], outcomes[k])
      ensures newResults == Records(old(images), outcomes)
      ensures predictionLetters == LettersOf(outcomes)
      ensures events == BatchEvents(outcomes, |images|, |images|)
      ensures results == old(results) && predictionString == old(predictionString)
      ensures error == old(error) && isLoading == old(isLoading)
    {
      var n := |images|;
      newResults, predictionLetters, events := [], [], [];
      var i := 0;
      while i < n
        invariant 0 <= i <= n && |images| == n && DistinctIds(images)
        invariant images == FinishedPrefix(old(images), outcomes, i)
        invariant newResults == Records(old(images)[..i], outcomes[..i])
        invariant predictionLetters == LettersOf(outcomes[..i])
        invariant events == BatchEvents(outcomes, n, i)
        invariant results == old(results) && predictionString == old(predictionString)
        invariant error == old(error) && isLoading == old(isLoading)
      {
        var record, letters, step := ProcessImage(i, outcomes[i]);
        newResults := newResults + [record];
        predictionLetters := predictionLetters + letters;
        events := events + step;
        RunPrefixStep(old(images), outcomes, i);
        FinishedPrefixStep(old(images), outcomes, i);
        i := i + 1;
      }
      assert outcomes[..n] == outcomes && old(images)[..n] == old(images);
    }

    /** `predictAllImages`: `outcomes[k]` is what preprocessing and the backend did for the
        k-th image. Returns what an observer sees happen, in order. */
    method PredictAll(outcomes: seq<Outcome>) returns (events: seq<Event>)
      requires Valid()
      requires |outcomes| == |images|
      modifies this
      ensures Valid()
      ensures |old(images)| == 0 ==> events == [] && unchanged(this)
      ensures |old(images)| > 0 ==>
        && events == BatchEvents(outcomes, |old(images)|, |old(images)|)
        && |images| == |old(images)|
        && (forall k :: 0 <= k < |images| ==> images[k] == Finished(old(images)[k], outcomes[k]))
        && results == Records(old(images), outcomes)
        && predictionString == Text.Join(LettersOf(outcomes), " ")
        && error == None && !isLoading && processingIndex == -1
    {
      events := [];
      if |images| == 0 {
        return;
      }
      isLoading := true;
      error := None;
      results := [];
      predictionString := "";

      var newResults, predictionLetters, steps := RunBatch(outcomes);
      events := steps;
      results := newResults;
      predictionString := Text.Join(predictionLetters, " ");
      isLoading := false;
      processingIndex := -1;
    }
  }

  /** New items with fresh, pairwise distinct ids keep the collection's ids distinct. */
  lemma AppendKeepsDistinct(items: seq<Item>, files: seq<UploadFile>, ids: seq<real>)
    requires DistinctIds(items) && |ids| == |files|
    requires forall a, b :: 0 <= a < b < |ids| ==> ids[a] != ids[b]
    requires forall a, b :: 0 <= a < |ids| && 0 <= b < |items| ==> ids[a] != items[b].id
    ensures DistinctIds(items + NewItems(files, ids))
  {
    var all := items + NewItems(files, ids);
    forall a, b | 0 <= a < b < |all| ensures all[a].id != all[b].id {
      if b >= |items| {
        assert all[b].id == ids[b - |items|];
        if a >= |items| {
          assert all[a].id == ids[a - |items|];
        }
      }
    }
  }

  /** With distinct ids, updating by the id of position `i` changes that position only. */
  lemma UpdateOne(items: seq<Item>, i: nat, change: Item -> Item)
    requires DistinctIds(items) && i < |items|
    requires change(items[i]).id == items[i].id
    ensures UpdateWhere(items, items[i].id, change) == items[i := change(items[i])]
    ensures DistinctIds(items[i := change(items[i])])
  {
    var r := UpdateWhere(items, items[i].id, change);
    assert forall k :: 0 <= k < |items| && k != i ==> r[k] == items[k];
  }

  /** The collection part-way through a batch: the first `i` images finished, the rest as
      they were. */
  function FinishedPrefix(items: seq<Item>, outcomes: seq<Outcome>, i: nat): (r: seq<Item>)
    requires |outcomes| == |items| && i <= |items|
    ensures |r| == |items|
    ensures forall k :: 0 <= k < |items| ==> r[k] == if k < i then Finished(items[k], outcomes[k]) else items[k]
  {
    seq(|items|, k requires 0 <= k < |items| => if k < i then Finished(items[k], outcomes[k]) else items[k])
  }

  lemma FinishedPrefixStep(items: seq<Item>, outcomes: seq<Outcome>, i: nat)
    requires |outcomes| == |items| && i < |items|
    ensures FinishedPrefix(items, outcomes, i)[i := Finished(items[i], outcomes[i])] == FinishedPrefix(items, outcomes, i + 1)
  {
  }

  /** The batch's accumulated results, letters and events grow by one image per step. */
  lemma RunPrefixStep(items: seq<Item>, outcomes: seq<Outcome>, i: nat)
    requires |outcomes| == |items| && i < |items|
    ensures Records(items[..i + 1], outcomes[..i + 1]) == Records(items[..i], outcomes[..i]) + [RecordOf(items[i], outcomes[i])]
    ensures LettersOf(outcomes[..i + 1]) == LettersOf(outcomes[..i]) +
      (if outcomes[i].Returned? && Backend.CarriesLetter(outcomes[i].result) then [outcomes[i].result.prediction] else [])
  {
    assert outcomes[..i + 1][..i] == outcomes[..i];
  }

  /** Removing images keeps the remaining ids distinct. */
  lemma {:induction false} FilterKeepsDistinct(items: seq<Item>, id: real)
    requires DistinctIds(items)
    ensures DistinctIds(Filter(items, (img: Item) => img.id != id))
  {
    if |items| > 0 {
      var rest := items[1..];
      assert DistinctIds(rest) by {
        forall a, b | 0 <= a < b < |rest| ensures rest[a].id != rest[b].id {
          assert rest[a] == items[a + 1] && rest[b] == items[b + 1];
        }
      }
      FilterKeepsDistinct(rest, id);
      var f := Filter(rest, (img: Item) => img.id != id);
      forall x | x in f ensures x.id != items[0].id {
        assert x in rest;
        var k :| 0 <= k < |rest| && rest[k] == x;
        assert items[k + 1] == x;
      }
    }
  }
}
