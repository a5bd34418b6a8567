/** The classifier plumbing of the backend (backend/app/ml.py): lazy one-time loading of the
    three models, the first-match search for a "fake" probability in a pipeline's output, and
    the result dicts of the two detectors with their neutral value on failure.

    The models themselves are foreign: constructing one is a `Load` outcome and running a
    pipeline on an image is a `Run` outcome, both given as inputs. */
module Ml {
  import opened Wrappers
  import opened Text
  import opened Sequences

  const ClipModelName := "sentence-transformers/clip-ViT-B-32"
  const SdxlDetectorModel := "Organika/sdxl-detector"
  const GanFaceDetectorModel := "dima806/deepfake_vs_real_image_detection"

  /** The label fragments that mark a prediction as "fake" for each detector. */
  const SdxlFakeLabels := ["artificial", "fake", "ai"]
  const GanFakeLabels := ["fake", "artificial", "generated"]

  /** The probability reported when a detector fails, and when no label matches. */
  const NeutralProb: real := 0.5
  const NoMatchProb: real := 0.0

  /** The three models the backend loads. */
  datatype ModelKind = Clip | SdxlDetector | GanFaceDetector

  /** The name each model is loaded under. */
  function ModelName(kind: ModelKind): string {
    match kind
    case Clip => ClipModelName
    case SdxlDetector => SdxlDetectorModel
    case GanFaceDetector => GanFaceDetectorModel
  }

  /** A constructed model or pipeline: the model it holds and which construction made it. */
  datatype Pipeline = Pipeline(kind: ModelKind, instance: nat)

  /** One item of an image-classification pipeline's output; either key may be missing. */
  datatype Prediction = Prediction(classLabel: Option<string>, score: Option<real>)

  /** The values the result dicts hold. */
  datatype Value =
    | Bool(b: bool)
    | Int(i: int)
    | Real(r: real)
    | Str(s: string)
    | Tags(tags: map<string, string>)
    | Predictions(items: seq<Prediction>)

  /** The keys of the result dicts; `KeyText` gives the string each stands for. */
  datatype Key =
    | FakeProb | Raw | Error | Label
    | ImageDownloaded | ExifData | DiffusionScore | DiffusionLabel | NumFaces | GanScore

  function KeyText(key: Key): string {
    match key
    case FakeProb => "fake_prob"
    case Raw => "raw"
    case Error => "error"
    case Label => "label"
    case ImageDownloaded => "image_downloaded"
    case ExifData => "exif_data"
    case DiffusionScore => "diffusion_score"
    case DiffusionLabel => "diffusion_label"
    case NumFaces => "num_faces"
    case GanScore => "gan_score"
  }

  /** A result dict. */
  type Dict = map<Key, Value>

  /** Some fake label occurs in `text` (`any(fl in label for fl in fake_labels)`). */
  predicate LabelMatches(text: string, fakeLabels: seq<string>) {
    exists j :: 0 <= j < |fakeLabels| && Contains(text, fakeLabels[j])
  }

  /** The test of backend/app/ml.py:82-83 on one item: a missing label reads as "". */
  predicate IsFake(item: Prediction, fakeLabels: seq<string>) {
    LabelMatches(Lower(item.classLabel.GetOr("")), fakeLabels)
  }

  /** The outcome of the search: a probability, or the `KeyError` that `item["score"]` raises
      when the matching item has no score. */
  datatype Extraction = Prob(p: real) | ScoreMissing

  /** `float(item["score"])` for a matching item. */
  function ScoreOf(item: Prediction): (r: Extraction)
    ensures r.Prob? <==> item.score.Some?
  {
    match item.score
    case Some(p) => Prob(p)
    case None => ScoreMissing
  }

  /** `_extract_fake_prob_from_results`, backend/app/ml.py:79-85: the score of the first item,
      in list order, whose lower-cased label contains a fake label; 0.0 when none does. */
  function ExtractFakeProb(results: seq<Prediction>, fakeLabels: seq<string>): Extraction
    decreases |results|
  {
    if results == [] then Prob(NoMatchProb)
    else if IsFake(results[0], fakeLabels) then ScoreOf(results[0])
    else ExtractFakeProb(results[1..], fakeLabels)
  }

  /** The search agrees with its reference definition: the score of the item `FirstIndex`
      finds, or 0.0 when it finds none. */
  lemma {:induction false} ExtractIsFirstMatch(results: seq<Prediction>, fakeLabels: seq<string>)
    ensures ExtractFakeProb(results, fakeLabels) ==
              match FirstIndex(results, item => IsFake(item, fakeLabels))
              case None => Prob(NoMatchProb)
              case Some(i) => ScoreOf(results[i])
    decreases |results|
  {
    if results != [] && !IsFake(results[0], fakeLabels) {
      ExtractIsFirstMatch(results[1..], fakeLabels);
      assert ExtractFakeProb(results[1..], fakeLabels) ==
               match FirstIndex(results[1..], item => IsFake(item, fakeLabels))
               case None => Prob(NoMatchProb)
               case Some(i) => ScoreOf(results[1..][i]);
    }
  }

  /** The first item whose label matches decides the result. */
  lemma ExtractFirstMatch(results: seq<Prediction>, fakeLabels: seq<string>, i: nat)
    requires i < |results| && IsFake(results[i], fakeLabels)
    requires forall j :: 0 <= j < i ==> !IsFake(results[j], fakeLabels)
    ensures ExtractFakeProb(results, fakeLabels) == ScoreOf(results[i])
  {
    ExtractIsFirstMatch(results, fakeLabels);
    var k := FirstIndex(results, item => IsFake(item, fakeLabels));
    assert k.Some? by {
      assert (item => IsFake(item, fakeLabels))(results[i]);
    }
    assert !(k.value < i);
  }

  /** No matching item, including an empty list, gives 0.0. */
  lemma ExtractNoMatch(results: seq<Prediction>, fakeLabels: seq<string>)
    requires forall j :: 0 <= j < |results| ==> !IsFake(results[j], fakeLabels)
    ensures ExtractFakeProb(results, fakeLabels) == Prob(NoMatchProb)
  {
    ExtractIsFirstMatch(results, fakeLabels);
  }

  /** An item without a label never matches a list of non-empty fake labels. */
  lemma MissingLabelNeverMatches(item: Prediction, fakeLabels: seq<string>)
    requires item.classLabel.None?
    requires forall j :: 0 <= j < |fakeLabels| ==> fakeLabels[j] != ""
    ensures !IsFake(item, fakeLabels)
  {
    assert Lower(item.classLabel.GetOr("")) == "";
    forall j | 0 <= j < |fakeLabels| ensures !Contains("", fakeLabels[j]) {
      EmptyContainsOnlyEmpty(fakeLabels[j]);
    }
  }

  /** Labels are compared lower-cased, in list order: a "REAL" item before a "FAKE" one gives
      the "FAKE" item's score to the face detector. */
  lemma UpperCaseLabelsMatch()
    ensures ExtractFakeProb([Prediction(Some("REAL"), Some(0.25)), Prediction(Some("FAKE"), Some(0.75))], GanFakeLabels)
            == Prob(0.75)
  {
    var items := [Prediction(Some("REAL"), Some(0.25)), Prediction(Some("FAKE"), Some(0.75))];
    assert Lower("REAL") == "real" && Lower("FAKE") == "fake";
    assert !Contains("real", "fake") by {
      assert "fake"[0] != "real"[0];
      assert "real"[1..] == "eal";
      LongerNeverContained("eal", "fake");
    }
    assert !IsFake(items[0], GanFakeLabels) by {
      forall j | 0 <= j < |GanFakeLabels| ensures !Contains("real", GanFakeLabels[j]) {
        if j > 0 {
          LongerNeverContained("real", GanFakeLabels[j]);
        }
      }
    }
    assert IsFake(items[1], GanFakeLabels) by {
      assert "fake" <= "fake";
      assert Contains("fake", GanFakeLabels[0]);
    }
    ExtractFirstMatch(items, GanFakeLabels, 1);
  }

  /** What running a pipeline on the image does: raise (an undecodable image or an inference
      error), or return its predictions. */
  datatype Run = RunRaises(error: string) | RunReturns(results: seq<Prediction>)

  /** `str(e)` of the `KeyError` raised by `item["score"]`. */
  const MissingScoreError := "'score'"

  /** The dict returned when a detector fails (backend/app/ml.py:101-103, 119-121). */
  function FailureResult(error: string): (d: Dict)
    ensures FakeProb in d && Error in d && Raw !in d && Label !in d
    ensures d[FakeProb] == Real(NeutralProb) && d[Error] == Str(error)
  {
    map[FakeProb := Real(NeutralProb), Error := Str(error)]
  }

  /** A detector once its pipeline is at hand: the extracted probability with the raw output,
      or the failure dict when running the pipeline or reading the score raised. */
  function ScoreWith(run: Run, fakeLabels: seq<string>): (d: Dict)
    ensures FakeProb in d && Label !in d
    ensures (Error in d) <==> run.RunRaises? || ExtractFakeProb(run.results, fakeLabels).ScoreMissing?
    ensures Error in d ==> d[FakeProb] == Real(NeutralProb)
    ensures run.RunRaises? ==> d[Error] == Str(run.error)
    ensures Error !in d ==>
              && d[FakeProb] == Real(ExtractFakeProb(run.results, fakeLabels).p)
              && Raw in d && d[Raw] == Predictions(run.results)
  {
    match run
    case RunRaises(error) => FailureResult(error)
    case RunReturns(results) =>
      match ExtractFakeProb(results, fakeLabels)
      case ScoreMissing => FailureResult(MissingScoreError)
      case Prob(p) => map[FakeProb := Real(p), Raw := Predictions(results)]
  }

  /** A detector's dict has exactly two keys: the probability, and either the raw output or
      the error. */
  lemma DetectorDictShape(run: Run, fakeLabels: seq<string>)
    ensures var d := ScoreWith(run, fakeLabels);
            d.Keys == if Error in d then {FakeProb, Error} else {FakeProb, Raw}
  {
  }

  /** What constructing a model does now: raise (a download or load error), or build an object,
      told apart from other constructions by `instance`. */
  datatype Load = LoadRaises(error: string) | Loads(instance: nat)

  /** The result of a loader: the pipeline, or the error its construction raised. */
  datatype Loaded = LoadFailed(error: string) | Ready(pipeline: Pipeline)

  /** The cache after a loader call: kept when set, filled by a successful construction. */
  function CacheAfter(cached: Option<Pipeline>, kind: ModelKind, load: Load): (c: Option<Pipeline>)
    ensures cached.Some? ==> c == cached
    ensures cached.None? ==> (c.Some? <==> load.Loads?)
    ensures cached.None? && load.Loads? ==> c == Some(Pipeline(kind, load.instance))
  {
    if cached.Some? then cached
    else match load
      case LoadRaises(_) => None
      case Loads(instance) => Some(Pipeline(kind, instance))
  }

  /** Once a cache is filled, no later loader call constructs again or changes what it holds. */
  lemma CacheIsStable(cached: Option<Pipeline>, kind: ModelKind, first: Load, later: Load)
    requires CacheAfter(cached, kind, first).Some?
    ensures CacheAfter(CacheAfter(cached, kind, first), kind, later) == CacheAfter(cached, kind, first)
  {
  }

  /** `score_sdxl` / `score_gan_face` given the cache before the call: a failing construction
      of the pipeline is caught like any other failure. */
  function Scored(cached: Option<Pipeline>, load: Load, run: Run, fakeLabels: seq<string>): (d: Dict)
    ensures FakeProb in d && Label !in d
    ensures cached.None? && load.LoadRaises? ==> d == FailureResult(load.error)
    ensures cached.Some? || load.Loads? ==> d == ScoreWith(run, fakeLabels)
  {
    if cached.None? && load.LoadRaises? then FailureResult(load.error) else ScoreWith(run, fakeLabels)
  }

  /** A failing detector reports the neutral 0.5, which no successful run without a match can be
      confused with: that reports 0.0. */
  lemma FailureIsNeutral(cached: Option<Pipeline>, load: Load, run: Run, fakeLabels: seq<string>)
    ensures var d := Scored(cached, load, run, fakeLabels);
            Error in d ==> d[FakeProb] == Real(NeutralProb)
    ensures run.RunReturns? && (cached.Some? || load.Loads?) &&
            (forall j :: 0 <= j < |run.results| ==> !IsFake(run.results[j], fakeLabels)) ==>
              Scored(cached, load, run, fakeLabels)[FakeProb] == Real(NoMatchProb) &&
              Error !in Scored(cached, load, run, fakeLabels)
  {
    if run.RunReturns? && (cached.Some? || load.Loads?) &&
       (forall j :: 0 <= j < |run.results| ==> !IsFake(run.results[j], fakeLabels)) {
      ExtractNoMatch(run.results, fakeLabels);
    }
  }

  /** The three module globals `_clip_model`, `_sdxl_pipeline` and `_gan_pipeline`, the models
      constructed so far (in order), and the detectors run so far. */
  class Models {
    var clip: Option<Pipeline>
    var sdxl: Option<Pipeline>
    var gan: Option<Pipeline>
    var constructed: seq<ModelKind>
    var detectorRuns: seq<ModelKind>

    /** Each cache holds its own model exactly when that model was constructed, and no model
        was constructed twice. */
    ghost predicate Valid()
      reads this
    {
      && CacheMatches(clip, Clip, constructed)
      && CacheMatches(sdxl, SdxlDetector, constructed)
      && CacheMatches(gan, GanFaceDetector, constructed)
      && NoDuplicates(constructed)
    }

    /** The state at import time: nothing loaded. */
    constructor ()
      ensures Valid()
      ensures clip == None && sdxl == None && gan == None && constructed == [] && detectorRuns == []
    {
      clip, sdxl, gan := None, None, None;
      constructed, detectorRuns := [], [];
    }

    /** `get_clip_model`, backend/app/ml.py:31-36. */
    method GetClipModel(load: Load) returns (r: Loaded)
      requires Valid()
      modifies this
      ensures Valid()
      ensures old(clip).Some? ==> r == Ready(old(clip).value)
      ensures old(clip).None? && load.LoadRaises? ==> r == LoadFailed(load.error)
      ensures old(clip).None? && load.Loads? ==> r == Ready(Pipeline(Clip, load.instance))
      ensures clip == CacheAfter(old(clip), Clip, load)
      ensures constructed == old(constructed) + (if old(clip).None? && load.Loads? then [Clip] else [])
      ensures sdxl == old(sdxl) && gan == old(gan) && detectorRuns == old(detectorRuns)
    {
      if clip.None? {
        match load
        case LoadRaises(error) => return LoadFailed(error);
        case Loads(instance) =>
          ConstructFresh(constructed, Clip, clip, sdxl, gan);
          clip := Some(Pipeline(Clip, instance));
          constructed := constructed + [Clip];
      }
      return Ready(clip.value);
    }

    /** `get_sdxl_pipeline`, backend/app/ml.py:39-48. */
    method GetSdxlPipeline(load: Load) returns (r: Loaded)
      requires Valid()
      modifies this
      ensures Valid()
      ensures old(sdxl).Some? ==> r == Ready(old(sdxl).value)
      ensures old(sdxl).None? && load.LoadRaises? ==> r == LoadFailed(load.error)
      ensures old(sdxl).None? && load.Loads? ==> r == Ready(Pipeline(SdxlDetector, load.instance))
      ensures sdxl == CacheAfter(old(sdxl), SdxlDetector, load)
      ensures constructed == old(constructed) + (if old(sdxl).None? && load.Loads? then [SdxlDetector] else [])
      ensures clip == old(clip) && gan == old(gan) && detectorRuns == old(detectorRuns)
    {
      if sdxl.None? {
        match load
        case LoadRaises(error) => return LoadFailed(error);
        case Loads(instance) =>
          ConstructFresh(constructed, SdxlDetector, clip, sdxl, gan);
          sdxl := Some(Pipeline(SdxlDetector, instance));
          constructed := constructed + [SdxlDetector];
      }
      return Ready(sdxl.value);
    }

    /** `get_gan_pipeline`, backend/app/ml.py:51-60. */
    method GetGanPipeline(load: Load) returns (r: Loaded)
      requires Valid()
      modifies this
      ensures Valid()
      ensures old(gan).Some? ==> r == Ready(old(gan).value)
      ensures old(gan).None? && load.LoadRaises? ==> r == LoadFailed(load.error)
      ensures old(gan).None? && load.Loads? ==> r == Ready(Pipeline(GanFaceDetector, load.instance))
      ensures gan == CacheAfter(old(gan), GanFaceDetector, load)
      ensures constructed == old(constructed) + (if old(gan).None? && load.Loads? then [GanFaceDetector] else [])
      ensures clip == old(clip) && sdxl == old(sdxl) && detectorRuns == old(detectorRuns)
    {
      if gan.None? {
        match load
        case LoadRaises(error) => return LoadFailed(error);
        case Loads(instance) =>
          ConstructFresh(constructed, GanFaceDetector, clip, sdxl, gan);
          gan := Some(Pipeline(GanFaceDetector, instance));
          constructed := constructed + [GanFaceDetector];
      }
      return Ready(gan.value);
    }

    /** `score_sdxl`, backend/app/ml.py:88-103: load the pipeline, run it, extract the
        probability; any exception gives the neutral failure dict. */
    method ScoreSdxl(load: Load, run: Run) returns (d: Dict)
      requires Valid()
      modifies this
      ensures Valid()
      ensures d == Scored(old(sdxl), load, run, SdxlFakeLabels)
      ensures sdxl == CacheAfter(old(sdxl), SdxlDetector, load)
      ensures constructed == old(constructed) + (if old(sdxl).None? && load.Loads? then [SdxlDetector] else [])
      ensures clip == old(clip) && gan == old(gan)
      ensures detectorRuns == old(detectorRuns) + [SdxlDetector]
    {
      var pipe := GetSdxlPipeline(load);
      detectorRuns := detectorRuns + [SdxlDetector];
      if pipe.LoadFailed? {
        return FailureResult(pipe.error);
      }
      return ScoreWith(run, SdxlFakeLabels);
    }

    /** `score_gan_face`, backend/app/ml.py:106-121. */
    method ScoreGanFace(load: Load, run: Run) returns (d: Dict)
      requires Valid()
      modifies this
      ensures Valid()
      ensures d == Scored(old(gan), load, run, GanFakeLabels)
      ensures gan == CacheAfter(old(gan), GanFaceDetector, load)
      ensures constructed == old(constructed) + (if old(gan).None? && load.Loads? then [GanFaceDetector] else [])
      ensures clip == old(clip) && sdxl == old(sdxl)
      ensures detectorRuns == old(detectorRuns) + [GanFaceDetector]
    {
      var pipe := GetGanPipeline(load);
      detectorRuns := detectorRuns + [GanFaceDetector];
      if pipe.LoadFailed? {
        return FailureResult(pipe.error);
      }
      return ScoreWith(run, GanFakeLabels);
    }
  }

  /** No element occurs twice. */
  predicate NoDuplicates(s: seq<ModelKind>) {
    forall i, j :: 0 <= i < j < |s| ==> s[i] != s[j]
  }

  /** A cache is set exactly when its model was constructed, and then holds that model. */
  predicate CacheMatches(cache: Option<Pipeline>, kind: ModelKind, constructed: seq<ModelKind>) {
    && (cache.Some? <==> kind in constructed)
    && (cache.Some? ==> cache.value.kind == kind)
  }

  /** Constructing the model of an empty cache keeps the caches consistent and the list of
      constructions free of repeats. */
  lemma ConstructFresh(constructed: seq<ModelKind>, kind: ModelKind, clip: Option<Pipeline>, sdxl: Option<Pipeline>, gan: Option<Pipeline>)
    requires CacheMatches(clip, Clip, constructed)
    requires CacheMatches(sdxl, SdxlDetector, constructed)
    requires CacheMatches(gan, GanFaceDetector, constructed)
    requires NoDuplicates(constructed)
    requires kind == Clip ==> clip.None?
    requires kind == SdxlDetector ==> sdxl.None?
    requires kind == GanFaceDetector ==> gan.None?
    ensures kind !in constructed
    ensures NoDuplicates(constructed + [kind])
    ensures forall other :: other != kind ==> (other in constructed + [kind] <==> other in constructed)
  {
    var s := constructed + [kind];
    forall i, j | 0 <= i < j < |s| ensures s[i] != s[j] {
      if j == |constructed| {
        assert s[i] == constructed[i];
      } else {
        assert s[i] == constructed[i] && s[j] == constructed[j];
      }
    }
  }
}
