/** The image checks of the backend (backend/app/sentinel_tools.py): EXIF extraction, face
    counting, and the two analyses that combine them with the detectors of `Ml`, running the
    face-GAN detector only when a face was found.

    The image decoder, the EXIF reader, the face cascade and the download are foreign: each
    is given as its outcome on the image at hand. */
module SentinelTools {
  import opened Wrappers
  import opened Ml

  /** EXIF tags that are never copied into the result. */
  const ExcludedTags := {"JPEGThumbnail", "TIFFThumbnail", "Filename", "EXIF MakerNote"}

  /** What `exifread.process_file` does on the image: raise, or return its tags, each value as
      `str` renders it. */
  datatype ExifRead = ExifRaises(error: string) | ExifTags(tags: map<string, string>)

  /** The tags kept from a successful read. */
  function KeptTags(tags: map<string, string>): (r: map<string, string>)
    ensures forall tag :: tag in r <==> tag in tags && tag !in ExcludedTags
    ensures forall tag :: tag in r ==> r[tag] == tags[tag]
  {
    map tag | tag in tags && tag !in ExcludedTags :: tags[tag]
  }

  /** `extract_exif`, backend/app/sentinel_tools.py:30-44: the kept tags, or a dict holding only
      the error when reading fails. */
  function ExifResult(read: ExifRead): (r: map<string, string>)
    ensures read.ExifRaises? ==> r.Keys == {"error"} && r["error"] == read.error
    ensures read.ExifTags? ==> forall tag :: tag in ExcludedTags ==> tag !in r
    ensures read.ExifTags? ==> forall tag :: tag in read.tags && tag !in ExcludedTags ==> tag in r
    ensures read.ExifTags? ==> forall tag :: tag in r ==> tag in read.tags && r[tag] == read.tags[tag]
  {
    match read
    case ExifRaises(error) => map["error" := error]
    case ExifTags(tags) => KeptTags(tags)
  }

  /** The loop of backend/app/sentinel_tools.py:37-41, visiting the tags one by one. */
  method ExtractExif(read: ExifRead) returns (result: map<string, string>)
    ensures result == ExifResult(read)
  {
    if read.ExifRaises? {
      return map["error" := read.error];
    }
    var tags := read.tags;
    result := map[];
    var todo := tags.Keys;
    while todo != {}
      invariant todo <= tags.Keys
      invariant result == map tag | tag in tags.Keys - todo && tag !in ExcludedTags :: tags[tag]
      decreases todo
    {
      var tag :| tag in todo;
      if tag !in ExcludedTags {
        result := result[tag := tags[tag]];
      }
      todo := todo - {tag};
    }
    assert tags.Keys - todo == tags.Keys;
  }

  /** What decoding the bytes does: raise, give no image (`imdecode` returns `None`), or give
      an image. */
  datatype Decode = DecodeRaises | Undecodable | Decoded

  /** The outcome of each step of `detect_faces` on the image: decoding, whether the cascade
      file exists, and the number of faces found, `None` when converting to grey, loading the
      cascade or detecting raises. */
  datatype FaceScan = FaceScan(decode: Decode, cascadeFound: bool, detection: Option<nat>)

  /** The scan ran to the end and found `detection` faces. */
  predicate Completed(scan: FaceScan) {
    scan.decode.Decoded? && scan.cascadeFound && scan.detection.Some?
  }

  /** `detect_faces`, backend/app/sentinel_tools.py:46-73: the number of faces; 0 when the bytes
      are not an image; -1 when the cascade is missing or any step raises. */
  function DetectFaces(scan: FaceScan): (n: int)
    ensures n >= -1
    ensures n > 0 <==> Completed(scan) && scan.detection.value > 0
    ensures Completed(scan) ==> n == scan.detection.value
    ensures n == 0 <==> scan.decode.Undecodable? || (Completed(scan) && scan.detection.value == 0)
    ensures n == -1 <==> scan.decode.DecodeRaises? || (scan.decode.Decoded? && !Completed(scan))
  {
    match scan.decode
    case DecodeRaises => -1
    case Undecodable => 0
    case Decoded =>
      if !scan.cascadeFound then -1
      else match scan.detection
        case None => -1
        case Some(faces) => faces
  }

  /** What `download_image_sync` does: raise (a network or HTTP error), or give the bytes. */
  datatype Download = DownloadRaises(error: string) | Downloaded

  /** The dict `analyze_image_orchestrated` returns, given what each check returned. */
  function Orchestrated(download: Download, exif: ExifRead, diffusion: Dict, numFaces: int, gan: Dict): Dict {
    match download
    case DownloadRaises(error) => map[Error := Str(error)]
    case Downloaded =>
      map[ImageDownloaded := Bool(true),
          ExifData := Tags(ExifResult(exif)),
          DiffusionScore := Get(diffusion, FakeProb, Real(0.0)),
          NumFaces := Int(numFaces),
          GanScore := FaceGatedScore(numFaces, gan)]
  }

  /** The GAN score of both analyses: the detector's probability when a face was found, 0.0
      otherwise. */
  function FaceGatedScore(numFaces: int, gan: Dict): (v: Value)
    ensures numFaces <= 0 ==> v == Real(0.0)
    ensures numFaces > 0 ==> v == Get(gan, FakeProb, Real(0.0))
  {
    if numFaces > 0 then Get(gan, FakeProb, Real(0.0)) else Real(0.0)
  }

  /** The detectors an analysis runs: the diffusion detector, then the face-GAN detector only
      when a face was found. */
  function DetectorCalls(numFaces: int): (calls: seq<ModelKind>)
    ensures |calls| >= 1 && calls[0] == SdxlDetector
    ensures GanFaceDetector in calls <==> numFaces > 0
  {
    [SdxlDetector] + (if numFaces > 0 then [GanFaceDetector] else [])
  }

  /** The detector runs both analyses share: the diffusion detector, the face scan, then the
      face-GAN detector only when a face was found (`gan` stays empty otherwise). */
  method RunDetectors(models: Models, sdxlLoad: Load, sdxlRun: Run, faces: FaceScan,
                      ganLoad: Load, ganRun: Run)
    returns (diffusion: Dict, numFaces: int, gan: Dict)
    requires models.Valid()
    modifies models
    ensures models.Valid()
    ensures diffusion == Scored(old(models.sdxl), sdxlLoad, sdxlRun, SdxlFakeLabels)
    ensures numFaces == DetectFaces(faces)
    ensures numFaces > 0 ==> gan == Scored(old(models.gan), ganLoad, ganRun, GanFakeLabels)
    ensures models.detectorRuns == old(models.detectorRuns) + DetectorCalls(numFaces)
    ensures models.sdxl == CacheAfter(old(models.sdxl), SdxlDetector, sdxlLoad)
    ensures models.gan == (if numFaces > 0 then CacheAfter(old(models.gan), GanFaceDetector, ganLoad)
                           else old(models.gan))
    ensures models.clip == old(models.clip)
  {
    diffusion := models.ScoreSdxl(sdxlLoad, sdxlRun);
    numFaces := DetectFaces(faces);
    gan := map[];
    if numFaces > 0 {
      gan := models.ScoreGanFace(ganLoad, ganRun);
    }
  }

  /** `analyze_image_orchestrated`, backend/app/sentinel_tools.py:83-112: download, then EXIF,
      diffusion and faces in turn, the GAN detector only on a face; a failed download gives a
      dict holding only the error and runs nothing. */
  method AnalyzeImageOrchestrated(models: Models, download: Download, exif: ExifRead,
                                  sdxlLoad: Load, sdxlRun: Run, faces: FaceScan,
                                  ganLoad: Load, ganRun: Run)
    returns (results: Dict)
    requires models.Valid()
    modifies models
    ensures models.Valid()
    ensures results == Orchestrated(download, exif, Scored(old(models.sdxl), sdxlLoad, sdxlRun, SdxlFakeLabels),
                                    DetectFaces(faces), Scored(old(models.gan), ganLoad, ganRun, GanFakeLabels))
    ensures models.detectorRuns == old(models.detectorRuns) +
              (if download.Downloaded? then DetectorCalls(DetectFaces(faces)) else [])
    ensures models.sdxl == (if download.Downloaded? then CacheAfter(old(models.sdxl), SdxlDetector, sdxlLoad)
                            else old(models.sdxl))
    ensures models.gan == (if download.Downloaded? && DetectFaces(faces) > 0
                           then CacheAfter(old(models.gan), GanFaceDetector, ganLoad)
                           else old(models.gan))
    ensures models.clip == old(models.clip)
  {
    if download.DownloadRaises? {
      return map[Error := Str(download.error)];
    }
    ghost var ganBefore := models.gan;
    results := map[];
    results := results[ImageDownloaded := Bool(true)];
    var exifData := ExtractExif(exif);
    results := results[ExifData := Tags(exifData)];
    var diffusion, numFaces, gan := RunDetectors(models, sdxlLoad, sdxlRun, faces, ganLoad, ganRun);
    results := results[DiffusionScore := Get(diffusion, FakeProb, Real(0.0))];
    results := results[NumFaces := Int(numFaces)];
    if numFaces > 0 {
      results := results[GanScore := Get(gan, FakeProb, Real(0.0))];
    } else {
      results := results[GanScore := Real(0.0)];
    }
    assert results[GanScore] == FaceGatedScore(numFaces, Scored(ganBefore, ganLoad, ganRun, GanFakeLabels));
  }

  /** The dict `analyze_image_parallel` returns, given what each check returned; the scores are
      not rounded here. */
  function Parallel(exif: ExifRead, diffusion: Dict, numFaces: int, gan: Dict): Dict {
    map[ExifData := Tags(ExifResult(exif)),
        DiffusionScore := Get(diffusion, FakeProb, Real(0.0)),
        DiffusionLabel := Get(diffusion, Label, Str("unknown")),
        GanScore := FaceGatedScore(numFaces, gan),
        NumFaces := Int(numFaces)]
  }

  /** `analyze_image_parallel`, backend/app/sentinel_tools.py:115-159: EXIF, diffusion and faces
      (run concurrently by the source, one after the other here), then the GAN detector only
      on a face. */
  method AnalyzeImageParallel(models: Models, exif: ExifRead, sdxlLoad: Load, sdxlRun: Run,
                              faces: FaceScan, ganLoad: Load, ganRun: Run)
    returns (results: Dict)
    requires models.Valid()
    modifies models
    ensures models.Valid()
    ensures results == Parallel(exif, Scored(old(models.sdxl), sdxlLoad, sdxlRun, SdxlFakeLabels),
                                DetectFaces(faces), Scored(old(models.gan), ganLoad, ganRun, GanFakeLabels))
    ensures models.detectorRuns == old(models.detectorRuns) + DetectorCalls(DetectFaces(faces))
    ensures models.sdxl == CacheAfter(old(models.sdxl), SdxlDetector, sdxlLoad)
    ensures models.gan == (if DetectFaces(faces) > 0
                           then CacheAfter(old(models.gan), GanFaceDetector, ganLoad)
                           else old(models.gan))
    ensures models.clip == old(models.clip)
  {
    ghost var ganBefore := models.gan;
    var exifData := ExtractExif(exif);
    var diffusion, numFaces, gan := RunDetectors(models, sdxlLoad, sdxlRun, faces, ganLoad, ganRun);
    var diffusionScore := Get(diffusion, FakeProb, Real(0.0));
    var diffusionLabel := Get(diffusion, Label, Str("unknown"));
    var ganScore := Real(0.0);
    if numFaces > 0 {
      ganScore := Get(gan, FakeProb, Real(0.0));
    }
    results := map[ExifData := Tags(exifData),
                   DiffusionScore := diffusionScore,
                   DiffusionLabel := diffusionLabel,
                   GanScore := ganScore,
                   NumFaces := Int(numFaces)];
    assert ganScore == FaceGatedScore(numFaces, Scored(ganBefore, ganLoad, ganRun, GanFakeLabels));
  }

  /** A failed download gives a dict holding only the error; otherwise the dict has exactly
      the five keys of a completed analysis and records that the image was downloaded. */
  lemma OrchestratedShape(download: Download, exif: ExifRead, diffusion: Dict, numFaces: int, gan: Dict)
    ensures var d := Orchestrated(download, exif, diffusion, numFaces, gan);
            && (download.DownloadRaises? ==> d.Keys == {Error} && d[Error] == Str(download.error))
            && (download.Downloaded? ==>
                  && d.Keys == {ImageDownloaded, ExifData, DiffusionScore, NumFaces, GanScore}
                  && d[ImageDownloaded] == Bool(true)
                  && d[NumFaces] == Int(numFaces))
  {
  }

  /** The parallel analysis always returns exactly its five keys. */
  lemma ParallelShape(exif: ExifRead, diffusion: Dict, numFaces: int, gan: Dict)
    ensures Parallel(exif, diffusion, numFaces, gan).Keys
            == {ExifData, DiffusionScore, DiffusionLabel, GanScore, NumFaces}
  {
  }

  /** The diffusion label is always "unknown": the diffusion detector's dict never has a
      Label key, so the default is what is read. */
  lemma DiffusionLabelAlwaysUnknown(exif: ExifRead, cached: Option<Pipeline>, load: Load, run: Run,
                                    numFaces: int, gan: Dict)
    ensures Parallel(exif, Scored(cached, load, run, SdxlFakeLabels), numFaces, gan)[DiffusionLabel]
            == Str("unknown")
  {
  }

  /** A missing cascade or a failing scan (-1) is treated like a faceless image: no GAN score. */
  lemma FailedScanSkipsGan(scan: FaceScan, gan: Dict)
    requires !Completed(scan)
    ensures GanFaceDetector !in DetectorCalls(DetectFaces(scan))
    ensures FaceGatedScore(DetectFaces(scan), gan) == Real(0.0)
  {
  }

  /** After a download, both analyses report the same EXIF data, scores and face count. */
  lemma AnalysesAgree(exif: ExifRead, diffusion: Dict, numFaces: int, gan: Dict)
    ensures var o := Orchestrated(Downloaded, exif, diffusion, numFaces, gan);
            var p := Parallel(exif, diffusion, numFaces, gan);
            && o[ExifData] == p[ExifData]
            && o[DiffusionScore] == p[DiffusionScore]
            && o[GanScore] == p[GanScore]
            && o[NumFaces] == p[NumFaces]
  {
  }

  /** A failing detector leaves its neutral 0.5 as the score. */
  lemma FailedDiffusionScoresNeutral(exif: ExifRead, cached: Option<Pipeline>, load: Load, error: string,
                                     numFaces: int, gan: Dict)
    ensures Parallel(exif, Scored(cached, load, RunRaises(error), SdxlFakeLabels), numFaces, gan)[DiffusionScore]
            == Real(NeutralProb)
  {
  }
}
