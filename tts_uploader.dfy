/**
  `synthesize_and_upload`: each narration paragraph is spoken by the TTS endpoint, written to
  a temporary file under `temp`, uploaded to the bucket and then deleted; the result maps
  `slide{i}` (counting from 2) to the paragraph, its CDN link and the voice.
 */
module TtsUploader {
  import opened Wrappers
  import opened DecimalKeys

  type Bytes = seq<bv8>

  /** The JSON body posted to the TTS endpoint. */
  datatype TtsRequest = TtsRequest(model: string, input: string, voice: string)

  /** Deployment settings: `AWS_BUCKET`, `S3_PREFIX`, `CDN_BASE`. */
  datatype Config = Config(bucket: string, s3Prefix: string, cdnBase: string)

  /**
    The outside world, abstract:
    - `tts`: the audio the endpoint returns, or `None` when `raise_for_status` raises;
    - `upload`: whether `upload_file(path, bucket, key)` of these bytes succeeds;
    - `hexId`: the `uuid4().hex` drawn while processing slide `i`.
   */
  datatype Services = Services(
    tts: TtsRequest -> Option<Bytes>,
    upload: (string, string, Bytes) -> bool,
    hexId: nat -> string)

  /** Why a batch stopped, with the number of the slide being processed. */
  datatype Failure = TtsFailed(slide: nat) | UploadFailed(slide: nat)

  /** One slide's entry: paragraph, audio link and voice. */
  type SlideAudio = map<string, string>

  const TtsModel := "tts-1-hd"
  const TempDir := "temp"
  /** The number given to the first paragraph. */
  const FirstSlide: nat := 2

  /** The local disk, as far as the batch touches it. */
  class LocalFiles {
    var dirs: set<string>
    var files: map<string, Bytes>

    constructor ()
      ensures dirs == {} && files == map[]
    {
      dirs := {};
      files := map[];
    }

    /** `os.makedirs(dir, exist_ok=True)` */
    method MakeDirs(dir: string)
      modifies this
      ensures dirs == old(dirs) + {dir}
      ensures files == old(files)
    {
      dirs := dirs + {dir};
    }

    /** `open(os.path.join(dir, name), "wb").write(data)`: creates or overwrites the file. */
    method WriteFile(dir: string, name: string, data: Bytes)
      requires dir in dirs
      modifies this
      ensures files == old(files)[dir + "/" + name := data]
      ensures dirs == old(dirs)
    {
      files := files[dir + "/" + name := data];
    }

    /** `os.remove(path)` */
    method RemoveFile(path: string)
      requires path in files
      modifies this
      ensures files == old(files) - {path}
      ensures dirs == old(dirs)
    {
      files := files - {path};
    }
  }

  /** The object store: bytes by bucket and key. */
  class ObjectStore {
    var objects: map<(string, string), Bytes>

    constructor ()
      ensures objects == map[]
    {
      objects := map[];
    }

    /** A successful `upload_file`: the object now holds these bytes. */
    method Put(bucket: string, key: string, data: Bytes)
      modifies this
      ensures objects == old(objects)[(bucket, key) := data]
    {
      objects := objects[(bucket, key) := data];
    }
  }

  /** `paragraphs.values()`: the texts in the dictionary's insertion order; the keys play no part. */
  function Values(paragraphs: seq<(string, string)>): (texts: seq<string>)
    ensures |texts| == |paragraphs|
    ensures forall k :: 0 <= k < |paragraphs| ==> texts[k] == paragraphs[k].1
  {
    seq(|paragraphs|, k requires 0 <= k < |paragraphs| => paragraphs[k].1)
  }

  /** `f"tts_{hex}.mp3"` */
  function FileName(hex: string): string {
    "tts_" + hex + ".mp3"
  }

  /** `os.path.join("temp", filename)` for slide `i`. */
  function LocalPath(svc: Services, i: nat): string {
    TempDir + "/" + FileName(svc.hexId(i))
  }

  /** `f"{S3_PREFIX}{filename}"` for slide `i`. */
  function ObjectKey(cfg: Config, svc: Services, i: nat): string {
    cfg.s3Prefix + FileName(svc.hexId(i))
  }

  /** `f"{CDN_BASE}{s3_key}"` for slide `i`. */
  function CdnUrl(cfg: Config, svc: Services, i: nat): string {
    cfg.cdnBase + ObjectKey(cfg, svc, i)
  }

  /** The audio the endpoint returns for one paragraph. */
  function Audio(svc: Services, text: string, voice: string): Option<Bytes> {
    svc.tts(TtsRequest(TtsModel, text, voice))
  }

  /** The entry of slide `i`. */
  function SlideEntry(i: nat, text: string, url: string, voice: string): SlideAudio {
    map[ParagraphKey(i) := text, AudioKey(i) := url, VoiceKey := voice]
  }

  /** An entry has exactly three fields: the paragraph under `s{i}paragraph1`, the link under
      `audio_url{i}` and the voice under `voice`; none overwrites another. */
  lemma SlideEntryShape(i: nat, text: string, url: string, voice: string)
    ensures var entry := SlideEntry(i, text, url, voice);
            && |entry| == 3
            && entry.Keys == {ParagraphKey(i), AudioKey(i), VoiceKey}
            && entry[ParagraphKey(i)] == text && entry[AudioKey(i)] == url && entry[VoiceKey] == voice
  {
    EntryKeysDistinct(i, i);
  }

  /** What goes wrong, if anything, while processing the `k`-th paragraph (slide `k + 2`). */
  function StepFailure(texts: seq<string>, voice: string, cfg: Config, svc: Services, k: nat): Option<Failure>
    requires k < |texts|
  {
    match Audio(svc, texts[k], voice)
    case None => Some(TtsFailed(k + FirstSlide))
    case Some(audio) =>
      if svc.upload(cfg.bucket, ObjectKey(cfg, svc, k + FirstSlide), audio) then None
      else Some(UploadFailed(k + FirstSlide))
  }

  /** The first `m` paragraphs all go through. */
  predicate AllSucceed(texts: seq<string>, voice: string, cfg: Config, svc: Services, m: nat)
    requires m <= |texts|
  {
    forall k :: 0 <= k < m ==> StepFailure(texts, voice, cfg, svc, k).None?
  }

  /** The entries of the first `m` slides. */
  function Entries(texts: seq<string>, voice: string, cfg: Config, svc: Services, m: nat): map<string, SlideAudio>
    requires m <= |texts|
  {
    if m == 0 then map[]
    else Entries(texts, voice, cfg, svc, m - 1)[SlideKey(m - 1 + FirstSlide) :=
           SlideEntry(m - 1 + FirstSlide, texts[m - 1], CdnUrl(cfg, svc, m - 1 + FirstSlide), voice)]
  }

  /** The temporary files of the first `m` slides. */
  function TempFiles(svc: Services, m: nat): set<string> {
    if m == 0 then {} else TempFiles(svc, m - 1) + {LocalPath(svc, m - 1 + FirstSlide)}
  }

  /** The object store after the uploads of the first `m` slides. */
  function Uploads(objects: map<(string, string), Bytes>, texts: seq<string>, voice: string,
                   cfg: Config, svc: Services, m: nat): map<(string, string), Bytes>
    requires m <= |texts|
  {
    if m == 0 then objects
    else
      var before := Uploads(objects, texts, voice, cfg, svc, m - 1);
      match Audio(svc, texts[m - 1], voice)
      case Some(audio) => before[(cfg.bucket, ObjectKey(cfg, svc, m - 1 + FirstSlide)) := audio]
      case None => before
  }

  /** The local files after the `k`-th paragraph fails: the earlier temporary files are gone, and
      after a failed upload the file just written stays behind. */
  function FilesAfterFailure(files: map<string, Bytes>, texts: seq<string>, voice: string,
                             svc: Services, failure: Failure, k: nat): map<string, Bytes>
    requires k < |texts|
  {
    match failure
    case TtsFailed(_) => files - TempFiles(svc, k)
    case UploadFailed(_) =>
      match Audio(svc, texts[k], voice)
      case Some(audio) => (files - TempFiles(svc, k))[LocalPath(svc, k + FirstSlide) := audio]
      case None => files - TempFiles(svc, k)
  }

  /**
    `synthesize_and_upload`. On success every paragraph has been spoken, uploaded and recorded,
    and every temporary file is gone. The first failing paragraph aborts the batch with no
    result: the uploads before it stay, and after a failed upload its temporary file is left.
   */
  method SynthesizeAndUpload(paragraphs: seq<(string, string)>, voice: string, cfg: Config, svc: Services,
                             fs: LocalFiles, store: ObjectStore)
    returns (outcome: Result<map<string, SlideAudio>, Failure>)
    modifies fs, store
    ensures fs.dirs == old(fs.dirs) + {TempDir}
    ensures outcome.Success? <==> AllSucceed(Values(paragraphs), voice, cfg, svc, |paragraphs|)
    ensures outcome.Success? ==>
              && outcome.value == Entries(Values(paragraphs), voice, cfg, svc, |paragraphs|)
              && fs.files == old(fs.files) - TempFiles(svc, |paragraphs|)
              && store.objects == Uploads(old(store.objects), Values(paragraphs), voice, cfg, svc, |paragraphs|)
    ensures outcome.Failure? ==>
              var k := outcome.error.slide - FirstSlide;
              && 0 <= k < |paragraphs|
              && AllSucceed(Values(paragraphs), voice, cfg, svc, k)
              && StepFailure(Values(paragraphs), voice, cfg, svc, k) == Some(outcome.error)
              && fs.files == FilesAfterFailure(old(fs.files), Values(paragraphs), voice, svc, outcome.error, k)
              && store.objects == Uploads(old(store.objects), Values(paragraphs), voice, cfg, svc, k)
  {
    var texts := Values(paragraphs);
    var result: map<string, SlideAudio> := map[];
    fs.MakeDirs(TempDir);
    var index := FirstSlide;
    for k := 0 to |texts|
      invariant index == k + FirstSlide
      invariant fs.dirs == old(fs.dirs) + {TempDir}
      invariant AllSucceed(texts, voice, cfg, svc, k)
      invariant result == Entries(texts, voice, cfg, svc, k)
      invariant fs.files == old(fs.files) - TempFiles(svc, k)
      invariant store.objects == Uploads(old(store.objects), texts, voice, cfg, svc, k)
    {
      var text := texts[k];
      var response := svc.tts(TtsRequest(TtsModel, text, voice));
      if response.None? {
        FailureStopsBatch(texts, voice, cfg, svc, k);
        return Failure(TtsFailed(index));
      }
      fs.WriteFile(TempDir, FileName(svc.hexId(index)), response.value);
      var localPath := LocalPath(svc, index);
      var key := ObjectKey(cfg, svc, index);
      if !svc.upload(cfg.bucket, key, fs.files[localPath]) {
        FailureStopsBatch(texts, voice, cfg, svc, k);
        return Failure(UploadFailed(index));
      }
      store.Put(cfg.bucket, key, fs.files[localPath]);
      var cdnUrl := CdnUrl(cfg, svc, index);
      result := result[SlideKey(index) := SlideEntry(index, text, cdnUrl, voice)];
      index := index + 1;
      fs.RemoveFile(localPath);
      SuccessExtends(texts, voice, cfg, svc, k);
      RemoveWritten(old(fs.files), TempFiles(svc, k), localPath, response.value);
    }
    return Success(result);
  }

  /** A failing paragraph means the batch as a whole does not succeed. */
  lemma FailureStopsBatch(texts: seq<string>, voice: string, cfg: Config, svc: Services, k: nat)
    requires k < |texts|
    requires StepFailure(texts, voice, cfg, svc, k).Some?
    ensures !AllSucceed(texts, voice, cfg, svc, |texts|)
  {
  }

  /** One more paragraph that goes through extends the run of successes. */
  lemma SuccessExtends(texts: seq<string>, voice: string, cfg: Config, svc: Services, k: nat)
    requires k < |texts|
    requires AllSucceed(texts, voice, cfg, svc, k)
    requires StepFailure(texts, voice, cfg, svc, k).None?
    ensures AllSucceed(texts, voice, cfg, svc, k + 1)
  {
  }

  /** Writing a file and then removing it leaves the directory as if it had been removed alone. */
  lemma RemoveWritten(files: map<string, Bytes>, gone: set<string>, path: string, data: Bytes)
    ensures (files - gone)[path := data] - {path} == files - (gone + {path})
  {
  }
  /** Only the keys `slide2` ... `slide{m+1}` occur in the result of the first `m` slides. */
  lemma {:induction false} EntriesKeys(texts: seq<string>, voice: string, cfg: Config, svc: Services, m: nat)
    requires m <= |texts|
    ensures forall key :: key in Entries(texts, voice, cfg, svc, m) ==>
              exists i :: FirstSlide <= i < m + FirstSlide && key == SlideKey(i)
  {
    if m > 0 {
      EntriesKeys(texts, voice, cfg, svc, m - 1);
    }
  }

  /** A slide number past the first `m` slides has no entry yet. */
  lemma LaterSlideAbsent(texts: seq<string>, voice: string, cfg: Config, svc: Services, m: nat, n: nat)
    requires m <= |texts| && n >= m + FirstSlide
    ensures SlideKey(n) !in Entries(texts, voice, cfg, svc, m)
  {
    EntriesKeys(texts, voice, cfg, svc, m);
    forall i | FirstSlide <= i < m + FirstSlide ensures SlideKey(i) != SlideKey(n) {
      SlideKeyInjective(i, n);
    }
  }

  /** One entry per paragraph. */
  lemma {:induction false} EntriesSize(texts: seq<string>, voice: string, cfg: Config, svc: Services, m: nat)
    requires m <= |texts|
    ensures |Entries(texts, voice, cfg, svc, m)| == m
  {
    if m > 0 {
      EntriesSize(texts, voice, cfg, svc, m - 1);
      LaterSlideAbsent(texts, voice, cfg, svc, m - 1, m - 1 + FirstSlide);
    }
  }

  /** Slide `i` holds the `(i-1)`-th paragraph (1-based), the CDN link of its upload and the voice. */
  lemma {:induction false} EntriesValues(texts: seq<string>, voice: string, cfg: Config, svc: Services, m: nat)
    requires m <= |texts|
    ensures forall i :: FirstSlide <= i < m + FirstSlide ==>
              && SlideKey(i) in Entries(texts, voice, cfg, svc, m)
              && Entries(texts, voice, cfg, svc, m)[SlideKey(i)] == SlideEntry(i, texts[i - FirstSlide], CdnUrl(cfg, svc, i), voice)
  {
    if m > 0 {
      EntriesValues(texts, voice, cfg, svc, m - 1);
      forall i | FirstSlide <= i < m - 1 + FirstSlide
        ensures && SlideKey(i) in Entries(texts, voice, cfg, svc, m)
                && Entries(texts, voice, cfg, svc, m)[SlideKey(i)] == SlideEntry(i, texts[i - FirstSlide], CdnUrl(cfg, svc, i), voice)
      {
        SlideKeyInjective(i, m - 1 + FirstSlide);
      }
    }
  }

  /** A successful batch over `n` paragraphs has exactly the keys `slide2` ... `slide{n+1}`, and
      `slide{i}` holds the `(i-1)`-th paragraph under `s{i}paragraph1`, its link
      `CDN_BASE + S3_PREFIX + filename` under `audio_url{i}`, and the voice. */
  lemma AudioResultShape(paragraphs: seq<(string, string)>, voice: string, cfg: Config, svc: Services)
    ensures var result := Entries(Values(paragraphs), voice, cfg, svc, |paragraphs|);
            && |result| == |paragraphs|
            && (forall key :: key in result ==> exists i :: FirstSlide <= i < |paragraphs| + FirstSlide && key == SlideKey(i))
            && (forall i :: FirstSlide <= i < |paragraphs| + FirstSlide ==>
                  && SlideKey(i) in result
                  && result[SlideKey(i)] == SlideEntry(i, paragraphs[i - FirstSlide].1,
                                                       cfg.cdnBase + cfg.s3Prefix + FileName(svc.hexId(i)), voice))
  {
    var texts := Values(paragraphs);
    EntriesSize(texts, voice, cfg, svc, |paragraphs|);
    EntriesKeys(texts, voice, cfg, svc, |paragraphs|);
    EntriesValues(texts, voice, cfg, svc, |paragraphs|);
    forall i | FirstSlide <= i < |paragraphs| + FirstSlide
      ensures CdnUrl(cfg, svc, i) == cfg.cdnBase + cfg.s3Prefix + FileName(svc.hexId(i))
    {
    }
  }

  /** Every temporary file of the first `m` slides is in the set, and nothing else. */
  lemma {:induction false} TempFilesExactly(svc: Services, m: nat)
    ensures forall i :: FirstSlide <= i < m + FirstSlide ==> LocalPath(svc, i) in TempFiles(svc, m)
    ensures forall p :: p in TempFiles(svc, m) ==> exists i :: FirstSlide <= i < m + FirstSlide && p == LocalPath(svc, i)
  {
    if m > 0 {
      TempFilesExactly(svc, m - 1);
    }
  }

  /** Every temporary file lives under `temp/`. */
  lemma TempFilesUnderTemp(svc: Services, m: nat)
    ensures forall p :: p in TempFiles(svc, m) ==> |p| > |TempDir| && p[..|TempDir| + 1] == TempDir + "/"
  {
    TempFilesExactly(svc, m);
    forall p | p in TempFiles(svc, m) ensures |p| > |TempDir| && p[..|TempDir| + 1] == TempDir + "/" {
      var i :| FirstSlide <= i < m + FirstSlide && p == LocalPath(svc, i);
      assert p == (TempDir + "/") + FileName(svc.hexId(i));
    }
  }

  /** After a successful batch no temporary file of the run is left, and every file outside
      `temp/` is as it was. */
  lemma SuccessLeavesTempClean(files: map<string, Bytes>, svc: Services, n: nat)
    ensures forall i :: FirstSlide <= i < n + FirstSlide ==> LocalPath(svc, i) !in files - TempFiles(svc, n)
    ensures forall p :: p in files && !(|p| > |TempDir| && p[..|TempDir| + 1] == TempDir + "/") ==>
              p in files - TempFiles(svc, n) && (files - TempFiles(svc, n))[p] == files[p]
  {
    TempFilesExactly(svc, n);
    TempFilesUnderTemp(svc, n);
  }

  /** Different `uuid4` draws give different object keys. */
  lemma ObjectKeyInjective(cfg: Config, svc: Services, i: nat, j: nat)
    requires svc.hexId(i) != svc.hexId(j)
    ensures ObjectKey(cfg, svc, i) != ObjectKey(cfg, svc, j)
  {
    var p := cfg.s3Prefix + "tts_";
    assert ObjectKey(cfg, svc, i) == p + svc.hexId(i) + ".mp3";
    assert ObjectKey(cfg, svc, j) == p + svc.hexId(j) + ".mp3";
    if ObjectKey(cfg, svc, i) == ObjectKey(cfg, svc, j) {
      AffixCancel(p, svc.hexId(i), svc.hexId(j), ".mp3");
    }
  }

  /** When the `uuid4` draws differ, every paragraph of a successful run is stored in the bucket
      under its own key, holding the audio spoken for it. */
  lemma {:induction false} UploadsHold(objects: map<(string, string), Bytes>, texts: seq<string>, voice: string,
                                       cfg: Config, svc: Services, m: nat)
    requires m <= |texts|
    requires AllSucceed(texts, voice, cfg, svc, m)
    requires forall i, j :: FirstSlide <= i < j < m + FirstSlide ==> svc.hexId(i) != svc.hexId(j)
    ensures forall i :: FirstSlide <= i < m + FirstSlide ==>
              && (cfg.bucket, ObjectKey(cfg, svc, i)) in Uploads(objects, texts, voice, cfg, svc, m)
              && Audio(svc, texts[i - FirstSlide], voice)
                 == Some(Uploads(objects, texts, voice, cfg, svc, m)[(cfg.bucket, ObjectKey(cfg, svc, i))])
  {
    if m > 0 {
      var last := m - 1 + FirstSlide;
      var before := Uploads(objects, texts, voice, cfg, svc, m - 1);
      assert StepFailure(texts, voice, cfg, svc, m - 1).None?;
      var audio := Audio(svc, texts[m - 1], voice).value;
      assert Uploads(objects, texts, voice, cfg, svc, m) == before[(cfg.bucket, ObjectKey(cfg, svc, last)) := audio];
      UploadsHold(objects, texts, voice, cfg, svc, m - 1);
      forall i | FirstSlide <= i < m + FirstSlide
        ensures && (cfg.bucket, ObjectKey(cfg, svc, i)) in Uploads(objects, texts, voice, cfg, svc, m)
                && Audio(svc, texts[i - FirstSlide], voice)
                   == Some(Uploads(objects, texts, voice, cfg, svc, m)[(cfg.bucket, ObjectKey(cfg, svc, i))])
      {
        if i < last {
          ObjectKeyInjective(cfg, svc, i, last);
        }
      }
    }
  }
}
