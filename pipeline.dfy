/**
 * The background job: `process` drives one job from analysis to a finished
 * video, writing its progress into the job store as it goes, and `/api/create`
 * registers the job and prepares the arguments `process` runs with.
 *
 * Everything the job learns from outside (the fetched page, HTTP replies,
 * which files exist, the random template choice, whether FFmpeg left a file,
 * an unexpected exception) is a `World` value.
 */
module Pipeline {
  import opened Wrappers
  import opened Text
  import opened Paths
  import opened Analyzer
  import opened Copy
  import opened Jobs
  import opened HeyGen
  import opened Render

  /** The arguments of `process`; "" stands for a missing link or image path. */
  datatype Request = Request(
    productUrl: string,
    imgPath: string,
    apiKey: string,
    avatar: string,
    voice: string,
    duration: int)

  /** Where an unexpected exception escapes to the `except` of `process`. */
  datatype Stage = Analysis | Generation | Rendering
  datatype Crash = Crash(stage: Stage, message: string)

  /** What the outside world answers during one run. */
  datatype World = World(
    page: Option<Page>,            // the product page, or `None` when fetching it raised
    image: ImageFetch,             // the download of the product image
    onDisk: set<string>,           // the paths `Path(...).exists()` holds for
    choice: nat,                   // what `random.choice` draws
    upload: Option<IdReply>,       // the upload reply, `None` when the upload raised
    create: Option<IdReply>,       // the generate reply, `None` when the call raised
    polls: seq<PollReply>,         // the status replies, in order
    download: Option<int>,         // the download status code, `None` when it raised
    rendered: bool,                // the output file exists after FFmpeg ran
    crash: Option<Crash>)          // an exception no callee catches

  // ---------------------------------------------------------------------
  // Progress writes
  // ---------------------------------------------------------------------

  const StepAnalyse: string := "🔍 Đang phân tích sản phẩm..."
  const StepFetch: string := "📡 Đang tải thông tin từ link..."
  const StepImage: string := "🖼️ Đang phân tích hình ảnh..."
  const StepScript: string := "✍️ Đang tạo script quảng cáo..."
  const StepUpload: string := "⬆️ Đang upload ảnh lên HeyGen..."
  const StepAvatar: string := "🤖 Đang tạo người mẫu AI..."
  const StepHeyGen: string := "🎬 HeyGen đang render video..."
  const StepDownload: string := "⬇️ Đang tải video về..."
  const StepRender: string := "🎨 Đang render video..."
  const StepDone: string := "✅ Hoàn tất!"
  const ErrorPrefix: string := "❌ Lỗi: "

  function StepPatch(step: string, progress: int): Patch {
    Patch(None, Some(step), Some(progress), None, None)
  }

  const StartPatch: Patch := Patch(Some(Processing), Some(StepAnalyse), Some(5), None, None)

  function ErrorPatch(message: string): Patch {
    Patch(Some(Error), Some(ErrorPrefix + message), Some(0), None, None)
  }

  function InfoOf(p: Signals): ProductInfo {
    ProductInfo(p.title, p.price, p.gender, p.ageLabel, p.platform)
  }

  function InfoPatch(p: Signals): Patch {
    Patch(None, Some(StepScript), Some(22), Some(InfoOf(p)), None)
  }

  function DonePatch(r: JobResult): Patch {
    Patch(Some(Done), Some(StepDone), Some(100), None, Some(r))
  }

  // ---------------------------------------------------------------------
  // The stages of a run
  // ---------------------------------------------------------------------

  /** The product record used when there is neither a link nor an image. */
  const DefaultSignals: Signals :=
    Signals("Sản phẩm", "", "", "", "", None, true, "bé", "1–3 tuổi", "toddler", "cute", "")

  /** The product record: analysed from the link, else from the image, else the default. */
  function Product(req: Request, w: World): (p: Signals)
    ensures req.productUrl != "" ==> p == Analyzed(req.productUrl, w.page, w.image)
    ensures req.productUrl == "" && req.imgPath != "" ==> p == ImageOnlySignals(req.imgPath)
    ensures req.productUrl == "" && req.imgPath == "" ==> p == DefaultSignals
  {
    if req.productUrl != "" then Analyzed(req.productUrl, w.page, w.image)
    else if req.imgPath != "" then ImageOnlySignals(req.imgPath)
    else DefaultSignals
  }

  /** The writes of the analysis stage: the start, then the source being analysed. */
  function AnalysisPatches(req: Request): seq<Patch> {
    [StartPatch]
    + (if req.productUrl != "" then [StepPatch(StepFetch, 12)]
       else if req.imgPath != "" then [StepPatch(StepImage, 12)]
       else [])
  }

  /** `img_path or p.get("local_img")`: the image both renderers start from. */
  function CurrentImage(img: string, p: Signals): (curr: string)
    ensures img != "" ==> curr == img
    ensures img == "" && p.localImg.Some? ==> curr == p.localImg.value
    ensures curr == "" <==> img == "" && (p.localImg.None? || p.localImg.value == "")
  {
    if img != "" then img else p.localImg.GetOr("")
  }

  /** The outcome of the HeyGen branch: the video path, whether HeyGen made it, the request sent, the writes. */
  datatype Video = Video(path: string, usedHeygen: bool, request: Option<Payload>, patches: seq<Patch>)

  /**
   * The HeyGen branch, taken only with an API key: upload the image when it
   * is on disk, request the video, poll it while an id came back, download it
   * when a URL came back.
   */
  function External(jid: string, req: Request, script: string, curr: string, w: World): (v: Video)
    ensures req.apiKey == "" ==> v == Video("", false, None, [])
    ensures v.path != "" ==> v.usedHeygen && v.path == OutputPath(jid) && w.download == Some(200)
    ensures v.usedHeygen ==> v.path != ""
    ensures req.apiKey != "" ==> v.request.Some? && v.request.value.inputText == script
    ensures req.apiKey != "" ==> v.request.value.avatarId == req.avatar && v.request.value.voiceId == req.voice
    ensures req.apiKey != "" ==>
      (v.request.value.background.ImageBackground? <==> curr != "" && curr in w.onDisk && Truthy(IdOf(w.upload)))
    ensures req.apiKey != "" ==>
      |v.patches| > 0 && (v.patches[0] == StepPatch(StepUpload, 30) <==> curr != "" && curr in w.onDisk)
  {
    if req.apiKey == "" then Video("", false, None, [])
    else
      var canUpload := curr != "" && curr in w.onDisk;
      var up := if canUpload then [StepPatch(StepUpload, 30)] else [];
      var bgId := if canUpload then IdOf(w.upload) else None;
      var payload := CreatePayload(script, req.avatar, req.voice, bgId, req.duration);
      var head := up + [StepPatch(StepAvatar, 40)];
      if !Truthy(IdOf(w.create)) then Video("", false, Some(payload), head)
      else
        var poll := PollFrom(w.polls, 0);
        var polled := head + [StepPatch(StepHeyGen, 48)] + poll.patches;
        if poll.url.None? then Video("", false, Some(payload), polled)
        else
          var path := Downloaded(w.download, jid);
          Video(path, path != "", Some(payload), polled + [StepPatch(StepDownload, 94)])
  }

  /**
   * HeyGen yields a video exactly when there is an API key, the generate reply
   * carries a truthy id, polling returns a URL and the download answers 200;
   * the video is then the job's output file.
   */
  lemma HeyGenVideoWhen(jid: string, req: Request, script: string, curr: string, w: World)
    ensures External(jid, req, script, curr, w).path != ""
            <==> req.apiKey != "" && Truthy(IdOf(w.create)) && PollFrom(w.polls, 0).url.Some? && w.download == Some(200)
    ensures External(jid, req, script, curr, w).path != "" ==> External(jid, req, script, curr, w).path == OutputPath(jid)
  {
  }

  /** The `result` of a finished job. */
  function ResultOf(path: string, p: Signals, script: string, content: Content, used: bool): (r: JobResult)
    ensures path == "" ==> r.videoUrl == "" && r.videoFilename == ""
    ensures path != "" ==> r.videoFilename == FileName(path)
    ensures path != "" && FileName(path) != "" ==> r.videoUrl == "/outputs/" + FileName(path)
    ensures r.product == p && r.script == script && r.usedHeygen == used
    ensures r.captions == content.captions && r.hashtags == content.hashtags
  {
    var fn := if path != "" then FileName(path) else "";
    JobResult(if fn != "" then "/outputs/" + fn else "", fn, p, script, content.captions, content.hashtags, used)
  }

  predicate CrashAt(w: World, s: Stage) {
    w.crash.Some? && w.crash.value.stage == s
  }

  /** The path the fallback renderer reports: the output file when it exists afterwards. */
  function FallbackPath(jid: string, rendered: bool): string {
    if rendered then OutputPath(jid) else ""
  }

  /**
   * Every write of a run whose product record, script and captions are `p`,
   * `script` and `content`, in order.
   */
  function Writes(jid: string, req: Request, w: World, p: Signals, script: string, content: Content): (ps: seq<Patch>)
    ensures |ps| >= 2 && ps[0] == StartPatch
  {
    var a := AnalysisPatches(req);
    if CrashAt(w, Analysis) then a + [ErrorPatch(w.crash.value.message)]
    else if CrashAt(w, Generation) then a + [InfoPatch(p)] + [ErrorPatch(w.crash.value.message)]
    else
      var v := External(jid, req, script, CurrentImage(req.imgPath, p), w);
      var before := a + [InfoPatch(p)] + v.patches;
      if v.path != "" then before + [DonePatch(ResultOf(v.path, p, script, content, v.usedHeygen))]
      else if CrashAt(w, Rendering) then before + [StepPatch(StepRender, 65)] + [ErrorPatch(w.crash.value.message)]
      else
        before + [StepPatch(StepRender, 65)]
        + [DonePatch(ResultOf(FallbackPath(jid, w.rendered), p, script, content, false))]
  }

  /** Every write `process` makes, in order. */
  function Run(jid: string, req: Request, w: World): seq<Patch> {
    var p := Product(req, w);
    Writes(jid, req, w, p, MakeScript(p, w.choice), MakeContent(p))
  }

  // ---------------------------------------------------------------------
  // The job processor
  // ---------------------------------------------------------------------

  /** One `upd` call, with the writes made so far extended by it. */
  method Emit(store: JobStore, jid: string, u: Patch, ghost base: map<string, Job>, ghost ps: seq<Patch>)
    returns (ghost ps': seq<Patch>)
    requires store.jobs == Updated(base, jid, ps)
    modifies store
    ensures ps' == ps + [u] && store.jobs == Updated(base, jid, ps')
  {
    store.Upd(jid, u);
    UpdatedConcat(base, jid, ps, [u]);
    ps' := ps + [u];
  }

  /** The analysis stage of `process`: its writes, the product record and the image path after it. */
  method Analyse(store: JobStore, jid: string, req: Request, w: World) returns (p: Signals, img: string)
    modifies store
    ensures p == Product(req, w) && CurrentImage(img, p) == CurrentImage(req.imgPath, p)
    ensures store.jobs == Updated(old(store.jobs), jid, AnalysisPatches(req))
  {
    ghost var base := store.jobs;
    ghost var ps': seq<Patch> := [];
    assert Updated(base, jid, []) == base;
    ps' := Emit(store, jid, StartPatch, base, ps');
    img := req.imgPath;
    if req.productUrl != "" {
      ps' := Emit(store, jid, StepPatch(StepFetch, 12), base, ps');
      p := AnalyzeProduct(req.productUrl, w.page, w.image);
      if Truthy(p.localImg) && img == "" {
        img := p.localImg.value;
      }
    } else if img != "" {
      ps' := Emit(store, jid, StepPatch(StepImage, 12), base, ps');
      p := ImageOnlySignals(img);
    } else {
      p := DefaultSignals;
    }
  }

  /** The HeyGen stage of `process`: its writes, the video path and `used_heygen`. */
  method Generate(store: JobStore, jid: string, req: Request, script: string, curr: string, w: World)
    returns (videoPath: string, usedHeygen: bool)
    modifies store
    ensures videoPath == External(jid, req, script, curr, w).path
    ensures usedHeygen == External(jid, req, script, curr, w).usedHeygen
    ensures store.jobs == Updated(old(store.jobs), jid, External(jid, req, script, curr, w).patches)
  {
    ghost var base := store.jobs;
    ghost var ps': seq<Patch> := [];
    assert Updated(base, jid, []) == base;
    videoPath := "";
    usedHeygen := false;
    if req.apiKey != "" {
      var bgId: Option<string> := None;
      if curr != "" && curr in w.onDisk {
        ps' := Emit(store, jid, StepPatch(StepUpload, 30), base, ps');
        bgId := IdOf(w.upload);
      }
      ps' := Emit(store, jid, StepPatch(StepAvatar, 40), base, ps');
      var payload := CreatePayload(script, req.avatar, req.voice, bgId, req.duration);
      var vid := IdOf(w.create);
      if Truthy(vid) {
        ps' := Emit(store, jid, StepPatch(StepHeyGen, 48), base, ps');
        var url := Poll(store, jid, w.polls);
        UpdatedConcat(base, jid, ps', PollFrom(w.polls, 0).patches);
        ps' := ps' + PollFrom(w.polls, 0).patches;
        if url.Some? {
          ps' := Emit(store, jid, StepPatch(StepDownload, 94), base, ps');
          videoPath := Downloaded(w.download, jid);
          usedHeygen := videoPath != "";
        }
      }
    }
  }

  /**
   * Steps 3 to 5 of `process`, once the script and captions exist: the HeyGen
   * video, else the fallback renderer, then the final write.
   */
  method Deliver(store: JobStore, jid: string, req: Request, w: World, p: Signals, img: string,
                 script: string, content: Content, ghost base: map<string, Job>)
    requires !CrashAt(w, Analysis) && !CrashAt(w, Generation)
    requires CurrentImage(img, p) == CurrentImage(req.imgPath, p)
    requires store.jobs == Updated(base, jid, AnalysisPatches(req) + [InfoPatch(p)])
    modifies store
    ensures store.jobs == Updated(base, jid, Writes(jid, req, w, p, script, content))
  {
    ghost var ps := AnalysisPatches(req) + [InfoPatch(p)];

    // 3. The HeyGen video
    var curr := if img != "" then img else p.localImg.GetOr("");
    var videoPath, usedHeygen := Generate(store, jid, req, script, curr, w);
    UpdatedConcat(base, jid, ps, External(jid, req, script, curr, w).patches);
    ps := ps + External(jid, req, script, curr, w).patches;

    // 4. The fallback renderer
    if videoPath == "" {
      ps := Emit(store, jid, StepPatch(StepRender, 65), base, ps);
      if CrashAt(w, Rendering) {
        ps := Emit(store, jid, ErrorPatch(w.crash.value.message), base, ps);
        return;
      }
      var run := MakeFfmpegVideo(curr, curr in w.onDisk, p, jid, w.rendered);
      videoPath := run.output;
      assert videoPath == FallbackPath(jid, w.rendered);
    }

    // 5. Done
    var fn := if videoPath != "" then FileName(videoPath) else "";
    var result := JobResult(if fn != "" then "/outputs/" + fn else "", fn, p, script,
                            content.captions, content.hashtags, usedHeygen);
    ps := Emit(store, jid, DonePatch(result), base, ps);
  }

  /** `process`: the job's writes are exactly those of `Run`. */
  method Process(store: JobStore, jid: string, req: Request, w: World)
    modifies store
    ensures store.jobs == Updated(old(store.jobs), jid, Run(jid, req, w))
    ensures jid in old(store.jobs) && old(store.jobs)[jid] == InitialJob ==>
              var p := Product(req, w);
              jid in store.jobs && store.jobs[jid] == Final(jid, req, w, p, MakeScript(p, w.choice), MakeContent(p))
  {
    ghost var base := store.jobs;

    // 1. Analyse the product
    var p, img := Analyse(store, jid, req, w);
    ghost var ps := AnalysisPatches(req);
    if CrashAt(w, Analysis) {
      ps := Emit(store, jid, ErrorPatch(w.crash.value.message), base, ps);
      UpdatedJob(base, jid, Run(jid, req, w));
      return;
    }
    ps := Emit(store, jid, InfoPatch(p), base, ps);

    // 2. Script and captions
    if CrashAt(w, Generation) {
      ps := Emit(store, jid, ErrorPatch(w.crash.value.message), base, ps);
      UpdatedJob(base, jid, Run(jid, req, w));
      return;
    }
    var script := MakeScript(p, w.choice);
    var content := MakeContent(p);

    Deliver(store, jid, req, w, p, img, script, content, base);
    UpdatedJob(base, jid, Run(jid, req, w));
  }

  // ---------------------------------------------------------------------
  // What a run leaves in the job record
  // ---------------------------------------------------------------------

  /** The job record after a run, starting from the record `/api/create` stores. */
  function Final(jid: string, req: Request, w: World, p: Signals, script: string, content: Content): Job {
    ApplyAll(InitialJob, Writes(jid, req, w, p, script, content))
  }

  /** An exception reaches the `except` of `process`: the render-stage one only when the fallback runs. */
  predicate Interrupted(jid: string, req: Request, w: World, p: Signals, script: string) {
    CrashAt(w, Analysis) || CrashAt(w, Generation)
    || (CrashAt(w, Rendering) && External(jid, req, script, CurrentImage(req.imgPath, p), w).path == "")
  }

  ghost predicate NoInfo(ps: seq<Patch>) {
    forall k :: 0 <= k < |ps| ==> ps[k].productInfo.None?
  }

  lemma NoInfoConcat(a: seq<Patch>, b: seq<Patch>)
    requires NoInfo(a) && NoInfo(b)
    ensures NoInfo(a + b)
  {
    forall k | 0 <= k < |a + b| ensures (a + b)[k].productInfo.None? {
      if k < |a| { assert (a + b)[k] == a[k]; } else { assert (a + b)[k] == b[k - |a|]; }
    }
  }

  ghost predicate AllStepOnly(ps: seq<Patch>) {
    forall k :: 0 <= k < |ps| ==> StepOnly(ps[k])
  }

  ghost predicate Within(s: seq<int>, lo: int, hi: int) {
    forall k :: 0 <= k < |s| ==> lo <= s[k] <= hi
  }

  lemma AllStepOnlyConcat(a: seq<Patch>, b: seq<Patch>)
    requires AllStepOnly(a) && AllStepOnly(b)
    ensures AllStepOnly(a + b)
  {
    forall k | 0 <= k < |a + b| ensures StepOnly((a + b)[k]) {
      if k < |a| { assert (a + b)[k] == a[k]; } else { assert (a + b)[k] == b[k - |a|]; }
    }
  }

  lemma ProgressesOne(u: Patch)
    requires u.progress.Some?
    ensures Progresses([u]) == [u.progress.value]
  {
    assert [u][1..] == [];
  }

  /** Two rising runs of progress values, the first below `mid` and the second above it, make one. */
  lemma Rising(a: seq<Patch>, b: seq<Patch>, lo: int, mid: int, hi: int)
    requires lo <= mid <= hi
    requires NonDecreasing(Progresses(a)) && Within(Progresses(a), lo, mid)
    requires NonDecreasing(Progresses(b)) && Within(Progresses(b), mid, hi)
    ensures NonDecreasing(Progresses(a + b)) && Within(Progresses(a + b), lo, hi)
  {
    ProgressesConcat(a, b);
    WithinConcat(Progresses(a), Progresses(b), lo, mid, hi);
  }

  lemma WithinConcat(s: seq<int>, t: seq<int>, lo: int, mid: int, hi: int)
    requires lo <= mid <= hi
    requires NonDecreasing(s) && Within(s, lo, mid)
    requires NonDecreasing(t) && Within(t, mid, hi)
    ensures NonDecreasing(s + t) && Within(s + t, lo, hi)
  {
    NonDecreasingConcat(s, t);
    forall k | 0 <= k < |s + t| ensures lo <= (s + t)[k] <= hi {
      if k < |s| { assert (s + t)[k] == s[k]; } else { assert (s + t)[k] == t[k - |s|]; }
    }
  }

  /** Appending one write that sets the progress to `hi`. */
  lemma RisingTo(a: seq<Patch>, u: Patch, lo: int, hi: int)
    requires lo <= hi
    requires NonDecreasing(Progresses(a)) && Within(Progresses(a), lo, hi)
    requires u.progress == Some(hi)
    ensures NonDecreasing(Progresses(a + [u])) && Within(Progresses(a + [u]), lo, hi)
  {
    ProgressesOne(u);
    Rising(a, [u], lo, hi, hi);
  }

  /** The writes of the HeyGen branch up to the video request: the optional upload step (30), then 40. */
  lemma RequestWrites(canUpload: bool)
    ensures var up := if canUpload then [StepPatch(StepUpload, 30)] else [];
            var head := up + [StepPatch(StepAvatar, 40)];
            AllStepOnly(head) && NonDecreasing(Progresses(head)) && Within(Progresses(head), 30, 40)
  {
    var up := if canUpload then [StepPatch(StepUpload, 30)] else [];
    if canUpload { ProgressesOne(StepPatch(StepUpload, 30)); }
    RisingTo(up, StepPatch(StepAvatar, 40), 30, 40);
    AllStepOnlyConcat(up, [StepPatch(StepAvatar, 40)]);
  }

  /** The writes of the HeyGen branch from the render step (48) through polling, and the download step (94). */
  lemma PollingWrites(head: seq<Patch>, replies: seq<PollReply>)
    requires AllStepOnly(head) && NonDecreasing(Progresses(head)) && Within(Progresses(head), 30, 40)
    ensures var polled := head + [StepPatch(StepHeyGen, 48)] + PollFrom(replies, 0).patches;
            AllStepOnly(polled) && NonDecreasing(Progresses(polled)) && Within(Progresses(polled), 30, 94)
            && var fetched := polled + [StepPatch(StepDownload, 94)];
               AllStepOnly(fetched) && NonDecreasing(Progresses(fetched)) && Within(Progresses(fetched), 30, 94)
  {
    var poll := PollFrom(replies, 0);
    var started := head + [StepPatch(StepHeyGen, 48)];
    RisingTo(head, StepPatch(StepHeyGen, 48), 30, 48);
    AllStepOnlyConcat(head, [StepPatch(StepHeyGen, 48)]);
    PollProgress(replies, 0);
    Rising(started, poll.patches, 30, 48, 92);
    AllStepOnlyConcat(started, poll.patches);
    var polled := started + poll.patches;
    RisingTo(polled, StepPatch(StepDownload, 94), 30, 94);
    AllStepOnlyConcat(polled, [StepPatch(StepDownload, 94)]);
  }

  /** The HeyGen branch only moves the step and the progress, which rises within 30..94. */
  lemma ExternalWrites(jid: string, req: Request, script: string, curr: string, w: World)
    ensures AllStepOnly(External(jid, req, script, curr, w).patches)
    ensures NonDecreasing(Progresses(External(jid, req, script, curr, w).patches))
    ensures Within(Progresses(External(jid, req, script, curr, w).patches), 30, 94)
  {
    if req.apiKey != "" {
      RequestWrites(curr != "" && curr in w.onDisk);
      var up := if curr != "" && curr in w.onDisk then [StepPatch(StepUpload, 30)] else [];
      PollingWrites(up + [StepPatch(StepAvatar, 40)], w.polls);
    }
  }

  /**
   * Up to the fallback renderer the progress only rises, from 5 to at most 94;
   * when the HeyGen video arrives it rises all the way to the final 100.
   */
  lemma ProgressRises(jid: string, req: Request, w: World, p: Signals, script: string, content: Content)
    requires !CrashAt(w, Analysis) && !CrashAt(w, Generation)
    ensures var v := External(jid, req, script, CurrentImage(req.imgPath, p), w);
            var head := AnalysisPatches(req) + [InfoPatch(p)] + v.patches;
            head <= Writes(jid, req, w, p, script, content)
            && NonDecreasing(Progresses(head)) && Within(Progresses(head), 5, 94)
            && (v.path != "" ==> NonDecreasing(Progresses(Writes(jid, req, w, p, script, content))))
  {
    var v := External(jid, req, script, CurrentImage(req.imgPath, p), w);
    var a := AnalysisPatches(req);
    ProgressesOne(StartPatch);
    if req.productUrl != "" || req.imgPath != "" {
      var u := if req.productUrl != "" then StepPatch(StepFetch, 12) else StepPatch(StepImage, 12);
      assert a == [StartPatch] + [u];
      RisingTo([StartPatch], u, 5, 12);
    } else {
      assert a == [StartPatch];
    }
    RisingTo(a, InfoPatch(p), 5, 22);
    ExternalWrites(jid, req, script, CurrentImage(req.imgPath, p), w);
    Rising(a + [InfoPatch(p)], v.patches, 5, 30, 94);
    var head := a + [InfoPatch(p)] + v.patches;
    if v.path != "" {
      RisingTo(head, DonePatch(ResultOf(v.path, p, script, content, v.usedHeygen)), 5, 100);
    }
  }

  /**
   * The progress is not monotone over a whole run: a HeyGen video whose
   * download fails falls back to the renderer, from 94 back to 65.
   */
  lemma ProgressDropsAtFallback(jid: string, p: Signals, script: string, content: Content)
    ensures var req := Request("", "a.jpg", "key", DefaultAvatar, DefaultVoice, 25);
            var w := World(None, FetchRaised, {}, 0, None, Some(IdReply(DataObject(Some("v")), None)),
                           [StatusReply("completed", "u")], Some(404), true, None);
            !NonDecreasing(Progresses(Writes(jid, req, w, p, script, content)))
  {
    var req := Request("", "a.jpg", "key", DefaultAvatar, DefaultVoice, 25);
    var w := World(None, FetchRaised, {}, 0, None, Some(IdReply(DataObject(Some("v")), None)),
                   [StatusReply("completed", "u")], Some(404), true, None);
    var v := External(jid, req, script, CurrentImage(req.imgPath, p), w);
    var asked := AnalysisPatches(req) + [InfoPatch(p)] + [StepPatch(StepAvatar, 40)]
                 + [StepPatch(StepHeyGen, 48)] + [PollPatch(0)];
    var before := asked + [StepPatch(StepDownload, 94)];
    assert v.path == "" && before == AnalysisPatches(req) + [InfoPatch(p)] + v.patches by {
      assert IdOf(w.create) == Some("v");
      assert PollFrom(w.polls, 0) == PollRun(Some("u"), [PollPatch(0)]);
    }
    var tail := [StepPatch(StepRender, 65)] + [DonePatch(ResultOf(FallbackPath(jid, true), p, script, content, false))];
    assert Writes(jid, req, w, p, script, content) == before + tail;
    ProgressesConcat(asked, [StepPatch(StepDownload, 94)]);
    ProgressesOne(StepPatch(StepDownload, 94));
    ProgressesConcat(before, tail);
    ProgressesConcat([StepPatch(StepRender, 65)], [DonePatch(ResultOf(FallbackPath(jid, true), p, script, content, false))]);
    ProgressesOne(StepPatch(StepRender, 65));
    var s := Progresses(asked);
    var t := Progresses(before + tail);
    assert t[|s|] == 94 && t[|s| + 1] == 65;
  }

  /** The video a finished run reports: HeyGen's when it was saved, else the fallback's. */
  function VideoPath(jid: string, req: Request, w: World, p: Signals, script: string): string {
    var v := External(jid, req, script, CurrentImage(req.imgPath, p), w);
    if v.path != "" then v.path else FallbackPath(jid, w.rendered)
  }

  /** The writes of a run no exception interrupts: everything before the final write, then that write. */
  lemma {:induction false} CompletedWrites(jid: string, req: Request, w: World, p: Signals, script: string, content: Content)
    requires !Interrupted(jid, req, w, p, script)
    ensures var v := External(jid, req, script, CurrentImage(req.imgPath, p), w);
            var rest := if v.path != "" then v.patches else v.patches + [StepPatch(StepRender, 65)];
            var r := ResultOf(VideoPath(jid, req, w, p, script), p, script, content, v.path != "");
            Writes(jid, req, w, p, script, content) == AnalysisPatches(req) + [InfoPatch(p)] + rest + [DonePatch(r)]
            && Final(jid, req, w, p, script, content)
               == Apply(ApplyAll(InitialJob, AnalysisPatches(req) + [InfoPatch(p)] + rest), DonePatch(r))
  {
    var v := External(jid, req, script, CurrentImage(req.imgPath, p), w);
    var rest := if v.path != "" then v.patches else v.patches + [StepPatch(StepRender, 65)];
    var r := ResultOf(VideoPath(jid, req, w, p, script), p, script, content, v.path != "");
    var before := AnalysisPatches(req) + [InfoPatch(p)] + rest;
    assert Writes(jid, req, w, p, script, content) == before + [DonePatch(r)];
    ApplyAllConcat(InitialJob, before, [DonePatch(r)]);
    ApplyAllOne(ApplyAll(InitialJob, before), DonePatch(r));
  }

  /** A run no exception interrupts ends done, at 100%, holding the product, script and captions. */
  lemma CompletedRun(jid: string, req: Request, w: World, p: Signals, script: string, content: Content)
    requires !Interrupted(jid, req, w, p, script)
    ensures var j := Final(jid, req, w, p, script, content);
            j.status == Done && j.step == StepDone && j.progress == 100
            && j.result.Some? && j.result.value.product == p && j.result.value.script == script
            && j.result.value.captions == content.captions && j.result.value.hashtags == content.hashtags
  {
    CompletedWrites(jid, req, w, p, script, content);
  }

  /**
   * The product summary is shown from the script step on, whatever happens
   * later; a run interrupted during analysis never shows one.
   */
  lemma ProductInfoShown(jid: string, req: Request, w: World, p: Signals, script: string, content: Content)
    ensures CrashAt(w, Analysis) ==> Final(jid, req, w, p, script, content).productInfo.None?
    ensures !CrashAt(w, Analysis) ==> Final(jid, req, w, p, script, content).productInfo == Some(InfoOf(p))
  {
    var a := AnalysisPatches(req);
    var ws := Writes(jid, req, w, p, script, content);
    if CrashAt(w, Analysis) {
      var err := ErrorPatch(w.crash.value.message);
      assert ws == a + [err];
      NoInfoConcat(a, [err]);
      InfoUntouched(InitialJob, ws);
    } else {
      var rest := AfterInfo(jid, req, w, p, script, content);
      WritesAfterInfo(jid, req, w, p, script, content);
      QuietAfterInfo(jid, req, w, p, script, content);
      ApplyAllConcat(InitialJob, a, [InfoPatch(p)]);
      ApplyAllOne(ApplyAll(InitialJob, a), InfoPatch(p));
      InfoUntouched(ApplyAll(InitialJob, a + [InfoPatch(p)]), rest);
      ApplyAllConcat(InitialJob, a + [InfoPatch(p)], rest);
    }
  }

  /** The writes of a run after the script step. */
  function AfterInfo(jid: string, req: Request, w: World, p: Signals, script: string, content: Content): seq<Patch>
    requires !CrashAt(w, Analysis)
  {
    if CrashAt(w, Generation) then [ErrorPatch(w.crash.value.message)]
    else
      var v := External(jid, req, script, CurrentImage(req.imgPath, p), w);
      if v.path != "" then v.patches + [DonePatch(ResultOf(v.path, p, script, content, v.usedHeygen))]
      else if CrashAt(w, Rendering) then v.patches + ([StepPatch(StepRender, 65)] + [ErrorPatch(w.crash.value.message)])
      else v.patches + ([StepPatch(StepRender, 65)]
                        + [DonePatch(ResultOf(FallbackPath(jid, w.rendered), p, script, content, false))])
  }

  /** A run the analysis survives: its analysis writes, the script step, then the rest. */
  lemma WritesAfterInfo(jid: string, req: Request, w: World, p: Signals, script: string, content: Content)
    requires !CrashAt(w, Analysis)
    ensures Writes(jid, req, w, p, script, content)
            == AnalysisPatches(req) + [InfoPatch(p)] + AfterInfo(jid, req, w, p, script, content)
  {
    if !CrashAt(w, Generation) {
      var head := AnalysisPatches(req) + [InfoPatch(p)];
      var v := External(jid, req, script, CurrentImage(req.imgPath, p), w);
      var last := Writes(jid, req, w, p, script, content)[|head| + |v.patches|..];
      assert AfterInfo(jid, req, w, p, script, content) == v.patches + last;
      assert head + (v.patches + last) == head + v.patches + last;
    }
  }

  /** After the script step, no write of a run sets the product summary. */
  lemma QuietAfterInfo(jid: string, req: Request, w: World, p: Signals, script: string, content: Content)
    requires !CrashAt(w, Analysis)
    ensures NoInfo(AfterInfo(jid, req, w, p, script, content))
  {
    if !CrashAt(w, Generation) {
      var v := External(jid, req, script, CurrentImage(req.imgPath, p), w);
      ExternalWrites(jid, req, script, CurrentImage(req.imgPath, p), w);
      var tail :=
        if v.path != "" then [DonePatch(ResultOf(v.path, p, script, content, v.usedHeygen))]
        else if CrashAt(w, Rendering) then [StepPatch(StepRender, 65)] + [ErrorPatch(w.crash.value.message)]
        else [StepPatch(StepRender, 65)] + [DonePatch(ResultOf(FallbackPath(jid, w.rendered), p, script, content, false))];
      assert AfterInfo(jid, req, w, p, script, content) == v.patches + tail;
      assert NoInfo(tail);
      NoInfoConcat(v.patches, tail);
    }
  }

  /** An interrupted run ends in error, at 0%, with the exception's message and no result. */
  lemma InterruptedRun(jid: string, req: Request, w: World, p: Signals, script: string, content: Content)
    requires Interrupted(jid, req, w, p, script)
    ensures var j := Final(jid, req, w, p, script, content);
            j.status == Error && j.step == ErrorPrefix + w.crash.value.message && j.progress == 0
            && j.result.None?
  {
    var a := AnalysisPatches(req);
    var before: seq<Patch>;
    if CrashAt(w, Analysis) {
      before := a;
    } else if CrashAt(w, Generation) {
      before := a + [InfoPatch(p)];
    } else {
      var v := External(jid, req, script, CurrentImage(req.imgPath, p), w);
      ExternalWrites(jid, req, script, CurrentImage(req.imgPath, p), w);
      before := a + [InfoPatch(p)] + v.patches + [StepPatch(StepRender, 65)];
    }
    var err := ErrorPatch(w.crash.value.message);
    assert Writes(jid, req, w, p, script, content) == before + [err];
    ResultUntouched(InitialJob, before);
    ApplyAllConcat(InitialJob, before, [err]);
    ApplyAllOne(ApplyAll(InitialJob, before), err);
  }

  /**
   * The video of a finished run: HeyGen's only when a key was given and the
   * download answered 200; otherwise the fallback's, present exactly when the
   * renderer left a file; either way `/outputs/video_<jid>.mp4`.
   */
  lemma VideoOfRun(jid: string, req: Request, w: World, p: Signals, script: string, content: Content)
    requires !Interrupted(jid, req, w, p, script) && '/' !in jid
    ensures var r := Final(jid, req, w, p, script, content).result.value;
            (r.usedHeygen ==> req.apiKey != "" && w.download == Some(200))
            && (r.videoUrl != "" <==> r.usedHeygen || w.rendered)
            && (r.videoUrl != "" ==>
                  r.videoFilename == "video_" + jid + ".mp4" && r.videoUrl == "/outputs/video_" + jid + ".mp4")
  {
    var v := External(jid, req, script, CurrentImage(req.imgPath, p), w);
    var path := VideoPath(jid, req, w, p, script);
    CompletedWrites(jid, req, w, p, script, content);
    assert Final(jid, req, w, p, script, content).result == Some(ResultOf(path, p, script, content, v.path != ""));
    assert path == "" || path == OutputPath(jid);
    if path != "" {
      ResultAtOutput(jid, p, script, content, v.path != "");
    }
  }

  /** The result of a video saved at the job's output path names `video_<jid>.mp4`. */
  lemma ResultAtOutput(jid: string, p: Signals, script: string, content: Content, used: bool)
    requires '/' !in jid
    ensures var r := ResultOf(OutputPath(jid), p, script, content, used);
            r.videoFilename == "video_" + jid + ".mp4" && r.videoUrl == "/outputs/video_" + jid + ".mp4"
  {
    OutputFileName(jid);
    assert "/outputs/" + ("video_" + jid + ".mp4") == "/outputs/video_" + jid + ".mp4";
  }

  /** Without an earlier exception, the AI-model step is written exactly when an API key was given. */
  lemma KeyChoosesHeyGen(jid: string, req: Request, w: World, p: Signals, script: string, content: Content)
    requires !CrashAt(w, Analysis) && !CrashAt(w, Generation)
    ensures StepPatch(StepAvatar, 40) in Writes(jid, req, w, p, script, content) <==> req.apiKey != ""
  {
    var ws := Writes(jid, req, w, p, script, content);
    var v := External(jid, req, script, CurrentImage(req.imgPath, p), w);
    var head := AnalysisPatches(req) + [InfoPatch(p)];
    if req.apiKey != "" {
      var canUpload := CurrentImage(req.imgPath, p) != "" && CurrentImage(req.imgPath, p) in w.onDisk;
      var k := |head| + (if canUpload then 1 else 0);
      assert v.patches[k - |head|] == StepPatch(StepAvatar, 40);
      assert ws[k] == StepPatch(StepAvatar, 40);
    } else {
      forall k | 0 <= k < |ws| ensures ws[k].progress != Some(40) || ws[k].status.Some? {
      }
    }
  }

  /**
   * Without an earlier exception, the write right after the HeyGen branch is
   * the fallback renderer's step exactly when no HeyGen video was saved.
   */
  lemma FallbackWhenNoVideo(jid: string, req: Request, w: World, p: Signals, script: string, content: Content)
    requires !CrashAt(w, Analysis) && !CrashAt(w, Generation)
    ensures var v := External(jid, req, script, CurrentImage(req.imgPath, p), w);
            var ws := Writes(jid, req, w, p, script, content);
            var n := |AnalysisPatches(req) + [InfoPatch(p)] + v.patches|;
            n < |ws| && (ws[n] == StepPatch(StepRender, 65) <==> v.path == "")
  {
  }

  // ---------------------------------------------------------------------
  // `/api/create`
  // ---------------------------------------------------------------------

  /** `AVATARS[0]["id"]` and `VOICES[0]["id"]`. */
  const DefaultAvatar: string := "Abigail_expressive_2024112501"
  const DefaultVoice: string := "vi-VN-HoaiMyNeural"

  /** `(api_key or "").strip()`: empty exactly when no key, or only whitespace, was submitted. */
  function KeyOf(apiKey: Option<string>): (key: string)
    ensures key != "" <==> apiKey.Some? && exists k :: 0 <= k < |apiKey.value| && !IsSpace(apiKey.value[k])
    ensures key == [] || (!IsSpace(key[0]) && !IsSpace(key[|key| - 1]))
  {
    Strip(apiKey.GetOr(""))
  }

  /** `value or default`: the submitted value unless it is missing or empty. */
  function OrDefault(value: Option<string>, default: string): (r: string)
    ensures Truthy(value) ==> r == value.value
    ensures !Truthy(value) ==> r == default
    ensures default != "" ==> r != ""
  {
    if Truthy(value) then value.value else default
  }

  /** The arguments `/api/create` schedules `process` with. */
  function Launch(productUrl: Option<string>, imgPath: Option<string>, apiKey: Option<string>,
                  avatar: Option<string>, voice: Option<string>, duration: int): (req: Request)
    ensures req.productUrl == productUrl.GetOr("") && req.imgPath == imgPath.GetOr("")
    ensures req.apiKey == KeyOf(apiKey) && req.duration == duration
    ensures req.avatar == OrDefault(avatar, DefaultAvatar) && req.voice == OrDefault(voice, DefaultVoice)
  {
    Request(productUrl.GetOr(""), imgPath.GetOr(""), KeyOf(apiKey),
            OrDefault(avatar, DefaultAvatar), OrDefault(voice, DefaultVoice), duration)
  }

  /**
   * The store side of `/api/create`: a request with neither a link nor an
   * image is refused (HTTP 400) and leaves the store alone; any other
   * registers a pending job under `jid`.
   */
  method Create(store: JobStore, jid: string, productUrl: Option<string>, hasImage: bool) returns (accepted: bool)
    modifies store
    ensures accepted <==> Truthy(productUrl) || hasImage
    ensures accepted ==> store.jobs == old(store.jobs)[jid := InitialJob]
    ensures !accepted ==> store.jobs == old(store.jobs)
  {
    if !Truthy(productUrl) && !hasImage {
      return false;
    }
    store.Register(jid);
    return true;
  }
}
