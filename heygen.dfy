/**
 * The decisions of the HeyGen integration: the MIME type of an uploaded
 * image, the identifier taken from a JSON reply, the generate request, the
 * status-polling loop and the download outcome. Every HTTP exchange is an
 * input: a reply that was received, or `None`/`PollRaised` when the call or
 * its JSON decoding raised.
 */
module HeyGen {
  import opened Wrappers
  import opened Text
  import opened Paths
  import opened Jobs

  // ---------------------------------------------------------------------
  // Upload
  // ---------------------------------------------------------------------

  /** The extensions sent under their own MIME type. */
  const ImageExts: seq<string> := ["jpg", "jpeg", "png", "webp"]

  /**
   * The `Content-Type` of an uploaded image whose extension is `ext`
   * (`Extension` of its path): `image/<ext>` for a known extension, JPEG
   * otherwise, so always one of the four known image types.
   */
  function MimeFor(ext: string): (mime: string)
    ensures ext in ImageExts ==> mime == "image/" + ext
    ensures ext !in ImageExts ==> mime == "image/jpeg"
    ensures exists e :: e in ImageExts && mime == "image/" + e
  {
    if ext in ImageExts then "image/" + ext
    else
      assert ImageExts[1] == "jpeg" && "image/" + "jpeg" == "image/jpeg";
      "image/jpeg"
  }

  // ---------------------------------------------------------------------
  // Identifiers in replies
  // ---------------------------------------------------------------------

  /** The `data` member of a reply: missing, an object (with or without the id), or something else. */
  datatype DataField = NoData | DataObject(id: Option<string>) | DataNotObject

  /** A decoded JSON reply of the upload or generate endpoint. */
  datatype IdReply = IdReply(data: DataField, topId: Option<string>)

  /** Python truthiness of an optional string. */
  predicate Truthy(o: Option<string>) {
    o.Some? && o.value != ""
  }

  /** The id inside `data`, when `data` is an object that has one. */
  function DataId(reply: IdReply): Option<string> {
    if reply.data.DataObject? then reply.data.id else None
  }

  /**
   * `d.get("data", {}).get(key) or d.get(key)`, with `None` when the call
   * raised: a non-object `data` raises too. A truthy id inside `data` wins;
   * otherwise the top-level value is returned as it is, even when empty.
   */
  function IdOf(reply: Option<IdReply>): (id: Option<string>)
    ensures reply.None? ==> id.None?
    ensures reply.Some? && reply.value.data.DataNotObject? ==> id.None?
    ensures reply.Some? && Truthy(DataId(reply.value)) ==> id == DataId(reply.value)
    ensures (reply.Some? && !reply.value.data.DataNotObject? && !Truthy(DataId(reply.value)))
              ==> id == reply.value.topId
  {
    match reply
    case None => None
    case Some(r) =>
      match r.data
      case DataNotObject => None
      case NoData => r.topId
      case DataObject(inner) => if Truthy(inner) then inner else r.topId
  }

  /** Whatever the reply, a truthy id came from the reply's `data` or from its top level. */
  lemma IdProvenance(reply: Option<IdReply>)
    ensures Truthy(IdOf(reply)) ==>
              reply.Some? && (IdOf(reply) == DataId(reply.value) || IdOf(reply) == reply.value.topId)
  {
  }

  // ---------------------------------------------------------------------
  // The generate request
  // ---------------------------------------------------------------------

  datatype Background = ImageBackground(url: string) | ColorBackground(value: string)

  /** The JSON body posted to `/v2/video/generate`. */
  datatype Payload = Payload(
    avatarId: string,
    avatarStyle: string,
    inputText: string,
    voiceId: string,
    speed: real,
    background: Background,
    width: int,
    height: int,
    test: bool)

  const ImageResourceBase: string := "https://resource.heygen.com/image/"
  const BackdropColour: string := "#FFF5F9"

  /**
   * The generate request of `heygen_create`: the script spoken by the chosen
   * avatar and voice over the uploaded image when its id is truthy, over a
   * pale pink otherwise, in a 1080×1920 portrait frame. The requested
   * duration is accepted and not used.
   */
  function CreatePayload(script: string, avatar: string, voice: string, bgId: Option<string>, duration: int): (p: Payload)
    ensures p.background.ImageBackground? <==> Truthy(bgId)
    ensures Truthy(bgId) ==> p.background.url == ImageResourceBase + bgId.value
    ensures !Truthy(bgId) ==> p.background == ColorBackground(BackdropColour)
    ensures p.width == 1080 && p.height == 1920 && p.width * 16 == p.height * 9
    ensures p.inputText == script && p.avatarId == avatar && p.voiceId == voice
    ensures p.avatarStyle == "normal" && p.speed == 1.0 && !p.test
  {
    var bg := if Truthy(bgId) then ImageBackground(ImageResourceBase + bgId.value)
              else ColorBackground(BackdropColour);
    Payload(avatar, "normal", script, voice, 1.0, bg, 1080, 1920, false)
  }

  /** The requested duration has no effect on the request. */
  lemma DurationIgnored(script: string, avatar: string, voice: string, bgId: Option<string>, d1: int, d2: int)
    ensures CreatePayload(script, avatar, voice, bgId, d1) == CreatePayload(script, avatar, voice, bgId, d2)
  {
  }

  // ---------------------------------------------------------------------
  // Polling
  // ---------------------------------------------------------------------

  /** One status request: raised (no update is made), or the `status` and `video_url` read from `data`. */
  datatype PollReply = PollRaised | StatusReply(status: string, videoUrl: string)

  /** The number of status requests before giving up. */
  const MaxPolls: nat := 80

  /** The reply to the `i`-th request; requests beyond the given replies raise. */
  function ReplyAt(replies: seq<PollReply>, i: nat): PollReply {
    if i < |replies| then replies[i] else PollRaised
  }

  /** The reply ends the polling: completed with a URL, or failed. */
  predicate Finished(reply: PollReply) {
    reply.StatusReply? && ((reply.status == "completed" && reply.videoUrl != "") || reply.status == "failed")
  }

  const RenderingLead: string := "🎬 HeyGen đang render... ("

  /**
   * The step text after `seconds` seconds of rendering: the fixed lead, the
   * decimal seconds, and "s)".
   */
  function RenderingStep(seconds: nat): (r: string)
    ensures |r| > |RenderingLead| + 2
    ensures r[..|RenderingLead|] == RenderingLead && r[|r| - 2..] == "s)"
  {
    RenderingLead + NatToString(seconds) + "s)"
  }

  /** The seconds shown in the step text read back as the seconds given. */
  lemma RenderingStepSeconds(seconds: nat)
    ensures var r := RenderingStep(seconds);
            (forall i :: |RenderingLead| <= i < |r| - 2 ==> '0' <= r[i] <= '9')
            && ParseNat(r[|RenderingLead|..|r| - 2]) == seconds
  {
    var r := RenderingStep(seconds);
    assert r[|RenderingLead|..|r| - 2] == NatToString(seconds);
    NatToStringRoundTrip(seconds);
  }

  /** Different elapsed times give different step texts. */
  lemma RenderingStepInjective(s1: nat, s2: nat)
    ensures RenderingStep(s1) == RenderingStep(s2) ==> s1 == s2
  {
    RenderingStepSeconds(s1);
    RenderingStepSeconds(s2);
  }

  function Min(a: int, b: int): int {
    if a <= b then a else b
  }

  /** The update made after the `i`-th answered request: elapsed seconds, progress 48 + i capped at 92. */
  function PollPatch(i: nat): (u: Patch)
    ensures u.step == Some(RenderingStep((i + 1) * 8))
    ensures u.progress.Some? && 48 <= u.progress.value <= 92
    ensures i <= 44 ==> u.progress.value == 48 + i
    ensures i >= 44 ==> u.progress.value == 92
    ensures u.status.None? && u.result.None? && u.productInfo.None?
  {
    Patch(None, Some(RenderingStep((i + 1) * 8)), Some(Min(92, 48 + i)), None, None)
  }

  /** The outcome of polling from request `i` on: the URL found and the updates made. */
  datatype PollRun = PollRun(url: Option<string>, patches: seq<Patch>)

  function PollFrom(replies: seq<PollReply>, i: nat): (r: PollRun)
    requires i <= MaxPolls
    ensures |r.patches| <= MaxPolls - i
    ensures r.url.Some? ==> r.url.value != ""
    decreases MaxPolls - i
  {
    if i == MaxPolls then PollRun(None, [])
    else
      match ReplyAt(replies, i)
      case PollRaised => PollFrom(replies, i + 1)
      case StatusReply(st, url) =>
        if st == "completed" && url != "" then PollRun(Some(url), [PollPatch(i)])
        else if st == "failed" then PollRun(None, [PollPatch(i)])
        else
          var rest := PollFrom(replies, i + 1);
          PollRun(rest.url, [PollPatch(i)] + rest.patches)
  }

  /** An update that only moves the step and the progress. */
  ghost predicate StepOnly(u: Patch) {
    u.status.None? && u.result.None? && u.productInfo.None? && u.step.Some? && u.progress.Some?
  }

  /**
   * Every update made while polling only moves the step and the progress,
   * which stays within [min(92, 48 + i), 92] and never decreases.
   */
  lemma {:induction false} PollProgress(replies: seq<PollReply>, i: nat)
    requires i <= MaxPolls
    ensures forall k :: 0 <= k < |PollFrom(replies, i).patches| ==> StepOnly(PollFrom(replies, i).patches[k])
    ensures forall k :: 0 <= k < |Progresses(PollFrom(replies, i).patches)| ==>
              Min(92, 48 + i) <= Progresses(PollFrom(replies, i).patches)[k] <= 92
    ensures NonDecreasing(Progresses(PollFrom(replies, i).patches))
    decreases MaxPolls - i
  {
    if i < MaxPolls {
      PollProgress(replies, i + 1);
      var rest := PollFrom(replies, i + 1).patches;
      var u := PollPatch(i);
      var m := Min(92, 48 + i);
      assert Progresses([u]) == [m] by {
        assert [u][1..] == [];
      }
      if ReplyAt(replies, i).PollRaised? {
        assert PollFrom(replies, i) == PollFrom(replies, i + 1);
      } else if Finished(ReplyAt(replies, i)) {
        assert PollFrom(replies, i).patches == [u];
      } else {
        assert PollFrom(replies, i).patches == [u] + rest;
        ProgressesConcat([u], rest);
        NonDecreasingConcat([m], Progresses(rest));
      }
    }
  }

  /** A URL is returned only from a "completed" reply carrying it. */
  lemma {:induction false} PollUrlFromReply(replies: seq<PollReply>, i: nat)
    requires i <= MaxPolls
    ensures PollFrom(replies, i).url.Some? ==>
              exists k :: i <= k < MaxPolls && ReplyAt(replies, k) == StatusReply("completed", PollFrom(replies, i).url.value)
    decreases MaxPolls - i
  {
    if i < MaxPolls {
      PollUrlFromReply(replies, i + 1);
    }
  }

  /** The answered requests among `i..hi`: request `i` if answered, and those among `i+1..hi`. */
  lemma AnsweredSplit(replies: seq<PollReply>, i: nat, hi: nat)
    requires i <= hi
    ensures |set k: nat | i <= k <= hi && ReplyAt(replies, k).StatusReply?|
            == (if ReplyAt(replies, i).StatusReply? then 1 else 0)
               + |set k: nat | i + 1 <= k <= hi && ReplyAt(replies, k).StatusReply?|
  {
    var here := set k: nat | i <= k <= hi && ReplyAt(replies, k).StatusReply?;
    var later := set k: nat | i + 1 <= k <= hi && ReplyAt(replies, k).StatusReply?;
    if ReplyAt(replies, i).StatusReply? {
      assert here == later + {i};
    } else {
      assert here == later;
    }
  }

  /** The first finishing reply decides: its URL when it completed, nothing when it failed. */
  lemma {:induction false} PollFirstFinished(replies: seq<PollReply>, i: nat, n: nat)
    requires i <= n < MaxPolls
    requires Finished(ReplyAt(replies, n))
    requires forall k :: i <= k < n ==> !Finished(ReplyAt(replies, k))
    ensures (ReplyAt(replies, n).status == "completed" && ReplyAt(replies, n).videoUrl != "")
              ==> PollFrom(replies, i).url == Some(ReplyAt(replies, n).videoUrl)
    ensures ReplyAt(replies, n).status == "failed" ==> PollFrom(replies, i).url.None?
    ensures |PollFrom(replies, i).patches| == |set k: nat | i <= k <= n && ReplyAt(replies, k).StatusReply?|
    decreases n - i
  {
    if i < n {
      assert !Finished(ReplyAt(replies, i));
      PollFirstFinished(replies, i + 1, n);
      AnsweredSplit(replies, i, n);
    } else {
      assert (set k: nat | i <= k <= n && ReplyAt(replies, k).StatusReply?) == {i};
    }
  }

  /** The answered requests among `i..k-1`: request `i` if answered, and those among `i+1..k-1`. */
  lemma AnsweredBeforeSplit(replies: seq<PollReply>, i: nat, k: nat)
    requires i < k
    ensures |set j: nat | i <= j < k && ReplyAt(replies, j).StatusReply?|
            == (if ReplyAt(replies, i).StatusReply? then 1 else 0)
               + |set j: nat | i + 1 <= j < k && ReplyAt(replies, j).StatusReply?|
  {
    var here := set j: nat | i <= j < k && ReplyAt(replies, j).StatusReply?;
    var later := set j: nat | i + 1 <= j < k && ReplyAt(replies, j).StatusReply?;
    if ReplyAt(replies, i).StatusReply? {
      assert here == later + {i};
    } else {
      assert here == later;
    }
  }

  /**
   * The update written for answered request `k` (before any reply finished)
   * is `PollPatch(k)`: it comes after one update per earlier answered request,
   * and shows `(k + 1) * 8` seconds and progress `min(92, 48 + k)`.
   */
  lemma {:induction false} PollPatchAt(replies: seq<PollReply>, i: nat, k: nat)
    requires i <= k < MaxPolls && ReplyAt(replies, k).StatusReply?
    requires forall j :: i <= j < k ==> !Finished(ReplyAt(replies, j))
    ensures var c := |set j: nat | i <= j < k && ReplyAt(replies, j).StatusReply?|;
            c < |PollFrom(replies, i).patches| && PollFrom(replies, i).patches[c] == PollPatch(k)
            && PollFrom(replies, i).patches[c].progress == Some(Min(92, 48 + k))
    decreases k - i
  {
    if i == k {
      assert (set j: nat | i <= j < k && ReplyAt(replies, j).StatusReply?) == {};
    } else {
      assert !Finished(ReplyAt(replies, i));
      PollPatchAt(replies, i + 1, k);
      AnsweredBeforeSplit(replies, i, k);
    }
  }

  /** When no reply finishes, polling gives up after 80 requests with nothing. */
  lemma {:induction false} PollGivesUp(replies: seq<PollReply>, i: nat)
    requires i <= MaxPolls
    requires forall k :: i <= k < MaxPolls ==> !Finished(ReplyAt(replies, k))
    ensures PollFrom(replies, i).url.None?
    ensures |PollFrom(replies, i).patches| == |set k: nat | i <= k <= MaxPolls - 1 && ReplyAt(replies, k).StatusReply?|
    decreases MaxPolls - i
  {
    if i < MaxPolls {
      PollGivesUp(replies, i + 1);
      AnsweredSplit(replies, i, MaxPolls - 1);
    }
  }

  /**
   * `heygen_poll`: up to 80 status requests; each answered one records the
   * elapsed time and progress on the job; a completed reply with a URL returns
   * it, a failed reply returns nothing, and so does running out of requests.
   */
  method Poll(store: JobStore, jid: string, replies: seq<PollReply>) returns (url: Option<string>)
    modifies store
    ensures url == PollFrom(replies, 0).url
    ensures store.jobs == Updated(old(store.jobs), jid, PollFrom(replies, 0).patches)
  {
    ghost var ps: seq<Patch> := [];
    assert ps + PollFrom(replies, 0).patches == PollFrom(replies, 0).patches;
    var i := 0;
    while i < MaxPolls
      invariant 0 <= i <= MaxPolls
      invariant store.jobs == Updated(old(store.jobs), jid, ps)
      invariant PollFrom(replies, 0) == PollRun(PollFrom(replies, i).url, ps + PollFrom(replies, i).patches)
      decreases MaxPolls - i
    {
      var reply := ReplyAt(replies, i);
      if reply.StatusReply? {
        var u := PollPatch(i);
        store.Upd(jid, u);
        UpdatedConcat(old(store.jobs), jid, ps, [u]);
        ghost var rest := PollFrom(replies, i + 1);
        if reply.status == "completed" && reply.videoUrl != "" {
          assert PollFrom(replies, i).patches == [u];
          ps := ps + [u];
          return Some(reply.videoUrl);
        }
        if reply.status == "failed" {
          assert PollFrom(replies, i).patches == [u];
          ps := ps + [u];
          return None;
        }
        assert ps + ([u] + rest.patches) == (ps + [u]) + rest.patches;
        ps := ps + [u];
      }
      i := i + 1;
    }
    assert ps + [] == ps;
    return None;
  }

  // ---------------------------------------------------------------------
  // Download
  // ---------------------------------------------------------------------

  /** `heygen_download`: the job's output path when the GET answered 200, else "" (also when it raised). */
  function Downloaded(status: Option<int>, jid: string): (path: string)
    ensures path != "" <==> status == Some(200)
    ensures path != "" ==> path == OutputPath(jid)
  {
    if status == Some(200) then OutputPath(jid) else ""
  }
}
