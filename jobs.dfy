/**
 * The in-memory job store: one record per job identifier, updated in place by
 * `upd` as a background job advances.
 */
module Jobs {
  import opened Wrappers
  import opened Analyzer

  datatype Status = Pending | Processing | Done | Error

  /** The `product_info` summary shown while a job runs. */
  datatype ProductInfo = ProductInfo(title: string, price: string, gender: string, age: string, platform: string)

  /** The `result` of a finished job. */
  datatype JobResult = JobResult(
    videoUrl: string,
    videoFilename: string,
    product: Signals,
    script: string,
    captions: seq<string>,
    hashtags: seq<string>,
    usedHeygen: bool)

  /** A job record: the five keys every record has. */
  datatype Job = Job(
    status: Status,
    step: string,
    progress: int,
    result: Option<JobResult>,
    productInfo: Option<ProductInfo>)

  /** The keyword arguments of one `upd` call: `Some` for each key it sets. */
  datatype Patch = Patch(
    status: Option<Status>,
    step: Option<string>,
    progress: Option<int>,
    productInfo: Option<ProductInfo>,
    result: Option<JobResult>)

  /** The record `/api/create` stores before the job is scheduled. */
  const InitialJob: Job := Job(Pending, "Đang chuẩn bị...", 0, None, None)

  /** `dict.update`: the keys the patch sets take its values, the others keep theirs. */
  function Apply(j: Job, u: Patch): (r: Job)
    ensures u.status.Some? ==> r.status == u.status.value
    ensures u.status.None? ==> r.status == j.status
    ensures u.step.Some? ==> r.step == u.step.value
    ensures u.step.None? ==> r.step == j.step
    ensures u.progress.Some? ==> r.progress == u.progress.value
    ensures u.progress.None? ==> r.progress == j.progress
    ensures u.result.Some? ==> r.result == u.result
    ensures u.result.None? ==> r.result == j.result
    ensures u.productInfo.Some? ==> r.productInfo == u.productInfo
    ensures u.productInfo.None? ==> r.productInfo == j.productInfo
  {
    Job(u.status.GetOr(j.status),
        u.step.GetOr(j.step),
        u.progress.GetOr(j.progress),
        if u.result.Some? then u.result else j.result,
        if u.productInfo.Some? then u.productInfo else j.productInfo)
  }

  /** Applying the same patch twice is applying it once. */
  lemma ApplyIdempotent(j: Job, u: Patch)
    ensures Apply(Apply(j, u), u) == Apply(j, u)
  {
  }

  /** A later patch that sets every key an earlier one sets hides the earlier one entirely. */
  lemma ApplyOverride(j: Job, u: Patch, v: Patch)
    requires u.status.Some? ==> v.status.Some?
    requires u.step.Some? ==> v.step.Some?
    requires u.progress.Some? ==> v.progress.Some?
    requires u.result.Some? ==> v.result.Some?
    requires u.productInfo.Some? ==> v.productInfo.Some?
    ensures Apply(Apply(j, u), v) == Apply(j, v)
  {
  }

  /** The patches applied one after the other, the last one last. */
  function ApplyAll(j: Job, ps: seq<Patch>): Job
    decreases |ps|
  {
    if ps == [] then j else Apply(ApplyAll(j, ps[..|ps| - 1]), ps[|ps| - 1])
  }

  /** A single patch applied on its own. */
  lemma ApplyAllOne(j: Job, u: Patch)
    ensures ApplyAll(j, [u]) == Apply(j, u)
  {
    assert [u][..0] == [];
  }

  /** Applying `ps` and then `qs` is applying `ps + qs`. */
  lemma {:induction false} ApplyAllConcat(j: Job, ps: seq<Patch>, qs: seq<Patch>)
    ensures ApplyAll(ApplyAll(j, ps), qs) == ApplyAll(j, ps + qs)
    decreases |qs|
  {
    if qs == [] {
      assert ps + qs == ps;
    } else {
      var init := qs[..|qs| - 1];
      ApplyAllConcat(j, ps, init);
      assert (ps + qs)[..|ps + qs| - 1] == ps + init;
    }
  }

  /** A key no patch of `ps` sets keeps its value: here the result. */
  lemma {:induction false} ResultUntouched(j: Job, ps: seq<Patch>)
    requires forall k :: 0 <= k < |ps| ==> ps[k].result.None?
    ensures ApplyAll(j, ps).result == j.result
    decreases |ps|
  {
    if ps != [] {
      ResultUntouched(j, ps[..|ps| - 1]);
    }
  }

  /** A key no patch of `ps` sets keeps its value: here the status. */
  lemma {:induction false} StatusUntouched(j: Job, ps: seq<Patch>)
    requires forall k :: 0 <= k < |ps| ==> ps[k].status.None?
    ensures ApplyAll(j, ps).status == j.status
    decreases |ps|
  {
    if ps != [] {
      StatusUntouched(j, ps[..|ps| - 1]);
    }
  }

  /** A key no patch of `ps` sets keeps its value: here the product summary. */
  lemma {:induction false} InfoUntouched(j: Job, ps: seq<Patch>)
    requires forall k :: 0 <= k < |ps| ==> ps[k].productInfo.None?
    ensures ApplyAll(j, ps).productInfo == j.productInfo
    decreases |ps|
  {
    if ps != [] {
      InfoUntouched(j, ps[..|ps| - 1]);
    }
  }

  /** The last patch that sets the progress decides it. */
  lemma {:induction false} LastProgressWins(j: Job, ps: seq<Patch>, k: nat)
    requires k < |ps| && ps[k].progress.Some?
    requires forall i :: k < i < |ps| ==> ps[i].progress.None?
    ensures ApplyAll(j, ps).progress == ps[k].progress.value
    decreases |ps|
  {
    if k < |ps| - 1 {
      LastProgressWins(j, ps[..|ps| - 1], k);
    }
  }

  /** The progress values the patches set, in the order they set them. */
  function Progresses(ps: seq<Patch>): (r: seq<int>)
    ensures |r| <= |ps|
  {
    if ps == [] then []
    else (if ps[0].progress.Some? then [ps[0].progress.value] else []) + Progresses(ps[1..])
  }

  lemma {:induction false} ProgressesConcat(a: seq<Patch>, b: seq<Patch>)
    ensures Progresses(a + b) == Progresses(a) + Progresses(b)
    decreases |a|
  {
    if a == [] {
      assert a + b == b;
    } else {
      var h := if a[0].progress.Some? then [a[0].progress.value] else [];
      assert (a + b)[0] == a[0] && (a + b)[1..] == a[1..] + b;
      ProgressesConcat(a[1..], b);
      calc {
        Progresses(a + b);
        h + Progresses(a[1..] + b);
        h + (Progresses(a[1..]) + Progresses(b));
        (h + Progresses(a[1..])) + Progresses(b);
      }
    }
  }

  ghost predicate NonDecreasing(s: seq<int>) {
    forall i, j :: 0 <= i < j < |s| ==> s[i] <= s[j]
  }

  /** Two non-decreasing runs, the first nowhere above the second, make one. */
  lemma NonDecreasingConcat(a: seq<int>, b: seq<int>)
    requires NonDecreasing(a) && NonDecreasing(b)
    requires forall i, j :: 0 <= i < |a| && 0 <= j < |b| ==> a[i] <= b[j]
    ensures NonDecreasing(a + b)
  {
    forall i, j | 0 <= i < j < |a + b| ensures (a + b)[i] <= (a + b)[j] {
      if j < |a| {
        assert (a + b)[i] == a[i] && (a + b)[j] == a[j];
      } else if i < |a| {
        assert (a + b)[i] == a[i] && (a + b)[j] == b[j - |a|];
      } else {
        assert (a + b)[i] == b[i - |a|] && (a + b)[j] == b[j - |a|];
      }
    }
  }

  /** The job table after the patches `ps` are applied to job `jid`, if it exists. */
  function Updated(jobs: map<string, Job>, jid: string, ps: seq<Patch>): (r: map<string, Job>)
    ensures r.Keys == jobs.Keys
    ensures forall other :: other in jobs && other != jid ==> r[other] == jobs[other]
  {
    if jid in jobs then jobs[jid := ApplyAll(jobs[jid], ps)] else jobs
  }

  /** The job `jid` itself, when it exists, ends up with every patch of `ps` applied in order. */
  lemma UpdatedJob(jobs: map<string, Job>, jid: string, ps: seq<Patch>)
    ensures jid in jobs ==> jid in Updated(jobs, jid, ps) && Updated(jobs, jid, ps)[jid] == ApplyAll(jobs[jid], ps)
  {
  }

  /** Updating with `ps` and then `qs` is updating with `ps + qs`. */
  lemma UpdatedConcat(jobs: map<string, Job>, jid: string, ps: seq<Patch>, qs: seq<Patch>)
    ensures Updated(Updated(jobs, jid, ps), jid, qs) == Updated(jobs, jid, ps + qs)
  {
    if jid in jobs {
      ApplyAllConcat(jobs[jid], ps, qs);
    }
  }

  /** The module-level `jobs` dictionary. */
  class JobStore {
    var jobs: map<string, Job>

    constructor()
      ensures jobs == map[]
    {
      jobs := map[];
    }

    /** `jobs[jid] = {...}` in `/api/create`: a fresh pending record. */
    method Register(jid: string)
      modifies this
      ensures jobs == old(jobs)[jid := InitialJob]
    {
      jobs := jobs[jid := InitialJob];
    }

    /** `upd`: patches an existing record and ignores an unknown identifier. */
    method Upd(jid: string, u: Patch)
      modifies this
      ensures jobs == Updated(old(jobs), jid, [u])
      ensures jid in old(jobs) ==> jobs[jid] == Apply(old(jobs)[jid], u)
      ensures jid !in old(jobs) ==> jobs == old(jobs)
    {
      if jid in jobs {
        ApplyAllOne(jobs[jid], u);
        jobs := jobs[jid := Apply(jobs[jid], u)];
      }
    }
  }
}
