/** The file-name arithmetic of `pathlib` the service uses, and where it writes videos. */
module Paths {
  import opened Wrappers
  import opened Text

  /** The outputs directory, relative to the application's base directory. */
  const OutputDir: string := "outputs"

  /** `OUTPUT / f"video_{jid}.mp4"`: where both renderers put the video of job `jid`. */
  function OutputPath(jid: string): string {
    OutputDir + "/video_" + jid + ".mp4"
  }

  /** The video of job `jid` is `outputs/video_<jid>.mp4`, with `jid` read back from its middle. */
  lemma OutputPathShape(jid: string)
    ensures var path := OutputPath(jid);
            |path| == |jid| + 18
            && path[..14] == "outputs/video_" && path[|path| - 4..] == ".mp4"
            && path[14..|path| - 4] == jid
  {
  }

  /** Different jobs write different files. */
  lemma OutputPathInjective(a: string, b: string)
    ensures OutputPath(a) == OutputPath(b) ==> a == b
  {
    OutputPathShape(a);
    OutputPathShape(b);
  }

  /** `Path(path).name`: the final component, the text after the last `/`. */
  function FileName(path: string): (r: string)
    ensures |r| <= |path| && r == path[|path| - |r|..]
    ensures '/' !in r
    ensures |r| < |path| ==> path[|path| - |r| - 1] == '/'
  {
    if path == [] then []
    else if path[|path| - 1] == '/' then []
    else
      var init := path[..|path| - 1];
      var r := FileName(init) + [path[|path| - 1]];
      assert path == init + [path[|path| - 1]];
      r
  }

  /** The file name of `dir/name` is `name` when `name` has no `/`. */
  lemma FileNameAfterSlash(dir: string, name: string)
    requires '/' !in name
    ensures FileName(dir + "/" + name) == name
  {
    var p := dir + "/" + name;
    var r := FileName(p);
    assert p[|dir|] == '/';
    assert p[|p| - |name|..] == name;
  }

  /** The file name of the video of a job whose identifier has no `/` is `video_<jid>.mp4`. */
  lemma OutputFileName(jid: string)
    requires '/' !in jid
    ensures FileName(OutputPath(jid)) == "video_" + jid + ".mp4"
  {
    var name := "video_" + jid + ".mp4";
    assert OutputPath(jid) == OutputDir + "/" + name;
    FileNameAfterSlash(OutputDir, name);
  }

  /** The index of the last `c` in `s` (Python's `s.rfind(c)` when it is not -1). */
  function LastIndex(s: string, c: char): (r: Option<nat>)
    ensures r.None? <==> c !in s
    ensures r.Some? ==> r.value < |s| && s[r.value] == c && c !in s[r.value + 1..]
  {
    if s == [] then None
    else if s[|s| - 1] == c then Some(|s| - 1)
    else
      assert s == s[..|s| - 1] + [s[|s| - 1]];
      LastIndex(s[..|s| - 1], c)
  }

  /** The last occurrence of `c` is the only one with no `c` after it. */
  lemma LastIndexUnique(s: string, c: char, i: nat)
    requires i < |s| && s[i] == c && c !in s[i + 1..]
    ensures LastIndex(s, c) == Some(i)
  {
  }

  /**
   * `Path(path).suffix.lower().lstrip(".") or "jpeg"`: the lower-cased text after
   * the last dot of the file name, when that dot is neither its first nor its
   * last character; otherwise "jpeg".
   */
  function Extension(path: string): (ext: string)
    ensures ext != []
    ensures '.' !in FileName(path) ==> ext == "jpeg"
  {
    var name := FileName(path);
    match LastIndex(name, '.')
    case Some(i) => if 0 < i < |name| - 1 then Lower(name[i + 1..]) else "jpeg"
    case None => "jpeg"
  }

  /**
   * When the last dot of the file name is at `i`, the extension is the lower-cased
   * text after it if that dot is neither first nor last, and "jpeg" otherwise.
   */
  lemma ExtensionAfterLastDot(path: string, i: nat)
    requires i < |FileName(path)| && FileName(path)[i] == '.' && '.' !in FileName(path)[i + 1..]
    ensures var name := FileName(path);
            Extension(path) == if 0 < i < |name| - 1 then Lower(name[i + 1..]) else "jpeg"
  {
    LastIndexUnique(FileName(path), '.', i);
  }
}
