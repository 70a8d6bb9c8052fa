/**
 * The FFmpeg fallback renderer: the ASCII overlay texts, the filter chain and
 * the command line of `make_ffmpeg_video`, and the path it reports. Running
 * the command is not modelled: whether the output file exists afterwards is
 * an input.
 */
module Render {
  import opened Text
  import opened Paths
  import opened Analyzer

  predicate IsAscii(c: char) {
    (c as int) < 128
  }

  /** Every character of `s` is ASCII. */
  predicate AllAscii(s: string) {
    forall i :: 0 <= i < |s| ==> IsAscii(s[i])
  }

  /** `s.encode("ascii", "ignore").decode()`: the ASCII characters of `s`, in order. */
  function AsciiOnly(s: string): (r: string)
    ensures |r| <= |s| && AllAscii(r)
    ensures forall c :: c in r <==> c in s && IsAscii(c)
  {
    if s == [] then []
    else (if IsAscii(s[0]) then [s[0]] else []) + AsciiOnly(s[1..])
  }

  /** The encoding works piece by piece. */
  lemma {:induction false} AsciiOnlyAppend(a: string, b: string)
    ensures AsciiOnly(a + b) == AsciiOnly(a) + AsciiOnly(b)
    decreases |a|
  {
    if a == [] {
      assert a + b == b;
    } else {
      assert (a + b)[0] == a[0] && (a + b)[1..] == a[1..] + b;
      AsciiOnlyAppend(a[1..], b);
    }
  }

  /** On one character: an ASCII character is kept, any other is dropped. */
  lemma AsciiOnlyOne(c: char)
    ensures AsciiOnly([c]) == if IsAscii(c) then [c] else []
  {
    assert [c][1..] == [];
  }

  /** Text that is already ASCII is left as it is. */
  lemma {:induction false} AsciiOnlyKeepsAscii(s: string)
    requires AllAscii(s)
    ensures AsciiOnly(s) == s
  {
    if s != [] {
      assert AllAscii(s[1..]) by {
        forall i | 0 <= i < |s[1..]| ensures IsAscii(s[1..][i]) {
          assert s[1..][i] == s[i + 1];
        }
      }
      AsciiOnlyKeepsAscii(s[1..]);
      assert [s[0]] + s[1..] == s;
    }
  }

  // ---------------------------------------------------------------------
  // Overlay texts
  // ---------------------------------------------------------------------

  /** The three texts drawn over the video. */
  datatype Overlay = Overlay(title: string, subtitle: string, priceLine: string)

  /**
   * The title overlay: at most 32 characters of the title ("Thoi trang be"
   * when it is empty), then only their ASCII characters. Nothing else is
   * removed: quotes and colons pass through.
   */
  function OverlayTitle(title: string): (r: string)
    ensures |r| <= 32 && AllAscii(r)
    ensures title != "" ==> forall c :: c in r <==> c in Prefix(title, 32) && IsAscii(c)
    ensures title == "" ==> r == "Thoi trang be"
    ensures title != "" ==> r == AsciiOnly(Prefix(title, 32))
  {
    AsciiOnlyKeepsAscii("Thoi trang be");
    AsciiOnly(Prefix(if title != "" then title else "Thoi trang be", 32))
  }

  /** An ASCII title is drawn as its first 32 characters, unchanged and in order. */
  lemma OverlayTitleKeepsAscii(title: string)
    requires title != "" && AllAscii(title)
    ensures OverlayTitle(title) == Prefix(title, 32)
  {
    var pre := Prefix(title, 32);
    assert AllAscii(pre) by {
      forall i | 0 <= i < |pre| ensures IsAscii(pre[i]) {
        assert pre[i] == title[i];
      }
    }
    AsciiOnlyKeepsAscii(pre);
  }

  /** The price overlay: "Gia: <price>" with the price's ASCII characters, or "Gia sieu hot!" when none is left. */
  function OverlayPrice(price: string): (r: string)
    ensures AllAscii(r)
    ensures AsciiOnly(price) != "" ==> r == "Gia: " + AsciiOnly(price)
    ensures AsciiOnly(price) == "" ==> r == "Gia sieu hot!"
  {
    var pr := AsciiOnly(price);
    if pr != "" then
      var r := "Gia: " + pr;
      assert forall i :: 5 <= i < |r| ==> r[i] == pr[i - 5];
      r
    else "Gia sieu hot!"
  }

  /**
   * The subtitle: the ASCII gender ("be" when the gender is empty), followed
   * by a space and the ASCII age label with the whole stripped when there is
   * an age label left, else the gender alone.
   */
  function OverlaySubtitle(gender: string, ageLabel: string): (r: string)
    ensures AllAscii(r)
    ensures AsciiOnly(ageLabel) == "" ==> r == AsciiOnly(if gender != "" then gender else "be")
    ensures AsciiOnly(ageLabel) != "" ==> r == Strip(AsciiOnly(if gender != "" then gender else "be") + " " + AsciiOnly(ageLabel))
  {
    var g := AsciiOnly(if gender != "" then gender else "be");
    var age := AsciiOnly(ageLabel);
    if age != "" then
      var joined := g + " " + age;
      assert AllAscii(joined) by {
        forall i | 0 <= i < |joined| ensures IsAscii(joined[i]) {
          if i < |g| {
          } else if i > |g| {
            assert joined[i] == age[i - |g| - 1];
          }
        }
      }
      StripKeepsAscii(joined);
      Strip(joined)
    else g
  }

  /** Stripping ASCII text leaves ASCII text. */
  lemma StripKeepsAscii(s: string)
    requires AllAscii(s)
    ensures AllAscii(Strip(s))
  {
    var a := LeadSpaces(s);
    forall i | 0 <= i < |Strip(s)| ensures IsAscii(Strip(s)[i]) {
      assert Strip(s)[i] == s[a + i];
    }
  }

  function OverlayOf(p: Signals): Overlay {
    Overlay(OverlayTitle(p.title), OverlaySubtitle(p.gender, p.ageLabel), OverlayPrice(p.price))
  }

  // ---------------------------------------------------------------------
  // Filter chains
  // ---------------------------------------------------------------------

  /** The filters of a chain joined by `sep`. */
  function Join(parts: seq<string>, sep: string): string {
    if parts == [] then ""
    else if |parts| == 1 then parts[0]
    else parts[0] + sep + Join(parts[1..], sep)
  }

  /** Every filter of a chain occurs in the joined chain. */
  lemma {:induction false} JoinContains(parts: seq<string>, sep: string, k: nat)
    requires k < |parts|
    ensures Occurs(parts[k], Join(parts, sep))
  {
    if |parts| == 1 {
      assert parts[0] <= Join(parts, sep)[0..];
    } else if k == 0 {
      assert parts[0] <= Join(parts, sep)[0..];
    } else {
      JoinContains(parts[1..], sep, k - 1);
      OccursInConcat(parts[k], parts[0] + sep, Join(parts[1..], sep));
    }
  }

  /** The `text='...'` head of a `drawtext` filter. */
  function TextOption(text: string): string {
    "drawtext=text='" + text + "'"
  }

  /** A `drawtext` filter: the text in single quotes, then its options. */
  function Drawtext(text: string, options: string): (r: string)
    ensures Occurs(TextOption(text), r)
  {
    OccursInMiddle("", TextOption(text), ":" + options);
    assert "" + TextOption(text) + (":" + options) == TextOption(text) + ":" + options;
    TextOption(text) + ":" + options
  }

  const Brand: string := "AutoVis AI"
  const CallToAction: string := "Dat hang ngay!"

  const ScaleFilter: string := "scale=1080:1920:force_original_aspect_ratio=decrease"
  const PadFilter: string := "pad=1080:1920:(ow-iw)/2:(oh-ih)/2:color=#1a0a2e"
  const ZoomFilter: string :=
    "zoompan=z='min(zoom+0.0006,1.25)':x='iw/2-(iw/zoom/2)':y='ih/2-(ih/zoom/2)':d=450:s=1080x1920"
  const WatermarkOptions: string := "fontsize=20:fontcolor=white@0.5:x=w-tw-16:y=h-th-16"
  const TitleOptions: string :=
    "fontsize=36:fontcolor=white:x=(w-text_w)/2:y=160:box=1:boxcolor=black@0.65:boxborderw=12:"
    + "alpha='if(lt(t,0.5),0,if(lt(t,1.5),t-0.5,1))'"
  const SubtitleOptions: string :=
    "fontsize=26:fontcolor=#FFD700:x=(w-text_w)/2:y=215:box=1:boxcolor=black@0.5:boxborderw=8"
  const PriceOptions: string :=
    "fontsize=30:fontcolor=#FF6B9D:x=(w-text_w)/2:y=260:box=1:boxcolor=black@0.55:boxborderw=10"
  const CallOptions: string :=
    "fontsize=28:fontcolor=#00FF88:x=(w-text_w)/2:y=h-120:box=1:boxcolor=black@0.6:boxborderw=10:"
    + "alpha='if(lt(t,1),0,if(lt(t,2),t-1,1))'"

  const BannerOptions: string :=
    "fontsize=52:fontcolor=white:x=(w-text_w)/2:y=h/2-80:alpha='if(lt(t,0.5),0,if(lt(t,1.5),t-0.5,1))'"
  const PlainTitleOptions: string :=
    "fontsize=32:fontcolor=#FFD700:x=(w-text_w)/2:y=h/2+20:box=1:boxcolor=black@0.4:boxborderw=8"
  const PlainPriceOptions: string := "fontsize=28:fontcolor=#FF6B9D:x=(w-text_w)/2:y=h/2+80"

  /** The chain over the product image: fit, pad, slow zoom, watermark, title, subtitle, price, call to action. */
  function ImageChain(o: Overlay): (fs: seq<string>)
    ensures |fs| == 8
    ensures fs[4] == Drawtext(o.title, TitleOptions) && fs[5] == Drawtext(o.subtitle, SubtitleOptions)
    ensures fs[6] == Drawtext(o.priceLine, PriceOptions)
  {
    [ScaleFilter, PadFilter, ZoomFilter, Drawtext(Brand, WatermarkOptions), Drawtext(o.title, TitleOptions),
     Drawtext(o.subtitle, SubtitleOptions), Drawtext(o.priceLine, PriceOptions), Drawtext(CallToAction, CallOptions)]
  }

  /** The chain over the plain colour: banner, title, price. */
  function PlainChain(o: Overlay): (fs: seq<string>)
    ensures |fs| == 3
    ensures fs[1] == Drawtext(o.title, PlainTitleOptions) && fs[2] == Drawtext(o.priceLine, PlainPriceOptions)
  {
    [Drawtext(Brand, BannerOptions), Drawtext(o.title, PlainTitleOptions), Drawtext(o.priceLine, PlainPriceOptions)]
  }

  // ---------------------------------------------------------------------
  // The command and its outcome
  // ---------------------------------------------------------------------

  /** The title, subtitle and price overlays all appear in the joined image chain. */
  lemma ImageChainOverlays(o: Overlay)
    ensures Occurs(TextOption(o.title), Join(ImageChain(o), ","))
    ensures Occurs(TextOption(o.subtitle), Join(ImageChain(o), ","))
    ensures Occurs(TextOption(o.priceLine), Join(ImageChain(o), ","))
  {
    var fs := ImageChain(o);
    JoinContains(fs, ",", 4);
    JoinContains(fs, ",", 5);
    JoinContains(fs, ",", 6);
    OccursTransitive(TextOption(o.title), fs[4], Join(fs, ","));
    OccursTransitive(TextOption(o.subtitle), fs[5], Join(fs, ","));
    OccursTransitive(TextOption(o.priceLine), fs[6], Join(fs, ","));
  }

  /** The title and price overlays both appear in the joined plain chain. */
  lemma PlainChainOverlays(o: Overlay)
    ensures Occurs(TextOption(o.title), Join(PlainChain(o), ","))
    ensures Occurs(TextOption(o.priceLine), Join(PlainChain(o), ","))
  {
    var fs := PlainChain(o);
    JoinContains(fs, ",", 1);
    JoinContains(fs, ",", 2);
    OccursTransitive(TextOption(o.title), fs[1], Join(fs, ","));
    OccursTransitive(TextOption(o.priceLine), fs[2], Join(fs, ","));
  }

  /** One FFmpeg invocation: input options, duration, filter chain, encoder options, output path. */
  datatype Invocation = Invocation(input: seq<string>, seconds: string, filter: string, encoding: seq<string>, output: string)

  /** The argument vector of an invocation, in the order `make_ffmpeg_video` lists it. */
  function Argv(inv: Invocation): (argv: seq<string>)
    ensures |argv| == |inv.input| + |inv.encoding| + 7
    ensures argv[0] == "ffmpeg" && argv[|argv| - 1] == inv.output
  {
    ["ffmpeg", "-y"] + inv.input + ["-t", inv.seconds, "-vf", inv.filter] + inv.encoding + [inv.output]
  }

  const PlainSource: string := "color=c=0x1a0a2e:size=1080x1920:rate=30"

  /**
   * The FFmpeg invocation: a 25-second zooming video at 30 frames a second
   * over the image when there is one on disk, a 15-second video over a plain
   * colour otherwise; both draw the title and price overlays (the image one
   * the subtitle too) and write to `out`.
   */
  function Command(img: string, imgOnDisk: bool, o: Overlay, out: string): (inv: Invocation)
    ensures inv.output == out
    ensures (img != "" && imgOnDisk) ==> inv.input == ["-loop", "1", "-i", img] && inv.seconds == "25"
    ensures !(img != "" && imgOnDisk) ==> inv.input == ["-f", "lavfi", "-i", PlainSource] && inv.seconds == "15"
    ensures Occurs(TextOption(o.title), inv.filter) && Occurs(TextOption(o.priceLine), inv.filter)
    ensures (img != "" && imgOnDisk) ==> Occurs(TextOption(o.subtitle), inv.filter)
  {
    if img != "" && imgOnDisk then
      ImageChainOverlays(o);
      Invocation(["-loop", "1", "-i", img], "25", Join(ImageChain(o), ","),
                 ["-c:v", "libx264", "-preset", "fast", "-crf", "22", "-pix_fmt", "yuv420p", "-r", "30"], out)
    else
      PlainChainOverlays(o);
      Invocation(["-f", "lavfi", "-i", PlainSource], "15", Join(PlainChain(o), ","),
                 ["-c:v", "libx264", "-preset", "ultrafast", "-pix_fmt", "yuv420p"], out)
  }

  /** What one call of `make_ffmpeg_video` runs and reports. */
  datatype RenderRun = RenderRun(command: Invocation, output: string)

  /**
   * `make_ffmpeg_video`: the command for the job's overlays, and the output
   * path when the file exists afterwards (`rendered`), "" otherwise.
   */
  function MakeFfmpegVideo(img: string, imgOnDisk: bool, p: Signals, jid: string, rendered: bool): (r: RenderRun)
    ensures r.command == Command(img, imgOnDisk, OverlayOf(p), OutputPath(jid))
    ensures r.command.output == OutputPath(jid)
    ensures r.output != "" <==> rendered
    ensures rendered ==> r.output == OutputPath(jid)
  {
    RenderRun(Command(img, imgOnDisk, OverlayOf(p), OutputPath(jid)), if rendered then OutputPath(jid) else "")
  }
}
