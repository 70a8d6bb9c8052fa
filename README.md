# AutoVis AI job pipeline, in Dafny

AutoVis AI is a small web service that turns a product link (or an uploaded
product photo) into a short vertical marketing video for children's clothing.
`/api/create` registers a job in an in-memory job store and schedules the
background coroutine `process`. That coroutine:

1. analyses the product page (platform, title, price, image, and the kids /
   gender / age / style signals found by keyword);
2. writes a Vietnamese advertising script from one of the age bracket's
   templates, plus three captions and three hashtag lines;
3. with an API key, asks HeyGen for an avatar video (optional background
   upload, create, poll up to 80 times, download);
4. otherwise, or when HeyGen produced nothing, renders a fallback video with
   FFmpeg;
5. stores the result.

Throughout, it reports a step label and a percentage through `upd`.

The model is split into modules that follow the program:

- **`Text`**: the Python string built-ins the service relies on. These are
  `in`, `lower`, `strip`, the whitespace collapse of `re.sub(r'\s+', ' ', …)`,
  slicing, `replace(' ', '')` and decimal formatting.
- **`Paths`**: the `pathlib` arithmetic (`name`, `suffix`) and the output path
  `outputs/video_<jid>.mp4`.
- **`Analyzer`**: `analyze_product` and `analyze_image_locally`. The fetched
  HTML is given as the matches its regular expressions found. `ScanFirst` is
  the first-match loop over the platform hints and the age map.
- **`Copy`**: `make_script`, with the templates as lists of literal pieces and
  placeholders, and `make_content`.
- **`Jobs`**: the job record, one `upd` call as a patch, and the `JobStore`
  class whose `jobs` map `Upd` and `Register` update in place.
- **`HeyGen`**: the MIME type of the upload, the id extraction from replies,
  the create payload, the polling loop (`Poll`, a method with a loop, proved
  against the function `PollFrom`) and the download.
- **`Render`**: the text sanitising of the fallback renderer, its two filter
  chains, its FFmpeg argument vector and its outcome.
- **`Pipeline`**: `process` as the method `Process`, in three stage methods
  (`Analyse`, `Generate`, `Deliver`). It is proved to write exactly the
  patches of the function `Run`, which the lemmas then characterise. The
  module also holds the argument preparation and job registration of
  `/api/create`.

Everything a run learns from outside is a `World` value: the page, the image
download, which files exist, the template drawn by `random.choice`, each HTTP
reply, whether FFmpeg left a file, and an exception that reaches the `except`
of `process`.

Three behaviours of the code are easy to miss:

- **Progress can fall.** A HeyGen video whose download fails writes 94%, and
  then the fallback renderer writes 65%. `Pipeline.ProgressDropsAtFallback`
  exhibits such a run. `Pipeline.ProgressRises` proves the progress rises up
  to that point, and all the way to 100 when the HeyGen video arrives.
- **Sanitising.** The fallback renderer removes only non-ASCII characters from
  the overlay texts (`encode("ascii", "ignore")`), so quotes and colons reach
  the filter string. `Render.AsciiOnly` models exactly that.
- **Rendering.** The fallback renderer draws at most one image, with fixed
  font sizes, and its only success test is that the output file exists.

## Model

| member | source | states |
|---|---|---|
| Text.Contains | main.py:90 | true exactly when the pattern occurs as a contiguous piece of the text (Python's substring `in`) |
| Text.ContainsAny | main.py:129 | true exactly when some word of the list occurs in the text |
| Text.Lower | main.py:128 | the lower-cased text has the same length and each character is lower-cased on its own |
| Text.LowerAppend | main.py:128 | lower-casing a concatenation lower-cases each part |
| Text.LowerIdempotent | main.py:128 | lower-casing an already lower-cased text changes nothing |
| Text.Strip | main.py:94 | the result is the slice of the input that starts after its leading whitespace; everything before and after that slice is whitespace; it has no whitespace at either end; it is empty exactly when the input is all whitespace |
| Text.StripVisible | main.py:94 | stripping keeps every visible character, in order |
| Text.CollapseSpaces | main.py:94 | no two whitespace characters are adjacent afterwards; no longer than the input; empty exactly when the input is; starts with whitespace exactly when the input does |
| Text.CollapseKeepsVisible | main.py:94 | the visible characters are all kept, in order |
| Text.CollapseConcat | main.py:94 | a text ending in a visible character collapses independently of what follows it |
| Text.CollapseRun | main.py:94 | a non-empty whitespace run between a visible end and a visible start becomes exactly one space, whatever its length and kind |
| Text.CollapseVisible | main.py:94 | a text without whitespace is left unchanged |
| Text.Prefix | main.py:94 | `[:n]` is a prefix of at most `n` characters, exactly `n` when the text is longer, and the whole text when it is that short |
| Text.StripPrefixVisible | main.py:94 | a stripped and cut text keeps a prefix of the visible characters, all of them when nothing was cut |
| Text.CleanTitle | main.py:94 | the cleaned title is single-spaced with no leading whitespace; it is a prefix of the collapsed and stripped text, exactly 100 characters of it when that is longer; its visible characters are a prefix of the raw title's, all of them when it fits |
| Text.RemoveSpaces | main.py:242 | no space remains and every other character keeps its number of occurrences |
| Text.RemoveSpacesAppend | main.py:242 | removing spaces from a concatenation removes them from each part, so order is kept |
| Text.RemoveSpacesOne | main.py:242 | on one character, a space is dropped and anything else is kept |
| Text.NatToString | main.py:298 | the decimal text of a number is non-empty and made of digits; one digit exactly below 10; no leading zero unless it is the single digit of 0 |
| Text.NatToStringRoundTrip | main.py:298 | reading the decimal text back gives the number |
| Paths.FileName | main.py:434 | the file name is the tail of the path after its last `/` and has no `/` |
| Paths.FileNameAfterSlash | main.py:434 | the file name of `dir/name` is `name` when `name` has no `/` |
| Paths.OutputFileName | main.py:308 | the file name of a job's output path is `video_<jid>.mp4` |
| Paths.LastIndex | main.py:253 | absent exactly when the character does not occur; otherwise it is an occurrence with none after it |
| Paths.Extension | main.py:253 | the upload extension is never empty; it is `jpeg` when the file name has no dot |
| Paths.ExtensionAfterLastDot | main.py:253 | with the last dot of the file name at `i`, the extension is the lower-cased text after it when that dot is neither first nor last, `jpeg` otherwise |
| Paths.OutputPathShape | main.py:308 | the output path is `outputs/video_<jid>.mp4`, with `jid` read back from its middle |
| Paths.OutputPathInjective | main.py:308 | different jobs write different output files |
| Analyzer.FirstMatch | main.py:89-90 | nothing exactly when no key of the table occurs in the text; a match only when some key occurs |
| Analyzer.FirstMatchAt | main.py:136-138 | when entry `k` occurs and no earlier entry does, the first match is entry `k`'s value |
| Analyzer.ScanFirst | main.py:136-138 | the loop over the table returns the first match's value, or the default when there is none |
| Analyzer.PlatformOf | main.py:88-90 | "Website" when no hint occurs in the URL; otherwise the label of the first hint that occurs |
| Analyzer.PlatformLabels | main.py:50-57 | the platform is one of the six hint labels or "Website" |
| Analyzer.AgeOf | main.py:135-138 | the default toddler bracket when no age keyword occurs; otherwise the bracket of the first one that occurs; the key is one of the four age keys |
| Analyzer.ToddlerKeyword | main.py:65-74 | a text mentioning "toddler" and none of the earlier keywords gets the toddler bracket |
| Analyzer.IsKids | main.py:129 | a kids product exactly when some kids keyword occurs |
| Analyzer.GenderOf | main.py:131-133 | "bé gái" exactly when a girl word occurs; "bé trai" exactly when no girl word but a boy word occurs; "bé" exactly when neither occurs |
| Analyzer.GirlWordsWin | main.py:131-133 | a girl word decides the gender even when a boy word occurs too |
| Analyzer.StyleOf | main.py:140-143 | each of the four style labels exactly under its precedence condition (luxury, then sporty, then kawaii, else "cute & colorful") |
| Analyzer.TitleOf | main.py:93-94 | "Sản phẩm" without a title match; otherwise at most 100 characters, single-spaced, no leading whitespace, a prefix of the collapsed and stripped match, exactly 100 characters of it when that is longer, and a prefix of its visible text |
| Analyzer.PriceOf | main.py:103-107 | the VND price when one was found, else the structured price with "đ" appended, else "" |
| Analyzer.ImageUrlOf | main.py:110-113 | the first `og:image`, else the first matching `<img>`, else "" |
| Analyzer.LocalImageOf | main.py:116-125 | a local copy exactly when there is an image URL and its GET answered 200 with more than 1000 bytes; it is the saved file |
| Analyzer.FailureSignals | main.py:159-165 | the fallback record when the page cannot be read: toddler, kids, Shopee, no local image |
| Analyzer.ImageOnlySignals | main.py:168-178 | the record for an uploaded image: that image, platform "Upload", no price, toddler, kids, no source URL |
| Analyzer.ScanText | main.py:128 | the scanned text is the lower-cased title, a space and the lower-cased description, and is already lower-case |
| Analyzer.Analyzed | main.py:76-165 | the failure record when the page fetch raised; otherwise the record built field by field from the page: cleaned title, stripped description, price, platform of the link, image URL and its local copy, and the kids flag, gender, age label and key and style read from the lower-cased title and description; the age key is one of the four and the source URL is the link |
| Analyzer.AnalyzeProduct | main.py:76-165 | the analysis method computes the `Analyzed` record |
| Copy.TemplatesFor | main.py:209-210 | each of the four age keys gets its own list of templates, an unknown key the toddler list; at least one template; every template has a title and a price placeholder |
| Copy.TemplatesWellFormed | main.py:182-206 | each of the five templates has a `{title}` and a `{price_text}` placeholder |
| Copy.PriceText | main.py:213-214 | "Giá chỉ <price>! " with a price, "Giá cực hấp dẫn! " without |
| Copy.ScriptTitle | main.py:216 | at most 45 characters; "sản phẩm này" for an empty title; otherwise a prefix of the title, exactly 45 characters when it is longer, the whole title when it fits |
| Copy.Fill | main.py:215-222 | an empty template formats to nothing, a one-piece template to that piece filled in |
| Copy.FillConcat | main.py:215-222 | formatting a template made of two parts formats each part and joins them |
| Copy.FillContainsPiece | main.py:215-222 | every piece of a template, filled in, occurs in the formatted text |
| Copy.MakeScript | main.py:208-222 | the script is one of the age key's templates filled in, and it contains the title value and the price sentence |
| Copy.CaptionTitle | main.py:227 | at most 40 characters; "Thời trang bé" for an empty title; otherwise a prefix of the title, exactly 40 characters when it is longer, the whole title when it fits |
| Copy.PriceLine | main.py:232 | empty exactly when there is no price; otherwise "\n💰 Chỉ <price>" |
| Copy.GenderTag | main.py:242 | a hashtag: `#` followed by the gender with its spaces removed |
| Copy.GenderHashtags | main.py:242 | the second hashtag line contains the gender tag |
| Copy.CareCaption | main.py:235 | the first caption contains the title and price line |
| Copy.TrendCaption | main.py:236 | the second caption contains the title and price line |
| Copy.CuteCaption | main.py:237 | the third caption contains the title and price line |
| Copy.MakeContent | main.py:226-246 | three captions and three hashtag lines; every caption contains the title and price line; the first and last hashtag lines are fixed; the middle one has the gender tag |
| HeyGen.MimeFor | main.py:254 | `image/<ext>` for jpg, jpeg, png and webp, `image/jpeg` otherwise, so always one of those four types |
| HeyGen.IdOf | main.py:259 | no id when the call raised or `data` is not an object; the `data` id when it is truthy; otherwise the top-level id |
| HeyGen.IdProvenance | main.py:282 | a truthy id came from the reply's `data` or its top level |
| HeyGen.CreatePayload | main.py:265-275 | an image background exactly when an upload id exists, with the resource URL; else the pink colour; 1080×1920 (9:16); the script, avatar and voice as given; normal style, speed 1.0, not a test |
| HeyGen.DurationIgnored | main.py:264-275 | the requested duration does not change the request |
| HeyGen.PollPatch | main.py:297-298 | the i-th status update shows `(i+1)*8` seconds and progress `min(92, 48+i)`, and sets nothing else |
| HeyGen.RenderingStep | main.py:298 | the step text is the fixed render lead, then the seconds, then "s)" |
| HeyGen.RenderingStepSeconds | main.py:298 | the middle of the step text is digits that read back as the seconds |
| HeyGen.RenderingStepInjective | main.py:298 | different elapsed times give different step texts |
| HeyGen.PollFrom | main.py:288-303 | at most one update per remaining attempt; a URL found is non-empty; which update goes with which reply is stated by `HeyGen.PollPatchAt` |
| HeyGen.PollPatchAt | main.py:288-299 | before any reply finished, the update written for answered request `k` is the one after one update per earlier answered request, and it is `PollPatch(k)`: `(k+1)*8` seconds and progress `min(92, 48 + k)` |
| HeyGen.PollProgress | main.py:297-298 | polling only moves the step and the progress, which rises within 48..92 |
| HeyGen.PollUrlFromReply | main.py:299 | a URL is returned only when some reply was "completed" with that URL |
| HeyGen.PollFirstFinished | main.py:288-301 | the first finishing reply decides: its URL when completed, nothing when failed; one update per answered request up to and including it |
| HeyGen.PollGivesUp | main.py:288-303 | when no reply finishes, polling returns nothing after one update per answered request among the 80 |
| HeyGen.Poll | main.py:287-303 | the polling loop returns `PollFrom`'s URL and makes exactly its updates |
| HeyGen.Downloaded | main.py:306-315 | a path exactly when the GET answered 200, and then the job's output path |
| Render.AsciiOnly | main.py:322 | only ASCII remains, no longer than the input, and each ASCII character of the input is kept |
| Render.AsciiOnlyAppend | main.py:322 | the encoding works piece by piece, so order and multiplicity are kept |
| Render.AsciiOnlyOne | main.py:322 | on one character, an ASCII character is kept and any other dropped |
| Render.AsciiOnlyKeepsAscii | main.py:322 | an all-ASCII text is unchanged |
| Render.OverlayTitle | main.py:322 | at most 32 ASCII characters: the ASCII encoding (`AsciiOnly`, order kept) of the first 32 characters of the title; "Thoi trang be" for an empty title |
| Render.OverlayTitleKeepsAscii | main.py:322 | an ASCII title is drawn as its first 32 characters, unchanged and in order |
| Render.OverlayPrice | main.py:323-327 | "Gia: <price>" when the ASCII price is non-empty, "Gia sieu hot!" otherwise |
| Render.OverlaySubtitle | main.py:324-328 | the ASCII gender (default "be"), followed by the age label and stripped when that is non-empty |
| Render.StripKeepsAscii | main.py:324-328 | stripping ASCII text leaves ASCII text |
| Render.Drawtext | main.py:337 | a drawtext filter contains its quoted text option |
| Render.ImageChain | main.py:332-347 | eight filters, with the title, subtitle and price overlays in positions 4 to 6 |
| Render.ImageChainOverlays | main.py:332-347 | the image filter string contains the title, subtitle and price text options |
| Render.PlainChain | main.py:353-360 | three filters, with the title and price overlays after the watermark |
| Render.PlainChainOverlays | main.py:353-360 | the plain filter string contains the title and price text options |
| Render.Argv | main.py:348-350 | the argument vector starts with `ffmpeg` and ends with the output path |
| Render.Command | main.py:331-364 | with an image on disk it loops that image for 25 s and overlays title, subtitle and price; otherwise a 15 s colour source with title and price |
| Render.MakeFfmpegVideo | main.py:319-371 | the command is the FFmpeg invocation for the given image, the overlays of the product record and the job's output path; a path is reported exactly when the file exists afterwards |
| Jobs.Apply | main.py:32 | each of the five keys takes the update's value when the update sets it and keeps the job's otherwise |
| Jobs.ApplyOverride | main.py:32 | a later update that sets every key an earlier one sets hides the earlier one |
| Jobs.ApplyIdempotent | main.py:32 | applying the same update twice is applying it once |
| Jobs.ApplyAllConcat | main.py:32 | applying two runs of updates in turn is applying their concatenation |
| Jobs.ResultUntouched | main.py:32 | a key no update sets keeps its value (the result) |
| Jobs.StatusUntouched | main.py:32 | a key no update sets keeps its value (the status) |
| Jobs.InfoUntouched | main.py:32 | a key no update sets keeps its value (the product summary) |
| Jobs.LastProgressWins | main.py:32 | the last update that sets the progress decides it |
| Jobs.Updated | main.py:31-32 | updating a job leaves the set of jobs and every other job unchanged |
| Jobs.UpdatedJob | main.py:31-32 | the job itself, when it exists, gets every update applied in order |
| Jobs.UpdatedConcat | main.py:31-32 | updating with two runs of updates in turn is updating with their concatenation |
| Jobs.JobStore.constructor | main.py:30 | the store starts empty |
| Jobs.JobStore.Register | main.py:474 | the job is stored as pending, "Đang chuẩn bị...", 0%, no result, no summary |
| Jobs.JobStore.Upd | main.py:31-32 | an existing job gets the update; an unknown identifier leaves the store unchanged |
| Pipeline.Product | main.py:380-391 | the record analysed from the link, else the uploaded-image record, else the default record |
| Pipeline.CurrentImage | main.py:413 | the given image path when there is one, else the analysed local image; empty exactly when neither exists |
| Pipeline.External | main.py:411-427 | no key: no HeyGen video and no writes; a saved video only with a key and a 200 download, at the job's output path; the request carries the script, the avatar and the voice, has an image background exactly when the current image is on disk and the upload returned a truthy id, and the upload step (30%) is written first exactly when the current image is on disk |
| Pipeline.HeyGenVideoWhen | main.py:411-427 | a HeyGen video exactly when there is a key, the generate reply has a truthy id, polling returns a URL and the download answers 200; it is then the job's output path |
| Pipeline.ResultOf | main.py:434-445 | no URL or file name without a path; the file name is the path's name, the URL `/outputs/<name>`; product, script, captions, hashtags and `used_heygen` as given |
| Pipeline.Writes | main.py:375-448 | every run first marks the job processing at 5% and writes at least once more |
| Pipeline.Analyse | main.py:377-391 | the analysis stage computes the product record, keeps the image the renderers use, and makes exactly the analysis writes |
| Pipeline.Generate | main.py:408-427 | the HeyGen stage returns `External`'s path and `used_heygen` and makes exactly its writes |
| Pipeline.Deliver | main.py:411-445 | the video and final stages complete the writes of `Writes` |
| Pipeline.Process | main.py:375-448 | `process` writes exactly the updates of `Run` to its job and nothing to any other job; started from the pending record `/api/create` stores, it leaves the job's record equal to `Final`, the record `Pipeline.CompletedRun` and `Pipeline.InterruptedRun` describe |
| Pipeline.RequestWrites | main.py:414-418 | the writes before the video request only move step and progress, rising within 30..40 |
| Pipeline.PollingWrites | main.py:421-425 | the writes from the render step through polling and download only move step and progress, rising within 30..94 |
| Pipeline.ExternalWrites | main.py:411-427 | the HeyGen branch only moves step and progress, which rises within 30..94 |
| Pipeline.ProgressRises | main.py:377-425 | up to the fallback renderer the progress only rises, from 5 to at most 94; with a HeyGen video it rises through the final 100 |
| Pipeline.ProgressDropsAtFallback | main.py:425-430 | a run whose HeyGen download answers 404 writes 94 and then 65: progress is not monotone |
| Pipeline.CompletedWrites | main.py:429-445 | a run no exception interrupts ends with the done write, after the fallback step exactly when HeyGen gave no video |
| Pipeline.CompletedRun | main.py:435-445 | such a run leaves the job done, "✅ Hoàn tất!", 100%, with the product, script, captions and hashtags in the result |
| Pipeline.ProductInfoShown | main.py:393-400 | the job shows the product summary exactly when the analysis did not raise |
| Pipeline.WritesAfterInfo | main.py:393-445 | a run that survives the analysis writes the analysis steps, the script step, then the rest |
| Pipeline.QuietAfterInfo | main.py:402-445 | no write after the script step sets the product summary |
| Pipeline.InterruptedRun | main.py:447-448 | a run an exception interrupts ends in error at 0%, the step the message after "❌ Lỗi: ", and no result |
| Pipeline.VideoOfRun | main.py:426-438 | `used_heygen` only with a key and a 200 download; a video URL exactly when HeyGen's video was saved or the renderer left a file; it is `/outputs/video_<jid>.mp4` |
| Pipeline.ResultAtOutput | main.py:434-439 | a result for the job's output path names `video_<jid>.mp4` and `/outputs/video_<jid>.mp4` |
| Pipeline.KeyChoosesHeyGen | main.py:411-418 | the AI-model step (40%) is written exactly when an API key was given |
| Pipeline.FallbackWhenNoVideo | main.py:429-430 | right after the HeyGen branch, the fallback renderer's step is written exactly when no HeyGen video was saved |
| Pipeline.KeyOf | main.py:484 | the key is non-empty exactly when one was submitted with a non-whitespace character; it has no whitespace at either end |
| Pipeline.OrDefault | main.py:485-486 | the submitted value when it is non-empty, else the default |
| Pipeline.Launch | main.py:483-487 | the link and image path as given ("" when missing), the stripped key, the avatar and voice or their defaults, the duration |
| Pipeline.Create | main.py:470-474 | the request is accepted exactly when it has a link or an image; then the job is registered as pending, otherwise the store is unchanged |

## Left out

- HTTP itself is not modelled. The page GET, the image GET and HeyGen's upload, generate, status and download calls appear only as their outcomes in `World`, including their timeouts and header values.
- Regular expressions are not modelled. The page enters as the list of matches each expression found (`Analyzer.Page`), and the title's `re.sub(r'\s+', ' ', …)` is modelled by `Text.CollapseSpaces`.
- `Text.Lower` covers ASCII, Latin-1 and the Vietnamese capitals, not the full Unicode case mapping of `str.lower`.
- `random.choice` is the index `choice % n` into the age key's templates. `uuid4` is the `jid` parameter.
- `asyncio.sleep`, the background scheduling and the interleaving of concurrent jobs are left out. Each job writes only its own record, and `Process` is proved to leave every other record unchanged.
- File contents are left out: the uploaded image, the downloaded video bytes and the scraped image bytes. Only which paths exist (`World.onDisk`) and whether FFmpeg left its output (`World.rendered`) are modelled.
- The FFmpeg subprocess is left out. `Render.Command` builds its arguments and `World.rendered` says whether the output exists afterwards. An exception inside `make_ffmpeg_video` is caught there, so only the file's existence matters.
- `print` logging is left out.
- An exception that reaches the `except` of `process` is `World.crash`: a message and the stage it escapes from. An exception in the rendering stage only takes effect when the fallback renderer runs.
- Of the routes, only what `/api/create` does to the job store and to the arguments of `process` is modelled. The HTTP 400 refusal is `Pipeline.Create` returning false. Saving the uploaded file under `uploads/up_<jid><ext>` is left out; its path is an input to `Launch`.
- `/`, `/api/config`, `/api/job/{jid}` (a plain map lookup) and `/api/download/{fn}` are left out. So are the static mounts and the CORS middleware.
- JSON ids that are not strings are not modelled: `IdOf` takes an id as an optional string.
- The record used when there is neither a link nor an image lacks `img_url` and `source_url` in the code. `Pipeline.DefaultSignals` gives them as "".
- Render.Argv: states only the first and last arguments and the length of the vector; the middle arguments are the literal options, written out in `Render.Command`.
- Copy.MakeContent: states the parts every caption contains and the hashtag lines, not the rest of each caption's wording, which `Copy.CareCaption`, `Copy.TrendCaption` and `Copy.CuteCaption` write out.
- The script templates contain no stray braces; the model writes them as pieces and placeholders, so `str.format` errors cannot arise.
- The analysis crash stage (`Stage.Analysis`) is kept as a possible input although the code cannot reach it: `analyze_product` catches every exception itself (main.py:159). The generation crash stage (`Stage.Generation`) stands for the one exception the code can raise between the product-info write and the first HeyGen write, `Path(curr_img).exists()` on a path the operating system refuses (main.py:414); the model writes the analysis steps, the product info and then the error, as that raise does, but does not tie the crash to its conditions (an API key and a non-empty current image). The rendering stage stands for the `out.exists()` check (main.py:371), which runs outside the renderer's `try`.
- Paths.FileName: returns "" for a path ending in `/`, where `pathlib` ignores the trailing slash and returns the last component; the model only applies it to paths the service builds, which never end in `/`.
- Paths.OutputPath: the output directory is the relative `outputs`; the code builds it as the absolute `BASE / "outputs"` (main.py:21, main.py:308, main.py:321), where `BASE` is the directory of the running script. The prefix is abstracted because it depends on where the service is installed; the file name, which is what the job result reports, is unaffected.
