# YT-Downloader-TGBot: a Dafny model of the request handlers

The bot answers two chat commands. `/picture <url>` checks the URL, probes it for an image
Content-Type and sends the picture. `/video <url>` first sweeps the shared `downloads/`
directory, then gates the request on argument count, URL syntax, resolved metadata and
duration. A cached `downloads/{id}_cnv.mp4` is sent as it is. Otherwise the video is
downloaded, size-gated, transcoded, size-gated again and sent.

This project models that decision logic. Every outside call is an input:

- `validators.url` is an uninterpreted function `string -> bool`.
- `requests.head` / `requests.get` are a `Probe` value and a fetched flag.
- yt-dlp's two `extract_info` calls are `Lookup` and `Fetch` values.
- ffmpeg is an `Encode` value.
- `send_video` / `send_photo` succeed or raise TelegramError (`sendOk`/`sent`).

Each handler's result is an `Outcome`: a text reply (with the source's exact texts), a sent
photo or video, or an exception neither handler catches.

Modules:

- `Text`: Python's substring test, `Contains`, proved equal to `IsSubstring`.
- `Paths`: the cache path, the raw download path and the transcoder's output name
  `input[:-4] + "_cnv.mp4"`.
- `Gates`: the 50 MiB size gate and the 14-minute duration gate. Their bodies divide on
  `real`, as the source does in floating point. Their contracts give the integer thresholds
  52,428,800 bytes and 840 seconds.
- `Picture`: `is_valid_url` (a loop over the ten Google thumbnail prefixes, then the
  validator), the header test of `is_image_url`, and the `/picture` handler.
- `VideoPipeline`: the `/video` handler as a function `VideoRun` of the directory before the
  request and of the oracle answers. It returns the reply, the directory afterwards and the
  steps taken. The lemmas about it state the handler's properties.
- `Downloads`: class `DownloadsDir`, whose field `files` is the set of paths now in
  `downloads/`. Its methods `CleanFolder`, `Remove`, `DownloadVideo`, `ChangeCodecToMp4` and
  `VideoFromUrl` change that set step by step, as the source changes the file system.
  `VideoFromUrl` is proved to return what `VideoRun` gives.

The model follows the code as written. These behaviours come out of it:

- `get_filename_duration` returns `None` when yt-dlp reports no duration (bot.py:124), and
  bot.py:187 then compares `None > 14`. That raises TypeError, which neither except clause
  catches, so the model ends in `Unhandled(TypeError)`. A missing duration never passes the
  gate.
- When the download keeps the resolved id, the transcoder's output equals the cache path only
  when the extension has three characters (`Paths.TranscodeOutputIsCachePath`). A `webm`
  download `downloads/abc123.webm` is transcoded to `downloads/abc123._cnv.mp4` (bot.py:161),
  not to the cache path `downloads/abc123_cnv.mp4` of bot.py:123 (`VideoPipeline.WebmScenario`).
  The handler still sends, and on an oversize result removes, the cache path, which then does
  not exist; the removal raises FileNotFoundError (`VideoPipeline.FreshOutputAtCachePath`).
  When the download reports a different id, the output can also land on some other id's cache
  path: `downloads/abc.m` becomes `downloads/a_cnv.mp4` (`Paths.OtherIdCachePath`).

## Model

| member | source | states |
|---|---|---|
| `Text.Contains` | bot.py:48 | Python's `needle in haystack` holds iff the needle occurs at some position of the haystack (the empty needle occurs everywhere) |
| `Paths.CachePathParts` | bot.py:123 | the cache path of `id` is `downloads/`, then `id`, then `_cnv.mp4`, 18 characters longer than the id |
| `Paths.DownloadPathParts` | bot.py:155 | the raw download path is `downloads/`, then the id, a dot, then the extension |
| `Paths.DropLast4` | bot.py:161 | Python's `s[:-4]` is a prefix of `s` four characters shorter, or empty when `s` has fewer than four |
| `Paths.TranscodeOutput` | bot.py:161 | the transcoder's output name never equals its input and always ends in `_cnv.mp4`, so writing it never overwrites the file being converted |
| `Paths.CachePathInjective` | bot.py:123 | distinct media ids have distinct cache paths |
| `Paths.DownloadIsNotCache` | bot.py:155 | the raw download `downloads/{id}.{ext}` of an id is never that id's cache path |
| `Paths.TranscodeOutputIsCachePath` | bot.py:155-161 | transcoding `downloads/{id}.{ext}` produces `downloads/{id}_cnv.mp4` iff `ext` has length 3 |
| `Paths.WebmOutputName` | bot.py:155-161 | a `webm` download of `abc123` is transcoded to `downloads/abc123._cnv.mp4`, which is not the cache path |
| `Paths.OtherIdCachePath` | bot.py:155-161 | a download reported as `abc` with extension `m` is transcoded onto the cache path of id `a` |
| `Gates.IsUploadableVideo` | bot.py:129-138 | a file is uploadable iff its size in bytes is below 52,428,800 (50 MiB) |
| `Gates.MinutesOf` | bot.py:124-127 | the duration is present iff yt-dlp reported one, and it is then the reported seconds over 60 (zero unconverted) |
| `Gates.CheckDuration` | bot.py:187 | the comparison `duration > 14` fails with a type error iff there is no duration, and refuses iff the duration exceeds 14 minutes |
| `Gates.DurationThreshold` | bot.py:187-189 | the duration gate refuses exactly the videos longer than 840 s; a missing duration is not comparable |
| `Gates.GateBoundaries` | bot.py:187 | 840 s and 0 s pass, 841 s is refused; 52,428,799 bytes passes the size gate and 52,428,800 does not |
| `Picture.Template` | bot.py:46 | the `i`-th of the ten thumbnail templates (`GoogleTbnTemplates`) is `https://encrypted-tbn`, the digit `i`, then `.gstatic.com/`, 35 characters in all |
| `Picture.IsValidUrl` | bot.py:39-50 | a picture URL is accepted iff one of the ten `https://encrypted-tbn{0..9}.gstatic.com/` prefixes occurs in it or the generic validator accepts it |
| `Picture.ThumbnailUrlAccepted` | bot.py:46-49 | any URL with a thumbnail prefix embedded anywhere is accepted, whatever the validator says |
| `Picture.IsImageContentType` | bot.py:53-60 | the URL is an image iff the Content-Type header is present and contains `image`; an absent header gives a non-image |
| `Picture.JpegIsImage` | bot.py:58-60 | `image/jpeg` is an image type and an absent header is not |
| `Picture.PictureFromUrl` | bot.py:62-82 | usage message iff not exactly one argument, with no further call; then invalid URL, then "Not an image", a failed request as an unhandled exception, then the photo sent or the Telegram error message, with the calls made in order |
| `Downloads.DownloadsDir.Remove` | bot.py:99 | `os.remove` removes the path and reports whether the file existed (FileNotFoundError otherwise) |
| `Downloads.DownloadsDir.CleanFolder` | bot.py:90-99 | more than 14 entries are all removed; 14 or fewer are left unchanged |
| `Downloads.DownloadsDir.DownloadVideo` | bot.py:140-155 | a successful download adds `downloads/{id}.{ext}` and returns that path; a DownloadError changes nothing |
| `Downloads.DownloadsDir.ChangeCodecToMp4` | bot.py:157-171 | ffmpeg adds `input[:-4] + "_cnv.mp4"`, the input is removed, and the output name is returned; an ffmpeg error changes nothing |
| `Downloads.DownloadsDir.VideoFromUrl` | bot.py:173-221 | the reply, the directory afterwards and the steps taken are those of `VideoRun` |
| `Downloads.DownloadsDir.ResolvedRequest` | bot.py:185-195 | from the duration gate on, the handler does what `ResolvedRun` describes |
| `Downloads.DownloadsDir.FreshDownload` | bot.py:194-213 | on a cache miss, the handler does what `FreshRun` describes |
| `VideoPipeline.Swept` | bot.py:90-99 | `clean_folder` only ever removes files, never adds one |
| `VideoPipeline.GetFilenameDuration` | bot.py:108-127 | the filename is the cache path of the resolved id; the duration is present iff yt-dlp reported one, and it is then the seconds over 60 |
| `VideoPipeline.VideoRun` | bot.py:173-221 | the `/video` handler: when it answers "Too long video to upload :(" the directory is exactly what the sweep left |
| `VideoPipeline.ResolvedRun` | bot.py:185-195 | from the duration gate on: a refused duration leaves the directory as the sweep left it |
| `VideoPipeline.FreshRun` | bot.py:194-213 | past the duration gate, the reply is never the too-long message nor the TypeError of a missing duration |
| `VideoPipeline.SendReply` | bot.py:210-221 | `send_video` delivers the given path iff Telegram accepts it; otherwise the TelegramError is answered with the Telegram error message |
| `VideoPipeline.StepsFollowPipeline` | bot.py:173-213 | the sweep runs first; the steps taken are a prefix of sweep, argument gate, URL gate, metadata, duration gate, cache lookup, download, raw size gate, transcode, output size gate, send, or the cache-hit path that goes from the lookup straight to sending |
| `VideoPipeline.FreshStepsFollowPipeline` | bot.py:194-213 | on a cache miss the steps continue in pipeline order |
| `VideoPipeline.ArgumentGate` | bot.py:173-178 | the usage message is the reply iff there is not exactly one argument; then only the sweep and the argument check have run |
| `VideoPipeline.SweepBound` | bot.py:93-99 | after the sweep a directory of more than 14 entries is empty, one of 14 or fewer is unchanged |
| `VideoPipeline.DurationGateRefuses` | bot.py:124-127 | with resolved metadata the reply is "Too long video to upload :(" iff the duration exceeds 840 s, and an unhandled TypeError iff the duration is missing |
| `VideoPipeline.CacheHitSkipsDownload` | bot.py:190-193 | an existing cache path is sent as it is: no download or transcode step, no change to the directory after the sweep |
| `VideoPipeline.NothingWrittenBeforeDownload` | bot.py:173-195 | until the download step runs, the directory is what the sweep left |
| `VideoPipeline.OversizeDownloadRemoved` | bot.py:195-201 | an oversize raw download is removed and answered "file is too large", and no transcode step runs |
| `VideoPipeline.TranscodeReplacesRaw` | bot.py:202-213 | after a transcode within the limit the raw file is gone, the output is present and the cache path is sent |
| `VideoPipeline.OversizeOutputRemovesCachePath` | bot.py:204-209 | an oversize transcode result makes the handler remove the cache path `filename`; when that path is absent the removal ends in an unhandled FileNotFoundError |
| `VideoPipeline.DownloadErrorReported` | bot.py:214-216 | a DownloadError from the metadata lookup or from the download is answered with the downloader error message |
| `VideoPipeline.TelegramErrorReported` | bot.py:218-221 | the Telegram error message is the reply iff a send was attempted and raised TelegramError |
| `VideoPipeline.SentPathIsCachePath` | bot.py:190-213 | every sent video is the cache path of the resolved id, on the cache-hit and on the fresh path |
| `VideoPipeline.FreshOutputAtCachePath` | bot.py:203-212 | when the download keeps the resolved id, the sent (or removed) cache path exists after transcoding iff the extension has three characters; otherwise an oversize result raises FileNotFoundError |
| `VideoPipeline.WebmScenario` | bot.py:194-213 | `abc123`, 300 s, uncached, 40 MiB `webm` transcoded to 45 MiB: the directory ends with `downloads/abc123._cnv.mp4` only, and `send_video` is given `downloads/abc123_cnv.mp4`, which is not there |

## Left out

- Telegram transport: `reply_text`, `send_message`, `send_photo`, `send_video`, timeouts. A send is an oracle that succeeds or raises TelegramError. Text replies are taken as delivered: a TelegramError raised by a `reply_text` inside the try block is not modelled.
- What Telegram does with a `send_video` path that does not exist locally is not modelled: the oracle decides.
- The `start` handler and the `__main__` bootstrap (`ApplicationBuilder`, handler registration, `run_polling`, `makedirs`): fixed text and framework glue.
- yt-dlp internals: `YoutubeDL`, `sanitize_info` and the format-selector strings. The metadata (id, duration) and the download result (id, ext, size) are inputs. A KeyError for a missing `id` is not modelled.
- Durations are whole seconds. A fractional duration from yt-dlp is not modelled. For integers the real division used here agrees with the source's float division.
- ffmpeg encoding options (codec, crf, preset) and its overwrite prompt. Only the file names are modelled: output created, input removed. On an ffmpeg error the directory is taken as unchanged; partial output files are not modelled. Partial files left by a failed download are not modelled either.
- `requests` and `validators`: network calls are inputs, and `validators.url` is an uninterpreted function. The header lookup's case-insensitivity belongs to `requests` and is not modelled.
- Logging, the TOKEN and USERNAME environment variables, async/await: no behaviour to verify.
- Concurrent requests sharing the directory: each request runs alone.
- The directory is a set of paths (`downloads/x`), not of bare names from `os.listdir`; listing order does not matter for a full wipe.
- The open file handle from `open(filename, 'rb')` on the cache-hit path, and the fact that it is never closed.
- `Picture.IsValidUrl`: the body returns before calling the validator when a prefix matches, but the contract only says the verdict does not depend on the validator in that case.
