/** The decision logic of the `/video` handler `video_from_url` (bot.py:86-221), as a function
    of the download directory before the request and of what the outside world answers. */
module VideoPipeline {
  import opened Wrappers
  import opened Paths
  import opened Gates
  import opened Replies

  /** The metadata `extract_info(url, download=False)` resolves: media id and duration in seconds. */
  datatype Info = Info(id: string, duration: Option<int>)

  /** The metadata lookup, or the DownloadError it raised. */
  datatype Lookup = Resolved(info: Info) | LookupFailed

  /** The download: the id and extension yt-dlp reports and the size of the file it wrote,
      or the DownloadError it raised. */
  datatype Fetch = Fetched(id: string, ext: string, size: nat) | FetchFailed

  /** The transcode: the size of the file ffmpeg wrote, or the error it raised. */
  datatype Encode = Encoded(size: nat) | EncodeFailed

  /** Everything the handler learns from outside: `validators.url`, yt-dlp twice, ffmpeg,
      and whether `send_video` went through or raised TelegramError. */
  datatype Oracle = Oracle(urlIsValid: string -> bool, lookup: Lookup, fetch: Fetch, encode: Encode, sendOk: bool)

  /** The steps of the handler, in the order the source runs them. */
  datatype Step =
    | Sweep | ArgCountGate | UrlGate | MetadataLookup | DurationGate | CacheLookup
    | Download | RawSizeGate | Transcode | OutputSizeGate | Send

  const VideoSteps: seq<Step> :=
    [Sweep, ArgCountGate, UrlGate, MetadataLookup, DurationGate, CacheLookup,
     Download, RawSizeGate, Transcode, OutputSizeGate, Send]

  /** On a cache hit the handler goes from the lookup straight to sending. */
  const CacheHitSteps: seq<Step> :=
    [Sweep, ArgCountGate, UrlGate, MetadataLookup, DurationGate, CacheLookup, Send]

  /** One request: the reply, the directory afterwards and the steps taken. */
  datatype Run = Run(reply: Outcome, files: set<string>, steps: seq<Step>)

  /** The directory after `clean_folder`. */
  function Swept(files: set<string>): (swept: set<string>)
    ensures swept <= files
  {
    if |files| > FileLimitBeforeCleanup then {} else files
  }

  /** `get_filename_duration`: the cache path of the media and its duration in minutes. */
  function GetFilenameDuration(info: Info): (r: (string, Option<real>))
    ensures r.0 == CachePath(info.id)
    ensures r.1.Some? <==> info.duration.Some?
    ensures info.duration.Some? ==> r.1.value * 60.0 == info.duration.value as real
  {
    (CachePath(info.id), MinutesOf(info.duration))
  }

  function VideoRun(files: set<string>, args: seq<string>, o: Oracle): (r: Run)
    ensures r.reply == Replied(TooLongMessage) ==> r.files == Swept(files)
  {
    var swept := Swept(files);
    if |args| != 1 then
      Run(Replied(VideoUsageMessage), swept, [Sweep, ArgCountGate])
    else if !o.urlIsValid(args[0]) then
      Run(Replied(InvalidUrlMessage), swept, [Sweep, ArgCountGate, UrlGate])
    else if o.lookup.LookupFailed? then
      Run(Replied(DownloaderErrorMessage), swept, [Sweep, ArgCountGate, UrlGate, MetadataLookup])
    else
      ResolvedRun(swept, o.lookup.info, o, [Sweep, ArgCountGate, UrlGate, MetadataLookup])
  }

  /** The handler from the duration gate on (bot.py:185-195), once the metadata is known. */
  function ResolvedRun(swept: set<string>, info: Info, o: Oracle, steps: seq<Step>): (r: Run)
    ensures r.reply == Replied(TooLongMessage) ==> r.files == swept
  {
    var (filename, duration) := GetFilenameDuration(info);
    var checked := steps + [DurationGate];
    match CheckDuration(duration)
    case NotComparable => Run(Unhandled(TypeError), swept, checked)
    case TooLong => Run(Replied(TooLongMessage), swept, checked)
    case Accepted =>
      if filename in swept then
        Run(SendReply(filename, o.sendOk), swept, checked + [CacheLookup, Send])
      else
        FreshRun(swept, filename, o, checked + [CacheLookup])
  }

  /** The reply of `send_video(filename)`: sent, or TelegramError caught. */
  function SendReply(path: string, sendOk: bool): (reply: Outcome)
    ensures reply.SentVideo? <==> sendOk
    ensures reply.SentVideo? ==> reply.path == path
    ensures !reply.SentVideo? ==> reply == Replied(TelegramErrorMessage)
  {
    if sendOk then SentVideo(path) else Replied(TelegramErrorMessage)
  }

  /** The cache-miss branch (bot.py:194-213): download, gate, transcode, gate, send. */
  function FreshRun(swept: set<string>, filename: string, o: Oracle, steps: seq<Step>): (r: Run)
    ensures r.reply != Replied(TooLongMessage) && r.reply != Unhandled(TypeError)
  {
    match o.fetch
    case FetchFailed => Run(Replied(DownloaderErrorMessage), swept, steps + [Download])
    case Fetched(id, ext, size) =>
      var raw := DownloadPath(id, ext);
      var downloaded := swept + {raw};
      if !IsUploadableVideo(size) then
        Run(Replied(TooLargeMessage), downloaded - {raw}, steps + [Download, RawSizeGate])
      else
        match o.encode
        case EncodeFailed =>
          Run(Unhandled(FfmpegError), downloaded, steps + [Download, RawSizeGate, Transcode])
        case Encoded(outSize) =>
          var converted := downloaded + {TranscodeOutput(raw)} - {raw};
          var gated := steps + [Download, RawSizeGate, Transcode, OutputSizeGate];
          if !IsUploadableVideo(outSize) then
            if filename in converted then Run(Replied(TooLargeMessage), converted - {filename}, gated)
            else Run(Unhandled(FileNotFound), converted, gated)
          else
            Run(SendReply(filename, o.sendOk), converted, gated + [Send])
  }

  // ---- Where a request gets to --------------------------------------------------------

  /** One argument, a valid URL and resolved metadata. */
  predicate Resolves(args: seq<string>, o: Oracle) {
    |args| == 1 && o.urlIsValid(args[0]) && o.lookup.Resolved?
  }

  /** ... and the duration gate let it through. */
  predicate PassesDuration(args: seq<string>, o: Oracle) {
    Resolves(args, o) && CheckDuration(MinutesOf(o.lookup.info.duration)) == Accepted
  }

  /** ... and the cache path was not in the directory after the sweep. */
  predicate MissesCache(files: set<string>, args: seq<string>, o: Oracle) {
    PassesDuration(args, o) && CachePath(o.lookup.info.id) !in Swept(files)
  }

  /** ... and the download was written and passed the size gate. */
  predicate ReachesTranscode(files: set<string>, args: seq<string>, o: Oracle) {
    MissesCache(files, args, o) && o.fetch.Fetched? && IsUploadableVideo(o.fetch.size)
  }

  // ---- Properties ---------------------------------------------------------------------

  /** The handler always sweeps first and then takes the steps of the pipeline in order,
      stopping early, or skipping from the cache lookup to sending. */
  lemma StepsFollowPipeline(files: set<string>, args: seq<string>, o: Oracle)
    ensures var r := VideoRun(files, args, o);
      r.steps[0] == Sweep && (r.steps <= VideoSteps || r.steps == CacheHitSteps)
  {
    var r := VideoRun(files, args, o);
    if !Resolves(args, o) {
      assert r.steps == VideoSteps[..2] || r.steps == VideoSteps[..3] || r.steps == VideoSteps[..4];
    } else {
      var info := o.lookup.info;
      assert [Sweep, ArgCountGate, UrlGate, MetadataLookup] + [DurationGate] == VideoSteps[..5];
      assert VideoSteps[..5] + [CacheLookup] == VideoSteps[..6];
      assert VideoSteps[..6] + [Send] == CacheHitSteps;
      if CheckDuration(MinutesOf(info.duration)) == Accepted && CachePath(info.id) !in Swept(files) {
        FreshStepsFollowPipeline(Swept(files), CachePath(info.id), o);
      }
    }
  }

  /** The cache-miss half of `StepsFollowPipeline`. */
  lemma FreshStepsFollowPipeline(swept: set<string>, filename: string, o: Oracle)
    ensures FreshRun(swept, filename, o, VideoSteps[..6]).steps <= VideoSteps
  {
    var r := FreshRun(swept, filename, o, VideoSteps[..6]);
    assert VideoSteps[..6] + [Download] == VideoSteps[..7];
    assert VideoSteps[..6] + [Download, RawSizeGate] == VideoSteps[..8];
    assert VideoSteps[..6] + [Download, RawSizeGate, Transcode] == VideoSteps[..9];
    assert VideoSteps[..6] + [Download, RawSizeGate, Transcode, OutputSizeGate] == VideoSteps[..10];
    assert VideoSteps[..6] + [Download, RawSizeGate, Transcode, OutputSizeGate] + [Send] == VideoSteps;
  }

  /** Exactly one argument or the usage message, with nothing but the sweep done before. */
  lemma ArgumentGate(files: set<string>, args: seq<string>, o: Oracle)
    ensures VideoRun(files, args, o).reply == Replied(VideoUsageMessage) <==> |args| != 1
    ensures |args| != 1 ==>
      VideoRun(files, args, o).steps == [Sweep, ArgCountGate] && VideoRun(files, args, o).files == Swept(files)
  {
  }

  /** The janitor: more than 14 entries are all removed before anything else is looked at. */
  lemma SweepBound(files: set<string>)
    ensures |files| > FileLimitBeforeCleanup ==> Swept(files) == {}
    ensures |files| <= FileLimitBeforeCleanup ==> Swept(files) == files
  {
  }

  /** "Too long" exactly above 840 seconds; a missing duration raises TypeError. */
  lemma DurationGateRefuses(files: set<string>, args: seq<string>, o: Oracle)
    requires Resolves(args, o)
    ensures var r := VideoRun(files, args, o); var d := o.lookup.info.duration;
      && (r.reply == Replied(TooLongMessage) <==> d.Some? && d.value > 840)
      && (r.reply == Unhandled(TypeError) <==> d.None?)
  {
    DurationThreshold(o.lookup.info.duration);
    var r := VideoRun(files, args, o);
    assert r == ResolvedRun(Swept(files), o.lookup.info, o, [Sweep, ArgCountGate, UrlGate, MetadataLookup]);
  }

  /** A cached output is sent as it is: no download, no transcode, no change to the directory. */
  lemma CacheHitSkipsDownload(files: set<string>, args: seq<string>, o: Oracle)
    requires PassesDuration(args, o) && CachePath(o.lookup.info.id) in Swept(files)
    ensures var r := VideoRun(files, args, o);
      && r.steps == CacheHitSteps
      && Download !in r.steps && Transcode !in r.steps
      && r.files == Swept(files)
      && r.reply == SendReply(CachePath(o.lookup.info.id), o.sendOk)
  {
  }

  /** Until the downloader runs, the directory is what the sweep left. */
  lemma NothingWrittenBeforeDownload(files: set<string>, args: seq<string>, o: Oracle)
    ensures Download !in VideoRun(files, args, o).steps ==> VideoRun(files, args, o).files == Swept(files)
  {
  }

  /** An oversize raw download is deleted and refused, and nothing is transcoded. */
  lemma OversizeDownloadRemoved(files: set<string>, args: seq<string>, o: Oracle)
    requires MissesCache(files, args, o) && o.fetch.Fetched? && !IsUploadableVideo(o.fetch.size)
    ensures var r := VideoRun(files, args, o);
      && r.reply == Replied(TooLargeMessage)
      && r.files == Swept(files) - {DownloadPath(o.fetch.id, o.fetch.ext)}
      && Transcode !in r.steps
  {
  }

  /** After transcoding the raw file is gone and the output is present. */
  lemma TranscodeReplacesRaw(files: set<string>, args: seq<string>, o: Oracle)
    requires ReachesTranscode(files, args, o) && o.encode.Encoded? && IsUploadableVideo(o.encode.size)
    ensures var r := VideoRun(files, args, o); var raw := DownloadPath(o.fetch.id, o.fetch.ext);
      && raw !in r.files && TranscodeOutput(raw) in r.files
      && r.reply == SendReply(CachePath(o.lookup.info.id), o.sendOk)
  {
  }

  /** An oversize transcode result makes the handler remove the cache path, not the file it
      measured; when the two differ the removal raises FileNotFoundError. */
  lemma OversizeOutputRemovesCachePath(files: set<string>, args: seq<string>, o: Oracle)
    requires ReachesTranscode(files, args, o) && o.encode.Encoded? && !IsUploadableVideo(o.encode.size)
    ensures var r := VideoRun(files, args, o);
      var raw := DownloadPath(o.fetch.id, o.fetch.ext);
      var converted := Swept(files) + {raw} + {TranscodeOutput(raw)} - {raw};
      var filename := CachePath(o.lookup.info.id);
      && (filename in converted ==> r.reply == Replied(TooLargeMessage) && r.files == converted - {filename})
      && (filename !in converted ==> r.reply == Unhandled(FileNotFound) && r.files == converted)
  {
  }

  /** A DownloadError from either yt-dlp call is answered with the downloader message, and
      a failed metadata lookup is the last step taken. */
  lemma DownloadErrorReported(files: set<string>, args: seq<string>, o: Oracle)
    ensures |args| == 1 && o.urlIsValid(args[0]) && o.lookup.LookupFailed? ==>
      VideoRun(files, args, o).reply == Replied(DownloaderErrorMessage) &&
      VideoRun(files, args, o).steps == [Sweep, ArgCountGate, UrlGate, MetadataLookup]
    ensures MissesCache(files, args, o) && o.fetch.FetchFailed? ==>
      VideoRun(files, args, o).reply == Replied(DownloaderErrorMessage) &&
      VideoRun(files, args, o).files == Swept(files)
  {
  }

  /** The Telegram error message is the reply exactly when a send was attempted and failed. */
  lemma TelegramErrorReported(files: set<string>, args: seq<string>, o: Oracle)
    ensures var r := VideoRun(files, args, o);
      r.reply == Replied(TelegramErrorMessage) <==> Send in r.steps && !o.sendOk
  {
    var r := VideoRun(files, args, o);
    if !Resolves(args, o) {
      assert r.steps == VideoSteps[..2] || r.steps == VideoSteps[..3] || r.steps == VideoSteps[..4];
    } else {
      assert [Sweep, ArgCountGate, UrlGate, MetadataLookup] + [DurationGate] == VideoSteps[..5];
      var filename := CachePath(o.lookup.info.id);
      if PassesDuration(args, o) && filename !in Swept(files) {
        assert VideoSteps[..5] + [CacheLookup] == VideoSteps[..6];
        FreshTelegramErrorReported(Swept(files), filename, o);
      }
    }
  }

  /** The cache-miss half of `TelegramErrorReported`. */
  lemma FreshTelegramErrorReported(swept: set<string>, filename: string, o: Oracle)
    ensures var r := FreshRun(swept, filename, o, VideoSteps[..6]);
      r.reply == Replied(TelegramErrorMessage) <==> Send in r.steps && !o.sendOk
  {
    assert Send !in VideoSteps[..6];
  }

  /** Whatever branch sends a video, it sends the cache path of the resolved id. */
  lemma SentPathIsCachePath(files: set<string>, args: seq<string>, o: Oracle)
    ensures var r := VideoRun(files, args, o);
      r.reply.SentVideo? ==> o.lookup.Resolved? && r.reply.path == CachePath(o.lookup.info.id)
  {
  }

  /** When the download keeps the resolved id, the freshly converted file is at the path the
      handler sends (and would remove) exactly when the extension has three characters. */
  lemma FreshOutputAtCachePath(files: set<string>, args: seq<string>, o: Oracle)
    requires ReachesTranscode(files, args, o) && o.encode.Encoded?
    requires o.fetch.id == o.lookup.info.id
    ensures var r := VideoRun(files, args, o);
      IsUploadableVideo(o.encode.size) ==> (CachePath(o.lookup.info.id) in r.files <==> |o.fetch.ext| == 3)
    ensures var r := VideoRun(files, args, o);
      !IsUploadableVideo(o.encode.size) ==>
        (r.reply == Replied(TooLargeMessage) <==> |o.fetch.ext| == 3) &&
        (r.reply == Unhandled(FileNotFound) <==> |o.fetch.ext| != 3)
  {
    var id := o.lookup.info.id;
    var raw := DownloadPath(id, o.fetch.ext);
    TranscodeOutputIsCachePath(id, o.fetch.ext);
    DownloadIsNotCache(id, o.fetch.ext);
    assert TranscodeOutput(raw) != raw;
  }

  /** A request for `abc123`, 5 minutes long, not cached, downloaded as a 40 MiB `webm` and
      transcoded to 45 MiB: the file is converted to `downloads/abc123._cnv.mp4`, the raw file
      is removed, and `send_video` is handed `downloads/abc123_cnv.mp4`, which is not there. */
  lemma WebmScenario(validator: string -> bool, sendOk: bool)
    requires validator("https://youtu.be/abc123")
    ensures var o := Oracle(validator, Resolved(Info("abc123", Some(300))),
                            Fetched("abc123", "webm", 41_943_040), Encoded(47_185_920), sendOk);
      var r := VideoRun({}, ["https://youtu.be/abc123"], o);
      && r.files == {"downloads/abc123._cnv.mp4"}
      && r.reply == SendReply("downloads/abc123_cnv.mp4", sendOk)
      && "downloads/abc123_cnv.mp4" !in r.files
  {
    WebmOutputName();
    DurationThreshold(Some(300));
    assert DownloadPath("abc123", "webm") == "downloads/abc123.webm";
    assert CachePath("abc123") == "downloads/abc123_cnv.mp4";
  }
}
