/** The shared `downloads/` directory and the handler steps that change it (bot.py:86-221). */
module Downloads {
  import opened Wrappers
  import opened Paths
  import opened Gates
  import opened Replies
  import opened VideoPipeline

  class DownloadsDir {
    /** The paths of the files now in the directory. */
    var files: set<string>

    constructor (existing: set<string>)
      ensures files == existing
    {
      files := existing;
    }

    /** `os.remove(path)`: reports whether the file was there; when it was not, Python raises
        FileNotFoundError and the caller decides what that means. */
    method Remove(path: string) returns (existed: bool)
      modifies this
      ensures existed <==> path in old(files)
      ensures files == old(files) - {path}
    {
      existed := path in files;
      files := files - {path};
    }

    /** `clean_folder`: count the entries and, past the limit, remove every listed one. */
    method CleanFolder()
      modifies this
      ensures |old(files)| > FileLimitBeforeCleanup ==> files == {}
      ensures |old(files)| <= FileLimitBeforeCleanup ==> files == old(files)
    {
      var fileCount := |files|;
      if fileCount > FileLimitBeforeCleanup {
        var listing := files;
        while listing != {}
          invariant files == listing
          decreases listing
        {
          var name :| name in listing;
          var existed := Remove(name);
          assert existed;
          listing := listing - {name};
        }
      }
    }

    /** `download_video`: yt-dlp writes `downloads/{id}.{ext}` and the path is returned, or it
        raises DownloadError. */
    method DownloadVideo(fetch: Fetch) returns (path: Option<string>)
      modifies this
      ensures fetch.FetchFailed? ==> path == None && files == old(files)
      ensures fetch.Fetched? ==>
        path == Some(DownloadPath(fetch.id, fetch.ext)) && files == old(files) + {path.value}
    {
      if fetch.FetchFailed? {
        return None;
      }
      var written := DownloadPath(fetch.id, fetch.ext);
      files := files + {written};
      path := Some(written);
    }

    /** `change_codec_to_mp4`: ffmpeg writes `input[:-4] + "_cnv.mp4"`, then the input is
        removed; `None` when ffmpeg raised, before anything was removed. */
    method ChangeCodecToMp4(input: string, encode: Encode) returns (output: Option<string>)
      requires input in files
      modifies this
      ensures encode.EncodeFailed? ==> output == None && files == old(files)
      ensures encode.Encoded? ==>
        output == Some(TranscodeOutput(input)) &&
        files == old(files) + {TranscodeOutput(input)} - {input}
    {
      if encode.EncodeFailed? {
        return None;
      }
      var outputFilename := TranscodeOutput(input);
      files := files + {outputFilename};
      var existed := Remove(input);
      assert existed;
      output := Some(outputFilename);
    }

    /** `video_from_url`: the steps of the handler with early returns; its reply, the directory
        it leaves and the steps it took are those of `VideoRun`. */
    method VideoFromUrl(args: seq<string>, o: Oracle) returns (reply: Outcome, steps: seq<Step>)
      modifies this
      ensures var r := VideoRun(old(files), args, o); reply == r.reply && files == r.files && steps == r.steps
    {
      CleanFolder();
      assert files == Swept(old(files));
      steps := [Sweep, ArgCountGate];
      if |args| != 1 {
        reply := Replied(VideoUsageMessage);
        return;
      }
      var url := args[0];
      steps := [Sweep, ArgCountGate, UrlGate];
      if !o.urlIsValid(url) {
        reply := Replied(InvalidUrlMessage);
        return;
      }
      steps := [Sweep, ArgCountGate, UrlGate, MetadataLookup];
      if o.lookup.LookupFailed? {
        reply := Replied(DownloaderErrorMessage);
        return;
      }
      reply, steps := ResolvedRequest(o.lookup.info, o, steps);
    }

    /** `video_from_url` from the duration gate on (bot.py:185-195). */
    method ResolvedRequest(info: Info, o: Oracle, before: seq<Step>) returns (reply: Outcome, steps: seq<Step>)
      modifies this
      ensures Run(reply, files, steps) == ResolvedRun(old(files), info, o, before)
    {
      var (filename, duration) := GetFilenameDuration(info);
      steps := before + [DurationGate];
      var verdict := CheckDuration(duration);
      if verdict == NotComparable {
        reply := Unhandled(TypeError);
        return;
      } else if verdict == TooLong {
        reply := Replied(TooLongMessage);
        return;
      }
      steps := steps + [CacheLookup];
      if filename in files {
        steps := steps + [Send];
        reply := SendReply(filename, o.sendOk);
        return;
      }
      reply, steps := FreshDownload(filename, o, steps);
    }

    /** The cache-miss branch of `video_from_url` (bot.py:194-213). */
    method FreshDownload(filename: string, o: Oracle, before: seq<Step>) returns (reply: Outcome, steps: seq<Step>)
      requires filename !in files
      modifies this
      ensures Run(reply, files, steps) == FreshRun(old(files), filename, o, before)
    {
      steps := before + [Download];
      var downloaded := DownloadVideo(o.fetch);
      if downloaded.None? {
        reply := Replied(DownloaderErrorMessage);
        return;
      }
      var filePath := downloaded.value;
      steps := steps + [RawSizeGate];
      if !IsUploadableVideo(o.fetch.size) {
        var _ := Remove(filePath);
        reply := Replied(TooLargeMessage);
        return;
      }
      steps := steps + [Transcode];
      var converted := ChangeCodecToMp4(filePath, o.encode);
      if converted.None? {
        reply := Unhandled(FfmpegError);
        return;
      }
      filePath := converted.value;
      steps := steps + [OutputSizeGate];
      if !IsUploadableVideo(o.encode.size) {
        var existed := Remove(filename);
        reply := if existed then Replied(TooLargeMessage) else Unhandled(FileNotFound);
        return;
      }
      steps := steps + [Send];
      reply := SendReply(filename, o.sendOk);
    }
  }
}
