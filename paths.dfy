/** File names in the shared download directory (bot.py:15, 123, 146, 155, 161). */
module Paths {

  const DownloadsDirName: string := "downloads"
  const ConvertedSuffix: string := "_cnv.mp4"

  /** The normalised output of media `id`: `downloads/{id}_cnv.mp4`, the cache key. */
  function CachePath(id: string): string {
    DownloadsDirName + "/" + id + ConvertedSuffix
  }

  /** Where the downloader writes media `id` with extension `ext`: `downloads/{id}.{ext}`. */
  function DownloadPath(id: string, ext: string): string {
    DownloadsDirName + "/" + id + "." + ext
  }

  /** Python's slice `s[:-4]`: everything but the last four characters, or "" if shorter. */
  function DropLast4(s: string): (r: string)
    ensures r <= s
    ensures |r| == if |s| >= 4 then |s| - 4 else 0
  {
    if |s| >= 4 then s[..|s| - 4] else ""
  }

  /** The transcoder's output name `input[:-4] + "_cnv.mp4"`. */
  function TranscodeOutput(input: string): (output: string)
    ensures output != input
    ensures |output| >= |ConvertedSuffix| && output[|output| - |ConvertedSuffix|..] == ConvertedSuffix
  {
    DropLast4(input) + ConvertedSuffix
  }

  /** The cache path reads back as the directory, the id and the `_cnv.mp4` suffix. */
  lemma CachePathParts(id: string)
    ensures var p := CachePath(id);
      && |p| == |id| + 18
      && p[..10] == "downloads/" && p[10..10 + |id|] == id && p[10 + |id|..] == ConvertedSuffix
  {
  }

  /** The download path reads back as the directory, the id, a dot and the extension. */
  lemma DownloadPathParts(id: string, ext: string)
    ensures var p := DownloadPath(id, ext);
      && |p| == |id| + |ext| + 11
      && p[..10] == "downloads/" && p[10..10 + |id|] == id && p[10 + |id|] == '.' && p[11 + |id|..] == ext
  {
  }

  /** Distinct media ids have distinct cache paths. */
  lemma CachePathInjective(a: string, b: string)
    requires CachePath(a) == CachePath(b)
    ensures a == b
  {
    var n := |DownloadsDirName + "/"|;
    assert |a| == |b|;
    assert a == CachePath(a)[n..n + |a|];
    assert b == CachePath(b)[n..n + |b|];
  }

  /** A raw download of media `id` is never mistaken for its cached output. */
  lemma DownloadIsNotCache(id: string, ext: string)
    ensures DownloadPath(id, ext) != CachePath(id)
  {
    var n := |DownloadsDirName + "/" + id|;
    assert DownloadPath(id, ext)[n] == '.';
    assert CachePath(id)[n] == '_';
  }

  /** Transcoding the raw download of `id` lands on the cache path of `id` exactly when the
      extension has three characters: `input[:-4]` strips ".mp4" but not ".webm". */
  lemma TranscodeOutputIsCachePath(id: string, ext: string)
    ensures TranscodeOutput(DownloadPath(id, ext)) == CachePath(id) <==> |ext| == 3
  {
    var input := DownloadPath(id, ext);
    var stem := DownloadsDirName + "/" + id;
    assert |input| == |stem| + 1 + |ext|;
    if |ext| == 3 {
      assert input == stem + ("." + ext);
      assert DropLast4(input) == stem;
    } else {
      assert |TranscodeOutput(input)| == |stem| + 1 + |ext| - 4 + |ConvertedSuffix|;
      assert |CachePath(id)| == |stem| + |ConvertedSuffix|;
    }
  }

  /** The example from the source's own naming scheme: a `webm` download is transcoded to
      `downloads/{id}._cnv.mp4`, next to (not onto) the cache path. */
  lemma WebmOutputName()
    ensures TranscodeOutput(DownloadPath("abc123", "webm")) == "downloads/abc123._cnv.mp4"
    ensures TranscodeOutput(DownloadPath("abc123", "webm")) != CachePath("abc123")
  {
    var input := DownloadPath("abc123", "webm");
    assert input == "downloads/abc123.webm";
    assert DropLast4(input) == input[..17] == "downloads/abc123.";
    assert |CachePath("abc123")| == 24;
  }

  /** A download whose id differs from the requested one can be transcoded onto another id's
      cache path: `downloads/abc.m` becomes `downloads/a_cnv.mp4`. */
  lemma OtherIdCachePath()
    ensures TranscodeOutput(DownloadPath("abc", "m")) == CachePath("a")
  {
    var input := DownloadPath("abc", "m");
    assert input == "downloads/abc.m";
    assert DropLast4(input) == input[..11] == "downloads/a";
  }
}
