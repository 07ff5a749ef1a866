/** The policy gates of the video handler, on integer sizes and durations. */
module Gates {
  import opened Wrappers

  /** Telegram's upload limit in MiB (bot.py:134). */
  const FileSizeLimitMb: int := 50
  /** Longest accepted video, in minutes (bot.py:187). */
  const MaxDurationMinutes: int := 14
  /** The janitor wipes the directory once it holds more entries than this (bot.py:94). */
  const FileLimitBeforeCleanup: int := 14

  /** `size_bytes / (1024 * 1024) < 50`: the division is done on reals, as the source does it
      in floating point (dividing by a power of two is exact there). */
  function IsUploadableVideo(sizeBytes: nat): (ok: bool)
    ensures ok <==> sizeBytes < 52_428_800
  {
    (sizeBytes as real) / (1024.0 * 1024.0) < FileSizeLimitMb as real
  }

  /** The duration as returned by `get_filename_duration`: a truthy number of seconds is
      divided by 60, zero is returned as it is, and a missing one stays missing. */
  function MinutesOf(seconds: Option<int>): (minutes: Option<real>)
    ensures minutes.Some? <==> seconds.Some?
    ensures seconds.Some? ==> minutes.value * 60.0 == seconds.value as real
  {
    match seconds
    case None => None
    case Some(s) => if s != 0 then Some(s as real / 60.0) else Some(s as real)
  }

  /** What `duration > 14` does: compare a number, or raise TypeError on `None`. */
  datatype DurationVerdict = Accepted | TooLong | NotComparable

  function CheckDuration(minutes: Option<real>): (v: DurationVerdict)
    ensures v == NotComparable <==> minutes.None?
    ensures v == TooLong <==> minutes.Some? && minutes.value > 14.0
  {
    match minutes
    case None => NotComparable
    case Some(m) => if m > MaxDurationMinutes as real then TooLong else Accepted
  }

  /** In whole seconds the gate refuses exactly the videos longer than 840 s; a missing
      duration cannot be compared at all. */
  lemma DurationThreshold(seconds: Option<int>)
    ensures CheckDuration(MinutesOf(seconds)) == NotComparable <==> seconds.None?
    ensures CheckDuration(MinutesOf(seconds)) == TooLong <==> seconds.Some? && seconds.value > 840
  {
  }

  /** The boundary cases: 840 s and 0 s pass, 841 s is refused, 50 MiB is refused. */
  lemma GateBoundaries()
    ensures CheckDuration(MinutesOf(Some(840))) == Accepted
    ensures CheckDuration(MinutesOf(Some(841))) == TooLong
    ensures CheckDuration(MinutesOf(Some(0))) == Accepted
    ensures IsUploadableVideo(52_428_799) && !IsUploadableVideo(52_428_800)
  {
    DurationThreshold(Some(840));
    DurationThreshold(Some(841));
    DurationThreshold(Some(0));
  }
}
