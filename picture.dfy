/** The `/picture` handler `picture_from_url` (bot.py:35-82) with its nested helpers. */
module Picture {
  import opened Wrappers
  import opened Text
  import opened Replies

  const Digits: string := "0123456789"

  /** `"https://encrypted-tbn{}.gstatic.com/".format(i)`: a Google Images thumbnail host. */
  function Template(i: nat): (t: string)
    requires i < 10
    ensures |t| == 35 && t[21] as int - '0' as int == i
    ensures t[..21] == "https://encrypted-tbn" && t[22..] == ".gstatic.com/"
  {
    "https://encrypted-tbn" + [Digits[i]] + ".gstatic.com/"
  }

  /** The ten thumbnail prefixes, in the order the source lists them. */
  const GoogleTbnTemplates: seq<string> := seq(10, i requires 0 <= i < 10 => Template(i))

  /** Some thumbnail prefix occurs somewhere in `url`. */
  ghost predicate HasThumbnailPrefix(url: string) {
    exists i :: 0 <= i < 10 && IsSubstring(Template(i), url)
  }

  /** The picture handler's URL acceptance, with `validators.url` as the function `validator`. */
  ghost predicate AcceptsPictureUrl(url: string, validator: string -> bool) {
    HasThumbnailPrefix(url) || validator(url)
  }

  /** `is_valid_url`: scan the prefixes in order and accept at the first one found; only
      when none occurs is the generic validator asked. */
  method IsValidUrl(url: string, validator: string -> bool) returns (ok: bool)
    ensures ok <==> AcceptsPictureUrl(url, validator)
  {
    var templates := GoogleTbnTemplates;
    for i := 0 to |templates|
      invariant forall j :: 0 <= j < i ==> !IsSubstring(Template(j), url)
    {
      if Contains(url, templates[i]) {
        return true;
      }
    }
    ok := validator(url);
  }

  /** Any URL with a thumbnail prefix embedded in it is accepted whatever the validator says. */
  lemma ThumbnailUrlAccepted(before: string, i: nat, after: string, validator: string -> bool)
    requires i < 10
    ensures AcceptsPictureUrl(before + Template(i) + after, validator)
  {
    var url := before + Template(i) + after;
    assert Template(i) <= url[|before|..];
  }

  /** `is_image_url` on the value of the Content-Type header: `content_type and 'image' in
      content_type`, taken as a truth value (an absent or empty header is falsy). */
  function IsImageContentType(contentType: Option<string>): (r: bool)
    ensures r <==> contentType.Some? && IsSubstring("image", contentType.value)
  {
    match contentType
    case None => false
    case Some(ct) => ct != "" && Contains(ct, "image")
  }

  lemma JpegIsImage()
    ensures IsImageContentType(Some("image/jpeg"))
    ensures !IsImageContentType(None)
  {
    assert "image" <= "image/jpeg";
  }

  /** What `requests.head(url)` gave: a response with an optional Content-Type, or an exception. */
  datatype Probe = Responded(contentType: Option<string>) | ProbeFailed

  /** The calls the handler makes, in the order it makes them. */
  datatype Step = ArgCountGate | UrlGate | HeadRequest | GetRequest | SendPhoto

  /** `picture_from_url`. The network and Telegram are the oracles `validator` (validators.url),
      `probe` (requests.head), `fetched` (requests.get returned) and `sent` (send_photo did not
      raise TelegramError). */
  method PictureFromUrl(args: seq<string>, validator: string -> bool, probe: Probe, fetched: bool, sent: bool)
    returns (reply: Outcome, steps: seq<Step>)
    ensures reply == Replied(PictureUsageMessage) <==> |args| != 1
    ensures |args| != 1 ==> steps == [ArgCountGate]
    ensures |args| == 1 && !AcceptsPictureUrl(args[0], validator) ==>
      reply == Replied(InvalidUrlMessage) && steps == [ArgCountGate, UrlGate]
    ensures |args| == 1 && AcceptsPictureUrl(args[0], validator) ==>
      match probe
      case ProbeFailed =>
        reply == Unhandled(RequestError) && steps == [ArgCountGate, UrlGate, HeadRequest]
      case Responded(ct) =>
        if !IsImageContentType(ct) then
          reply == Replied(NotImageMessage) && steps == [ArgCountGate, UrlGate, HeadRequest]
        else if !fetched then
          reply == Unhandled(RequestError) && steps == [ArgCountGate, UrlGate, HeadRequest, GetRequest]
        else
          reply == (if sent then SentPhoto(args[0]) else Replied(TelegramErrorMessage)) &&
          steps == [ArgCountGate, UrlGate, HeadRequest, GetRequest, SendPhoto]
  {
    steps := [ArgCountGate];
    if |args| != 1 {
      reply := Replied(PictureUsageMessage);
      return;
    }
    var url := args[0];
    steps := steps + [UrlGate];
    var valid := IsValidUrl(url, validator);
    if !valid {
      reply := Replied(InvalidUrlMessage);
      return;
    }
    steps := steps + [HeadRequest];
    if probe.ProbeFailed? {
      reply := Unhandled(RequestError);
      return;
    }
    if !IsImageContentType(probe.contentType) {
      reply := Replied(NotImageMessage);
      return;
    }
    steps := steps + [GetRequest];
    if !fetched {
      reply := Unhandled(RequestError);
      return;
    }
    steps := steps + [SendPhoto];
    reply := if sent then SentPhoto(url) else Replied(TelegramErrorMessage);
  }
}
