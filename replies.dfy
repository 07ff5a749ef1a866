/** What a request handler ends with, and the fixed texts it replies with. */
module Replies {

  const TelegramErrorMessage: string := "Telegram error occured. Please try again later"
  const DownloaderErrorMessage: string := "Downloading error occured. Please try again later"
  const PictureUsageMessage: string :=
    "You must provide exactly one picture URL. Example:\n/picture https://example.com/picture.jpg"
  const VideoUsageMessage: string :=
    "You must provide exactly one video URL. Example:\n/video https://example.com/video.mp4"
  const InvalidUrlMessage: string := "Invalid url :("
  const NotImageMessage: string := "Not an image :("
  const TooLongMessage: string := "Too long video to upload :("
  const TooLargeMessage: string := "Downloaded unsuccessfully: file is too large"

  /** Exceptions that neither handler catches. */
  datatype Fault =
    | TypeError     // `None > 14`
    | FileNotFound  // `os.remove` of a path that does not exist
    | FfmpegError   // the transcoder failed
    | RequestError  // `requests.head` / `requests.get` failed

  datatype Outcome =
    | Replied(text: string)      // a text reply to the request
    | SentPhoto(url: string)     // the picture fetched from `url` was sent
    | SentVideo(path: string)    // `send_video` was given `path`
    | Unhandled(fault: Fault)    // the handler ended with an uncaught exception
}
