/** `sendMedia` in index.js: every message of the bot is sent as one Bot API
    call whose method, and the name of the field carrying the configured
    media, depend only on the configured `MEDIA_FILE` string. */
module Media {
  import opened Funnel

  /** JavaScript's `s.endsWith(suffix)`. */
  predicate EndsWith(s: string, suffix: string)
  {
    |suffix| <= |s| && s[|s| - |suffix|..] == suffix
  }

  ghost predicate OccursAt(s: string, sub: string, i: int)
  {
    0 <= i && i + |sub| <= |s| && s[i..i + |sub|] == sub
  }

  /** JavaScript's `s.includes(sub)`: `sub` occurs somewhere in `s`. */
  ghost predicate Contains(s: string, sub: string)
  {
    exists i :: OccursAt(s, sub, i)
  }

  /** Left-to-right search for `sub` in `s`. */
  method Includes(s: string, sub: string) returns (found: bool)
    ensures found <==> Contains(s, sub)
  {
    var i := 0;
    while i + |sub| <= |s|
      invariant 0 <= i
      invariant forall k :: 0 <= k < i ==> !OccursAt(s, sub, k)
      decreases |s| - i
    {
      if s[i..i + |sub|] == sub {
        assert OccursAt(s, sub, i);
        return true;
      }
      i := i + 1;
    }
    return false;
  }

  /** The Bot API method and the name of its media field. */
  datatype Endpoint = Endpoint(apiMethod: string, mediaField: string)

  const VideoEndpoint: Endpoint := Endpoint("sendVideo", "video")
  const PhotoEndpoint: Endpoint := Endpoint("sendPhoto", "photo")

  /** The media is treated as a video when its name ends in ".mp4" or
      mentions "video" anywhere; the test is case-sensitive. */
  ghost predicate IsVideo(file: string)
  {
    EndsWith(file, ".mp4") || Contains(file, "video")
  }

  method ChooseEndpoint(file: string) returns (e: Endpoint)
    ensures e == VideoEndpoint <==> IsVideo(file)
    ensures e == PhotoEndpoint <==> !IsVideo(file)
  {
    var isVideo := EndsWith(file, ".mp4");
    if !isVideo {
      isVideo := Includes(file, "video");
    }
    e := if isVideo then VideoEndpoint else PhotoEndpoint;
  }

  /** The body of one Bot API request (the bot token in the URL is left out). */
  datatype ApiCall = ApiCall(
    apiMethod: string,
    chat: ChatId,
    mediaField: string,
    media: string,
    caption: Caption,
    parseMode: string,
    keyboard: Keyboard)

  /** The request `sendMedia` posts for a message. */
  method SendMediaCall(file: string, m: Message) returns (call: ApiCall)
    // the configured media is attached as a video exactly when it looks like one
    ensures call.apiMethod == "sendVideo" <==> IsVideo(file)
    ensures call.apiMethod == "sendVideo" ==> call.mediaField == "video"
    ensures call.apiMethod != "sendVideo" ==> call.apiMethod == "sendPhoto" && call.mediaField == "photo"
    // the message itself passes through unchanged, formatted as Markdown
    ensures call.media == file && call.chat == m.chat
    ensures call.caption == m.caption && call.keyboard == m.keyboard
    ensures call.parseMode == "Markdown"
  {
    var e := ChooseEndpoint(file);
    call := ApiCall(e.apiMethod, m.chat, e.mediaField, file, m.caption, "Markdown", m.keyboard);
  }

  /** A name without the letter 'v' cannot mention "video". */
  lemma NoVideoWithoutV(s: string)
    requires forall k :: 0 <= k < |s| ==> s[k] != 'v'
    ensures !Contains(s, "video")
  {
    forall i ensures !OccursAt(s, "video", i) {
      if 0 <= i && i + 5 <= |s| {
        assert s[i..i + 5][0] == s[i];
      }
    }
  }

  /** Sample classifications: a ".mp4" name and a URL mentioning "video" are
      videos; a ".jpg" name and an upper-case ".MP4" name are photos. */
  lemma SampleFiles()
    ensures IsVideo("clip.mp4")
    ensures IsVideo("https://cdn.example/video/42")
    ensures !IsVideo("ana.jpg")
    ensures !IsVideo("clip.MP4")
  {
    assert OccursAt("https://cdn.example/video/42", "video", 20);
    NoVideoWithoutV("ana.jpg");
    NoVideoWithoutV("clip.MP4");
  }
}
