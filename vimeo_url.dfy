/** The address of the embedded player page for a video. */
module VimeoUrl {

  import opened Optional

  /** Every player page lives under this prefix; the video identifier follows it verbatim. */
  const PlayerPrefix := "https://player.vimeo.com/video/"

  /** The page the web view loads for `videoId`. */
  function VimeoPageUrl(videoId: string): (url: string)
    ensures |url| == |PlayerPrefix| + |videoId|
    ensures url[..|PlayerPrefix|] == PlayerPrefix
    ensures url[|PlayerPrefix|..] == videoId
  {
    PlayerPrefix + videoId
  }

  /** Recovers the video identifier from a player page address, if it is one. */
  function VideoIdOf(url: string): (id: Option<string>)
    ensures id.Some? <==> |PlayerPrefix| <= |url| && url[..|PlayerPrefix|] == PlayerPrefix
  {
    if |PlayerPrefix| <= |url| && url[..|PlayerPrefix|] == PlayerPrefix
    then Some(url[|PlayerPrefix|..])
    else None
  }

  /** Reading the identifier back from the page address gives the identifier. */
  lemma VideoIdRoundTrip(videoId: string)
    ensures VideoIdOf(VimeoPageUrl(videoId)) == Some(videoId)
  {
  }

  /** Every address `VideoIdOf` accepts is the page of the identifier it returns. */
  lemma PageUrlRoundTrip(url: string)
    requires VideoIdOf(url).Some?
    ensures VimeoPageUrl(VideoIdOf(url).value) == url
  {
  }

  /** Distinct videos get distinct pages. */
  lemma VimeoPageUrlInjective(a: string, b: string)
    requires VimeoPageUrl(a) == VimeoPageUrl(b)
    ensures a == b
  {
  }

}
