/**
 * The HTML text of one song's list item: a title link to the video, " by ",
 * an artist link, and a lyrics link only when the song has a lyrics URL.
 * Field values are interpolated as they are: nothing is escaped.
 */
module SongLine {
  import opened SongData

  /** Text that opens a link to `url` in a new tab, up to the link text. */
  function OpenBlankLink(url: string): string {
    "<a href=\"" + url + "\" target=\"_blank\">"
  }

  function TitleLink(song: Song): string {
    OpenBlankLink(Text(song.youtubeUrl)) + Text(song.title) + "</a>"
  }

  function ArtistLink(song: Song): string {
    OpenBlankLink(Text(song.artistUrl)) + Text(song.artist) + "</a>"
  }

  function LyricsLink(url: string): string {
    "<a href=\"" + url + "\">View lyrics</a>"
  }

  /** The part every line has: title link, " by ", artist link. */
  function Head(song: Song): string {
    TitleLink(song) + " by " + ArtistLink(song)
  }

  /** The full list-item text of `song`. */
  function Line(song: Song): string {
    Head(song) + if Truthy(song.lyricsUrl) then " | " + LyricsLink(song.lyricsUrl.value) else ""
  }

  /**
   * Builds the list-item text by appending to `content`, as `renderSongs`
   * does for each song.
   */
  method ComposeLine(song: Song) returns (content: string)
    ensures content == Line(song)
  {
    content := OpenBlankLink(Text(song.youtubeUrl)) + Text(song.title) + "</a>";
    content := content + " by " + OpenBlankLink(Text(song.artistUrl)) + Text(song.artist) + "</a>";
    if Truthy(song.lyricsUrl) {
      content := content + " | " + LyricsLink(song.lyricsUrl.value);
    }
  }

  /**
   * Every line starts with the title link, " by " and the artist link; the
   * lyrics link follows exactly when the lyrics URL is truthy, and nothing
   * else is ever added.
   */
  lemma LineShape(song: Song)
    ensures |Head(song)| <= |Line(song)| && Line(song)[..|Head(song)|] == Head(song)
    ensures Line(song)[..|TitleLink(song)| + 4] == TitleLink(song) + " by "
    ensures |Line(song)| > |Head(song)| <==> Truthy(song.lyricsUrl)
    ensures Truthy(song.lyricsUrl) ==> Line(song)[|Head(song)|..] == " | " + LyricsLink(song.lyricsUrl.value)
  {
  }

  /**
   * Field values reach the markup verbatim: the title text stands at a fixed
   * offset after the video URL, whatever characters it holds.
   */
  lemma TitleVerbatim(song: Song)
    ensures var at := |OpenBlankLink(Text(song.youtubeUrl))|;
      at + |Text(song.title)| <= |Line(song)| && Line(song)[at..at + |Text(song.title)|] == Text(song.title)
  {
  }

  /** The artist text likewise stands right after the artist link's opening tag. */
  lemma ArtistVerbatim(song: Song)
    ensures var at := |TitleLink(song)| + 4 + |OpenBlankLink(Text(song.artistUrl))|;
      at + |Text(song.artist)| <= |Line(song)| && Line(song)[at..at + |Text(song.artist)|] == Text(song.artist)
  {
  }

  /**
   * Interpolation reads a missing field as "undefined", and an empty lyrics
   * URL is falsy: such songs render exactly like their spelled-out twins.
   */
  lemma MissingFieldsRender(song: Song)
    ensures Line(song.(title := None)) == Line(song.(title := Some("undefined")))
    ensures Line(song.(artist := None)) == Line(song.(artist := Some("undefined")))
    ensures Line(song.(youtubeUrl := None)) == Line(song.(youtubeUrl := Some("undefined")))
    ensures Line(song.(artistUrl := None)) == Line(song.(artistUrl := Some("undefined")))
    ensures Line(song.(lyricsUrl := Some(""))) == Line(song.(lyricsUrl := None))
  {
  }
}
