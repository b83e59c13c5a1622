/**
 * The song records that the page reads from its JSON file, and the few
 * JavaScript value conversions that rendering applies to their fields.
 */
module SongData {

  datatype Option<T> = None | Some(value: T)

  /**
   * One entry of the `songs` array. Every field may be missing from the
   * JSON object; a missing field reads as `undefined`.
   */
  datatype Song = Song(
    title: Option<string>,
    artist: Option<string>,
    date: Option<string>,
    youtubeUrl: Option<string>,
    artistUrl: Option<string>,
    lyricsUrl: Option<string>)

  /** A field interpolated into a template literal: `undefined` becomes the text "undefined". */
  function Text(field: Option<string>): string {
    match field
    case None => "undefined"
    case Some(s) => s
  }

  /** JavaScript truthiness of a string field: present and not empty. */
  predicate Truthy(field: Option<string>) {
    field.Some? && field.value != ""
  }

  /**
   * The property key `songsByDate[song.date]` uses: the date string itself,
   * or "undefined" when the song has no date.
   */
  function DateKey(song: Song): string {
    Text(song.date)
  }
}
