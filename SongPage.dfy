/**
 * The song list on the page: `renderSongs`, which replaces the list's
 * content with one card per date, and `loadSongs`, which tries the
 * candidate locations of the songs file in order and renders from the
 * first one that works.
 */
module SongPage {
  import opened Seqs
  import opened SongData
  import opened JsObject
  import opened Grouping
  import opened SongLine

  /** One date card: the date shown in its header and the items of its numbered list. */
  datatype Card = Card(date: string, items: seq<string>)

  function Lines(songs: seq<Song>): seq<string> {
    seq(|songs|, i requires 0 <= i < |songs| => Line(songs[i]))
  }

  /** The cards for `dates`, in that order. */
  function CardsFor(songs: seq<Song>, dates: seq<string>): seq<Card> {
    seq(|dates|, i requires 0 <= i < |dates| => Card(dates[i], Lines(Bucket(songs, dates[i]))))
  }

  /** What the song list holds after rendering `songs`: its date groups in `Object.keys` order. */
  function RenderedCards(songs: seq<Song>): seq<Card> {
    CardsFor(songs, OwnKeys(DateKeys(songs)))
  }

  lemma CardsForSnoc(songs: seq<Song>, dates: seq<string>, d: string)
    ensures CardsFor(songs, dates + [d]) == CardsFor(songs, dates) + [Card(d, Lines(Bucket(songs, d)))]
  {
  }

  /** The number of list items over all cards. */
  function ItemCount(cards: seq<Card>): nat {
    if |cards| == 0 then 0 else |cards[0].items| + ItemCount(cards[1..])
  }

  lemma {:induction false} ItemCountGather(songs: seq<Song>, dates: seq<string>)
    ensures ItemCount(CardsFor(songs, dates)) == |Gather(songs, dates)|
  {
    if |dates| > 0 {
      assert CardsFor(songs, dates)[1..] == CardsFor(songs, dates[1..]);
      ItemCountGather(songs, dates[1..]);
    }
  }

  /** Rendering yields one card per distinct date and, over all cards, one item per song. */
  lemma RenderedCardsCount(songs: seq<Song>)
    ensures |RenderedCards(songs)| == DateCount(songs)
    ensures ItemCount(RenderedCards(songs)) == |songs|
  {
    var keys := DateKeys(songs);
    var order := OwnKeys(keys);
    OwnKeysSameKeys(keys);
    OwnKeysPermutation(keys);
    assert |order| == |multiset(order)| == |multiset(keys)| == |keys|;
    GroupCount(songs);
    ItemCountGather(songs, order);
    DateKeysMembers(songs);
    GatherPermutation(songs, order);
  }

  /** No card is empty and no date has two cards. */
  lemma RenderedCardsDistinct(songs: seq<Song>)
    ensures forall c :: 0 <= c < |RenderedCards(songs)| ==> |RenderedCards(songs)[c].items| > 0
    ensures forall c, d :: 0 <= c < d < |RenderedCards(songs)| ==>
      RenderedCards(songs)[c].date != RenderedCards(songs)[d].date
  {
    var keys := DateKeys(songs);
    var order := OwnKeys(keys);
    var cards := RenderedCards(songs);
    OwnKeysSameKeys(keys);
    forall c | 0 <= c < |cards| ensures |cards[c].items| > 0 {
      assert order[c] in order;
      BucketNonEmpty(songs, order[c]);
    }
    forall c, d | 0 <= c < d < |cards| ensures cards[c].date != cards[d].date {
      DistinctAt(order, c, d);
    }
  }

  /**
   * Every song's line is in the card of its own date, at the position that
   * keeps the input order of that date's songs.
   */
  lemma SongRenderedInItsCard(songs: seq<Song>, i: nat)
    requires i < |songs|
    ensures exists c :: (0 <= c < |RenderedCards(songs)| &&
      RenderedCards(songs)[c].date == DateKey(songs[i]) &&
      Rank(songs, i) < |RenderedCards(songs)[c].items| &&
      RenderedCards(songs)[c].items[Rank(songs, i)] == Line(songs[i]))
  {
    var k := DateKey(songs[i]);
    var order := OwnKeys(DateKeys(songs));
    OwnKeysSameKeys(DateKeys(songs));
    DateKeysMembers(songs);
    assert k in DateKeys(songs);
    var c :| 0 <= c < |order| && order[c] == k;
    SongInItsBucket(songs, i);
    assert RenderedCards(songs)[c] == Card(k, Lines(Bucket(songs, k)));
  }

  /** When no date is an array index, cards appear in the order each date first appears. */
  lemma RenderedCardsFirstAppearance(songs: seq<Song>)
    requires forall i :: 0 <= i < |songs| ==> !IsArrayIndex(DateKey(songs[i]))
    ensures |RenderedCards(songs)| == |DateKeys(songs)|
    ensures forall c :: 0 <= c < |RenderedCards(songs)| ==> RenderedCards(songs)[c].date == DateKeys(songs)[c]
    ensures forall c, d :: 0 <= c < d < |RenderedCards(songs)| ==>
      FirstIndex(songs, RenderedCards(songs)[c].date) < FirstIndex(songs, RenderedCards(songs)[d].date)
  {
    var keys := DateKeys(songs);
    DateKeysMembers(songs);
    forall j | 0 <= j < |keys| ensures !IsArrayIndex(keys[j]) {
      assert keys[j] in keys;
      var i :| 0 <= i < |songs| && DateKey(songs[i]) == keys[j];
    }
    OwnKeysCreationOrder(keys);
    var cards := RenderedCards(songs);
    assert |cards| == |keys|;
    forall c | 0 <= c < |cards| ensures cards[c].date == keys[c] {
    }
    forall c, d | 0 <= c < d < |cards| ensures FirstIndex(songs, cards[c].date) < FirstIndex(songs, cards[d].date) {
      DateKeysFirstAppearance(songs, c, d);
    }
  }

  /** What `response.json()` produced. */
  datatype Document =
    | JsonNull                              // reading `data.songs` throws
    | JsonValue(songs: Option<seq<Song>>)   // `data.songs`: an array, or a value without `forEach`

  /** The result of fetching one candidate path. */
  datatype FetchOutcome =
    | Rejected          // `fetch` itself threw
    | NotOk             // the response's `ok` flag is false
    | Unparsable        // `response.json()` threw
    | Parsed(doc: Document)

  /** The candidate locations of the songs file, in the order they are tried. */
  const PossiblePaths: seq<string> := ["Data/songs.json", "../Data/songs.json", "./Data/songs.json"]

  /** An attempt ends the search: `renderSongs` was reached and returned without throwing. */
  predicate Stops(outcome: FetchOutcome, hasSongList: bool) {
    outcome.Parsed? && outcome.doc.JsonValue? && (outcome.doc.songs.Some? || !hasSongList)
  }

  /** An attempt empties the list and then throws: `renderSongs` got something it cannot iterate. */
  predicate Clears(outcome: FetchOutcome, hasSongList: bool) {
    hasSongList && outcome.Parsed? && outcome.doc.JsonValue? && outcome.doc.songs.None?
  }

  /** The first attempt that ends the search, if any: a first-success search. */
  function FirstStop(outcomes: seq<FetchOutcome>, hasSongList: bool): (r: Option<nat>)
    ensures r.Some? ==> r.value < |outcomes| && Stops(outcomes[r.value], hasSongList)
    ensures r.Some? ==> forall j :: 0 <= j < r.value ==> !Stops(outcomes[j], hasSongList)
    ensures r.None? <==> forall j :: 0 <= j < |outcomes| ==> !Stops(outcomes[j], hasSongList)
  {
    if |outcomes| == 0 then None
    else if Stops(outcomes[0], hasSongList) then Some(0)
    else
      match FirstStop(outcomes[1..], hasSongList)
      case None => None
      case Some(i) => Some(i + 1)
  }

  /** How many paths are fetched: up to and including the first that ends the search. */
  function Attempts(outcomes: seq<FetchOutcome>, hasSongList: bool): (n: nat)
    ensures n <= |outcomes|
  {
    match FirstStop(outcomes, hasSongList)
    case Some(i) => i + 1
    case None => |outcomes|
  }

  /** The song list after `loadSongs`, starting from `before`. */
  function CardsAfterLoad(before: seq<Card>, outcomes: seq<FetchOutcome>, hasSongList: bool): seq<Card> {
    var stop := FirstStop(outcomes, hasSongList);
    if stop.Some? && hasSongList then RenderedCards(outcomes[stop.value].doc.songs.value)
    else if exists j :: 0 <= j < Attempts(outcomes, hasSongList) && Clears(outcomes[j], hasSongList) then []
    else before
  }

  /**
   * Only the outcomes up to the first success matter: replacing what later
   * paths would have returned changes neither how many paths are fetched
   * nor what is rendered.
   */
  lemma LaterPathsIgnored(a: seq<FetchOutcome>, b: seq<FetchOutcome>, hasSongList: bool, before: seq<Card>)
    requires FirstStop(a, hasSongList).Some?
    requires FirstStop(a, hasSongList).value < |b|
    requires a[..FirstStop(a, hasSongList).value + 1] == b[..FirstStop(a, hasSongList).value + 1]
    ensures FirstStop(b, hasSongList) == FirstStop(a, hasSongList)
    ensures Attempts(b, hasSongList) == Attempts(a, hasSongList)
    ensures CardsAfterLoad(before, b, hasSongList) == CardsAfterLoad(before, a, hasSongList)
  {
    var i := FirstStop(a, hasSongList).value;
    forall j | 0 <= j <= i ensures b[j] == a[j] {
      assert b[j] == b[..i + 1][j];
    }
    var r := FirstStop(b, hasSongList);
    assert r.Some?;
    assert r.value == i;
  }

  /**
   * When no path yields a parsed document, every path is fetched and the
   * list keeps what it showed before.
   */
  lemma NoDocumentNothingRendered(outcomes: seq<FetchOutcome>, hasSongList: bool, before: seq<Card>)
    requires forall j :: 0 <= j < |outcomes| ==> !outcomes[j].Parsed? || outcomes[j].doc.JsonNull?
    ensures FirstStop(outcomes, hasSongList).None?
    ensures Attempts(outcomes, hasSongList) == |outcomes|
    ensures CardsAfterLoad(before, outcomes, hasSongList) == before
  {
  }

  /** The list items of one date card, composed one song at a time. */
  method ComposeItems(bucket: seq<Song>) returns (items: seq<string>)
    ensures |items| == |bucket|
    ensures forall j :: 0 <= j < |bucket| ==> items[j] == Line(bucket[j])
  {
    items := [];
    var j := 0;
    while j < |bucket|
      invariant 0 <= j <= |bucket|
      invariant |items| == j
      invariant forall t :: 0 <= t < j ==> items[t] == Line(bucket[t])
    {
      var content := ComposeLine(bucket[j]);
      items := items + [content];
      j := j + 1;
    }
  }

  /** The page: whether it has a `.song-list` element, and the cards that element holds. */
  class Page {
    const hasSongList: bool
    var cards: seq<Card>

    constructor (hasSongList: bool, cards: seq<Card>)
      ensures this.hasSongList == hasSongList && this.cards == cards
    {
      this.hasSongList := hasSongList;
      this.cards := cards;
    }

    /**
     * `renderSongs(songs)`: without a song list it does nothing; otherwise it
     * empties the list, then throws if `songs` cannot be iterated, and else
     * appends one card per date group. The result never depends on what the
     * list held before.
     */
    method RenderSongs(songs: Option<seq<Song>>) returns (threw: bool)
      modifies this
      ensures threw <==> hasSongList && songs.None?
      ensures cards == if !hasSongList then old(cards) else if songs.None? then [] else RenderedCards(songs.value)
    {
      if !hasSongList {
        return false;
      }
      cards := [];
      if songs.None? {
        return true;
      }
      var list := songs.value;
      var keys, byDate := GroupByDate(list);
      OwnKeysSameKeys(DateKeys(list));
      var i := 0;
      while i < |keys|
        invariant 0 <= i <= |keys|
        invariant cards == CardsFor(list, keys[..i])
      {
        var date := keys[i];
        assert date in keys;
        var items := ComposeItems(byDate[date]);
        assert items == Lines(Bucket(list, date));
        cards := cards + [Card(date, items)];
        assert keys[..i + 1] == keys[..i] + [date];
        CardsForSnoc(list, keys[..i], date);
        i := i + 1;
      }
      assert keys[..i] == keys;
      threw := false;
    }

    /**
     * `loadSongs`, with `outcomes[i]` standing for what fetching and parsing
     * `PossiblePaths[i]` yields. Paths are tried in order; the search ends at
     * the first path whose document reaches `renderSongs` and returns from
     * it, and no later path is fetched. Returns the paths fetched and the
     * path the search ended on.
     */
    method LoadSongs(outcomes: seq<FetchOutcome>) returns (fetched: seq<string>, usedPath: Option<string>)
      requires |outcomes| == |PossiblePaths|
      modifies this
      ensures fetched == PossiblePaths[..Attempts(outcomes, hasSongList)]
      ensures usedPath == match FirstStop(outcomes, hasSongList)
        case Some(i) => Some(PossiblePaths[i])
        case None => None
      ensures cards == CardsAfterLoad(old(cards), outcomes, hasSongList)
    {
      fetched := [];
      var i := 0;
      while i < |PossiblePaths|
        invariant 0 <= i <= |PossiblePaths|
        invariant fetched == PossiblePaths[..i]
        invariant forall j :: 0 <= j < i ==> !Stops(outcomes[j], hasSongList)
        invariant cards == if exists j :: 0 <= j < i && Clears(outcomes[j], hasSongList) then [] else old(cards)
      {
        var path := PossiblePaths[i];
        fetched := fetched + [path];
        match outcomes[i] {
          case Rejected =>
          case NotOk =>
          case Unparsable =>
          case Parsed(JsonNull) =>
          case Parsed(JsonValue(songs)) =>
            var threw := RenderSongs(songs);
            if !threw {
              usedPath := Some(path);
              return;
            }
        }
        i := i + 1;
      }
      usedPath := None;
    }
  }
}
