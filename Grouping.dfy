/**
 * The `songsByDate` dictionary that `renderSongs` fills in one pass over
 * its input: a group-by on each song's date that keeps input order.
 */
module Grouping {
  import opened Seqs
  import opened SongData
  import opened JsObject

  /** The dates of `songs`, each once, in the order they first appear. */
  function DateKeys(songs: seq<Song>): (keys: seq<string>)
    ensures Distinct(keys)
  {
    if |songs| == 0 then []
    else
      var prev, last := songs[..|songs| - 1], songs[|songs| - 1];
      var keys := DateKeys(prev);
      var k := DateKey(last);
      if k in keys then keys
      else
        assert k !in multiset(keys);
        keys + [k]
  }

  /** A date is a key exactly when some song carries it. */
  lemma {:induction false} DateKeysMembers(songs: seq<Song>)
    ensures forall k :: k in DateKeys(songs) <==> exists i :: 0 <= i < |songs| && DateKey(songs[i]) == k
  {
    if |songs| > 0 {
      var prev := songs[..|songs| - 1];
      DateKeysMembers(prev);
      assert forall i :: 0 <= i < |prev| ==> prev[i] == songs[i];
    }
  }

  /** The songs of `songs` whose date is `date`, in input order. */
  function Bucket(songs: seq<Song>, date: string): (r: seq<Song>)
    ensures forall j :: 0 <= j < |r| ==> DateKey(r[j]) == date
    ensures |r| <= |songs|
  {
    if |songs| == 0 then []
    else
      var prev, last := songs[..|songs| - 1], songs[|songs| - 1];
      Bucket(prev, date) + if DateKey(last) == date then [last] else []
  }

  /** The number of distinct dates in `songs`. */
  ghost function DateCount(songs: seq<Song>): nat {
    |set i | 0 <= i < |songs| :: DateKey(songs[i])|
  }

  /** One group per distinct date: the number of groups is the number of distinct dates. */
  lemma GroupCount(songs: seq<Song>)
    ensures |DateKeys(songs)| == DateCount(songs)
  {
    var keys := DateKeys(songs);
    DateKeysMembers(songs);
    DistinctCardinality(keys);
    assert (set k | k in keys) == (set i | 0 <= i < |songs| :: DateKey(songs[i]));
  }

  /** A date has a group exactly when some song carries it, and no group is empty. */
  lemma {:induction false} BucketNonEmpty(songs: seq<Song>, date: string)
    ensures |Bucket(songs, date)| > 0 <==> date in DateKeys(songs)
  {
    if |songs| > 0 {
      var prev := songs[..|songs| - 1];
      BucketNonEmpty(prev, date);
    }
  }

  lemma {:induction false} BucketAppend(a: seq<Song>, b: seq<Song>, date: string)
    ensures Bucket(a + b, date) == Bucket(a, date) + Bucket(b, date)
  {
    if |b| == 0 {
      assert a + b == a;
    } else {
      var p := b[..|b| - 1];
      assert (a + b)[..|a + b| - 1] == a + p;
      BucketAppend(a, p, date);
    }
  }

  /** How many earlier songs share the date of `songs[i]`. */
  function Rank(songs: seq<Song>, i: nat): nat
    requires i < |songs|
  {
    |Bucket(songs[..i], DateKey(songs[i]))|
  }

  /** Each song sits in the group of its own date, at the position given by its rank. */
  lemma SongInItsBucket(songs: seq<Song>, i: nat)
    requires i < |songs|
    ensures Rank(songs, i) < |Bucket(songs, DateKey(songs[i]))|
    ensures Bucket(songs, DateKey(songs[i]))[Rank(songs, i)] == songs[i]
  {
    var k := DateKey(songs[i]);
    assert songs == songs[..i] + [songs[i]] + songs[i + 1..];
    BucketAppend(songs[..i] + [songs[i]], songs[i + 1..], k);
    BucketAppend(songs[..i], [songs[i]], k);
    assert [songs[i]][..0] == [];
  }

  /** Songs of one date keep their input order inside their group. */
  lemma RankIncreasing(songs: seq<Song>, i: nat, j: nat)
    requires i < j < |songs| && DateKey(songs[i]) == DateKey(songs[j])
    ensures Rank(songs, i) < Rank(songs, j)
  {
    var k := DateKey(songs[i]);
    assert songs[..j] == songs[..i] + [songs[i]] + songs[i + 1..j];
    BucketAppend(songs[..i] + [songs[i]], songs[i + 1..j], k);
    BucketAppend(songs[..i], [songs[i]], k);
    assert [songs[i]][..0] == [];
  }

  /** The groups of `dates`, concatenated in that order. */
  function Gather(songs: seq<Song>, dates: seq<string>): seq<Song> {
    if |dates| == 0 then [] else Bucket(songs, dates[0]) + Gather(songs, dates[1..])
  }

  lemma {:induction false} GatherOfNothing(dates: seq<string>)
    ensures Gather([], dates) == []
  {
    if |dates| > 0 {
      GatherOfNothing(dates[1..]);
    }
  }

  lemma {:induction false} GatherSnoc(songs: seq<Song>, s: Song, dates: seq<string>)
    requires Distinct(dates)
    ensures multiset(Gather(songs + [s], dates))
      == multiset(Gather(songs, dates)) + if DateKey(s) in dates then multiset{s} else multiset{}
  {
    if |dates| > 0 {
      var d, rest := dates[0], dates[1..];
      assert dates == [d] + rest;
      forall x ensures multiset(rest)[x] <= 1 {
        assert multiset(dates)[x] == multiset([d])[x] + multiset(rest)[x];
      }
      assert multiset(dates)[d] == 1 + multiset(rest)[d];
      assert d in rest <==> d in multiset(rest);
      assert (songs + [s])[..|songs|] == songs;
      GatherSnoc(songs, s, rest);
    }
  }

  /**
   * The groups of a list of distinct dates that covers every song hold
   * exactly the input songs: none is dropped and none is duplicated.
   */
  lemma {:induction false} GatherPermutation(songs: seq<Song>, dates: seq<string>)
    requires Distinct(dates)
    requires forall i :: 0 <= i < |songs| ==> DateKey(songs[i]) in dates
    ensures multiset(Gather(songs, dates)) == multiset(songs)
    ensures |Gather(songs, dates)| == |songs|
  {
    if |songs| == 0 {
      GatherOfNothing(dates);
    } else {
      var p, s := songs[..|songs| - 1], songs[|songs| - 1];
      assert songs == p + [s];
      GatherPermutation(p, dates);
      GatherSnoc(p, s, dates);
    }
    calc {
      |Gather(songs, dates)|;
      |multiset(Gather(songs, dates))|;
      |multiset(songs)|;
      |songs|;
    }
  }

  /** Index of the first song whose date is `date`. */
  function FirstIndex(songs: seq<Song>, date: string): (r: nat)
    requires date in DateKeys(songs)
    ensures r < |songs| && DateKey(songs[r]) == date
    ensures forall i :: 0 <= i < r ==> DateKey(songs[i]) != date
  {
    var prev := songs[..|songs| - 1];
    DateKeysMembers(prev);
    if date in DateKeys(prev) then FirstIndex(prev, date) else |songs| - 1
  }

  /** Dates are listed in the order of their first appearance in the input. */
  lemma {:induction false} DateKeysFirstAppearance(songs: seq<Song>, p: nat, q: nat)
    requires p < q < |DateKeys(songs)|
    ensures FirstIndex(songs, DateKeys(songs)[p]) < FirstIndex(songs, DateKeys(songs)[q])
  {
    var prev := songs[..|songs| - 1];
    var keys := DateKeys(prev);
    var kp, kq := DateKeys(songs)[p], DateKeys(songs)[q];
    if q < |keys| {
      assert kp == keys[p] && kq == keys[q];
      DateKeysFirstAppearance(prev, p, q);
    } else {
      assert kp == keys[p];
      assert FirstIndex(songs, kp) == FirstIndex(prev, kp);
    }
  }

  /** How the keys and the groups change when one more song is taken in. */
  lemma GroupStep(songs: seq<Song>, i: nat)
    requires i < |songs|
    ensures var date := DateKey(songs[i]);
      DateKeys(songs[..i + 1]) == DateKeys(songs[..i]) + if date in DateKeys(songs[..i]) then [] else [date]
    ensures DateKey(songs[i]) !in DateKeys(songs[..i]) ==> Bucket(songs[..i], DateKey(songs[i])) == []
    ensures forall k :: Bucket(songs[..i + 1], k) == Bucket(songs[..i], k) + if k == DateKey(songs[i]) then [songs[i]] else []
  {
    assert songs[..i + 1][..i] == songs[..i];
    BucketNonEmpty(songs[..i], DateKey(songs[i]));
  }

  /**
   * Builds `songsByDate` with one `forEach` pass: an absent date gets an
   * empty list, then the song is pushed onto its date's list. Returns the
   * keys in `Object.keys` order and the dictionary.
   */
  method GroupByDate(songs: seq<Song>) returns (keys: seq<string>, byDate: map<string, seq<Song>>)
    ensures keys == OwnKeys(DateKeys(songs))
    ensures forall k :: k in byDate <==> k in DateKeys(songs)
    ensures forall k :: k in byDate ==> byDate[k] == Bucket(songs, k)
  {
    var created: seq<string> := [];
    byDate := map[];
    var i := 0;
    while i < |songs|
      invariant 0 <= i <= |songs|
      invariant created == DateKeys(songs[..i])
      invariant forall k :: k in byDate <==> k in created
      invariant forall k :: k in byDate ==> byDate[k] == Bucket(songs[..i], k)
    {
      var date := DateKey(songs[i]);
      GroupStep(songs, i);
      if date !in byDate {
        byDate := byDate[date := []];
        created := created + [date];
      }
      byDate := byDate[date := byDate[date] + [songs[i]]];
      forall k | k in byDate ensures byDate[k] == Bucket(songs[..i + 1], k) {
        if k != date {
          assert Bucket(songs[..i + 1], k) == Bucket(songs[..i], k) + [];
        }
      }
      i := i + 1;
    }
    assert songs[..i] == songs;
    keys := OwnKeys(created);
  }
}
