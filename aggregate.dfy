/** What the classification loop of `process_artists` and
    `PlaylistCreatorGUI.process_thread` computes, stated as functions: every
    artist adds its entries to exactly one of three lists, and the lists only
    ever grow at their ends. */
module Aggregate {
  import opened Catalog

  /** The three lists, `songs`, `no_songs` and `not_found`. */
  datatype Buckets = Buckets(songs: seq<string>, noSongs: seq<string>, notFound: seq<string>)
  {
    /** Each list of `this` followed by the matching list of `more`. */
    function Append(more: Buckets): Buckets
    {
      Buckets(songs + more.songs, noSongs + more.noSongs, notFound + more.notFound)
    }

    /** Each list of `this` is a prefix of the matching list of `b`. */
    predicate PrefixOf(b: Buckets)
    {
      songs <= b.songs && noSongs <= b.noSongs && notFound <= b.notFound
    }
  }

  const Empty: Buckets := Buckets([], [], [])

  /** `f"{artist_name} not found"` */
  function NotFoundEntry(name: string): string
  {
    name + " not found"
  }

  /** `f"no songs for {artist_name} found"` */
  function NoSongsEntry(name: string): string
  {
    "no songs for " + name + " found"
  }

  /** `f"{artist_name} - {song}"` */
  function SongEntry(name: string, title: Json): string
  {
    name + " - " + Show(title)
  }

  /** One playlist entry per title, in the order of the titles. */
  function SongEntries(name: string, titles: seq<Json>): (r: seq<string>)
    ensures |r| == |titles|
    ensures forall i :: 0 <= i < |titles| ==> r[i] == SongEntry(name, titles[i])
  {
    if titles == [] then [] else [SongEntry(name, titles[0])] + SongEntries(name, titles[1..])
  }

  /** Where one artist lands. */
  datatype Outcome = NotFound | NoSongs | Found(titles: seq<Json>)

  /** Search first; only a found artist has its top tracks looked up, with
      the fixed limit. */
  function Classify(name: string, api: Api): (o: Outcome)
    ensures o.Found? ==> o.titles != []
  {
    var artist := SearchArtist(api.search(name));
    if artist == map[] then NotFound
    else
      var titles := TopSongs(api.top(IdOf(artist), TopLimit));
      if titles == [] then NoSongs else Found(titles)
  }

  /** The entries one artist adds to the three lists. */
  function Contribution(name: string, api: Api): (c: Buckets)
    ensures |c.noSongs| + |c.notFound| <= 1
    ensures c.songs != [] <==> Classify(name, api).Found?
    ensures c.songs != [] ==> c.noSongs == [] && c.notFound == []
  {
    match Classify(name, api)
    case NotFound => Buckets([], [], [NotFoundEntry(name)])
    case NoSongs => Buckets([], [NoSongsEntry(name)], [])
    case Found(titles) => Buckets(SongEntries(name, titles), [], [])
  }

  /** One iteration of the loop. */
  function Step(b: Buckets, name: string, api: Api): Buckets
  {
    b.Append(Contribution(name, api))
  }

  /** The lists after the loop has handled `names`, in order, starting from `b`. */
  function ProcessAll(b: Buckets, names: seq<string>, api: Api): (r: Buckets)
    ensures |b.noSongs| + |b.notFound| <= |r.noSongs| + |r.notFound| <= |b.noSongs| + |b.notFound| + |names|
    ensures |b.songs| <= |r.songs|
    ensures |b.noSongs| <= |r.noSongs| && |b.notFound| <= |r.notFound|
    decreases |names|
  {
    if names == [] then b
    else Step(ProcessAll(b, names[..|names| - 1], api), names[|names| - 1], api)
  }

  /** One more artist is one more step. */
  lemma ProcessAllSnoc(b: Buckets, names: seq<string>, k: nat, api: Api)
    requires k < |names|
    ensures ProcessAll(b, names[..k + 1], api) == Step(ProcessAll(b, names[..k], api), names[k], api)
  {
    assert names[..k + 1][..k] == names[..k];
  }

  lemma SongEntriesSnoc(name: string, titles: seq<Json>, k: nat)
    requires k < |titles|
    ensures SongEntries(name, titles[..k + 1]) == SongEntries(name, titles[..k]) + [SongEntry(name, titles[k])]
  {
  }

  /** How many of `names` land in each bucket. */
  function Tally(names: seq<string>, api: Api): (t: (nat, nat, nat))
    ensures t.0 + t.1 + t.2 == |names|
    decreases |names|
  {
    if names == [] then (0, 0, 0)
    else
      var t := Tally(names[..|names| - 1], api);
      match Classify(names[|names| - 1], api)
      case Found(_) => (t.0 + 1, t.1, t.2)
      case NoSongs => (t.0, t.1 + 1, t.2)
      case NotFound => (t.0, t.1, t.2 + 1)
  }

  /** An artist the search does not find adds exactly `"<name> not found"` to
      `not_found` and nothing else, whatever the top-tracks call would have
      answered: that call is not made. */
  lemma NotFoundArtist(name: string, api: Api, otherTop: (Json, nat) -> TopResponse)
    requires SearchArtist(api.search(name)) == map[]
    ensures Contribution(name, api) == Buckets([], [], [name + " not found"])
    ensures Contribution(name, Api(api.search, otherTop)) == Contribution(name, api)
  {
  }

  /** A found artist without top tracks adds exactly
      `"no songs for <name> found"` to `no_songs` and nothing else. */
  lemma NoSongsArtist(name: string, api: Api)
    requires SearchArtist(api.search(name)) != map[]
    requires TopSongs(api.top(IdOf(SearchArtist(api.search(name))), TopLimit)) == []
    ensures Contribution(name, api) == Buckets([], ["no songs for " + name + " found"], [])
  {
  }

  /** A found artist with top tracks adds one `"<name> - <title>"` per track,
      in the order returned, to `songs` and nothing else. */
  lemma FoundArtist(name: string, api: Api)
    requires SearchArtist(api.search(name)) != map[]
    requires TopSongs(api.top(IdOf(SearchArtist(api.search(name))), TopLimit)) != []
    ensures var titles := TopSongs(api.top(IdOf(SearchArtist(api.search(name))), TopLimit));
      var c := Contribution(name, api);
      c.noSongs == [] && c.notFound == [] && |c.songs| == |titles| &&
      forall i :: 0 <= i < |titles| ==> c.songs[i] == name + " - " + Show(titles[i])
  {
  }

  /** Every artist lands in exactly one bucket: songs (one entry or more),
      no-songs (one entry) or not-found (one entry). */
  lemma ExactlyOneBucket(name: string, api: Api)
    ensures var c := Contribution(name, api);
      (c.songs != [] && c.noSongs == [] && c.notFound == []) ||
      (c.songs == [] && |c.noSongs| == 1 && c.notFound == []) ||
      (c.songs == [] && c.noSongs == [] && |c.notFound| == 1)
  {
  }

  /** The loop only appends: what the lists held before is kept, and what is
      added does not depend on it. */
  lemma {:induction false} ProcessAllFrom(b: Buckets, names: seq<string>, api: Api)
    ensures ProcessAll(b, names, api) == b.Append(ProcessAll(Empty, names, api))
    decreases |names|
  {
    if names != [] {
      var init, last := names[..|names| - 1], names[|names| - 1];
      ProcessAllFrom(b, init, api);
      var c := Contribution(last, api);
      AppendAssoc(b, ProcessAll(Empty, init, api), c);
    }
  }

  lemma AppendAssoc(x: Buckets, y: Buckets, z: Buckets)
    ensures x.Append(y).Append(z) == x.Append(y.Append(z))
  {
  }

  /** Handling `xs` and then `ys` is handling `xs + ys`. */
  lemma {:induction false} ProcessAllSplit(b: Buckets, xs: seq<string>, ys: seq<string>, api: Api)
    ensures ProcessAll(b, xs + ys, api) == ProcessAll(ProcessAll(b, xs, api), ys, api)
    decreases |ys|
  {
    if ys == [] {
      assert xs + ys == xs;
    } else {
      assert (xs + ys)[..|xs + ys| - 1] == xs + ys[..|ys| - 1];
      ProcessAllSplit(b, xs, ys[..|ys| - 1], api);
    }
  }

  /** Input order is kept in all three lists: artist `k`'s entries come after
      those of every earlier artist and before those of every later one. */
  lemma ArtistOrder(names: seq<string>, k: nat, api: Api)
    requires k < |names|
    ensures ProcessAll(Empty, names, api) ==
      ProcessAll(Empty, names[..k], api).Append(Contribution(names[k], api)).Append(ProcessAll(Empty, names[k + 1..], api))
  {
    assert names == names[..k] + [names[k]] + names[k + 1..];
    ProcessAllSplit(Empty, names[..k] + [names[k]], names[k + 1..], api);
    ProcessAllFrom(ProcessAll(Empty, names[..k] + [names[k]], api), names[k + 1..], api);
    assert (names[..k] + [names[k]])[..k] == names[..k];
  }

  /** Stopping before artist `k` leaves exactly the lists of a run over the
      first `k` artists; the full run only adds, at the end of each list, what
      the remaining artists contribute. */
  lemma StoppedRunIsPrefix(names: seq<string>, k: nat, api: Api)
    requires k <= |names|
    ensures ProcessAll(Empty, names, api) ==
      ProcessAll(Empty, names[..k], api).Append(ProcessAll(Empty, names[k..], api))
    ensures ProcessAll(Empty, names[..k], api).PrefixOf(ProcessAll(Empty, names, api))
  {
    assert names == names[..k] + names[k..];
    ProcessAllSplit(Empty, names[..k], names[k..], api);
    ProcessAllFrom(ProcessAll(Empty, names[..k], api), names[k..], api);
  }

  /** After a full run, `no_songs` and `not_found` hold one entry per artist of
      their kind, and every artist with songs adds at least one entry to
      `songs`; with the tally summing to the number of artists, every artist
      is accounted for exactly once. */
  lemma {:induction false} Partition(names: seq<string>, api: Api)
    ensures var r, t := ProcessAll(Empty, names, api), Tally(names, api);
      |r.noSongs| == t.1 && |r.notFound| == t.2 && |r.songs| >= t.0 &&
      t.0 + t.1 + t.2 == |names|
    decreases |names|
  {
    if names != [] {
      Partition(names[..|names| - 1], api);
    }
  }
}
