/** The text `save_playlist` writes, a reader for it, and the proof that the
    reader recovers the three lists. */
module Layout {
  import opened Wrappers
  import opened Catalog
  import opened Aggregate

  const PlaylistHeader: string := "Playlist:"
  const NoSongsHeader: string := "No songs found:"
  const NotFoundHeader: string := "Not found:"

  /** Each entry followed by a newline, as the `for ... f.write(entry + "\n")`
      loops write them. */
  function Lines(entries: seq<string>): string
    decreases |entries|
  {
    if entries == [] then "" else Lines(entries[..|entries| - 1]) + entries[|entries| - 1] + "\n"
  }

  /** The text `save_playlist` passes to `f.write`: the playlist section
      always, the no-songs and not-found sections only when their list is
      non-empty, in that order. The file is opened in text mode, so on a
      platform whose line separator is "\r\n" each "\n" here reaches the
      disk as "\r\n"; this is the text, not the bytes on disk. */
  function Render(b: Buckets): string
  {
    "Playlist:\n" + Lines(b.songs) +
    (if b.noSongs != [] then "\nNo songs found:\n" + Lines(b.noSongs) else "") +
    (if b.notFound != [] then "\nNot found:\n" + Lines(b.notFound) else "")
  }

  /** The same file, line by line. */
  function LayoutLines(b: Buckets): seq<string>
  {
    [PlaylistHeader] + b.songs + Section(NoSongsHeader, b.noSongs) + Section(NotFoundHeader, b.notFound)
  }

  /** A later section, left out entirely when it has no entries. */
  function Section(header: string, entries: seq<string>): seq<string>
  {
    if entries != [] then ["", header] + entries else []
  }

  /** Index of the first newline of `t`, or `|t|` when there is none. */
  function NewlineIndex(t: string): (k: nat)
    ensures k <= |t|
    ensures forall i :: 0 <= i < k ==> t[i] != '\n'
    ensures k < |t| ==> t[k] == '\n'
  {
    if t == [] || t[0] == '\n' then 0 else 1 + NewlineIndex(t[1..])
  }

  /** The lines of `t`; a final newline does not start an empty line. */
  function SplitLines(t: string): seq<string>
    decreases |t|
  {
    if t == [] then []
    else
      var k := NewlineIndex(t);
      if k == |t| then [t] else [t[..k]] + SplitLines(t[k + 1..])
  }

  /** The lines of `ls` before the first empty one. */
  function UntilBlank(ls: seq<string>): (r: seq<string>)
    ensures r <= ls && "" !in r
    ensures |r| < |ls| ==> ls[|r|] == ""
  {
    if ls == [] || ls[0] == "" then [] else [ls[0]] + UntilBlank(ls[1..])
  }

  /** A not-found section: a blank line, its header, and at least one entry. */
  function ParseNotFound(ls: seq<string>): Option<seq<string>>
  {
    if |ls| >= 3 && ls[0] == "" && ls[1] == NotFoundHeader && "" !in ls[2..] then Some(ls[2..]) else None
  }

  /** What follows the playlist section. */
  function ParseSections(songs: seq<string>, rest: seq<string>): Option<Buckets>
  {
    if rest == [] then Some(Buckets(songs, [], []))
    else if |rest| >= 2 && rest[0] == "" && rest[1] == NoSongsHeader then
      var noSongs := UntilBlank(rest[2..]);
      var tail := rest[2 + |noSongs|..];
      if noSongs == [] then None
      else if tail == [] then Some(Buckets(songs, noSongs, []))
      else match ParseNotFound(tail)
        case Some(nf) => Some(Buckets(songs, noSongs, nf))
        case None => None
    else match ParseNotFound(rest)
      case Some(nf) => Some(Buckets(songs, [], nf))
      case None => None
  }

  /** Reads the lines of a playlist file back into its three lists. */
  function ParseLines(ls: seq<string>): Option<Buckets>
  {
    if ls == [] || ls[0] != PlaylistHeader then None
    else
      var songs := UntilBlank(ls[1..]);
      ParseSections(songs, ls[1 + |songs|..])
  }

  /** Reads a playlist file back into its three lists. */
  function ParsePlaylist(text: string): Option<Buckets>
  {
    ParseLines(SplitLines(text))
  }

  /** Entries the reader can tell apart from the layout: not empty, one line each. */
  predicate Entry(e: string)
  {
    e != "" && '\n' !in e
  }

  predicate WellFormed(b: Buckets)
  {
    (forall e :: e in b.songs ==> Entry(e)) &&
    (forall e :: e in b.noSongs ==> Entry(e)) &&
    (forall e :: e in b.notFound ==> Entry(e))
  }

  lemma {:induction false} LinesAppend(xs: seq<string>, ys: seq<string>)
    ensures Lines(xs + ys) == Lines(xs) + Lines(ys)
    decreases |ys|
  {
    if ys == [] {
      assert xs + ys == xs;
    } else {
      assert (xs + ys)[..|xs + ys| - 1] == xs + ys[..|ys| - 1];
      LinesAppend(xs, ys[..|ys| - 1]);
    }
  }

  lemma LinesSingle(l: string)
    ensures Lines([l]) == l + "\n"
  {
    assert [l][..0] == [];
  }

  /** A later section: a blank line, its header, then its entries. */
  lemma SectionLines(header: string, entries: seq<string>)
    ensures Lines(["", header] + entries) == "\n" + header + "\n" + Lines(entries)
  {
    LinesAppend(["", header], entries);
    LinesAppend([""], [header]);
    assert ["", header] == [""] + [header];
    LinesSingle("");
    LinesSingle(header);
  }

  lemma PlaylistSection(songs: seq<string>)
    ensures Lines([PlaylistHeader] + songs) == "Playlist:\n" + Lines(songs)
  {
    LinesAppend([PlaylistHeader], songs);
    LinesSingle(PlaylistHeader);
  }

  lemma NoSongsSection(entries: seq<string>)
    ensures Lines(Section(NoSongsHeader, entries)) ==
      if entries != [] then "\nNo songs found:\n" + Lines(entries) else ""
  {
    if entries != [] {
      calc {
        Lines(Section(NoSongsHeader, entries));
      == { SectionLines(NoSongsHeader, entries); }
        "\n" + NoSongsHeader + "\n" + Lines(entries);
      ==
        "\nNo songs found:\n" + Lines(entries);
      }
    }
  }

  lemma NotFoundSection(entries: seq<string>)
    ensures Lines(Section(NotFoundHeader, entries)) ==
      if entries != [] then "\nNot found:\n" + Lines(entries) else ""
  {
    if entries != [] {
      SectionLines(NotFoundHeader, entries);
    }
  }

  /** The file is its layout lines, each ended by a newline. */
  lemma RenderIsLayout(b: Buckets)
    ensures Render(b) == Lines(LayoutLines(b))
  {
    var a := [PlaylistHeader] + b.songs;
    var n := Section(NoSongsHeader, b.noSongs);
    var f := Section(NotFoundHeader, b.notFound);
    LinesAppend(a, n);
    LinesAppend(a + n, f);
    PlaylistSection(b.songs);
    NoSongsSection(b.noSongs);
    NotFoundSection(b.notFound);
  }

  lemma {:induction false} SplitLinesOfLines(ls: seq<string>)
    requires forall l :: l in ls ==> '\n' !in l
    ensures SplitLines(Lines(ls)) == ls
    decreases |ls|
  {
    if ls != [] {
      var l, rest := ls[0], ls[1..];
      assert ls == [l] + rest;
      assert l in ls;
      LinesAppend([l], rest);
      LinesSingle(l);
      var t := Lines(ls);
      assert t == l + "\n" + Lines(rest);
      var k := NewlineIndex(t);
      assert t[|l|] == '\n';
      assert k == |l|;
      assert t[..k] == l;
      assert t[k + 1..] == Lines(rest);
      SplitLinesOfLines(rest);
    }
  }

  lemma {:induction false} UntilBlankOf(xs: seq<string>, ys: seq<string>)
    requires "" !in xs
    requires ys == [] || ys[0] == ""
    ensures UntilBlank(xs + ys) == xs
    decreases |xs|
  {
    if xs != [] {
      assert (xs + ys)[1..] == xs[1..] + ys;
      UntilBlankOf(xs[1..], ys);
    } else {
      assert xs + ys == ys;
    }
  }

  /** Splitting the file into lines gives its layout lines back. */
  lemma SplitRender(b: Buckets)
    requires WellFormed(b)
    ensures SplitLines(Render(b)) == LayoutLines(b)
  {
    RenderIsLayout(b);
    var ls := LayoutLines(b);
    forall l | l in ls ensures '\n' !in l {
      assert l in [PlaylistHeader, "", NoSongsHeader, NotFoundHeader] || l in b.songs || l in b.noSongs || l in b.notFound;
    }
    SplitLinesOfLines(ls);
  }

  lemma ParseNotFoundOf(entries: seq<string>)
    requires entries != [] && "" !in entries
    ensures ParseNotFound(Section(NotFoundHeader, entries)) == Some(entries)
  {
    assert (["", NotFoundHeader] + entries)[2..] == entries;
  }

  lemma ParseSectionsOf(b: Buckets)
    requires WellFormed(b)
    ensures ParseSections(b.songs, Section(NoSongsHeader, b.noSongs) + Section(NotFoundHeader, b.notFound)) == Some(b)
  {
    var n := Section(NoSongsHeader, b.noSongs);
    var f := Section(NotFoundHeader, b.notFound);
    assert "" !in b.noSongs && "" !in b.notFound;
    if b.notFound != [] {
      ParseNotFoundOf(b.notFound);
    }
    if b.noSongs != [] {
      assert (n + f)[2..] == b.noSongs + f;
      UntilBlankOf(b.noSongs, f);
      assert (n + f)[2 + |b.noSongs|..] == f;
    } else {
      assert n + f == f;
      assert NotFoundHeader != NoSongsHeader by { assert NotFoundHeader[2] != NoSongsHeader[2]; }
    }
  }

  /** The reader recovers the lists from the layout lines. */
  lemma ParseLayout(b: Buckets)
    requires WellFormed(b)
    ensures ParseLines(LayoutLines(b)) == Some(b)
  {
    var ls := LayoutLines(b);
    var rest := Section(NoSongsHeader, b.noSongs) + Section(NotFoundHeader, b.notFound);
    assert ls == [PlaylistHeader] + (b.songs + rest);
    assert ls[1..] == b.songs + rest;
    assert "" !in b.songs;
    UntilBlankOf(b.songs, rest);
    assert ls[1 + |b.songs|..] == rest;
    ParseSectionsOf(b);
  }

  /** Reading back what `save_playlist` writes gives the three lists again,
      whenever every entry is a single non-empty line. */
  lemma ParseRender(b: Buckets)
    requires WellFormed(b)
    ensures ParsePlaylist(Render(b)) == Some(b)
  {
    SplitRender(b);
    ParseLayout(b);
  }

  /** Zero or more entries, none of them a section header. */
  predicate NoHeaderIn(entries: seq<string>)
  {
    NoSongsHeader !in entries && NotFoundHeader !in entries
  }

  predicate NoHeaderEntries(b: Buckets)
  {
    NoHeaderIn(b.songs) && NoHeaderIn(b.noSongs) && NoHeaderIn(b.notFound)
  }

  /** A section header is written exactly when its list is non-empty, and the
      sections come in the fixed order playlist, no songs, not found. */
  lemma HeadersIffNonEmpty(b: Buckets)
    requires NoHeaderEntries(b)
    ensures var ls := LayoutLines(b);
      ls[0] == PlaylistHeader && ls[1..1 + |b.songs|] == b.songs &&
      (NoSongsHeader in ls <==> b.noSongs != []) &&
      (NotFoundHeader in ls <==> b.notFound != [])
    ensures var ls := LayoutLines(b);
      b.noSongs != [] && b.notFound != [] ==>
        |ls| > 4 + |b.songs| + |b.noSongs| &&
        ls[2 + |b.songs|] == NoSongsHeader && ls[4 + |b.songs| + |b.noSongs|] == NotFoundHeader
  {
    var ls := LayoutLines(b);
    var n := Section(NoSongsHeader, b.noSongs);
    var f := Section(NotFoundHeader, b.notFound);
    assert ls == [PlaylistHeader] + b.songs + n + f;
    if b.noSongs != [] {
      assert ls[1 + |b.songs| + 1] == NoSongsHeader;
    }
    if b.notFound != [] {
      assert ls[|ls| - |b.notFound| - 1] == NotFoundHeader;
    }
  }

  predicate IsHeader(e: string)
  {
    e == NoSongsHeader || e == NotFoundHeader
  }

  lemma NotFoundEntryNotHeader(name: string)
    ensures !IsHeader(NotFoundEntry(name))
  {
    var e := NotFoundEntry(name);
    assert e[|e| - 1] == 'd';
  }

  lemma NoSongsEntryNotHeader(name: string)
    ensures !IsHeader(NoSongsEntry(name))
  {
    var e := NoSongsEntry(name);
    assert e[|e| - 1] == 'd';
  }

  lemma SongEntryNotHeader(name: string, title: Json)
    ensures !IsHeader(SongEntry(name, title))
  {
    var e := SongEntry(name, title);
    assert e[|name| + 1] == '-';
    assert '-' !in NoSongsHeader && '-' !in NotFoundHeader;
  }

  /** No entry the loop writes can be mistaken for a header: a not-found or
      no-songs entry ends in 'd', where headers end in ':', and a playlist
      entry holds a '-', which no header does. */
  lemma ContributionHasNoHeaders(name: string, api: Api)
    ensures NoHeaderEntries(Contribution(name, api))
  {
    match Classify(name, api)
    case NotFound =>
      NotFoundEntryNotHeader(name);
    case NoSongs =>
      NoSongsEntryNotHeader(name);
    case Found(titles) =>
      var songs := SongEntries(name, titles);
      forall k | 0 <= k < |songs| ensures !IsHeader(songs[k]) {
        SongEntryNotHeader(name, titles[k]);
      }
  }

  lemma {:induction false} ProcessAllHasNoHeaders(b: Buckets, names: seq<string>, api: Api)
    requires NoHeaderEntries(b)
    ensures NoHeaderEntries(ProcessAll(b, names, api))
    decreases |names|
  {
    if names != [] {
      ProcessAllHasNoHeaders(b, names[..|names| - 1], api);
      ContributionHasNoHeaders(names[|names| - 1], api);
    }
  }

  /** For the lists any run of the loop produces, the "No songs found:" header
      is in the file exactly when `no_songs` is non-empty, and the
      "Not found:" header exactly when `not_found` is. */
  lemma OmissionRule(names: seq<string>, api: Api)
    ensures var b := ProcessAll(Empty, names, api);
      (NoSongsHeader in LayoutLines(b) <==> b.noSongs != []) &&
      (NotFoundHeader in LayoutLines(b) <==> b.notFound != [])
  {
    ProcessAllHasNoHeaders(Empty, names, api);
    HeadersIffNonEmpty(ProcessAll(Empty, names, api));
  }

  /** The example file of three one-entry lists, written as the pieces the
      successive `f.write` calls pass. */
  lemma SmallPlaylist()
    ensures Render(Buckets(["A - X"], ["no songs for B found"], ["C not found"])) ==
      "Playlist:\n" + ("A - X" + "\n") +
      "\nNo songs found:\n" + ("no songs for B found" + "\n") +
      "\nNot found:\n" + ("C not found" + "\n")
  {
    LinesSingle("A - X");
    LinesSingle("no songs for B found");
    LinesSingle("C not found");
  }
}
