/** `DeezerPlaylistCreator` and the worker loop of `PlaylistCreatorGUI`: the
    objects whose list fields the program grows in place, each method proved
    against the functions of the specification modules. */
module Creator {
  import opened Wrappers
  import PyText
  import opened Catalog
  import opened Sheet
  import opened Aggregate
  import opened Layout

  /** What one answer to the continue/stop prompt means once stripped and
      upper-cased: "X" stops, an empty line continues, anything else is asked
      again. Only "x" and "X" upper-case to "X", and only "" to "". */
  function Reply(line: string): Option<bool>
  {
    var t := PyText.Strip(line);
    if t == "x" || t == "X" then Some(false)
    else if t == "" then Some(true)
    else None
  }

  class PlaylistCreator {
    /** The workbook behind `excel_file`, as `load_workbook` would see it. */
    var excelFile: Workbook
    var outputFile: string
    var songs: seq<string>
    var notFound: seq<string>
    var noSongs: seq<string>

    constructor (excelFile: Workbook, outputFile: string)
      ensures this.excelFile == excelFile && this.outputFile == outputFile
      ensures songs == [] && notFound == [] && noSongs == []
    {
      this.excelFile := excelFile;
      this.outputFile := outputFile;
      songs, notFound, noSongs := [], [], [];
    }

    /** The three list fields together. */
    function Lists(): Buckets
      reads this
    {
      Buckets(songs, noSongs, notFound)
    }

    /** `get_artists_from_excel`: scans B2..B76 and keeps every string cell
        that is not blank, stripped, in row order; an unreadable workbook
        gives no artists. */
    method GetArtistsFromExcel() returns (artists: seq<string>)
      ensures artists == Artists(excelFile)
    {
      artists := [];
      if excelFile.Loaded? {
        var ws := excelFile.columnB;
        var row := FirstRow;
        while row < LastRow + 1
          invariant FirstRow <= row <= LastRow + 1
          invariant artists == ArtistsIn(ws, FirstRow, row)
        {
          if row in ws && ws[row].Text? && ws[row].s != "" {
            var artist := PyText.Strip(ws[row].s);
            if artist != "" {
              artists := artists + [artist];
            }
          }
          row := row + 1;
        }
      }
    }

    /** The body of the artist loop, shared by `process_artists` and
        `process_thread`: search, then look up top tracks only for a found
        artist, and append to exactly one list. */
    method ProcessArtist(name: string, api: Api)
      modifies this
      ensures Lists() == Step(old(Lists()), name, api)
      ensures excelFile == old(excelFile) && outputFile == old(outputFile)
    {
      var artistData := SearchArtist(api.search(name));
      if artistData == map[] {
        notFound := notFound + [NotFoundEntry(name)];
        return;
      }
      var topSongs := GetTopSongs(api.top(IdOf(artistData), TopLimit));
      if topSongs == [] {
        noSongs := noSongs + [NoSongsEntry(name)];
      } else {
        var j := 0;
        while j < |topSongs|
          invariant 0 <= j <= |topSongs|
          invariant songs == old(songs) + SongEntries(name, topSongs[..j])
          invariant noSongs == old(noSongs) && notFound == old(notFound)
          invariant excelFile == old(excelFile) && outputFile == old(outputFile)
        {
          SongEntriesSnoc(name, topSongs, j);
          songs := songs + [SongEntry(name, topSongs[j])];
          j := j + 1;
        }
        assert topSongs[..j] == topSongs;
      }
    }

    /** `process_artists`: every artist of the workbook, in order. */
    method ProcessArtists(api: Api)
      modifies this
      ensures Lists() == ProcessAll(old(Lists()), Artists(excelFile), api)
      ensures excelFile == old(excelFile) && outputFile == old(outputFile)
    {
      var artists := GetArtistsFromExcel();
      if artists == [] {
        return;
      }
      for i := 0 to |artists|
        invariant Lists() == ProcessAll(old(Lists()), artists[..i], api)
        invariant excelFile == old(excelFile) && outputFile == old(outputFile)
      {
        ProcessAllSnoc(old(Lists()), artists, i, api);
        ProcessArtist(artists[i], api);
      }
      assert artists[..|artists|] == artists;
    }

    /** `save_playlist`: the text written to `output_file`, section by section. */
    method SavePlaylist() returns (text: string)
      ensures text == Render(Lists())
    {
      text := "Playlist:\n";
      text := WriteEntries(text, songs);
      if noSongs != [] {
        text := text + "\nNo songs found:\n";
        text := WriteEntries(text, noSongs);
      }
      if notFound != [] {
        text := text + "\nNot found:\n";
        text := WriteEntries(text, notFound);
      }
    }

    /** `ask_continue`: reads answers until one is "X" (stop) or empty
        (continue). `replies` are the lines the user types. Running out of
        them gives `None`, which stands for the `EOFError` that `input()`
        raises at end of input and that leaves `ask_continue` unanswered. */
    method AskContinue(replies: seq<string>) returns (answer: Option<bool>, used: nat)
      ensures used <= |replies|
      ensures answer.Some? ==> 0 < used && Reply(replies[used - 1]) == answer
      ensures answer.None? ==> used == |replies|
      ensures forall j :: 0 <= j < used && (answer.None? || j < used - 1) ==> Reply(replies[j]).None?
    {
      used := 0;
      while used < |replies|
        invariant used <= |replies|
        invariant forall j :: 0 <= j < used ==> Reply(replies[j]).None?
      {
        var response := PyText.Strip(replies[used]);
        used := used + 1;
        if response == "x" || response == "X" {
          return Some(false), used;
        } else if response == "" {
          return Some(true), used;
        }
      }
      answer := None;
    }

    /** `run`: processes every artist, then saves. It never asks to continue. */
    method Run(api: Api) returns (text: string)
      modifies this
      ensures excelFile == old(excelFile) && outputFile == old(outputFile)
      ensures Lists() == ProcessAll(old(Lists()), Artists(excelFile), api)
      ensures text == Render(Lists())
    {
      ProcessArtists(api);
      text := SavePlaylist();
    }
  }

  /** `for entry in entries: f.write(entry + "\n")`, on the text written so far. */
  method WriteEntries(text: string, entries: seq<string>) returns (out: string)
    ensures out == text + Lines(entries)
  {
    out := text;
    for i := 0 to |entries|
      invariant out == text + Lines(entries[..i])
    {
      assert entries[..i + 1][..i] == entries[..i];
      out := out + entries[i] + "\n";
    }
    assert entries[..|entries|] == entries;
  }

  function Min(a: int, b: int): int
  {
    if a <= b then a else b
  }

  class PlaylistCreatorGui {
    var creator: PlaylistCreator?
    var isRunning: bool
    var excelFile: Workbook
    var saveEnabled: bool

    /** `process_thread`: a fresh creator, then the artist loop, which checks
        the stop flag once before each artist. The flag is read as an index:
        it is still set at check `k` exactly when `k < stopAt`. The check after
        the loop (check number `|artists|`) decides whether the run completed
        and the save button is enabled. */
    method ProcessThread(api: Api, stopAt: nat) returns (completed: bool)
      modifies this
      ensures creator != null && fresh(creator)
      ensures creator.excelFile == excelFile && creator.outputFile == "playlist.txt"
      ensures var artists := Artists(excelFile);
        creator.Lists() == ProcessAll(Empty, artists[..Min(stopAt, |artists|)], api)
      ensures completed <==> |Artists(excelFile)| < stopAt
      ensures saveEnabled == (old(saveEnabled) || completed)
      ensures !isRunning && excelFile == old(excelFile)
    {
      var c := new PlaylistCreator(excelFile, "playlist.txt");
      creator := c;
      var artists := c.GetArtistsFromExcel();
      var i := ArtistLoop(c, artists, api, stopAt);
      completed := i < stopAt;
      saveEnabled := saveEnabled || completed;
      isRunning := false;
    }

    /** The `for i, artist_name in enumerate(artists)` loop of `process_thread`:
        before artist `i` it reads the stop flag (set while `i < stopAt`) and
        leaves the loop once it is cleared. It returns how many artists it
        handled. */
    method ArtistLoop(c: PlaylistCreator, artists: seq<string>, api: Api, stopAt: nat) returns (i: nat)
      modifies c
      ensures i == Min(stopAt, |artists|)
      ensures c.Lists() == ProcessAll(old(c.Lists()), artists[..i], api)
      ensures c.excelFile == old(c.excelFile) && c.outputFile == old(c.outputFile)
    {
      i := 0;
      while i < |artists|
        invariant i <= |artists| && i <= stopAt
        invariant c.Lists() == ProcessAll(old(c.Lists()), artists[..i], api)
        invariant c.excelFile == old(c.excelFile) && c.outputFile == old(c.outputFile)
      {
        var running := i < stopAt;
        if !running {
          break;
        }
        ProcessAllSnoc(old(c.Lists()), artists, i, api);
        c.ProcessArtist(artists[i], api);
        i := i + 1;
      }
    }
  }
}
