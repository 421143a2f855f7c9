# Mammut Bandtester (Deezer playlist creator) in Dafny

The program reads artist names from column B of a spreadsheet and asks the
Deezer catalog for each artist and its top tracks. It sorts every artist into
one of three lists: songs found, no songs, not found. It writes these lists
to a text file, and a Tk window lets the user stop the run early. This project
models the decision logic of `DeezerPlaylistCreator` and of the worker loop
of `PlaylistCreatorGUI` in `main.py`, and proves properties of that model.

Modules:

- `PyText` (text.dfy): Python's `str.strip()` over the exact set of
  characters `str.isspace()` accepts, and `str()` of an integer.
- `Catalog` (catalog.dfy): decoded JSON answers of the two HTTP calls. It
  shapes them the way `search_artist` (first result or `{}`) and
  `get_top_songs` (one title per track, "Unknown" when there is no title) do.
  The server itself is an oracle: `Api` holds two total functions, and a
  transport, status or decoding failure is the `SearchFailed` / `TopFailed`
  answer.
- `Sheet` (sheet.dfy): the worksheet as a map from row number to cell (text or
  non-text; a missing row is an empty cell), a load failure as `Unreadable`,
  and which names the B2..B76 scan keeps.
- `Aggregate` (aggregate.dfy): the classification of one artist, what it adds
  to the three lists, and the loop over all artists as a function, with the
  partition, order, append-only and stop-prefix lemmas.
- `Layout` (layout.dfy): the text `save_playlist` writes, a reader for that
  text, the round trip between them and the header-omission rule.
- `Creator` (creator.dfy): the classes `PlaylistCreator` (fields `songs`,
  `no_songs`, `not_found` as `seq<string>`, grown in place by loops) and
  `PlaylistCreatorGui` (the `process_thread` loop with its stop check). Each
  method is proved against the functions above.

The stop flag of the window is modelled as an index `stopAt`: the flag is
still set at check `k` exactly when `k < stopAt`. The loop checks it once
before each artist, and again after the loop, where it decides between
"completed" (save enabled) and "stopped".

Points where `main.py` behaves in a way its docstrings and comments do not spell
out, and which the model follows:

- `get_top_songs` passes `limit=3` to the server but does not cut the answer
  down itself. The model keeps every track the answer lists.
- `search_artist` returns the first result as it is. When that result is an
  empty object, the loop treats the artist as not found, and so does the model.
- A stopped run leaves the save button as it was. If an earlier completed run
  enabled it and that run was never saved, the button stays enabled
  (`saveEnabled == old(saveEnabled) || completed`).
- A stop requested while the last artist is being processed lets that artist
  finish but still reports the run as stopped (`completed` is false when
  `stopAt == |artists|`).
- `run` never calls `ask_continue`. `Creator.PlaylistCreator.Run` models
  `run` as it is: process first, then save.

## Model

| member | source | states |
|---|---|---|
| PyText.TrimLeft | main.py:90 | `lstrip()`: the string with its leading whitespace characters removed |
| PyText.TrimRight | main.py:90 | `rstrip()`: the string with its trailing whitespace characters removed |
| PyText.Strip | main.py:90 | `strip()`, as applied to each cell and, at main.py:211, to each typed reply: the right trim of the left trim |
| PyText.IntToString | main.py:180 | `str()` of an integer: its decimal digits, with a leading `-` when negative |
| PyText.TrimLeftSpec | main.py:90 | the left trim keeps a suffix, removes only whitespace and stops at a non-whitespace character |
| PyText.TrimRightSpec | main.py:90 | the right trim keeps a prefix, removes only whitespace and stops at a non-whitespace character |
| PyText.StripSpec | main.py:90 | `strip()` returns a contiguous piece of the string that starts and ends with non-whitespace, and everything cut off is whitespace |
| PyText.StripEmptyIffAllSpace | main.py:90-91 | a stripped cell is empty exactly when the cell is all whitespace |
| PyText.StripIdempotent | main.py:90 | stripping a stripped name changes nothing |
| Catalog.Show | main.py:180 | the text an f-string gives a title: `None`, `True`/`False`, the decimal digits of an integer (with a sign when negative), or the string itself |
| Catalog.SearchArtist | main.py:112-124 | the result is the first search result when the call succeeded with a non-empty list; it is `{}` exactly when the call failed, had no data, had an empty list or the first result was `{}` |
| Catalog.IdOf | main.py:173 | `artist_data.get("id")`: the "id" field, or `None` when the record has none |
| Catalog.TitleOf | main.py:147 | `track.get("title", "Unknown")`: the "title" field, or "Unknown" when the track has none |
| Catalog.Titles | main.py:145-147 | one title per track, in API order; title is the track's "title" or "Unknown" |
| Catalog.TopSongs | main.py:143-152 | what `get_top_songs` returns: nothing on failure or missing data, otherwise exactly one title per track |
| Catalog.GetTopSongs | main.py:137-152 | the loop returns no titles on failure or missing data, otherwise exactly one title per track in API order |
| Sheet.ArtistRows | main.py:87-92 | the rows of a range whose cell is a string that is not blank once stripped, in row order |
| Sheet.ArtistRowsSpec | main.py:87-92 | the kept rows are increasing, lie in the scanned range, are exactly the rows with a non-blank string cell, and number at most the range size |
| Sheet.ArtistsIn | main.py:87-92 | the stripped text of the artist rows of a range, appended row by row |
| Sheet.ArtistsInSpec | main.py:87-92 | name k is the stripped text of kept row k, and there are as many names as kept rows |
| Sheet.Artists | main.py:81-100 | what `get_artists_from_excel` returns: nothing for an unreadable workbook, otherwise at most 75 names, none of them empty |
| Sheet.ArtistsByRow | main.py:86-92 | the scan of B2..B76 yields at most 75 names, one per non-blank string cell of those rows, in row order |
| Sheet.ArtistsStripped | main.py:89-92 | every returned name is non-empty, equals its own strip and has no leading or trailing whitespace |
| Sheet.OnlyArtistCellsMatter | main.py:88-92 | empty, whitespace-only and non-string cells do not affect the result |
| Aggregate.NotFoundEntry | main.py:170 | the not-found entry `"<name> not found"` |
| Aggregate.NoSongsEntry | main.py:177 | the no-songs entry `"no songs for <name> found"` |
| Aggregate.SongEntry | main.py:180 | the playlist entry `"<name> - <title>"`, with the title spelled as `str()` does |
| Aggregate.SongEntries | main.py:179-180 | one `"<name> - <title>"` per title, in title order |
| Aggregate.Classify | main.py:167-177 | an artist with songs has at least one title |
| Aggregate.Tally | main.py:164-180 | the bucket counts of the artists sum to the number of artists |
| Aggregate.Contribution | main.py:167-180 | what one artist adds: at most one no-songs or not-found entry, songs exactly when the artist has tracks, and then nothing else |
| Aggregate.Step | main.py:165-180 | one iteration of the artist loop: the lists followed by what that artist contributes |
| Aggregate.ProcessAll | main.py:164-180 | the lists after the loop has handled the artists in order; no list shrinks, and each artist adds at most one no-songs or not-found entry |
| Aggregate.NotFoundArtist | main.py:167-171 | an artist not found adds exactly `"<name> not found"` to `not_found` and nothing else, whatever the top-tracks service would answer |
| Aggregate.NoSongsArtist | main.py:173-177 | a found artist with no top tracks adds exactly `"no songs for <name> found"` to `no_songs` and nothing else |
| Aggregate.FoundArtist | main.py:173-180 | a found artist with tracks adds one `"<name> - <title>"` per track to `songs`, in API order, and nothing else |
| Aggregate.ExactlyOneBucket | main.py:167-180 | each artist contributes to exactly one of the three lists: one or more songs, or one no-songs entry, or one not-found entry |
| Aggregate.ProcessAllFrom | main.py:164-180 | the loop only appends: the lists it starts from are kept as prefixes, and what it adds does not depend on them |
| Aggregate.ProcessAllSplit | main.py:164 | processing `xs + ys` is processing `xs` and then `ys` |
| Aggregate.ArtistOrder | main.py:164-180 | artist k's entries come after those of all earlier and before those of all later artists, in all three lists |
| Aggregate.StoppedRunIsPrefix | main.py:440-443 | stopping before artist k gives exactly the lists of the first k artists; each is a prefix of the full run's list and later artists contribute nothing |
| Aggregate.Partition | main.py:164-180 | after a full run, `no_songs` and `not_found` have one entry per artist of their kind, `songs` at least one per artist with songs, and the kinds account for every artist |
| Layout.Lines | main.py:188-189 | what each `for entry in ...: f.write(entry + "\n")` loop writes (also main.py:194-195 and 200-201): every entry followed by a newline, in list order |
| Layout.Render | main.py:185-201 | the text passed to `f.write`: "Playlist:" and the songs, then the no-songs and the not-found sections, each only when its list is non-empty |
| Layout.RenderIsLayout | main.py:185-201 | the file is its layout lines each ended by a newline: "Playlist:", the songs, then each non-empty later section as a blank line, its header and its entries |
| Layout.SplitRender | main.py:185-201 | when every entry is a non-empty single line, splitting the file into lines gives back the layout lines |
| Layout.ParseLayout | main.py:185-201 | the reader takes the layout lines back to the three lists |
| Layout.ParseRender | main.py:185-201 | reading the written file gives back exactly the three lists (round trip) when entries are non-empty single lines |
| Layout.HeadersIffNonEmpty | main.py:187-201 | the file starts with "Playlist:" followed by the songs; the "No songs found:" header appears iff `no_songs` is non-empty, and "Not found:" iff `not_found` is; when both appear, "No songs found:" comes first |
| Layout.ContributionHasNoHeaders | main.py:170-180 | no entry the loop creates equals a section header |
| Layout.ProcessAllHasNoHeaders | main.py:164-180 | no list the loop builds contains a section header |
| Layout.OmissionRule | main.py:191-201 | for the lists of any run, each later header is in the file exactly when its list is non-empty |
| Layout.SmallPlaylist | main.py:187-201 | the text written for one entry per list is exactly the successive `f.write` arguments: the header, the song line, then each later section's header and its one line |
| Creator.PlaylistCreator.constructor | main.py:60-72 | a new creator has the given files and three empty lists |
| Creator.PlaylistCreator.GetArtistsFromExcel | main.py:74-100 | the row loop returns exactly the names of the B2..B76 scan, or none for an unreadable workbook |
| Creator.PlaylistCreator.ProcessArtist | main.py:165-180 | one loop iteration appends exactly that artist's entries to the fields |
| Creator.PlaylistCreator.ProcessArtists | main.py:154-180 | the fields become the starting lists followed by the entries of every artist of the workbook, in order |
| Creator.Reply | main.py:211-215 | the meaning of one typed line once stripped and upper-cased: "X" stops, an empty line continues, anything else is invalid |
| Creator.PlaylistCreator.SavePlaylist | main.py:182-201 | the text written is the rendered layout of the three fields |
| Creator.WriteEntries | main.py:188-189 | the write loop appends each entry and a newline |
| Creator.PlaylistCreator.AskContinue | main.py:208-217 | the answer is the first valid reply ("x"/"X" means stop, an empty line means continue) and every earlier reply was invalid; no valid reply means no answer |
| Creator.PlaylistCreator.Run | main.py:219-222 | `run` keeps both file names, processes every artist of the workbook it was built with and then writes their rendered lists, without prompting |
| Creator.PlaylistCreatorGui.ArtistLoop | main.py:440-465 | the loop handles the artists in order and stops at the first cleared flag: it handles `min(stopAt, n)` artists, appends exactly their entries and leaves both file names |
| Creator.PlaylistCreatorGui.ProcessThread | main.py:433-480 | a fresh creator holds exactly the lists of the artists before the stop index; the run completes, and enables saving, iff the flag was still set after the last artist; the running flag ends false |

## Left out

- Installing packages at startup (main.py:11-44): environment bootstrap, outside the model.
- HTTP transport in `search_artist` and `get_top_songs` (URLs, query
  parameters, timeouts, `raise_for_status`, JSON decoding). Each call is an
  oracle answer, and every failure is one `...Failed` answer.
- Catalog.Api: each oracle is a function, so the same query always gets the
  same answer. The real service can fail on one call and answer the next
  (a timeout at main.py:115, caught at main.py:122-124). An artist listed twice
  in column B can then land in two different lists. The model gives both rows
  the same outcome.
- Catalog.Show: JSON floats, arrays and objects as field values are not
  modelled. Only null, booleans, integers and strings are, with Python's
  `str()` spelling.
- Malformed JSON answers are not modelled. For example, a track that is not
  an object makes `track.get` raise. The model assumes the server sends lists
  of objects.
- `openpyxl.load_workbook` and its exceptions. The workbook is `Unreadable`
  or the contents of column B of the active sheet. The workbook is loaded
  without `data_only`, so a formula cell holds its formula text (`"=..."`).
  The model treats it as a `Text` cell, and the scan keeps it as a name.
- Creator.PlaylistCreator.AskContinue: at end of input `input()` raises
  `EOFError`, which propagates out of `ask_continue`. The model's `None`
  answer once the replies run out stands for that exception. The "Invalid
  input" message printed after each invalid reply is not modelled.
- Creator.PlaylistCreator.AskContinue: `upper()` is modelled only by its
  effect on the two comparisons. An upper-cased reply is "X" exactly when the
  stripped reply is "x" or "X", and it is empty exactly when the stripped
  reply is empty.
- Layout.OmissionRule: stated over the file's lines. The link to the raw
  text (`Layout.SplitRender`) needs every entry to be a single line. A name
  taken from a cell may hold an inner newline, because `strip` trims only the
  ends, and then a header's text can occur inside an entry.
- Every Tk widget, colour, label, dialog, log line and progress text
  (main.py:228-431, and the log calls in `process_thread`). So are
  `browse_file`, `start_processing`, `save_file` and `main`, which only
  connect dialogs and buttons to the modelled methods.
- `threading.Thread` and the cross-thread `is_running` flag, including
  `stop_processing`. The stop index `stopAt` stands for them.
- The `try`/`except` around `process_thread`. Nothing in the model raises.
- Layout.Render: newline translation is not modelled. The file is opened in
  text mode, so on a platform whose line separator is "\r\n" every "\n" of
  the text reaches the disk as "\r\n". `Render` and `SavePlaylist` give the
  text passed to `f.write`, not the bytes on disk.
- Opening and writing the output file, its errors, and the printed summary
  lines (main.py:185, 203-206). `save_playlist` returns the text it would
  write.
- Console output of `process_artists` (main.py:159-165).
