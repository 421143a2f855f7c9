/** The two Deezer catalog calls, reduced to how their decoded JSON answers are
    shaped into results. What the server answers is an oracle: `Api` maps a
    query to the response, and a transport, status or decoding failure is the
    `...Failed` constructor of that response. */
module Catalog {
  import PyText
  import opened Wrappers

  /** The JSON scalars a Deezer field may hold. */
  datatype Json = JNull | JBool(b: bool) | JInt(n: int) | JStr(s: string)

  /** A decoded JSON object (a Python `dict`). */
  type JsonObject = map<string, Json>

  /** Answer to `GET /search/artist?q=<name>`: the value of its "data" key, or
      `None` when that key is missing or null. */
  datatype SearchResponse = SearchFailed | SearchBody(results: Option<seq<JsonObject>>)

  /** Answer to `GET /artist/<id>/top?limit=<n>`, with the same reading. */
  datatype TopResponse = TopFailed | TopBody(tracks: Option<seq<JsonObject>>)

  /** The remote service, seen as two functions: the same query always gets
      the same answer, so a call that fails once fails every time. */
  datatype Api = Api(search: string -> SearchResponse, top: (Json, nat) -> TopResponse)

  /** The `limit` parameter `get_top_songs` is called with. */
  const TopLimit: nat := 3

  /** Python's `str()` of a JSON scalar, as used when a title is put into an f-string. */
  function Show(v: Json): string
  {
    match v
    case JNull => "None"
    case JBool(b) => if b then "True" else "False"
    case JInt(n) => PyText.IntToString(n)
    case JStr(s) => s
  }

  /** `search_artist`: the first search result, or the empty object `{}` when
      the call failed or returned no result. */
  function SearchArtist(resp: SearchResponse): (r: JsonObject)
    ensures r != map[] ==> resp.SearchBody? && resp.results.Some? &&
                           |resp.results.value| > 0 && r == resp.results.value[0]
    ensures r == map[] <==> (resp.SearchFailed? || resp.results.None? ||
                             resp.results.value == [] || resp.results.value[0] == map[])
  {
    match resp
    case SearchFailed => map[]
    case SearchBody(None) => map[]
    case SearchBody(Some(list)) => if |list| > 0 then list[0] else map[]
  }

  /** `artist_data.get("id")`: a missing key reads as `None`. */
  function IdOf(artist: JsonObject): Json
  {
    if "id" in artist then artist["id"] else JNull
  }

  /** `track.get("title", "Unknown")`. */
  function TitleOf(track: JsonObject): Json
  {
    if "title" in track then track["title"] else JStr("Unknown")
  }

  /** The titles of `tracks`, one per track, in the order given. */
  function Titles(tracks: seq<JsonObject>): (r: seq<Json>)
    ensures |r| == |tracks|
    ensures forall i :: 0 <= i < |tracks| ==> r[i] == TitleOf(tracks[i])
  {
    if tracks == [] then [] else [TitleOf(tracks[0])] + Titles(tracks[1..])
  }

  /** What `get_top_songs` returns for a response: nothing when the call
      failed or "data" is missing, null or empty, otherwise its titles. */
  function TopSongs(resp: TopResponse): (r: seq<Json>)
    ensures resp.TopFailed? || resp.tracks.None? ==> r == []
    ensures resp.TopBody? && resp.tracks.Some? ==> |r| == |resp.tracks.value|
  {
    if resp.TopBody? && resp.tracks.Some? then Titles(resp.tracks.value) else []
  }

  /** `get_top_songs`: collects one title per track, in the order the API
      lists them, with "Unknown" for a track without a title. */
  method GetTopSongs(resp: TopResponse) returns (songs: seq<Json>)
    ensures songs == TopSongs(resp)
    ensures resp.TopFailed? || resp.tracks.None? ==> songs == []
    ensures resp.TopBody? && resp.tracks.Some? ==>
              |songs| == |resp.tracks.value| &&
              forall i :: 0 <= i < |songs| ==> songs[i] == TitleOf(resp.tracks.value[i])
  {
    songs := [];
    if resp.TopBody? && resp.tracks.Some? && resp.tracks.value != [] {
      var tracks := resp.tracks.value;
      var i := 0;
      while i < |tracks|
        invariant 0 <= i <= |tracks|
        invariant |songs| == i
        invariant forall k :: 0 <= k < i ==> songs[k] == TitleOf(tracks[k])
      {
        songs := songs + [TitleOf(tracks[i])];
        i := i + 1;
      }
    }
  }
}
