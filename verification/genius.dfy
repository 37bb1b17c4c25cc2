/** Lyrics from Genius (`src-tauri/src/ai/genius.rs`): the cached-lyrics
    check, the choice of a search hit, the extraction of the lyrics text
    from the song page and the AI clean-up with its regex fallback.
    The search request and the page download are oracles; the parsed page
    is the list of lyrics containers, each the sequence of its descendant
    nodes in document order. */
module Genius {
  import opened Wrappers
  import opened Text
  import opened Utils
  import opened Cache
  import opened OpenAi

  const TokenError := "Genius API token not configured. Please add it to config.json in your app data directory."
  const NoResultsError := "No results found"
  const NoLyricsError := "Could not extract lyrics from page"
  /** `search_lyrics` returns at most this many hits. */
  const MaxSuggestions := 10

  /** `GeniusResult` (the primary artist is reduced to its name). */
  datatype GeniusResult = GeniusResult(url: string, title: string, primaryArtist: string, resultType: Option<string>)

  // ---------------------------------------------------------------- cache

  /** The prose test on a cached entry: a "he/she said" or "he/she sat",
      or a long text (over 500 bytes) with " the " and neither a
      "[Chorus]" nor a "[Verse]" tag. */
  predicate IsProse(s: string) {
    || Contains(s, "he said") || Contains(s, "she said") || Contains(s, "he sat") || Contains(s, "she sat")
    || (Contains(s, " the ") && Utf8Length(s) > 500 && !Contains(s, "[Chorus]") && !Contains(s, "[Verse]"))
  }

  /** The "she" tests are subsumed by the "he" tests: every "she said"
      holds a "he said". */
  lemma ProseNeedsOnlyHe(s: string)
    ensures IsProse(s) <==>
      || Contains(s, "he said") || Contains(s, "he sat")
      || (Contains(s, " the ") && Utf8Length(s) > 500 && !Contains(s, "[Chorus]") && !Contains(s, "[Verse]"))
  {
    if Contains(s, "she said") {
      SuffixOccurs(s, "she said", "he said");
    }
    if Contains(s, "she sat") {
      SuffixOccurs(s, "she sat", "he sat");
    }
  }

  /** An occurrence of `long` holds one of its suffix `short`. */
  lemma SuffixOccurs(s: string, long: string, short: string)
    requires Contains(s, long) && |short| <= |long| && long[|long| - |short|..] == short
    ensures Contains(s, short)
  {
    var i :| 0 <= i <= |s| && OccursAt(s, long, i);
    var j := i + |long| - |short|;
    assert s[j..j + |short|] == s[i..i + |long|][|long| - |short|..];
    assert OccursAt(s, short, j);
  }

  /** The cache key of a song's lyrics (the song-context key's format). */
  function LyricsCacheKey(artist: string, title: string): string {
    SongCacheKey(artist, title)
  }

  /** The lyrics the cache serves for `key`: the stored text unless it is
      missing or looks like prose. */
  function CachedLyrics(table: map<string, string>, key: string): (r: Option<string>)
    ensures r.Some? <==> key in table && !IsProse(table[key])
    ensures r.Some? ==> r.value == table[key]
  {
    if key in table && !IsProse(table[key]) then Some(table[key]) else None
  }

  /** Unlike the AI answers, a blank lyrics entry is served as it is: it is
      not prose. */
  lemma BlankLyricsAreServed(table: map<string, string>, key: string)
    requires key in table && table[key] == []
    ensures CachedLyrics(table, key) == Some([])
  {
    assert !Contains(table[key], "he said");
  }

  // ------------------------------------------------------------ selection

  /** The song filter: a hit with a type is kept iff the type is "song";
      one without is kept iff its lower-cased URL has no "/literature/" and
      no "/books/". */
  predicate AcceptHit(hit: GeniusResult) {
    match hit.resultType
    case Some(t) => t == "song"
    case None =>
      var url := ToLower(hit.url);
      !Contains(url, "/literature/") && !Contains(url, "/books/")
  }

  /** The match test: each of artist and title, lower-cased, contains the
      searched one or is contained in it. */
  predicate MatchesSong(hit: GeniusResult, artist: string, cleanTitle: string) {
    var resultArtist := ToLower(hit.primaryArtist);
    var searchArtist := ToLower(artist);
    var resultTitle := ToLower(hit.title);
    var searchTitle := ToLower(cleanTitle);
    && (Contains(resultArtist, searchArtist) || Contains(searchArtist, resultArtist))
    && (Contains(resultTitle, searchTitle) || Contains(searchTitle, resultTitle))
  }

  /** A hit the filter keeps and that matches. */
  predicate PrimaryMatch(hit: GeniusResult, artist: string, cleanTitle: string) {
    AcceptHit(hit) && MatchesSong(hit, artist, cleanTitle)
  }

  /** The hit the fallback takes: type exactly "song". */
  predicate IsSong(hit: GeniusResult) {
    hit.resultType == Some("song")
  }

  /** The index of the first primary match, if any. */
  function FirstPrimary(hits: seq<GeniusResult>, artist: string, cleanTitle: string): (r: Option<nat>)
    ensures r.Some? ==> r.value < |hits| && PrimaryMatch(hits[r.value], artist, cleanTitle)
    ensures r.Some? ==> forall j :: 0 <= j < r.value ==> !PrimaryMatch(hits[j], artist, cleanTitle)
    ensures r.None? ==> forall j :: 0 <= j < |hits| ==> !PrimaryMatch(hits[j], artist, cleanTitle)
    decreases |hits|
  {
    if hits == [] then None
    else if PrimaryMatch(hits[0], artist, cleanTitle) then Some(0)
    else match FirstPrimary(hits[1..], artist, cleanTitle)
      case None => None
      case Some(k) => Some(k + 1)
  }

  /** The index of the first hit of type "song", if any. */
  function FirstSong(hits: seq<GeniusResult>): (r: Option<nat>)
    ensures r.Some? ==> r.value < |hits| && IsSong(hits[r.value])
    ensures r.Some? ==> forall j :: 0 <= j < r.value ==> !IsSong(hits[j])
    ensures r.None? ==> forall j :: 0 <= j < |hits| ==> !IsSong(hits[j])
    decreases |hits|
  {
    if hits == [] then None
    else if IsSong(hits[0]) then Some(0)
    else match FirstSong(hits[1..])
      case None => None
      case Some(k) => Some(k + 1)
  }

  /** The hit `get_lyrics` fetches: the first primary match, else the first
      hit of type "song", else "No results found". Whatever is chosen is
      one of the hits and passes the song filter, so a hit typed as
      something else, or an untyped literature or book page, is never
      fetched. */
  function SelectHit(hits: seq<GeniusResult>, artist: string, cleanTitle: string): (r: Result<GeniusResult, string>)
    ensures r.Err? <==> forall j :: 0 <= j < |hits| ==> !PrimaryMatch(hits[j], artist, cleanTitle) && !IsSong(hits[j])
    ensures r.Err? ==> r.error == NoResultsError
    ensures r.Ok? ==> r.value in hits && AcceptHit(r.value)
    ensures FirstPrimary(hits, artist, cleanTitle).Some? ==> r == Ok(hits[FirstPrimary(hits, artist, cleanTitle).value])
    ensures FirstPrimary(hits, artist, cleanTitle).None? && FirstSong(hits).Some? ==> r == Ok(hits[FirstSong(hits).value])
  {
    match FirstPrimary(hits, artist, cleanTitle)
    case Some(i) => Ok(hits[i])
    case None =>
      match FirstSong(hits)
      case Some(i) => Ok(hits[i])
      case None => Err(NoResultsError)
  }

  /** The hits `search_lyrics` returns: the first ten, unfiltered, in the
      order of the search response. */
  function TopResults(hits: seq<GeniusResult>): (r: seq<GeniusResult>)
    ensures |r| == if |hits| < MaxSuggestions then |hits| else MaxSuggestions
    ensures r == hits[..|r|]
  {
    if |hits| <= MaxSuggestions then hits else hits[..MaxSuggestions]
  }

  // ---------------------------------------------------------- search call

  /** How a search request ends: not sent, a status other than success,
      a body that does not parse, or the hits. */
  datatype SearchReply =
    | SearchFailed(error: string)
    | SearchStatus(status: string)
    | SearchBadBody(error: string)
    | Hits(results: seq<GeniusResult>)

  /** The hits of a search reply, or its error message. */
  function SearchHits(reply: SearchReply): (r: Result<seq<GeniusResult>, string>)
    ensures r.Ok? <==> reply.Hits?
    ensures r.Ok? ==> r.value == reply.results
  {
    match reply
    case SearchFailed(e) => Err("Search request failed: " + e)
    case SearchStatus(status) => Err("Genius API returned status: " + status)
    case SearchBadBody(e) => Err("Failed to parse search results: " + e)
    case Hits(results) => Ok(results)
  }

  /** The search query: the artist, a space, the cleaned title. */
  function SearchQuery(artist: string, cleanTitle: string): string {
    artist + " " + cleanTitle
  }

  /** `search_lyrics`. Without a token nothing is searched; otherwise the
      result is at most ten hits of the reply, in its order. */
  function SearchLyrics(title: string, artist: string, token: Option<string>,
                        stripEditionTags: string -> string, search: (string, string) -> SearchReply): (r: Result<seq<GeniusResult>, string>)
    ensures token.None? ==> r == Err(TokenError)
    ensures r.Ok? ==> token.Some? && |r.value| <= MaxSuggestions
    ensures r.Ok? ==>
      var reply := search(SearchQuery(artist, CleanSongTitle(title, stripEditionTags)), token.value);
      reply.Hits? && |r.value| <= |reply.results| && r.value == reply.results[..|r.value|]
    ensures token.Some? ==>
      var reply := search(SearchQuery(artist, CleanSongTitle(title, stripEditionTags)), token.value);
      && (reply.Hits? ==> r == Ok(TopResults(reply.results)))
      && (!reply.Hits? ==> r.Err? && r == SearchHits(reply))
  {
    match token
    case None => Err(TokenError)
    case Some(t) =>
      match SearchHits(search(SearchQuery(artist, CleanSongTitle(title, stripEditionTags)), t))
      case Err(e) => Err(e)
      case Ok(hits) => Ok(TopResults(hits))
  }

  // ----------------------------------------------------------- extraction

  /** A descendant of a lyrics container: a text node, an element (by tag
      name) or anything else (a comment, say). */
  datatype Node = TextNode(text: string) | ElementNode(name: string) | OtherNode

  /** What one node adds: its text, a newline for `<br>`, nothing else. */
  function NodeText(n: Node): string {
    match n
    case TextNode(t) => t
    case ElementNode(name) => if name == "br" then "\n" else ""
    case OtherNode => ""
  }

  /** The text of one container's nodes, in order. */
  function ContainerText(nodes: seq<Node>): string
    decreases |nodes|
  {
    if nodes == [] then "" else ContainerText(nodes[..|nodes| - 1]) + NodeText(nodes[|nodes| - 1])
  }

  /** The text of all containers, each followed by a blank line. */
  function PageText(containers: seq<seq<Node>>): string
    decreases |containers|
  {
    if containers == [] then ""
    else PageText(containers[..|containers| - 1]) + ContainerText(containers[|containers| - 1]) + "\n\n"
  }

  /** What `extract_raw_lyrics_from_html` returns: the trimmed page text,
      or an error when that is empty. */
  function RawLyrics(containers: seq<seq<Node>>): (r: Result<string, string>)
    ensures r.Err? <==> Trim(PageText(containers)) == []
    ensures r.Err? ==> r.error == NoLyricsError
    ensures r.Ok? ==> r.value != [] && IsTrimmed(r.value) && Contains(PageText(containers), r.value)
  {
    var lyrics := Trim(PageText(containers));
    if lyrics == [] then Err(NoLyricsError) else Ok(lyrics)
  }

  /** `extract_raw_lyrics_from_html` on the selected containers: the nested
      loops push each node's text onto one string, then trim. */
  method ExtractRawLyrics(containers: seq<seq<Node>>) returns (r: Result<string, string>)
    ensures r == RawLyrics(containers)
  {
    var lyrics := "";
    var i := 0;
    while i < |containers|
      invariant 0 <= i <= |containers|
      invariant lyrics == PageText(containers[..i])
    {
      assert containers[..i + 1][..i] == containers[..i];
      lyrics := AppendContainer(lyrics, containers[i]);
      lyrics := lyrics + "\n\n";
      i := i + 1;
    }
    assert containers[..i] == containers;
    lyrics := Trim(lyrics);
    if lyrics == [] {
      r := Err(NoLyricsError);
    } else {
      r := Ok(lyrics);
    }
  }

  /** The inner loop: push the text of each descendant of one container. */
  method AppendContainer(lyrics: string, element: seq<Node>) returns (out: string)
    ensures out == lyrics + ContainerText(element)
  {
    out := lyrics;
    var j := 0;
    while j < |element|
      invariant 0 <= j <= |element|
      invariant out == lyrics + ContainerText(element[..j])
    {
      assert element[..j + 1][..j] == element[..j];
      out := out + NodeText(element[j]);
      j := j + 1;
    }
    assert element[..j] == element;
  }

  /** Every text node of a container reaches its text. */
  lemma {:induction false} ContainerTextKeeps(nodes: seq<Node>, j: nat)
    requires j < |nodes| && nodes[j].TextNode?
    ensures Contains(ContainerText(nodes), nodes[j].text)
    decreases |nodes|
  {
    var last := |nodes| - 1;
    if j == last {
      ContainsMiddle(ContainerText(nodes[..last]), nodes[j].text, "");
      assert ContainerText(nodes[..last]) + nodes[j].text + "" == ContainerText(nodes);
    } else {
      ContainerTextKeeps(nodes[..last], j);
      ContainsExtend(ContainerText(nodes[..last]), nodes[j].text, NodeText(nodes[last]));
    }
  }

  /** Every text node of every container reaches the page text. */
  lemma {:induction false} PageTextKeeps(containers: seq<seq<Node>>, i: nat, j: nat)
    requires i < |containers| && j < |containers[i]| && containers[i][j].TextNode?
    ensures Contains(PageText(containers), containers[i][j].text)
    decreases |containers|
  {
    var last := |containers| - 1;
    var front := PageText(containers[..last]);
    var t := containers[i][j].text;
    if i == last {
      ContainerTextKeeps(containers[i], j);
      ContainsExtend(ContainerText(containers[i]), t, "\n\n");
      ContainsExtend(ContainerText(containers[i]) + "\n\n", t, front);
      assert front + (ContainerText(containers[i]) + "\n\n") == PageText(containers);
    } else {
      PageTextKeeps(containers[..last], i, j);
      ContainsExtend(front, t, ContainerText(containers[last]) + "\n\n");
      assert front + (ContainerText(containers[last]) + "\n\n") == PageText(containers);
    }
  }

  /** A container list with no text nodes yields only newlines, so the
      extraction fails. */
  lemma NoTextNoLyrics(containers: seq<seq<Node>>)
    requires forall i, j :: 0 <= i < |containers| && 0 <= j < |containers[i]| ==> !containers[i][j].TextNode?
    ensures RawLyrics(containers) == Err(NoLyricsError)
  {
    PageTextIsBlank(containers);
    AllSpacesTrimToEmpty(PageText(containers));
  }

  lemma {:induction false} PageTextIsBlank(containers: seq<seq<Node>>)
    requires forall i, j :: 0 <= i < |containers| && 0 <= j < |containers[i]| ==> !containers[i][j].TextNode?
    ensures forall k :: 0 <= k < |PageText(containers)| ==> IsSpace(PageText(containers)[k])
    decreases |containers|
  {
    if containers != [] {
      var last := |containers| - 1;
      PageTextIsBlank(containers[..last]);
      ContainerTextIsBlank(containers[last]);
    }
  }

  lemma {:induction false} ContainerTextIsBlank(nodes: seq<Node>)
    requires forall j :: 0 <= j < |nodes| ==> !nodes[j].TextNode?
    ensures forall k :: 0 <= k < |ContainerText(nodes)| ==> IsSpace(ContainerText(nodes)[k])
    decreases |nodes|
  {
    if nodes != [] {
      ContainerTextIsBlank(nodes[..|nodes| - 1]);
    }
  }

  // ------------------------------------------------------------- clean-up

  /** The AI answer is a refusal: lower-cased, it says "i can't provide",
      "i cannot provide" or "i'm sorry". */
  predicate IsRefusal(answer: string) {
    var lower := ToLower(answer);
    Contains(lower, "i can't provide") || Contains(lower, "i cannot provide") || Contains(lower, "i'm sorry")
  }

  /** The lyrics kept from the AI step: its answer unless the call failed
      or refused, in which case the regex clean-up of the raw lyrics. */
  function ChooseLyrics(ai: Result<string, string>, rawLyrics: string): (r: string)
    ensures ai.Ok? && !IsRefusal(ai.value) ==> r == ai.value
    ensures ai.Err? || IsRefusal(ai.value) ==> r == CleanedLyrics(rawLyrics)
  {
    match ai
    case Ok(cleaned) => if IsRefusal(cleaned) then CleanedLyrics(rawLyrics) else cleaned
    case Err(_) => CleanedLyrics(rawLyrics)
  }

  /** A refusal is never returned as lyrics, except when the regex clean-up
      of the raw lyrics itself is one. */
  lemma RefusalNeverKept(ai: Result<string, string>, rawLyrics: string)
    requires !IsRefusal(CleanedLyrics(rawLyrics))
    ensures !IsRefusal(ChooseLyrics(ai, rawLyrics))
  {
  }

  // ----------------------------------------------------------- get_lyrics

  /** How the download of a song page ends: not sent, a body that cannot be
      read, or the page's lyrics containers. */
  datatype PageReply = PageFailed(error: string) | ReadFailed(error: string) | Page(containers: seq<seq<Node>>)

  /** The lyrics of a downloaded page: extracted, then cleaned by the AI
      (with the raw text as fallback). */
  function LyricsOfPage(reply: PageReply, apiKey: Option<string>, send: (ChatRequest, string) -> ChatReply): (r: Result<string, string>)
    ensures r.Ok? <==> reply.Page? && RawLyrics(reply.containers).Ok?
    ensures r.Ok? ==>
      var raw := RawLyrics(reply.containers).value;
      r.value == ChooseLyrics(FormatLyricsWithAi(raw, apiKey, send).result, raw)
  {
    match reply
    case PageFailed(e) => Err("Failed to fetch lyrics page: " + e)
    case ReadFailed(e) => Err("Failed to read HTML: " + e)
    case Page(containers) =>
      match RawLyrics(containers)
      case Err(e) => Err(e)
      case Ok(raw) => Ok(ChooseLyrics(FormatLyricsWithAi(raw, apiKey, send).result, raw))
  }

  /** The network part of `get_lyrics`: token, search, choice of hit, page,
      extraction, clean-up; the first failure is the result. */
  function FetchLyrics(title: string, artist: string, token: Option<string>, stripEditionTags: string -> string,
                       search: (string, string) -> SearchReply, page: string -> PageReply,
                       apiKey: Option<string>, send: (ChatRequest, string) -> ChatReply): (r: Result<string, string>)
    ensures token.None? ==> r == Err(TokenError)
    ensures r.Ok? ==>
      var cleanTitle := CleanSongTitle(title, stripEditionTags);
      var reply := search(SearchQuery(artist, cleanTitle), token.value);
      && reply.Hits?
      && SelectHit(reply.results, artist, cleanTitle).Ok?
      && r == LyricsOfPage(page(SelectHit(reply.results, artist, cleanTitle).value.url), apiKey, send)
    ensures token.Some? ==>
      var cleanTitle := CleanSongTitle(title, stripEditionTags);
      var reply := search(SearchQuery(artist, cleanTitle), token.value);
      && (!reply.Hits? ==> r == Err(SearchHits(reply).error))
      && (reply.Hits? && SelectHit(reply.results, artist, cleanTitle).Err? ==>
            r == Err(SelectHit(reply.results, artist, cleanTitle).error))
      && (reply.Hits? && SelectHit(reply.results, artist, cleanTitle).Ok? ==>
            r == LyricsOfPage(page(SelectHit(reply.results, artist, cleanTitle).value.url), apiKey, send))
  {
    match token
    case None => Err(TokenError)
    case Some(t) =>
      var cleanTitle := CleanSongTitle(title, stripEditionTags);
      match SearchHits(search(SearchQuery(artist, cleanTitle), t))
      case Err(e) => Err(e)
      case Ok(hits) =>
        match SelectHit(hits, artist, cleanTitle)
        case Err(e) => Err(e)
        case Ok(hit) => LyricsOfPage(page(hit.url), apiKey, send)
  }

  /** `get_lyrics`. Cached lyrics that do not look like prose are returned
      with nothing fetched. Otherwise the lyrics are fetched; a failure is
      returned as is and nothing is stored; lyrics are stored under the
      song's key (when the cache file can be written) and returned. */
  method GetLyrics(store: CacheStore, title: string, artist: string, token: Option<string>,
                   stripEditionTags: string -> string, search: (string, string) -> SearchReply,
                   page: string -> PageReply, apiKey: Option<string>,
                   send: (ChatRequest, string) -> ChatReply, write: WriteOutcome)
    returns (r: Result<string, string>)
    modifies store
    ensures var cached := CachedLyrics(LoadCache(old(store.file)).lyrics, LyricsCacheKey(artist, title));
      if cached.Some? then
        r == Ok(cached.value) && store.file == old(store.file)
      else
        && r == FetchLyrics(title, artist, token, stripEditionTags, search, page, apiKey, send)
        && store.file == (if r.Ok?
                          then AfterWrite(old(store.file), WithEntry(LoadCache(old(store.file)), Lyrics, LyricsCacheKey(artist, title), r.value), write)
                          else old(store.file))
  {
    var key := LyricsCacheKey(artist, title);
    var cache := store.Load();
    var cached := CachedLyrics(cache.lyrics, key);
    if cached.Some? {
      return Ok(cached.value);
    }
    if token.None? {
      return Err(TokenError);
    }
    var cleanTitle := CleanSongTitle(title, stripEditionTags);
    var hits := SearchHits(search(SearchQuery(artist, cleanTitle), token.value));
    if hits.Err? {
      return Err(hits.error);
    }
    var best := SelectHit(hits.value, artist, cleanTitle);
    if best.Err? {
      return Err(best.error);
    }
    r := LyricsFromPage(page(best.value.url), apiKey, send);
    if r.Ok? {
      store.UpdateLyrics(key, r.value, write);
    }
  }

  /** The steps of `get_lyrics` after the page download. */
  method LyricsFromPage(reply: PageReply, apiKey: Option<string>, send: (ChatRequest, string) -> ChatReply)
    returns (r: Result<string, string>)
    ensures r == LyricsOfPage(reply, apiKey, send)
  {
    if !reply.Page? {
      return if reply.PageFailed? then Err("Failed to fetch lyrics page: " + reply.error)
             else Err("Failed to read HTML: " + reply.error);
    }
    var raw := ExtractRawLyrics(reply.containers);
    if raw.Err? {
      return Err(raw.error);
    }
    var ai := FormatLyricsWithAi(raw.value, apiKey, send).result;
    var lyrics;
    if ai.Ok? && !IsRefusal(ai.value) {
      lyrics := ai.value;
    } else {
      lyrics := CleanLyricsWithRegex(raw.value);
    }
    r := Ok(lyrics);
  }
}
