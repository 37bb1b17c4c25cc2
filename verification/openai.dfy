/** The OpenAI client of the backend (`src-tauri/src/ai/openai.rs`): one
    chat-completion call, and the artist summary and song analysis served
    from the content cache when a non-blank answer is stored there. The
    HTTP exchange is an oracle `send` from the request and the API key to
    the reply; the API key is a parameter (its lookup is `Config`'s). */
module OpenAi {
  import opened Wrappers
  import opened Text
  import opened Utils
  import opened Cache

  /** Rust's `u32`. */
  newtype U32 = n: int | 0 <= n < 0x1_0000_0000

  const ChatModel := "gpt-4o-mini"
  const MissingKeyError := "OpenAI API key not configured. Please add it to config.json in your app data directory."
  const NoChoiceError := "No response from OpenAI"
  /** Both cached commands and the lyrics formatter ask for this many
      tokens. */
  const AnswerTokens: U32 := 500

  datatype Message = Message(role: string, content: string)

  /** `OpenAIRequest`. */
  datatype ChatRequest = ChatRequest(model: string, messages: seq<Message>, maxTokens: U32)

  /** How the exchange with the API ends: the request could not be sent, the
      status was not a success (its text and the body), the body did not
      parse, or the contents of the choices' messages in order. */
  datatype ChatReply =
    | SendFailed(error: string)
    | ErrorStatus(status: string, body: string)
    | BadBody(error: string)
    | Choices(contents: seq<string>)

  /** One `call_openai`: the request sent, if any, and the outcome. */
  datatype ChatCall = ChatCall(request: Option<ChatRequest>, result: Result<string, string>)

  /** The outcome `call_openai` reads off a reply: the first choice's
      content when there is a choice, an error otherwise. */
  function ReplyResult(reply: ChatReply): (r: Result<string, string>)
    ensures r.Ok? <==> reply.Choices? && reply.contents != []
    ensures r.Ok? ==> r.value == reply.contents[0]
    ensures reply.Choices? && reply.contents == [] ==> r == Err(NoChoiceError)
    ensures reply.ErrorStatus? ==> r.Err? && StartsWith(r.error, "OpenAI API error ")
  {
    match reply
    case SendFailed(e) => Err("OpenAI request failed: " + e)
    case ErrorStatus(status, body) => Err("OpenAI API error " + status + ": " + body)
    case BadBody(e) => Err("Failed to parse OpenAI response: " + e)
    case Choices(contents) => if contents == [] then Err(NoChoiceError) else Ok(contents[0])
  }

  /** `call_openai`. Without a key nothing is sent and the call fails with
      the configuration message. With one, exactly one request is sent: model
      `gpt-4o-mini`, a single "user" message carrying the prompt, and the
      token limit passed through; the outcome is what the reply gives. */
  function CallOpenAi(apiKey: Option<string>, prompt: string, maxTokens: U32, send: (ChatRequest, string) -> ChatReply): (c: ChatCall)
    ensures c.request.None? <==> apiKey.None?
    ensures apiKey.None? ==> c.result == Err(MissingKeyError)
    ensures c.request.Some? ==>
      && c.request.value.model == ChatModel
      && c.request.value.messages == [Message("user", prompt)]
      && c.request.value.maxTokens == maxTokens
      && c.result == ReplyResult(send(c.request.value, apiKey.value))
  {
    match apiKey
    case None => ChatCall(None, Err(MissingKeyError))
    case Some(key) =>
      var request := ChatRequest(ChatModel, [Message("user", prompt)], maxTokens);
      ChatCall(Some(request), ReplyResult(send(request, key)))
  }

  /** The cache key of an artist. */
  function ArtistCacheKey(artist: string): string {
    NormalizeString(artist)
  }

  /** The cache key of a song: both normalised names around a `|`. */
  function SongCacheKey(artist: string, title: string): string {
    NormalizeString(artist) + "|" + NormalizeString(title)
  }

  /** Keys do not depend on letter case or surrounding whitespace, so
      "  Queen" and "queen" share one entry. */
  lemma CacheKeysIgnoreCase(artist: string, title: string)
    ensures ArtistCacheKey(ToLower(artist)) == ArtistCacheKey(artist)
    ensures SongCacheKey(ToLower(artist), ToLower(title)) == SongCacheKey(artist, title)
    ensures ArtistCacheKey(Trim(artist)) == ArtistCacheKey(artist)
  {
    NormalizeIgnoresCase(artist);
    NormalizeIgnoresCase(title);
    TrimIdempotent(artist);
  }

  /** The answer a table serves for `key`: the stored text unless it is
      missing or blank after trimming (the trace of an earlier failure). */
  function CachedAnswer(table: map<string, string>, key: string): (r: Option<string>)
    ensures r.Some? <==> key in table && Trim(table[key]) != []
    ensures r.Some? ==> r.value == table[key]
  {
    if key in table && Trim(table[key]) != [] then Some(table[key]) else None
  }

  /** An answer stored under a key is served for that key afterwards, as
      long as it is not blank; storing never disturbs what other keys
      serve. */
  lemma StoredAnswerIsServed(c: CachedData, t: Table, key: string, other: string, answer: string)
    requires Trim(answer) != [] && other != key
    ensures CachedAnswer(TableOf(WithEntry(c, t, key, answer), t), key) == Some(answer)
    ensures CachedAnswer(TableOf(WithEntry(c, t, key, answer), t), other) == CachedAnswer(TableOf(c, t), other)
  {
  }

  /** The fixed parts of the three prompts. */
  const ArtistPromptHead := "Provide a brief, 2-3 paragraph summary about the music artist/band '"
  const ArtistPromptTail := "'. Include their genre, notable achievements, and impact on music. Keep it concise and informative."
  const SongPromptHead := "Provide a brief analysis of the song '"
  const SongPromptTail := ". Focus on its themes, meaning, and musical significance. Keep it to 2-3 paragraphs."
  const FormatPromptHead := "Clean and format this text. Remove any web page elements like headers, footers, "
    + "contributor names, 'Embed' text, navigation elements, advertisements, or metadata. "
    + "Keep only the main content with proper structure and formatting. Preserve line breaks "
    + "and spacing that are part of the content structure. Return ONLY the cleaned text.\n\n"

  /** The prompt for an artist summary. */
  function ArtistPrompt(artist: string): string {
    ArtistPromptHead + artist + ArtistPromptTail
  }

  /** The prompt for a song analysis: the title in quotes, then the
      artist. */
  function SongPrompt(title: string, artist: string): string {
    SongPromptHead + title + "' by " + artist + SongPromptTail
  }

  /** The prompt of `format_lyrics_with_ai`: fixed instructions, a blank
      line, then the raw text. */
  function FormatPrompt(rawLyrics: string): string {
    FormatPromptHead + rawLyrics
  }

  /** `format_lyrics_with_ai`: one call with the formatting prompt. */
  function FormatLyricsWithAi(rawLyrics: string, apiKey: Option<string>, send: (ChatRequest, string) -> ChatReply): (c: ChatCall)
    ensures c.request.Some? ==> c.request.value.messages == [Message("user", FormatPrompt(rawLyrics))]
    ensures c.request.Some? ==> c.request.value.maxTokens == AnswerTokens
    ensures c.request.None? ==> c.result == Err(MissingKeyError)
  {
    CallOpenAi(apiKey, FormatPrompt(rawLyrics), AnswerTokens, send)
  }

  /** `get_artist_info`. A non-blank cached summary is returned with no
      request and no write. Otherwise the API is asked; a failure is
      returned as is and nothing is stored; a success is stored under the
      artist's key (when the cache file can be written) and returned. */
  method GetArtistInfo(store: CacheStore, artist: string, apiKey: Option<string>,
                       send: (ChatRequest, string) -> ChatReply, write: WriteOutcome)
    returns (r: Result<string, string>, request: Option<ChatRequest>)
    modifies store
    ensures var cached := CachedAnswer(LoadCache(old(store.file)).artistInfo, ArtistCacheKey(artist));
      if cached.Some? then
        r == Ok(cached.value) && request.None? && store.file == old(store.file)
      else
        var call := CallOpenAi(apiKey, ArtistPrompt(artist), AnswerTokens, send);
        && r == call.result && request == call.request
        && store.file == (if r.Ok?
                          then AfterWrite(old(store.file), WithEntry(LoadCache(old(store.file)), ArtistInfo, ArtistCacheKey(artist), r.value), write)
                          else old(store.file))
  {
    var key := ArtistCacheKey(artist);
    var cache := store.Load();
    var cached := CachedAnswer(cache.artistInfo, key);
    if cached.Some? {
      return Ok(cached.value), None;
    }
    var call := CallOpenAi(apiKey, ArtistPrompt(artist), AnswerTokens, send);
    r, request := call.result, call.request;
    if r.Ok? {
      store.UpdateArtistInfo(key, r.value, write);
    }
  }

  /** `get_song_context`: the same rule for a song, under the song's key. */
  method GetSongContext(store: CacheStore, title: string, artist: string, apiKey: Option<string>,
                        send: (ChatRequest, string) -> ChatReply, write: WriteOutcome)
    returns (r: Result<string, string>, request: Option<ChatRequest>)
    modifies store
    ensures var cached := CachedAnswer(LoadCache(old(store.file)).songContext, SongCacheKey(artist, title));
      if cached.Some? then
        r == Ok(cached.value) && request.None? && store.file == old(store.file)
      else
        var call := CallOpenAi(apiKey, SongPrompt(title, artist), AnswerTokens, send);
        && r == call.result && request == call.request
        && store.file == (if r.Ok?
                          then AfterWrite(old(store.file), WithEntry(LoadCache(old(store.file)), SongContext, SongCacheKey(artist, title), r.value), write)
                          else old(store.file))
  {
    var key := SongCacheKey(artist, title);
    var cache := store.Load();
    var cached := CachedAnswer(cache.songContext, key);
    if cached.Some? {
      return Ok(cached.value), None;
    }
    var call := CallOpenAi(apiKey, SongPrompt(title, artist), AnswerTokens, send);
    r, request := call.result, call.request;
    if r.Ok? {
      store.UpdateSongContext(key, r.value, write);
    }
  }
}
