/**
 * The chat session store of the backend (fastapi/main.py, `chat_endpoint`):
 * a process-wide map from session id to the list of messages of that session,
 * created with one system message on first use and only ever appended to.
 */
module ChatServer {
  import opened Wrappers
  import opened PyText
  import opened LegalModel

  const SeedInstruction := "You are a helpful legal assistant analyzing documents and answering user queries."

  /** The system message every session starts with. */
  const SeedTurn := Turn(System, SeedInstruction)

  /** How much of an uploaded document a chat session keeps. */
  const PreviewLimit := 5000

  /**
   * `truncated_text`: the document's first 5000 characters, followed by "..."
   * only when something was cut off.
   */
  function Preview(fullText: string): (p: string)
    ensures |p| <= PreviewLimit + 3
    ensures |fullText| <= PreviewLimit ==> p == fullText
    ensures |fullText| > PreviewLimit ==> |p| == PreviewLimit + 3 && p[..PreviewLimit] == fullText[..PreviewLimit] && p[PreviewLimit..] == "..."
  {
    if |fullText| > PreviewLimit then fullText[..PreviewLimit] + "..." else fullText
  }

  /** The line that announces an uploaded document. */
  function PreviewHeader(filename: string): string {
    "Document '" + filename + "' uploaded. Content preview:\n"
  }

  /**
   * The system message that brings an uploaded document into a session: the
   * announcement followed by the preview, so a short document is included
   * verbatim and a long one as its first 5000 characters and "...".
   */
  function PreviewTurn(filename: string, fullText: string): (t: Turn)
    ensures t.role == System
    ensures PreviewHeader(filename) <= t.content && t.content[|PreviewHeader(filename)|..] == Preview(fullText)
    ensures |fullText| <= PreviewLimit ==> t.content == PreviewHeader(filename) + fullText
    ensures |t.content| <= |PreviewHeader(filename)| + PreviewLimit + 3
  {
    Turn(System, PreviewHeader(filename) + Preview(fullText))
  }

  /**
   * A file sent with a chat message: its name and the page texts the PDF loader
   * extracts from it, or `None` when the loader fails on it.
   */
  datatype Upload = Upload(filename: string, pages: Option<seq<string>>)

  /** The exceptions that end a chat request: the API-key check or the PDF loader failed. */
  datatype ChatError = ConfigFailure | LoadFailure

  /** The JSON body `chat_endpoint` answers with. */
  datatype ChatReply = ChatReply(reply: string, history: seq<Turn>)

  /**
   * The messages a call adds before the user's: one system message with the
   * document preview exactly when a readable file came with it, and none
   * otherwise.
   */
  function UploadTurns(file: Option<Upload>): (r: seq<Turn>)
    ensures |r| <= 1
    ensures |r| == 1 <==> file.Some? && file.value.pages.Some?
    ensures r != [] ==> r[0].role == System && PreviewHeader(file.value.filename) <= r[0].content
    ensures r != [] ==> r[0] == PreviewTurn(file.value.filename, LoadFullText(file.value.pages.value))
  {
    if file.Some? && file.value.pages.Some? then
      [PreviewTurn(file.value.filename, LoadFullText(file.value.pages.value))]
    else []
  }

  /**
   * `[m for m in turns if m["role"] != "system"]`: the history shown to the
   * user, no longer than the session and without a system message.
   */
  function Visible(turns: seq<Turn>): (r: seq<Turn>)
    ensures |r| <= |turns|
    ensures forall i :: 0 <= i < |r| ==> r[i].role != System
    decreases |turns|
  {
    if turns == [] then []
    else (if turns[0].role == System then [] else [turns[0]]) + Visible(turns[1..])
  }

  /** Filtering a concatenation filters each part. */
  lemma {:induction false} VisibleAppend(a: seq<Turn>, b: seq<Turn>)
    ensures Visible(a + b) == Visible(a) + Visible(b)
    decreases |a|
  {
    if a == [] {
      assert a + b == b;
    } else {
      assert (a + b)[1..] == a[1..] + b;
      VisibleAppend(a[1..], b);
    }
  }

  /** The visible history holds exactly the non-system messages of the session. */
  lemma {:induction false} VisibleMembers(turns: seq<Turn>)
    ensures forall t :: t in Visible(turns) <==> t in turns && t.role != System
    decreases |turns|
  {
    if turns != [] {
      VisibleMembers(turns[1..]);
      assert turns == [turns[0]] + turns[1..];
    }
  }

  /** The visible history of a visible history is itself: the filter is idempotent. */
  lemma {:induction false} VisibleIdempotent(turns: seq<Turn>)
    ensures Visible(Visible(turns)) == Visible(turns)
    decreases |turns|
  {
    if turns != [] {
      VisibleIdempotent(turns[1..]);
      var head := if turns[0].role == System then [] else [turns[0]];
      VisibleAppend(head, Visible(turns[1..]));
      if head != [] {
        assert head[1..] == [];
      }
    }
  }

  /** One chat call without a file: the user's message and the model's reply. */
  datatype Exchange = Exchange(message: string, reply: string)

  function ExchangeTurns(exchanges: seq<Exchange>): seq<Turn>
    decreases |exchanges|
  {
    if exchanges == [] then []
    else [Turn(User, exchanges[0].message), Turn(Assistant, exchanges[0].reply)] + ExchangeTurns(exchanges[1..])
  }

  /** One more exchange adds its message and its reply at the end. */
  lemma {:induction false} ExchangeTurnsLast(exchanges: seq<Exchange>, x: Exchange)
    ensures ExchangeTurns(exchanges + [x]) == ExchangeTurns(exchanges) + [Turn(User, x.message), Turn(Assistant, x.reply)]
    decreases |exchanges|
  {
    var pair := [Turn(User, x.message), Turn(Assistant, x.reply)];
    if exchanges == [] {
      assert exchanges + [x] == [x];
      assert [x][1..] == [];
      AppendEmpty(pair);
    } else {
      var head := [Turn(User, exchanges[0].message), Turn(Assistant, exchanges[0].reply)];
      assert (exchanges + [x])[0] == exchanges[0];
      assert (exchanges + [x])[1..] == exchanges[1..] + [x];
      ExchangeTurnsLast(exchanges[1..], x);
      AppendAssociates(head, ExchangeTurns(exchanges[1..]), pair);
    }
  }

  /**
   * A session that is the seed followed by `n` message/reply pairs (the state
   * `n` calls without files leave, see `ChatWithoutFile`) shows exactly those
   * `2n` turns.
   */
  lemma {:induction false} VisibleAfterExchanges(exchanges: seq<Exchange>)
    ensures Visible([SeedTurn] + ExchangeTurns(exchanges)) == ExchangeTurns(exchanges)
    ensures |ExchangeTurns(exchanges)| == 2 * |exchanges|
    decreases |exchanges|
  {
    VisibleAppend([SeedTurn], ExchangeTurns(exchanges));
    assert Visible([SeedTurn]) == [] by {
      assert [SeedTurn][1..] == [];
    }
    NoSystemInExchanges(exchanges);
  }

  lemma {:induction false} NoSystemInExchanges(exchanges: seq<Exchange>)
    ensures Visible(ExchangeTurns(exchanges)) == ExchangeTurns(exchanges)
    ensures |ExchangeTurns(exchanges)| == 2 * |exchanges|
    decreases |exchanges|
  {
    if exchanges != [] {
      var pair := [Turn(User, exchanges[0].message), Turn(Assistant, exchanges[0].reply)];
      NoSystemInExchanges(exchanges[1..]);
      VisibleAppend(pair, ExchangeTurns(exchanges[1..]));
      assert pair[1..][1..] == [];
    }
  }

  /** Every stored session starts with the seed system message. */
  predicate SeededSession(turns: seq<Turn>) {
    |turns| >= 1 && turns[0] == SeedTurn
  }

  /** Updating a key twice keeps only the second value. */
  lemma MapUpdateTwice<K, V>(m: map<K, V>, k: K, v: V, w: V)
    ensures m[k := v][k := w] == m[k := w]
  {
  }

  /** Writing back a stored value changes nothing. */
  lemma MapUpdateSame<K, V>(m: map<K, V>, k: K)
    requires k in m
    ensures m[k := m[k]] == m
  {
  }

  /** Appending two items at once is appending them one after the other. */
  /** A sequence extended by two more pieces starts with it, and its length adds up. */
  lemma ExtendsPrefix<T>(xs: seq<T>, a: seq<T>, b: seq<T>)
    ensures xs <= xs + a + b && |xs + a + b| == |xs| + |a| + |b|
  {
  }

  lemma AppendPair<T>(xs: seq<T>, x: T, y: T)
    ensures xs + [x, y] == xs + [x] + [y]
  {
  }

  lemma SingletonIsItself<T>(xs: seq<T>)
    requires |xs| == 1
    ensures [xs[0]] == xs
  {
  }

  /** `chat_sessions`. */
  class ChatSessions {
    var sessions: map<string, seq<Turn>>

    ghost predicate Valid()
      reads this
    {
      forall id :: id in sessions ==> SeededSession(sessions[id])
    }

    constructor ()
      ensures Valid() && sessions == map[]
    {
      sessions := map[];
    }

    /** The messages a call starts from: the stored session, or the seed alone for an unseen id. */
    function SessionOrSeed(sessionId: string): (turns: seq<Turn>)
      reads this
      requires Valid()
      ensures SeededSession(turns)
      ensures sessionId in sessions ==> turns == sessions[sessionId]
      ensures sessionId !in sessions ==> turns == [SeedTurn]
    {
      if sessionId in sessions then sessions[sessionId] else [SeedTurn]
    }

    /**
     * `chat_endpoint`. The API key is checked before anything else; an unseen id
     * is then created with the seed; a readable file adds its preview, then the
     * user's message is appended, the model is asked with the whole session
     * (system messages included), and its reply is appended. Only this session's
     * list changes, and only by appending.
     */
    method Chat(apiKey: Option<string>, sessionId: string, message: string, file: Option<Upload>, llm: ChatModel)
      returns (outcome: Result<ChatReply, ChatError>)
      requires Valid()
      modifies this
      ensures Valid()
      ensures outcome.Success? <==> GetApiKey(apiKey).Success? && (file.None? || file.value.pages.Some?)
      ensures GetApiKey(apiKey).Failure? ==> outcome == Failure(ConfigFailure) && sessions == old(sessions)
      ensures GetApiKey(apiKey).Success? && file.Some? && file.value.pages.None? ==>
        outcome == Failure(LoadFailure) && sessions == old(sessions)[sessionId := old(SessionOrSeed(sessionId))]
      ensures outcome.Success? ==>
        var asked := old(SessionOrSeed(sessionId)) + UploadTurns(file) + [Turn(User, message)];
        && outcome.value.reply == llm(ChatPrompt(Transcript(asked)))
        && sessions == old(sessions)[sessionId := asked + [Turn(Assistant, outcome.value.reply)]]
        && outcome.value.history == Visible(sessions[sessionId])
      ensures outcome.Success? ==>
        && old(SessionOrSeed(sessionId)) <= sessions[sessionId]
        && |sessions[sessionId]| == |old(SessionOrSeed(sessionId))| + if file.Some? then 3 else 2
    {
      var key := GetApiKey(apiKey);
      if key.Failure? {
        return Failure(ConfigFailure);
      }
      ghost var before := sessions;
      ghost var base := SessionOrSeed(sessionId);
      if sessionId !in sessions {
        sessions := sessions[sessionId := [SeedTurn]];
      } else {
        MapUpdateSame(before, sessionId);
      }
      var upload: seq<Turn> := [];
      if file.Some? {
        if file.value.pages.None? {
          return Failure(LoadFailure);
        }
        var fullText := LoadFullText(file.value.pages.value);
        upload := [PreviewTurn(file.value.filename, fullText)];
      }
      assert upload == UploadTurns(file);
      assert sessions == before[sessionId := base];
      var reply := Converse(sessionId, upload, message, llm);
      MapUpdateTwice(before, sessionId, base, base + upload + [Turn(User, message), Turn(Assistant, reply)]);
      AppendPair(base + upload, Turn(User, message), Turn(Assistant, reply));
      ExtendsPrefix(base, upload, [Turn(User, message), Turn(Assistant, reply)]);
      outcome := Success(ChatReply(reply, Visible(sessions[sessionId])));
    }

    /**
     * The appends of `chat_endpoint` on an existing session: the preview message
     * (if any), the user's message, then the model's answer to the whole session.
     */
    method Converse(sessionId: string, upload: seq<Turn>, message: string, llm: ChatModel) returns (reply: string)
      requires Valid() && sessionId in sessions
      requires |upload| <= 1
      modifies this
      ensures Valid()
      ensures reply == llm(ChatPrompt(Transcript(old(sessions[sessionId]) + upload + [Turn(User, message)])))
      ensures sessions == old(sessions)[sessionId := old(sessions[sessionId]) + upload + [Turn(User, message), Turn(Assistant, reply)]]
    {
      ghost var before := sessions;
      ghost var start := sessions[sessionId];
      if upload != [] {
        Append(sessionId, upload[0]);
        SingletonIsItself(upload);
      } else {
        AppendEmpty(start);
        MapUpdateSame(before, sessionId);
      }
      assert sessions == before[sessionId := start + upload];
      ghost var asked := start + upload + [Turn(User, message)];
      Append(sessionId, Turn(User, message));
      MapUpdateTwice(before, sessionId, start + upload, asked);
      assert sessions == before[sessionId := asked];
      reply := ChatWithAi(sessions[sessionId], llm);
      Append(sessionId, Turn(Assistant, reply));
      MapUpdateTwice(before, sessionId, asked, asked + [Turn(Assistant, reply)]);
      AppendPair(start + upload, Turn(User, message), Turn(Assistant, reply));
    }

    /** `chat_sessions[session_id].append(turn)` on an existing session. */
    method Append(sessionId: string, turn: Turn)
      requires Valid() && sessionId in sessions
      modifies this
      ensures Valid()
      ensures sessions == old(sessions)[sessionId := old(sessions[sessionId]) + [turn]]
    {
      sessions := sessions[sessionId := sessions[sessionId] + [turn]];
    }
  }

  /**
   * A call without a file on a session of `n` exchanges (an unseen id counts as
   * the seed alone, `n = 0`) leaves the seed and `n + 1` exchanges, the last one
   * being this call's message and reply, and shows exactly those `2n + 2` turns.
   * By induction, `n` such calls on a new session show `2n` turns.
   */
  method ChatWithoutFile(store: ChatSessions, apiKey: Option<string>, sessionId: string, message: string, llm: ChatModel,
    ghost exchanges: seq<Exchange>) returns (outcome: Result<ChatReply, ChatError>)
    requires store.Valid() && GetApiKey(apiKey).Success?
    requires store.SessionOrSeed(sessionId) == [SeedTurn] + ExchangeTurns(exchanges)
    modifies store
    ensures store.Valid() && outcome.Success?
    ensures sessionId in store.sessions
    ensures store.sessions[sessionId] == [SeedTurn] + ExchangeTurns(exchanges + [Exchange(message, outcome.value.reply)])
    ensures outcome.value.history == ExchangeTurns(exchanges + [Exchange(message, outcome.value.reply)])
    ensures |outcome.value.history| == 2 * |exchanges| + 2
  {
    outcome := store.Chat(apiKey, sessionId, message, None, llm);
    var x := Exchange(message, outcome.value.reply);
    ExchangeTurnsLast(exchanges, x);
    AppendPair([SeedTurn] + ExchangeTurns(exchanges), Turn(User, x.message), Turn(Assistant, x.reply));
    AppendEmpty([SeedTurn] + ExchangeTurns(exchanges));
    AppendAssociates([SeedTurn], ExchangeTurns(exchanges), [Turn(User, x.message), Turn(Assistant, x.reply)]);
    VisibleAfterExchanges(exchanges + [x]);
  }

  /** A new session "s1" that is sent "Hello" and answered "Hi there." shows exactly those two turns. */
  method GreetingScenario() {
    var store := new ChatSessions();
    var outcome := store.Chat(Some("key"), "s1", "Hello", None, _ => "Hi there.");
    var turns := [SeedTurn, Turn(User, "Hello"), Turn(Assistant, "Hi there.")];
    assert store.sessions["s1"] == turns;
    VisibleAfterExchanges([Exchange("Hello", "Hi there.")]);
    assert turns == [SeedTurn] + ExchangeTurns([Exchange("Hello", "Hi there.")]);
    assert outcome == Success(ChatReply("Hi there.", [Turn(User, "Hello"), Turn(Assistant, "Hi there.")]));
  }
}
