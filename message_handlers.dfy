/** The entry point of a turn: the handler for an incoming text message. */
module MessageHandlers {
  import opened Common
  import opened Schema
  import opened Stores
  import opened Utils
  import opened LlmGraph

  /** The number of transcript entries handed to the graph as the conversation window. */
  const WindowSize := 6
  /** The reply used when the final state has no `answer`. */
  const Apology := "Извините, произошла ошибка."
  /** The reply used when the graph raised. */
  const ErrorReply := "Произошла ошибка при обработке вашего сообщения. Попробуйте позже."

  /** `[map_role_to_message(m) for m in history[-6:]]`: the last (at most six)
      entries, in order, each mapped by its role. */
  function Window(history: seq<HistoryEntry>): (window: seq<Message>)
    ensures |window| == if |history| < WindowSize then |history| else WindowSize
    ensures forall i :: 0 <= i < |window| ==> window[i] == MapRoleToMessage(history[|history| - |window| + i])
  {
    var recent := if |history| < WindowSize then history else history[|history| - WindowSize..];
    seq(|recent|, i requires 0 <= i < |recent| => MapRoleToMessage(recent[i]))
  }

  /** The state the handler hands to the main graph. */
  function InitialState(userId: int, text: string, window: seq<Message>): (state: State)
    ensures state.userId == userId && state.query == text && state.messages == window
    ensures state.coreMemories == [] && state.recallMemories == [] && state.answer == ""
  {
    State(userId, text, window, [], [], "")
  }

  /** `result_state.get("answer", apology)`. */
  function ReplyText(answer: Option<string>): (reply: string)
    ensures answer.Some? ==> reply == answer.value
    ensures answer.None? ==> reply == Apology
  {
    answer.GetOr(Apology)
  }

  /** What the sender gets: a reply, or nothing because the handler itself raised. */
  datatype Delivery = Replied(text: string) | Unhandled

  /** The entries one turn adds to a transcript: the human text, then the bot's
      answer when the graph completed. */
  function TurnEntries(text: string, answer: Option<string>, now: string): seq<HistoryEntry>
  {
    [NewEntry("human", text, now)] + (if answer.Some? then [NewEntry("bot", answer.value, now)] else [])
  }

  /** The human entry, then the bot entry when there is an answer, appended
      one at a time, leave the same table as appending the turn's entries at once. */
  lemma RecordTurn(rows: map<int, seq<HistoryEntry>>, userId: int, text: string, answer: Option<string>, now: string)
    ensures var added := rows[userId := StoredTranscript(rows, userId) + [NewEntry("human", text, now)]];
            (if answer.Some? then added[userId := StoredTranscript(added, userId) + [NewEntry("bot", answer.value, now)]] else added) ==
            rows[userId := StoredTranscript(rows, userId) + TurnEntries(text, answer, now)]
  {
    var before := StoredTranscript(rows, userId);
    var human := NewEntry("human", text, now);
    if answer.Some? {
      assert before + [human] + [NewEntry("bot", answer.value, now)] == before + TurnEntries(text, answer, now);
    } else {
      assert before + [human] == before + TurnEntries(text, answer, now);
    }
  }

  /** The part of `handle_text` after the user is resolved: appends the text
      to the transcript as "human", reads the transcript back, builds the
      initial state from its last six entries, runs the main graph and replies
      with its answer, or with a fixed error text if it raised. */
  method Respond(userId: int, text: string, now: string, llm: LanguageModel, fuel: nat,
                 history: HistoryTable, memories: MemoryTable, store: VectorStore, uuids: UuidSource)
    returns (delivery: Delivery, ghost initial: State, ghost outcome: GraphOutcome)
    modifies history`rows, memories`rows, store`docs, uuids`issued
    ensures var before := StoredTranscript(old(history.rows), userId);
            && initial == InitialState(userId, text, Window(if history.up then before + [NewEntry("human", text, now)] else []))
            && (outcome, WorldOf(memories, store, uuids)) ==
                 Subgraph(Loaded(initial, EnvOf(memories, store, uuids), old(memories.rows), old(store.docs)),
                          llm, now, fuel, EnvOf(memories, store, uuids), old(WorldOf(memories, store, uuids)))
            && delivery == Replied(if outcome.Completed? then outcome.state.answer else ErrorReply)
            && (outcome.Completed? ==>
                  Finished(Loaded(initial, EnvOf(memories, store, uuids), old(memories.rows), old(store.docs)), outcome.state))
            && history.rows ==
                 if !history.up then old(history.rows)
                 else old(history.rows)[userId := before +
                        TurnEntries(text, if outcome.Completed? then Some(outcome.state.answer) else None, now)]
  {
    ghost var before := StoredTranscript(history.rows, userId);
    // 1. The text goes into the transcript before anything else.
    AddMessageToHistory(history, userId, "human", text, now);
    // 2. Read the transcript back and keep the last six entries as the window.
    var messageHistory := GetMessageHistory(history, userId);
    var updatedMessages := Window(messageHistory);
    var state := InitialState(userId, text, updatedMessages);
    initial := state;
    // 3. Run the main graph; any exception becomes the fixed error reply.
    var result;
    ghost var loaded;
    result, loaded := MainGraph(state, llm, now, fuel, history, memories, store, uuids);
    outcome := result;
    if result.Completed? {
      delivery := Replied(ReplyText(Some(result.state.answer)));
    } else {
      delivery := Replied(ErrorReply);
    }
    RecordTurn(old(history.rows), userId, text, if result.Completed? then Some(result.state.answer) else None, now);
  }

  /** `handle_text`: resolves the user, creating it on first contact (a failure
      there escapes the handler), then responds as `Respond` does. */
  method HandleText(telegramId: int, username: Option<string>, text: string, now: string,
                    llm: LanguageModel, fuel: nat,
                    users: UserTable, history: HistoryTable, memories: MemoryTable, store: VectorStore, uuids: UuidSource)
    returns (delivery: Delivery, ghost initial: State, ghost outcome: GraphOutcome)
    requires users.Valid()
    modifies users`byTelegram, users`nextId, history`rows, memories`rows, store`docs, uuids`issued
    ensures users.Valid()
    ensures telegramId in old(users.byTelegram) || !users.up ==> users.byTelegram == old(users.byTelegram)
    ensures users.up && telegramId !in old(users.byTelegram) ==>
              users.byTelegram == old(users.byTelegram)[telegramId := User(old(users.nextId), telegramId, username)]
    ensures !users.up ==>
              && delivery == Unhandled
              && history.rows == old(history.rows)
              && WorldOf(memories, store, uuids) == old(WorldOf(memories, store, uuids))
    ensures users.up ==> telegramId in users.byTelegram
    ensures users.up ==>
              var userId := users.byTelegram[telegramId].id;
              var before := StoredTranscript(old(history.rows), userId);
              && initial == InitialState(userId, text, Window(if history.up then before + [NewEntry("human", text, now)] else []))
              && (outcome, WorldOf(memories, store, uuids)) ==
                   Subgraph(Loaded(initial, EnvOf(memories, store, uuids), old(memories.rows), old(store.docs)),
                            llm, now, fuel, EnvOf(memories, store, uuids), old(WorldOf(memories, store, uuids)))
              && delivery == Replied(if outcome.Completed? then outcome.state.answer else ErrorReply)
              && (outcome.Completed? ==>
                    Finished(Loaded(initial, EnvOf(memories, store, uuids), old(memories.rows), old(store.docs)), outcome.state))
              && history.rows ==
                   if !history.up then old(history.rows)
                   else old(history.rows)[userId := before +
                          TurnEntries(text, if outcome.Completed? then Some(outcome.state.answer) else None, now)]
  {
    var found := GetOrCreateUser(users, telegramId, username);
    if found.Err? {
      delivery, initial, outcome := Unhandled, InitialState(telegramId, text, []), StepLimit;
      return;
    }
    delivery, initial, outcome := Respond(found.value.id, text, now, llm, fuel, history, memories, store, uuids);
  }

  /** One completed turn, as recorded in the transcript. */
  datatype Turn = Turn(text: string, answer: string, now: string)

  /** The transcript after a run of completed turns. */
  function AfterTurns(transcript: seq<HistoryEntry>, turns: seq<Turn>): seq<HistoryEntry>
  {
    if turns == [] then transcript
    else
      var t := turns[|turns| - 1];
      AfterTurns(transcript, turns[..|turns| - 1]) + TurnEntries(t.text, Some(t.answer), t.now)
  }

  /** After N completed turns the transcript has grown by exactly 2N entries,
      the old entries untouched, each turn's human entry followed by its bot entry. */
  lemma {:induction false} TranscriptAfterTurns(transcript: seq<HistoryEntry>, turns: seq<Turn>)
    ensures |AfterTurns(transcript, turns)| == |transcript| + 2 * |turns|
    ensures AfterTurns(transcript, turns)[..|transcript|] == transcript
    ensures forall i :: 0 <= i < |turns| ==>
              && AfterTurns(transcript, turns)[|transcript| + 2 * i] == NewEntry("human", turns[i].text, turns[i].now)
              && AfterTurns(transcript, turns)[|transcript| + 2 * i + 1] == NewEntry("bot", turns[i].answer, turns[i].now)
  {
    if turns != [] {
      var init := turns[..|turns| - 1];
      var t := turns[|turns| - 1];
      TranscriptAfterTurns(transcript, init);
      var prefix := AfterTurns(transcript, init);
      var whole := AfterTurns(transcript, turns);
      assert whole == prefix + [NewEntry("human", t.text, t.now), NewEntry("bot", t.answer, t.now)];
      forall i | 0 <= i < |turns|
        ensures whole[|transcript| + 2 * i] == NewEntry("human", turns[i].text, turns[i].now)
        ensures whole[|transcript| + 2 * i + 1] == NewEntry("bot", turns[i].answer, turns[i].now)
      {
        if i < |init| {
          assert turns[i] == init[i];
        }
      }
    }
  }
}
