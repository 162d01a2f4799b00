/** Identity, history and configuration helpers used by the handler, the tools
    and the graph. */
module Utils {
  import opened Common
  import opened Schema
  import opened PyStrings
  import opened Stores

  /** Returns the user with this platform id, creating it only when none exists.
      A database failure is re-raised. */
  method GetOrCreateUser(users: UserTable, telegramId: int, username: Option<string>) returns (r: Result<User>)
    requires users.Valid()
    modifies users`byTelegram, users`nextId
    ensures users.Valid()
    ensures r.Err? <==> !users.up
    ensures r.Err? ==> users.byTelegram == old(users.byTelegram)
    ensures r.Ok? ==> telegramId in users.byTelegram && r.value == users.byTelegram[telegramId]
    ensures telegramId in old(users.byTelegram) ==> users.byTelegram == old(users.byTelegram)
    ensures users.up && telegramId !in old(users.byTelegram) ==>
              users.byTelegram == old(users.byTelegram)[telegramId := User(old(users.nextId), telegramId, username)]
  {
    if !users.up {
      return Err("database error");
    }
    if telegramId in users.byTelegram {
      return Ok(users.byTelegram[telegramId]);
    }
    var user := User(users.nextId, telegramId, username);
    users.byTelegram := users.byTelegram[telegramId := user];
    users.nextId := users.nextId + 1;
    r := Ok(user);
  }

  /** Appends one entry to the user's transcript, creating the row holding just
      that entry when there is none. Errors are swallowed: a failed write leaves
      the table as it was. */
  method AddMessageToHistory(history: HistoryTable, userId: int, role: string, content: string, now: string)
    modifies history`rows
    ensures history.up ==>
              history.rows == old(history.rows)[userId := StoredTranscript(old(history.rows), userId) + [NewEntry(role, content, now)]]
    ensures !history.up ==> history.rows == old(history.rows)
  {
    if !history.up {
      return;
    }
    var newMessage := NewEntry(role, content, now);
    if userId in history.rows {
      var messages := history.rows[userId];
      messages := messages + [newMessage];
      history.rows := history.rows[userId := messages];
    } else {
      assert StoredTranscript(history.rows, userId) + [newMessage] == [newMessage];
      history.rows := history.rows[userId := [newMessage]];
    }
  }

  /** The stored transcript of a user, or the empty list when there is no row. */
  function StoredTranscript(rows: map<int, seq<HistoryEntry>>, userId: int): seq<HistoryEntry>
  {
    if userId in rows then rows[userId] else []
  }

  /** The user's transcript; `[]` when there is no row or the read fails. */
  method GetMessageHistory(history: HistoryTable, userId: int) returns (messages: seq<HistoryEntry>)
    ensures history.up && userId in history.rows ==> messages == history.rows[userId]
    ensures !history.up || userId !in history.rows ==> messages == []
  {
    if !history.up {
      return [];
    }
    messages := if userId in history.rows then history.rows[userId] else [];
  }

  /** The user's core facts; `[]` when there is no row or the read fails. */
  method GetMemories(memories: MemoryTable, userId: int) returns (facts: seq<string>)
    ensures memories.up && userId in memories.rows ==> facts == memories.rows[userId]
    ensures !memories.up || userId !in memories.rows ==> facts == []
  {
    if !memories.up {
      return [];
    }
    facts := if userId in memories.rows then memories.rows[userId] else [];
  }

  /** The identity check shared by the tools: the `configurable` dictionary,
      unchanged, with `user_id` set to its own `user_id`; a missing `user_id`
      raises (here: `Err`). */
  function EnsureConfigurable(config: RunnableConfig): (r: Result<map<string, int>>)
    ensures r.Ok? <==> "user_id" in ConfigurableOf(config)
    ensures r.Ok? ==> r.value == ConfigurableOf(config)
    ensures r.Ok? ==> r.value.Keys == ConfigurableOf(config).Keys && r.value["user_id"] == ConfigurableOf(config)["user_id"]
  {
    var configurable := ConfigurableOf(config);
    if "user_id" !in configurable then Err("KeyError: 'user_id'")
    else
      var merged := configurable + map["user_id" := configurable["user_id"]];
      assert merged == configurable;
      Ok(merged)
  }

  /** Turns a stored transcript entry into a chat message: a human message exactly
      when the role, lower-cased, is "human"; anything else, a missing role
      included, becomes an assistant message. A missing content reads as "". */
  function MapRoleToMessage(entry: HistoryEntry): (m: Message)
    ensures m.HumanMessage? <==> Lower(entry.role.GetOr("")) == "human"
    ensures !m.HumanMessage? ==> m.AiMessage? && m.toolCalls == []
    ensures m.content == entry.content.GetOr("")
  {
    var role := Lower(entry.role.GetOr(""));
    var content := entry.content.GetOr("");
    if role == "human" then HumanMessage(content) else AiMessage(content, [])
  }

  /** The role written by the controller for the bot's replies is never read back as human,
      while any capitalisation of "human" is. */
  lemma RoleMappingExamples(content: Option<string>, now: Option<string>)
    ensures MapRoleToMessage(HistoryEntry(Some("HuMaN"), content, now)).HumanMessage?
    ensures MapRoleToMessage(HistoryEntry(Some("bot"), content, now)).AiMessage?
    ensures MapRoleToMessage(HistoryEntry(None, content, now)).AiMessage?
  {
    assert Lower("HuMaN") == "human";
    assert Lower("bot") != "human" by { assert |Lower("bot")| == 3; }
    assert Lower("") != "human";
  }
}
