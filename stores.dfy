/** The durable collaborators of the controller, reduced to their shape: a users
    table, one transcript row and one core-fact row per user, and a similarity
    store of recall documents. Each table has an `up` flag: while it is false,
    every access to that table raises. */
module Stores {
  import opened Common
  import opened Schema

  /** A row of the users table. */
  datatype User = User(id: int, telegramId: int, username: Option<string>)

  /** The users table, indexed by the platform (Telegram) id, which it keeps unique;
      internal ids come from an auto-increment counter. */
  class UserTable {
    var byTelegram: map<int, User>
    var nextId: int
    var up: bool

    ghost predicate Valid()
      reads this
    {
      && 0 < nextId
      && (forall t :: t in byTelegram ==> byTelegram[t].telegramId == t && 0 < byTelegram[t].id < nextId)
      && (forall t, u :: t in byTelegram && u in byTelegram && t != u ==> byTelegram[t].id != byTelegram[u].id)
    }

    constructor (up: bool)
      ensures Valid() && byTelegram == map[] && this.up == up
    {
      byTelegram := map[];
      nextId := 1;
      this.up := up;
    }
  }

  /** The message-history table: one row per user holding the whole transcript. */
  class HistoryTable {
    var rows: map<int, seq<HistoryEntry>>
    var up: bool

    constructor (up: bool)
      ensures rows == map[] && this.up == up
    {
      rows := map[];
      this.up := up;
    }
  }

  /** The memories table: one row per user holding the ordered core-fact list. */
  class MemoryTable {
    var rows: map<int, seq<string>>
    var up: bool

    constructor (up: bool)
      ensures rows == map[] && this.up == up
    {
      rows := map[];
      this.up := up;
    }
  }

  /** A recall document: its text and metadata (`user_id`, `fact_id`, optional `timestamp`). */
  datatype RecallDoc = RecallDoc(content: string, userId: int, factId: string, timestamp: Option<string>)

  /** The documents whose metadata names the given user, in store order:
      the effect of the `user_id` filter. */
  function OwnedBy(docs: seq<RecallDoc>, userId: int): (mine: seq<RecallDoc>)
    ensures |mine| <= |docs|
    ensures forall d :: d in mine ==> d in docs && d.userId == userId
    ensures forall d :: d in docs && d.userId == userId ==> d in mine
  {
    if docs == [] then []
    else
      var rest := OwnedBy(docs[1..], userId);
      assert forall d :: d in docs[1..] ==> d in docs;
      if docs[0].userId == userId then [docs[0]] + rest else rest
  }

  /** The positions taken from a proposal: in proposal order, skipping
      positions that do not exist or were already taken, stopping at `k`. */
  function Chosen(n: nat, proposed: seq<nat>, k: nat, taken: seq<nat>): (chosen: seq<nat>)
    requires |taken| <= k
    requires forall i :: 0 <= i < |taken| ==> taken[i] < n
    requires forall i, j :: 0 <= i < j < |taken| ==> taken[i] != taken[j]
    ensures |chosen| <= k
    ensures forall i :: 0 <= i < |chosen| ==> chosen[i] < n
    ensures forall i, j :: 0 <= i < j < |chosen| ==> chosen[i] != chosen[j]
    decreases |proposed|
  {
    if |taken| == k || proposed == [] then taken
    else if proposed[0] < n && proposed[0] !in taken then Chosen(n, proposed[1..], k, taken + [proposed[0]])
    else Chosen(n, proposed[1..], k, taken)
  }

  /** The candidates at the proposed positions, each row at most once, at most
      `k` of them: the `LIMIT k` of the search. */
  function Pick(candidates: seq<RecallDoc>, proposed: seq<nat>, k: nat): (picked: seq<RecallDoc>)
    ensures |picked| <= k
    ensures forall d :: d in picked ==> d in candidates
  {
    var chosen := Chosen(|candidates|, proposed, k, []);
    seq(|chosen|, i requires 0 <= i < |chosen| => candidates[chosen[i]])
  }

  /** `similarity_search(query, k, filter=user_id)` over the stored documents:
      at most `k` documents, every one of them stored and owned by the user.
      Which ones, and in what order, is the `rank` oracle's choice: it
      proposes positions into the user's documents, best first. */
  function SearchDocs(docs: seq<RecallDoc>, rank: (string, seq<RecallDoc>) -> seq<nat>,
                      query: string, k: nat, userId: int): (found: seq<RecallDoc>)
    ensures |found| <= k
    ensures forall d :: d in found ==> d in docs && d.userId == userId
  {
    var mine := OwnedBy(docs, userId);
    Pick(mine, rank(query, mine), k)
  }

  /** The similarity store: the recall documents and the engine's ranking. */
  class VectorStore {
    var docs: seq<RecallDoc>
    var up: bool
    const rank: (string, seq<RecallDoc>) -> seq<nat>

    constructor (rank: (string, seq<RecallDoc>) -> seq<nat>, up: bool)
      ensures docs == [] && this.rank == rank && this.up == up
    {
      docs := [];
      this.rank := rank;
      this.up := up;
    }

  }

  /** The source of `uuid4()` values: an opaque sequence of identifiers. */
  class UuidSource {
    var issued: nat
    const ids: nat -> string

    constructor (ids: nat -> string)
      ensures issued == 0 && this.ids == ids
    {
      issued := 0;
      this.ids := ids;
    }

    method Uuid4() returns (u: string)
      modifies this`issued
      ensures u == ids(old(issued)) && issued == old(issued) + 1
    {
      u := ids(issued);
      issued := issued + 1;
    }
  }

  /** The part of the collaborators a turn's tools can change: the core-fact
      rows, the recall documents and the number of uuids drawn. */
  datatype World = World(coreRows: map<int, seq<string>>, docs: seq<RecallDoc>, issued: nat)

  /** The part that stays fixed during a turn: whether the memory table and the
      similarity store answer, the store's ranking and the uuid sequence. */
  datatype Env = Env(coreUp: bool, storeUp: bool, rank: (string, seq<RecallDoc>) -> seq<nat>, ids: nat -> string)

  function WorldOf(memories: MemoryTable, store: VectorStore, uuids: UuidSource): World
    reads memories`rows, store`docs, uuids`issued
  {
    World(memories.rows, store.docs, uuids.issued)
  }

  function EnvOf(memories: MemoryTable, store: VectorStore, uuids: UuidSource): Env
    reads memories`up, store`up
  {
    Env(memories.up, store.up, store.rank, uuids.ids)
  }
}
