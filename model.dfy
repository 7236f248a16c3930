/** The data shared by the context memory and the session orchestrator:
    messages, profiles, sessions, the durable tables, the cache, the
    vector index, and the external services the backend calls. */
module Model {
  import opened Wrappers
  import opened EmotionEngine

  /** Why an operation threw. */
  datatype Error =
    | SessionNotFound   // the session's cache key is absent
    | DatabaseError     // a SQL statement failed (transport, key or constraint)
    | CacheError        // a cache command failed
    | VectorError       // the vector upsert failed
    | EmbeddingError    // the embedding service failed
    | GenerationError   // the language model failed

  /** A value in a free-form metadata record. */
  datatype MetaValue = Str(s: string) | Num(n: real) | Flag(b: bool) | Strs(items: seq<string>)

  type Metadata = map<string, MetaValue>

  /** JavaScript truthiness of a metadata value (arrays are always truthy). */
  predicate Truthy(v: MetaValue) {
    match v
    case Str(s) => s != ""
    case Num(n) => n != 0.0
    case Flag(b) => b
    case Strs(_) => true
  }

  datatype Sender = Customer | Aura

  function SenderName(s: Sender): string {
    match s
    case Customer => "customer"
    case Aura => "aura"
  }

  /** A chat message; `metadata` is empty when the caller gives none.
      Timestamps are milliseconds. */
  datatype Message = Message(
    messageId: string, sessionId: string, sender: Sender, content: string,
    timestamp: int, metadata: Metadata)

  datatype VectorRecord = VectorRecord(values: seq<real>, metadata: Metadata)

  /** One match of a vector query; score and metadata may be missing. */
  datatype Match = Match(id: string, score: Option<real>, metadata: Option<Metadata>)

  /** A retrieved context item. `content` and `timestamp` are the metadata
      values the source reads (its casts do not convert anything). */
  datatype ContextItem = ContextItem(
    messageId: string, content: MetaValue, timestamp: MetaValue,
    relevanceScore: real, metadata: Metadata)

  datatype PriceRange = PriceRange(min: real, max: real)

  /** A customer's preferences; a `None` field is a key that is absent. */
  datatype Preferences = Preferences(
    stylePreferences: Option<seq<string>>,
    priceRange: Option<PriceRange>,
    favoriteCategories: Option<seq<string>>,
    sizes: Option<map<string, string>>)

  /** `{}` */
  const NoPreferences := Preferences(None, None, None, None)

  /** `Object.keys(p).length > 0` */
  predicate HasKeys(p: Preferences) {
    p.stylePreferences.Some? || p.priceRange.Some? || p.favoriteCategories.Some? || p.sizes.Some?
  }

  datatype Profile = Profile(customerId: string, preferences: Preferences, lifetimeValue: real)

  /** A `Partial<CustomerProfile>`: the fields an update may carry. */
  datatype ProfileUpdate = ProfileUpdate(preferences: Option<Preferences>, lifetimeValue: Option<real>)

  // ---------------------------------------------------------------------
  // Durable tables
  // ---------------------------------------------------------------------

  datatype MessageRow = MessageRow(sessionId: string, sender: Sender, content: string, timestamp: int)

  /** A `customer_profiles` row; the JSON columns hold the decoded value
      of what was written (`None` is SQL NULL). */
  datatype ProfileRow = ProfileRow(
    stylePreferences: Option<Preferences>,
    priceRangeMin: Option<real>,
    priceRangeMax: Option<real>,
    favoriteCategories: Option<seq<string>>,
    sizes: Option<map<string, string>>,
    lifetimeValue: real)

  datatype SessionStatus = Active | Ended

  datatype SessionRow = SessionRow(
    customerId: string, channel: string, startTime: int,
    endTime: Option<int>, lastActivity: int, status: SessionStatus)

  /** The tables keyed by primary key. `customers` is maintained outside
      this core (sign-up) and only read here, by the foreign keys. */
  datatype Tables = Tables(
    customers: set<string>,
    sessions: map<string, SessionRow>,
    messages: map<string, MessageRow>,
    profiles: map<string, ProfileRow>)

  // ---------------------------------------------------------------------
  // Sessions and the cache
  // ---------------------------------------------------------------------

  /** One history entry: role "user" or "assistant". */
  datatype Turn = Turn(role: string, content: string)

  datatype EmotionalState = EmotionalState(sentiment: Sentiment, tone: Tone, intent: IntentKind, confidence: real)

  datatype ConversationContext = ConversationContext(
    history: seq<Turn>, preferences: Preferences, recentInteractions: seq<ContextItem>)

  datatype Session = Session(
    sessionId: string, customerId: string, channel: string,
    startTime: int, lastActivity: int,
    context: ConversationContext, emotionalState: EmotionalState)

  /** The cache keyspace. Sessions live under `session:<id>` and profiles
      under `profile:<id>`; the two key families are disjoint and each key
      names one id (see `CacheKeysDistinct`), so the cache is modelled as
      one map per family keyed by the id. A value is the decoded form of
      the JSON that was written. */
  datatype Cache = Cache(sessions: map<string, Session>, profiles: map<string, Profile>)

  function SessionKey(id: string): string {
    "session:" + id
  }

  function ProfileKey(id: string): string {
    "profile:" + id
  }

  lemma CacheKeysDistinct(a: string, b: string)
    ensures SessionKey(a) != ProfileKey(b)
    ensures SessionKey(a) == SessionKey(b) ==> a == b
    ensures ProfileKey(a) == ProfileKey(b) ==> a == b
  {
    assert SessionKey(a)[0] != ProfileKey(b)[0];
    if SessionKey(a) == SessionKey(b) {
      assert a == SessionKey(a)[8..];
    }
    if ProfileKey(a) == ProfileKey(b) {
      assert a == ProfileKey(a)[8..];
    }
  }

  /** Everything the backend keeps: tables, cache and vector index. */
  datatype State = State(tables: Tables, cache: Cache, index: map<string, VectorRecord>)

  /** The state after an operation and what it returned. */
  datatype Step<T> = Step(after: State, out: T)

  /** The invariants every operation of this core keeps:
      the foreign keys of the schema hold; every cached session is cached
      under its own id, has a row, and agrees with the row on the customer;
      every cached profile is cached under its own customer id; every
      vector has a durable message row. */
  ghost predicate Consistent(s: State) {
    && (forall id | id in s.tables.sessions :: s.tables.sessions[id].customerId in s.tables.customers)
    && (forall id | id in s.tables.messages :: s.tables.messages[id].sessionId in s.tables.sessions)
    && (forall id | id in s.tables.profiles :: id in s.tables.customers)
    && (forall id | id in s.cache.sessions ::
          && s.cache.sessions[id].sessionId == id
          && id in s.tables.sessions
          && s.cache.sessions[id].customerId == s.tables.sessions[id].customerId)
    && (forall id | id in s.cache.profiles :: s.cache.profiles[id].customerId == id)
    && (forall id | id in s.index :: id in s.tables.messages)
  }

  // ---------------------------------------------------------------------
  // External services
  // ---------------------------------------------------------------------

  datatype ChatMessage = SystemMessage(text: string) | HumanMessage(text: string) | AiMessage(text: string)

  /** The services the backend calls, as functions of their inputs;
      `None` is a failed call.
      - `classify`: the hosted sentiment classifier;
      - `embed`: the embedding service;
      - `search`: the vector query (index, vector, topK, customer filter);
      - `generate`: the chat model;
      - `stringify`: the JSON encoding of preferences. */
  datatype Services = Services(
    classify: string -> Option<seq<ClassScore>>,
    embed: string -> Option<seq<real>>,
    search: (map<string, VectorRecord>, seq<real>, int, string) -> Option<seq<Match>>,
    generate: seq<ChatMessage> -> Option<string>,
    stringify: Preferences -> string)

  /** The database, cache and vector index the services share. */
  class Stores {
    var tables: Tables
    var cache: Cache
    var index: map<string, VectorRecord>

    /** Empty stores over the given customers. */
    constructor(customers: set<string>)
      ensures Snapshot() == State(Tables(customers, map[], map[], map[]), Cache(map[], map[]), map[])
      ensures Valid()
    {
      tables := Tables(customers, map[], map[], map[]);
      cache := Cache(map[], map[]);
      index := map[];
    }

    function Snapshot(): State
      reads this
    {
      State(tables, cache, index)
    }

    ghost predicate Valid()
      reads this
    {
      Consistent(Snapshot())
    }

    /** The session key's time-to-live runs out. */
    method ExpireSession(id: string)
      requires Valid()
      modifies this
      ensures Valid()
      ensures Snapshot() == old(Snapshot()).(cache := old(cache).(sessions := old(cache.sessions) - {id}))
    {
      cache := cache.(sessions := cache.sessions - {id});
    }

    /** The profile key's time-to-live runs out. */
    method ExpireProfile(id: string)
      requires Valid()
      modifies this
      ensures Valid()
      ensures Snapshot() == old(Snapshot()).(cache := old(cache).(profiles := old(cache.profiles) - {id}))
    {
      cache := cache.(profiles := cache.profiles - {id});
    }
  }
}
