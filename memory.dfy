/** The context memory: message storage in the durable table and the
    vector index, context retrieval, customer profiles behind a
    read-through cache, and the framing of encrypted text. Each operation
    is a method of `ContextMemory` that changes the shared stores step by
    step, proved equal to a step function on `State` about which the
    lemmas below are stated. */
module Memory {
  import opened Wrappers
  import opened Text
  import opened Model

  // ---------------------------------------------------------------------
  // Encrypted-text framing
  // ---------------------------------------------------------------------

  const EncryptedPrefix := "encrypted:"
  const DefaultKey := "default-key-change-in-production"

  /** `process.env.ENCRYPTION_KEY || 'default-key-change-in-production'` */
  function KeyFromEnvironment(environment: Option<string>): (key: string)
    ensures key != ""
    ensures environment.Some? && environment.value != "" ==> key == environment.value
    ensures !(environment.Some? && environment.value != "") ==> key == DefaultKey
  {
    if environment.Some? && environment.value != "" then environment.value else DefaultKey
  }

  /** `cipher(key, text)` is the hex ciphertext; the result is framed. */
  function Encrypt(cipher: (string, string) -> string, key: string, text: string): (r: string)
    ensures StartsWith(r, EncryptedPrefix)
  {
    EncryptedPrefix + cipher(key, text)
  }

  /** Unframed text is returned as it is; framed text has its first
      `encrypted:` removed and is deciphered, `None` when deciphering
      throws. */
  function Decrypt(decipher: (string, string) -> Option<string>, key: string, text: string): (r: Option<string>)
    ensures !StartsWith(text, EncryptedPrefix) ==> r == Some(text)
  {
    if !StartsWith(text, EncryptedPrefix) then Some(text)
    else decipher(key, ReplaceFirst(text, EncryptedPrefix, ""))
  }

  /** Decryption undoes encryption whenever the cipher pair does. */
  lemma {:induction false} DecryptEncrypt(
    cipher: (string, string) -> string, decipher: (string, string) -> Option<string>,
    key: string, text: string)
    requires decipher(key, cipher(key, text)) == Some(text)
    ensures Decrypt(decipher, key, Encrypt(cipher, key, text)) == Some(text)
  {
    var framed := Encrypt(cipher, key, text);
    ReplacePrefix(framed, EncryptedPrefix);
    assert framed[|EncryptedPrefix|..] == cipher(key, text);
  }

  // ---------------------------------------------------------------------
  // storeMessage
  // ---------------------------------------------------------------------

  /** Whether `INSERT INTO messages` succeeded, whether the vector upsert
      succeeded. */
  datatype StoreCalls = StoreCalls(insertOk: bool, upsertOk: bool)

  function MessageRowOf(m: Message): MessageRow {
    MessageRow(m.sessionId, m.sender, m.content, m.timestamp)
  }

  /** The insert also needs a fresh primary key and an existing session
      (the foreign key of `messages`). */
  predicate CanInsertMessage(t: Tables, m: Message) {
    m.messageId !in t.messages && m.sessionId in t.sessions
  }

  const BaseMetadataKeys: set<string> := {"sessionId", "sender", "content", "timestamp"}

  /** `{sessionId, sender, content, timestamp, ...message.metadata}` */
  function VectorMetadata(m: Message): (md: Metadata)
    ensures md.Keys == BaseMetadataKeys + m.metadata.Keys
    ensures forall k | k in m.metadata :: md[k] == m.metadata[k]
    ensures "sessionId" !in m.metadata ==> md["sessionId"] == Str(m.sessionId)
    ensures "sender" !in m.metadata ==> md["sender"] == Str(SenderName(m.sender))
    ensures "content" !in m.metadata ==> md["content"] == Str(m.content)
    ensures "timestamp" !in m.metadata ==> md["timestamp"] == Num(m.timestamp as real)
  {
    map["sessionId" := Str(m.sessionId), "sender" := Str(SenderName(m.sender)),
        "content" := Str(m.content), "timestamp" := Num(m.timestamp as real)]
    + m.metadata
  }

  /** `storeMessage`: insert the row; embed the content when no embedding
      is given; upsert the vector under the message id. Each failure is
      rethrown and leaves the earlier effects in place. */
  function StoreMessageStep(s: State, m: Message, embedding: Option<seq<real>>, sv: Services, c: StoreCalls)
    : Step<Result<(), Error>>
  {
    if !c.insertOk || !CanInsertMessage(s.tables, m) then Step(s, Failure(DatabaseError))
    else
      var inserted := s.(tables := s.tables.(messages := s.tables.messages[m.messageId := MessageRowOf(m)]));
      var vector := if embedding.Some? then embedding else sv.embed(m.content);
      if vector.None? then Step(inserted, Failure(EmbeddingError))
      else if !c.upsertOk then Step(inserted, Failure(VectorError))
      else Step(inserted.(index := inserted.index[m.messageId := VectorRecord(vector.value, VectorMetadata(m))]), Success(()))
  }

  /** The outcome of `storeMessage`, failure by failure: a refused insert
      changes nothing; every later failure keeps the inserted row and
      leaves the index alone; success adds the row and the vector under
      the message id. The cache, the other tables and the other keys are
      never touched. */
  lemma {:induction false} StoreMessageOutcome(s: State, m: Message, embedding: Option<seq<real>>, sv: Services, c: StoreCalls)
    ensures var st := StoreMessageStep(s, m, embedding, sv, c);
      var vector := if embedding.Some? then embedding else sv.embed(m.content);
      && (st.out.Success? <==> c.insertOk && CanInsertMessage(s.tables, m) && vector.Some? && c.upsertOk)
      && (!c.insertOk || !CanInsertMessage(s.tables, m) ==> st == Step(s, Failure(DatabaseError)))
      && (st.out.Failure? ==> st.after.index == s.index)
      && (c.insertOk && CanInsertMessage(s.tables, m) ==>
            st.after.tables == s.tables.(messages := s.tables.messages[m.messageId := MessageRowOf(m)]))
      && (st.out.Success? ==> st.after.index == s.index[m.messageId := VectorRecord(vector.value, VectorMetadata(m))])
      && st.after.cache == s.cache
      && st.after.tables.sessions == s.tables.sessions
      && st.after.tables.profiles == s.tables.profiles
      && st.after.tables.customers == s.tables.customers
  {
  }

  /** The embedding service is consulted only when no embedding is given. */
  lemma {:induction false} GivenEmbeddingIgnoresService(
    s: State, m: Message, vector: seq<real>, sv: Services, sv': Services, c: StoreCalls)
    ensures StoreMessageStep(s, m, Some(vector), sv, c) == StoreMessageStep(s, m, Some(vector), sv', c)
  {
  }

  lemma {:induction false} StoreMessageKeepsConsistency(
    s: State, m: Message, embedding: Option<seq<real>>, sv: Services, c: StoreCalls)
    requires Consistent(s)
    ensures Consistent(StoreMessageStep(s, m, embedding, sv, c).after)
  {
  }

  // ---------------------------------------------------------------------
  // retrieveContext
  // ---------------------------------------------------------------------

  /** One match as a context item: missing or falsy content becomes "",
      a missing or falsy timestamp becomes `now`, a missing score 0, and
      missing metadata `{}`. */
  function ContextItemOf(match_: Match, now: int): (item: ContextItem)
    ensures item.messageId == match_.id
    ensures match_.score.Some? ==> item.relevanceScore == match_.score.value
    ensures match_.score.None? ==> item.relevanceScore == 0.0
    ensures match_.metadata.None? ==> item.metadata == map[] && item.content == Str("") && item.timestamp == Num(now as real)
    ensures match_.metadata.Some? ==>
      var md := match_.metadata.value;
      && item.metadata == md
      && ("content" in md && Truthy(md["content"]) ==> item.content == md["content"])
      && (!("content" in md && Truthy(md["content"])) ==> item.content == Str(""))
      && ("timestamp" in md && Truthy(md["timestamp"]) ==> item.timestamp == md["timestamp"])
      && (!("timestamp" in md && Truthy(md["timestamp"])) ==> item.timestamp == Num(now as real))
  {
    var md := match_.metadata.GetOr(map[]);
    var content := if "content" in md && Truthy(md["content"]) then md["content"] else Str("");
    var timestamp := if "timestamp" in md && Truthy(md["timestamp"]) then md["timestamp"] else Num(now as real);
    var score := match_.score.GetOr(0.0);
    ContextItem(match_.id, content, timestamp, score, md)
  }

  /** `retrieveContext`: embed the query, query the index with the
      customer filter and `topK = limit`, map the matches; `[]` when any
      call fails. */
  function RetrieveContext(
    index: map<string, VectorRecord>, query: string, customerId: string, limit: int,
    sv: Services, now: int): (r: seq<ContextItem>)
    ensures sv.embed(query).None? ==> r == []
    ensures sv.embed(query).Some? && sv.search(index, sv.embed(query).value, limit, customerId).None? ==> r == []
    ensures sv.embed(query).Some? && sv.search(index, sv.embed(query).value, limit, customerId).Some? ==>
      |r| == |sv.search(index, sv.embed(query).value, limit, customerId).value|
  {
    match sv.embed(query)
    case None => []
    case Some(vector) =>
      match sv.search(index, vector, limit, customerId)
      case None => []
      case Some(matches) => seq(|matches|, k requires 0 <= k < |matches| => ContextItemOf(matches[k], now))
  }

  /** One item per match, in match order, with the id, the score (a
      missing score is 0) and the metadata passed through; the content
      and timestamp are the metadata's when truthy, else "" and `now`;
      no item when either call fails. */
  lemma {:induction false} RetrievedItems(
    index: map<string, VectorRecord>, query: string, customerId: string, limit: int,
    sv: Services, now: int)
    ensures var r := RetrieveContext(index, query, customerId, limit, sv, now);
      && (sv.embed(query).None? ==> r == [])
      && (sv.embed(query).Some? && sv.search(index, sv.embed(query).value, limit, customerId).None? ==> r == [])
      && (sv.embed(query).Some? && sv.search(index, sv.embed(query).value, limit, customerId).Some? ==>
            var ms := sv.search(index, sv.embed(query).value, limit, customerId).value;
            && |r| == |ms|
            && forall k | 0 <= k < |r| ::
                 && r[k].messageId == ms[k].id
                 && (ms[k].score.Some? ==> r[k].relevanceScore == ms[k].score.value)
                 && (ms[k].score.None? ==> r[k].relevanceScore == 0.0)
                 && (ms[k].metadata.None? ==> r[k].content == Str("") && r[k].metadata == map[])
                 && (ms[k].metadata.Some? ==>
                       var md := ms[k].metadata.value;
                       && r[k].metadata == md
                       && ("content" in md && Truthy(md["content"]) ==> r[k].content == md["content"])
                       && (!("content" in md && Truthy(md["content"])) ==> r[k].content == Str(""))
                       && ("timestamp" in md && Truthy(md["timestamp"]) ==> r[k].timestamp == md["timestamp"])
                       && (!("timestamp" in md && Truthy(md["timestamp"])) ==> r[k].timestamp == Num(now as real))))
  {
  }

  /** The relevance score is not clamped to [0, 1]. */
  lemma RelevanceIsNotClamped()
    ensures ContextItemOf(Match("m", Some(1.5), None), 0).relevanceScore == 1.5
  {
  }

  // ---------------------------------------------------------------------
  // updateProfile
  // ---------------------------------------------------------------------

  /** Whether the profile upsert succeeded, whether the cache delete
      succeeded. */
  datatype UpdateCalls = UpdateCalls(writeOk: bool, deleteOk: bool)

  function PriceRangeOf(p: ProfileUpdate): Option<PriceRange> {
    if p.preferences.Some? then p.preferences.value.priceRange else None
  }

  /** The column values `updateProfile` writes, with the source's
      coercions: a falsy price bound (absent or 0) becomes NULL, an absent
      list or map becomes NULL, and an absent (or zero) lifetime value 0. */
  function ProfileRowOf(p: ProfileUpdate): (row: ProfileRow)
    ensures row.stylePreferences == p.preferences
    ensures row.priceRangeMin.None? <==> PriceRangeOf(p).None? || PriceRangeOf(p).value.min == 0.0
    ensures row.priceRangeMin.Some? ==> row.priceRangeMin.value == PriceRangeOf(p).value.min
    ensures row.priceRangeMax.None? <==> PriceRangeOf(p).None? || PriceRangeOf(p).value.max == 0.0
    ensures row.priceRangeMax.Some? ==> row.priceRangeMax.value == PriceRangeOf(p).value.max
    ensures p.preferences.Some? ==>
      row.favoriteCategories == p.preferences.value.favoriteCategories && row.sizes == p.preferences.value.sizes
    ensures p.preferences.None? ==> row.favoriteCategories == None && row.sizes == None
    ensures p.lifetimeValue.None? ==> row.lifetimeValue == 0.0
    ensures p.lifetimeValue.Some? ==> row.lifetimeValue == p.lifetimeValue.value
  {
    var range := PriceRangeOf(p);
    ProfileRow(
      p.preferences,
      if range.Some? && range.value.min != 0.0 then Some(range.value.min) else None,
      if range.Some? && range.value.max != 0.0 then Some(range.value.max) else None,
      if p.preferences.Some? then p.preferences.value.favoriteCategories else None,
      if p.preferences.Some? then p.preferences.value.sizes else None,
      p.lifetimeValue.GetOr(0.0))
  }

  /** `updateProfile`: upsert every column, then delete the cached
      profile. The upsert also needs the customer to exist (the foreign
      key of `customer_profiles`). */
  function UpdateProfileStep(s: State, customerId: string, p: ProfileUpdate, c: UpdateCalls): Step<Result<(), Error>> {
    if !c.writeOk || customerId !in s.tables.customers then Step(s, Failure(DatabaseError))
    else
      var written := s.(tables := s.tables.(profiles := s.tables.profiles[customerId := ProfileRowOf(p)]));
      if !c.deleteOk then Step(written, Failure(CacheError))
      else Step(written.(cache := written.cache.(profiles := written.cache.profiles - {customerId})), Success(()))
  }

  /** A refused write changes nothing, the cache included; once the
      write succeeds the row is overwritten whatever it held; the cached
      profile is dropped only when the delete succeeds too, and a failed
      delete leaves the old cached profile in place and is reported. */
  lemma {:induction false} UpdateProfileOutcome(s: State, customerId: string, p: ProfileUpdate, c: UpdateCalls)
    ensures var st := UpdateProfileStep(s, customerId, p, c);
      && (!c.writeOk || customerId !in s.tables.customers ==> st == Step(s, Failure(DatabaseError)))
      && (c.writeOk && customerId in s.tables.customers ==>
            && st.after.tables.profiles == s.tables.profiles[customerId := ProfileRowOf(p)]
            && (c.deleteOk <==> st.out.Success?)
            && (c.deleteOk ==> customerId !in st.after.cache.profiles)
            && (!c.deleteOk ==> st.after.cache == s.cache && st.out == Failure(CacheError)))
      && st.after.index == s.index
      && st.after.cache.sessions == s.cache.sessions
      && st.after.tables.messages == s.tables.messages
      && st.after.tables.sessions == s.tables.sessions
      && (forall id | id != customerId && id in s.cache.profiles ::
            id in st.after.cache.profiles && st.after.cache.profiles[id] == s.cache.profiles[id])
  {
  }

  lemma {:induction false} UpdateProfileKeepsConsistency(s: State, customerId: string, p: ProfileUpdate, c: UpdateCalls)
    requires Consistent(s)
    ensures Consistent(UpdateProfileStep(s, customerId, p, c).after)
  {
  }

  // ---------------------------------------------------------------------
  // getProfile
  // ---------------------------------------------------------------------

  /** Whether the cache read, the select and the cache write succeeded. */
  datatype ProfileCalls = ProfileCalls(getOk: bool, selectOk: bool, setOk: bool)

  const AllProfileCallsOk := ProfileCalls(true, true, true)

  /** The profile a row reads as: preferences from `style_preferences`
      (`{}` when NULL) and the lifetime value. */
  function ProfileOf(customerId: string, row: ProfileRow): Profile {
    Profile(customerId, row.stylePreferences.GetOr(NoPreferences), row.lifetimeValue)
  }

  /** `getProfile`: cache first; on a miss read the row, cache and
      return it; no row or any failure gives `None`. */
  function GetProfileStep(s: State, customerId: string, c: ProfileCalls): Step<Option<Profile>> {
    if !c.getOk then Step(s, None)
    else if customerId in s.cache.profiles then Step(s, Some(s.cache.profiles[customerId]))
    else if !c.selectOk || customerId !in s.tables.profiles then Step(s, None)
    else
      var p := ProfileOf(customerId, s.tables.profiles[customerId]);
      if !c.setOk then Step(s, None)
      else Step(s.(cache := s.cache.(profiles := s.cache.profiles[customerId := p])), Some(p))
  }

  /** The read-through cache, case by case: a hit returns the cached
      profile without reading the table; a miss with no row returns
      `None`; a miss with a row returns that row's profile and caches it;
      a failing call returns `None` and changes nothing. Only the cached
      profile of this customer can change. */
  lemma {:induction false} GetProfileOutcome(s: State, customerId: string, c: ProfileCalls)
    ensures var st := GetProfileStep(s, customerId, c);
      && (c.getOk && customerId in s.cache.profiles ==> st == Step(s, Some(s.cache.profiles[customerId])))
      && (c.getOk && customerId !in s.cache.profiles && c.selectOk && customerId !in s.tables.profiles ==>
            st == Step(s, None))
      && (c.getOk && customerId !in s.cache.profiles && c.selectOk && customerId in s.tables.profiles ==>
            var p := ProfileOf(customerId, s.tables.profiles[customerId]);
            && (c.setOk ==> st.out == Some(p) && st.after.cache.profiles == s.cache.profiles[customerId := p])
            && (!c.setOk ==> st == Step(s, None)))
      && (c.getOk && customerId !in s.cache.profiles && !c.selectOk ==> st == Step(s, None))
      && (!c.getOk ==> st == Step(s, None))
      && st.after.tables == s.tables
      && st.after.index == s.index
      && st.after.cache.sessions == s.cache.sessions
      && (st.out.None? ==> st.after == s)
  {
  }

  /** A cache hit does not depend on the tables. */
  lemma {:induction false} CacheHitIgnoresTables(s: State, t: Tables, customerId: string, c: ProfileCalls)
    requires c.getOk && customerId in s.cache.profiles
    ensures GetProfileStep(s, customerId, c).out == GetProfileStep(s.(tables := t), customerId, c).out
  {
  }

  lemma {:induction false} GetProfileKeepsConsistency(s: State, customerId: string, c: ProfileCalls)
    requires Consistent(s)
    ensures Consistent(GetProfileStep(s, customerId, c).after)
  {
  }

  /** Round trip: after a successful update, a read returns the written
      preferences (`{}` when none were given) and lifetime value (0 when
      none was given). */
  lemma {:induction false} UpdateThenGet(s: State, customerId: string, p: ProfileUpdate, c: UpdateCalls)
    requires UpdateProfileStep(s, customerId, p, c).out.Success?
    ensures var got := GetProfileStep(UpdateProfileStep(s, customerId, p, c).after, customerId, AllProfileCallsOk).out;
      && got.Some?
      && got.value.customerId == customerId
      && got.value.preferences == p.preferences.GetOr(NoPreferences)
      && got.value.lifetimeValue == p.lifetimeValue.GetOr(0.0)
  {
  }

  /** When the invalidation fails, the next read still serves the profile
      that was cached before the update. */
  lemma {:induction false} FailedInvalidationServesStaleProfile(s: State, customerId: string, p: ProfileUpdate)
    requires customerId in s.tables.customers && customerId in s.cache.profiles
    ensures var st := UpdateProfileStep(s, customerId, p, UpdateCalls(true, false));
      && st.out == Failure(CacheError)
      && GetProfileStep(st.after, customerId, AllProfileCallsOk).out == Some(s.cache.profiles[customerId])
  {
  }

  // ---------------------------------------------------------------------
  // The service object
  // ---------------------------------------------------------------------

  class ContextMemory {
    const stores: Stores
    const encryptionKey: string

    constructor(stores: Stores, environmentKey: Option<string>)
      ensures this.stores == stores
      ensures encryptionKey == KeyFromEnvironment(environmentKey)
    {
      this.stores := stores;
      encryptionKey := KeyFromEnvironment(environmentKey);
    }

    method StoreMessage(message: Message, embedding: Option<seq<real>>, sv: Services, c: StoreCalls)
      returns (r: Result<(), Error>)
      requires stores.Valid()
      modifies stores
      ensures stores.Valid()
      ensures Step(stores.Snapshot(), r) == StoreMessageStep(old(stores.Snapshot()), message, embedding, sv, c)
    {
      StoreMessageKeepsConsistency(stores.Snapshot(), message, embedding, sv, c);
      if !c.insertOk || !CanInsertMessage(stores.tables, message) {
        return Failure(DatabaseError);
      }
      stores.tables := stores.tables.(messages := stores.tables.messages[message.messageId := MessageRowOf(message)]);
      var vector := embedding;
      if vector.None? {
        vector := sv.embed(message.content);
        if vector.None? {
          return Failure(EmbeddingError);
        }
      }
      if !c.upsertOk {
        return Failure(VectorError);
      }
      stores.index := stores.index[message.messageId := VectorRecord(vector.value, VectorMetadata(message))];
      return Success(());
    }

    method UpdateProfile(customerId: string, p: ProfileUpdate, c: UpdateCalls) returns (r: Result<(), Error>)
      requires stores.Valid()
      modifies stores
      ensures stores.Valid()
      ensures Step(stores.Snapshot(), r) == UpdateProfileStep(old(stores.Snapshot()), customerId, p, c)
    {
      UpdateProfileKeepsConsistency(stores.Snapshot(), customerId, p, c);
      if !c.writeOk || customerId !in stores.tables.customers {
        return Failure(DatabaseError);
      }
      stores.tables := stores.tables.(profiles := stores.tables.profiles[customerId := ProfileRowOf(p)]);
      if !c.deleteOk {
        return Failure(CacheError);
      }
      stores.cache := stores.cache.(profiles := stores.cache.profiles - {customerId});
      return Success(());
    }

    method GetProfile(customerId: string, c: ProfileCalls) returns (r: Option<Profile>)
      requires stores.Valid()
      modifies stores
      ensures stores.Valid()
      ensures Step(stores.Snapshot(), r) == GetProfileStep(old(stores.Snapshot()), customerId, c)
    {
      GetProfileKeepsConsistency(stores.Snapshot(), customerId, c);
      if !c.getOk {
        return None;
      }
      if customerId in stores.cache.profiles {
        return Some(stores.cache.profiles[customerId]);
      }
      if !c.selectOk || customerId !in stores.tables.profiles {
        return None;
      }
      var profile := ProfileOf(customerId, stores.tables.profiles[customerId]);
      if !c.setOk {
        return None;
      }
      stores.cache := stores.cache.(profiles := stores.cache.profiles[customerId := profile]);
      return Some(profile);
    }
  }
}
