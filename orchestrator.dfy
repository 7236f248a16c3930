/** The session orchestrator: sessions live in the cache under their id
    and in the `sessions` table; each customer message is classified, the
    session's emotional state replaced, the reply generated from a system
    prompt and the last ten turns, both messages stored, and the session
    rewritten in the cache. */
module Orchestrator {
  import opened Wrappers
  import opened Text
  import opened EmotionEngine
  import opened Model
  import opened Memory

  datatype Response = Response(content: string, suggestions: seq<string>, emotionalTone: Tone)

  // ---------------------------------------------------------------------
  // buildSystemPrompt
  // ---------------------------------------------------------------------

  const Persona := "You are AURA, an intelligent and empathetic retail assistant. "
  const FrustratedGuidance := "The customer seems frustrated. Be extra empathetic, apologize for any inconvenience, and focus on solving their problem quickly. "
  const ExcitedGuidance := "The customer seems excited! Match their enthusiasm and help them find exactly what they're looking for. "
  const ConfusedGuidance := "The customer seems confused. Use simple language, provide clear explanations, and ask clarifying questions. "
  const PurchaseGuidance := "The customer is ready to make a purchase. Help them complete the transaction smoothly. "
  const ComparisonGuidance := "The customer is comparing options. Provide detailed comparisons and help them make an informed decision. "
  const SupportGuidance := "The customer needs support. Focus on resolving their issue efficiently. "
  const Closing := "\n\nBe conversational, helpful, and personalized. Keep responses concise but informative."

  /** At most one tone clause, present only for the three tones that ask
      for special handling. */
  function ToneClause(t: Tone): (r: string)
    ensures r == "" <==> t == Satisfied || t == Tone.Neutral
  {
    match t
    case Frustrated => FrustratedGuidance
    case Excited => ExcitedGuidance
    case Confused => ConfusedGuidance
    case _ => ""
  }

  /** The preferences clause, present only when some preference is set. */
  function PreferencesClause(p: Preferences, stringify: Preferences -> string): (r: string)
    ensures r == "" <==> !HasKeys(p)
  {
    if HasKeys(p) then "\n\nCustomer preferences: " + stringify(p) + ". " else ""
  }

  /** At most one intent clause; browsing has none. */
  function IntentClause(k: IntentKind): (r: string)
    ensures r == "" <==> k == Browsing
  {
    match k
    case ReadyToBuy => PurchaseGuidance
    case Comparing => ComparisonGuidance
    case SeekingSupport => SupportGuidance
    case Browsing => ""
  }

  /** `buildSystemPrompt`: persona, tone clause, preferences clause,
      intent clause, closing directive. */
  function BuildSystemPrompt(session: Session, stringify: Preferences -> string): (r: string)
    ensures StartsWith(r, Persona)
    ensures EndsWith(r, Closing)
    ensures r == Persona + ToneClause(session.emotionalState.tone)
                 + PreferencesClause(session.context.preferences, stringify)
                 + IntentClause(session.emotionalState.intent) + Closing
  {
    var tone := ToneClause(session.emotionalState.tone);
    var preferences := PreferencesClause(session.context.preferences, stringify);
    var intent := IntentClause(session.emotionalState.intent);
    ConcatAffixes(Persona, tone, preferences, intent, Closing);
    Persona + tone + preferences + intent + Closing
  }

  /** The prompt reads only the tone, the intent and the preferences: the
      sentiment, its confidence, the history and everything else about the
      session leave it unchanged. */
  lemma {:induction false} PromptReadsToneIntentPreferences(a: Session, b: Session, stringify: Preferences -> string)
    requires a.emotionalState.tone == b.emotionalState.tone
    requires a.emotionalState.intent == b.emotionalState.intent
    requires a.context.preferences == b.context.preferences
    ensures BuildSystemPrompt(a, stringify) == BuildSystemPrompt(b, stringify)
  {
  }

  /** With no special tone, no preferences and a browsing customer the
      prompt is the persona followed by the closing directive only. */
  lemma {:induction false} PlainPrompt(session: Session, stringify: Preferences -> string)
    requires session.emotionalState.tone == Satisfied || session.emotionalState.tone == Tone.Neutral
    requires session.emotionalState.intent == Browsing
    requires !HasKeys(session.context.preferences)
    ensures BuildSystemPrompt(session, stringify) == Persona + Closing
  {
    assert Persona + "" + "" + "" + Closing == Persona + Closing;
  }

  // ---------------------------------------------------------------------
  // generateSuggestions
  // ---------------------------------------------------------------------

  /** The wire name of an intent. */
  function IntentName(k: IntentKind): string {
    match k
    case Browsing => "browsing"
    case Comparing => "comparing"
    case ReadyToBuy => "ready_to_buy"
    case SeekingSupport => "seeking_support"
  }

  const SuggestionTable: map<string, seq<string>> := map[
    "browsing" := ["Show me trending items", "What's on sale?", "I need help finding something"],
    "comparing" := ["What are the key differences?", "Which one is better for me?", "Show me customer reviews"],
    "ready_to_buy" := ["Add to cart", "Check availability", "Apply discount code"],
    "seeking_support" := ["Track my order", "Return an item", "Speak to a human agent"]
  ]

  /** `suggestions[intent] || suggestions.browsing` */
  function GenerateSuggestions(intent: string): (r: seq<string>)
    ensures |r| == 3
    ensures intent !in SuggestionTable ==> r == SuggestionTable["browsing"]
    ensures intent in SuggestionTable ==> r == SuggestionTable[intent]
  {
    if intent in SuggestionTable then SuggestionTable[intent] else SuggestionTable["browsing"]
  }

  /** Every intent has its own three suggestions; only browsing gets the
      browsing ones. */
  lemma {:induction false} EachIntentHasOwnSuggestions(j: IntentKind, k: IntentKind)
    ensures IntentName(j) in SuggestionTable
    ensures j != k ==> GenerateSuggestions(IntentName(j)) != GenerateSuggestions(IntentName(k))
  {
    var sj, sk := GenerateSuggestions(IntentName(j)), GenerateSuggestions(IntentName(k));
    if j != k {
      assert sj[0] != sk[0];
    }
  }

  // ---------------------------------------------------------------------
  // initializeSession
  // ---------------------------------------------------------------------

  /** The fresh values `initializeSession` draws: the uuid, the clock, and
      the clock reading inside the context retrieval. */
  datatype InitFresh = InitFresh(sessionId: string, now: int, retrievedAt: int)

  /** The profile read's calls, then whether the `sessions` insert and the
      cache write succeeded. */
  datatype InitCalls = InitCalls(profile: ProfileCalls, insertOk: bool, setOk: bool)

  const InitialEmotionalState := EmotionalState(Sentiment.Neutral, Tone.Neutral, Browsing, 0.5)

  function NewSession(
    id: string, customerId: string, channel: string, now: int,
    profile: Option<Profile>, recent: seq<ContextItem>): Session
  {
    Session(id, customerId, channel, now, now,
      ConversationContext([], if profile.Some? then profile.value.preferences else NoPreferences, recent),
      InitialEmotionalState)
  }

  /** The insert also needs a fresh primary key and an existing customer
      (the foreign key of `sessions`). */
  predicate CanInsertSession(t: Tables, id: string, customerId: string) {
    id !in t.sessions && customerId in t.customers
  }

  /** `initializeSession`: read the profile, retrieve context for the
      empty query, insert the `active` row, then cache the session. */
  function InitializeSessionStep(
    s: State, customerId: string, channel: string, f: InitFresh, sv: Services, c: InitCalls)
    : Step<Result<Session, Error>>
  {
    var read := GetProfileStep(s, customerId, c.profile);
    var recent := RetrieveContext(read.after.index, "", customerId, 5, sv, f.retrievedAt);
    var session := NewSession(f.sessionId, customerId, channel, f.now, read.out, recent);
    if !c.insertOk || !CanInsertSession(read.after.tables, f.sessionId, customerId) then
      Step(read.after, Failure(DatabaseError))
    else
      var inserted := read.after.(tables := read.after.tables.(sessions :=
        read.after.tables.sessions[f.sessionId := SessionRow(customerId, channel, f.now, None, f.now, Active)]));
      if !c.setOk then Step(inserted, Failure(CacheError))
      else Step(inserted.(cache := inserted.cache.(sessions := inserted.cache.sessions[f.sessionId := session])), Success(session))
  }

  /** A new session has an empty history, the profile's preferences (or
      none), the neutral/neutral/browsing state at confidence 0.5, and a
      start time equal to its last activity; its `active` row is inserted
      before it is cached, so a refused insert leaves no session behind. */
  lemma {:induction false} NewSessionShape(
    s: State, customerId: string, channel: string, f: InitFresh, sv: Services, c: InitCalls)
    ensures var st := InitializeSessionStep(s, customerId, channel, f, sv, c);
      var profile := GetProfileStep(s, customerId, c.profile).out;
      && (st.out.Success? ==>
            var session := st.out.value;
            && session.sessionId == f.sessionId && session.customerId == customerId && session.channel == channel
            && session.context.history == []
            && session.context.preferences == (if profile.Some? then profile.value.preferences else NoPreferences)
            && session.emotionalState == EmotionalState(Sentiment.Neutral, Tone.Neutral, Browsing, 0.5)
            && session.startTime == session.lastActivity == f.now
            && st.after.cache.sessions == s.cache.sessions[f.sessionId := session]
            && st.after.tables.sessions == s.tables.sessions[f.sessionId := SessionRow(customerId, channel, f.now, None, f.now, Active)])
      && (st.out.Success? <==> c.insertOk && CanInsertSession(s.tables, f.sessionId, customerId) && c.setOk)
      && (st.out.Failure? ==> st.after.cache.sessions == s.cache.sessions)
      && (!c.insertOk || !CanInsertSession(s.tables, f.sessionId, customerId) ==>
            st.after.tables == s.tables && st.out == Failure(DatabaseError))
  {
    GetProfileOutcome(s, customerId, c.profile);
  }

  lemma {:induction false} InitializeSessionKeepsConsistency(
    s: State, customerId: string, channel: string, f: InitFresh, sv: Services, c: InitCalls)
    requires Consistent(s)
    ensures Consistent(InitializeSessionStep(s, customerId, channel, f, sv, c).after)
  {
    GetProfileKeepsConsistency(s, customerId, c.profile);
    GetProfileOutcome(s, customerId, c.profile);
  }

  // ---------------------------------------------------------------------
  // processMessage
  // ---------------------------------------------------------------------

  /** The fresh values `processMessage` draws: two uuids and three clock
      readings (customer message, reply, last activity). */
  datatype TurnFresh = TurnFresh(userMessageId: string, replyMessageId: string, userAt: int, replyAt: int, activityAt: int)

  /** Whether the cache read, each message's store calls, the cache write
      and the `last_activity` update succeeded. */
  datatype TurnCalls = TurnCalls(getOk: bool, userStore: StoreCalls, replyStore: StoreCalls, setOk: bool, updateOk: bool)

  /** Role "user" is a human turn; every other role an AI turn. */
  function ChatOf(t: Turn): (m: ChatMessage)
    ensures (t.role == "user") == m.HumanMessage?
    ensures !m.SystemMessage? && m.text == t.content
  {
    if t.role == "user" then HumanMessage(t.content) else AiMessage(t.content)
  }

  /** `history.slice(-10)`: the last ten turns, or all of them. */
  function Window(history: seq<Turn>): (w: seq<Turn>)
    ensures |w| == if |history| < 10 then |history| else 10
    ensures forall k | 0 <= k < |w| :: w[k] == history[|history| - |w| + k]
  {
    if |history| <= 10 then history else history[|history| - 10..]
  }

  /** Each turn as a chat message, in order. */
  function ChatTurns(turns: seq<Turn>): (r: seq<ChatMessage>)
    ensures |r| == |turns|
    ensures forall k | 0 <= k < |r| :: r[k] == ChatOf(turns[k])
  {
    if turns == [] then [] else [ChatOf(turns[0])] + ChatTurns(turns[1..])
  }

  /** The model's input: the system prompt, then the window's turns. */
  function GenerationRequest(prompt: string, history: seq<Turn>): (r: seq<ChatMessage>)
    ensures |r| == 1 + |Window(history)|
    ensures r[0] == SystemMessage(prompt)
    ensures r[1..] == ChatTurns(Window(history))
  {
    [SystemMessage(prompt)] + ChatTurns(Window(history))
  }

  /** The emotional state a message sets: sentiment label and confidence,
      tone, primary intent. */
  function AnalyzedState(content: string, sv: Services): EmotionalState {
    var sentiment := AnalyzeSentiment(content, sv.classify(content));
    EmotionalState(sentiment.sentiment, DetectTone(content).tone, IntentVerdict(content).0, sentiment.confidence)
  }

  /** `UPDATE sessions SET last_activity = ? WHERE session_id = ?` */
  function TouchSession(t: Tables, id: string, at: int): Tables {
    if id in t.sessions then t.(sessions := t.sessions[id := t.sessions[id].(lastActivity := at)]) else t
  }

  function UserMessage(sessionId: string, content: string, f: TurnFresh): Message {
    Message(f.userMessageId, sessionId, Customer, content, f.userAt, map[])
  }

  function ReplyMessage(sessionId: string, reply: string, f: TurnFresh): Message {
    Message(f.replyMessageId, sessionId, Aura, reply, f.replyAt, map[])
  }

  /** The session with the new state and the user's turn appended, as
      the prompt sees it. */
  function Received(session: Session, content: string, sv: Services): Session {
    session.(
      emotionalState := AnalyzedState(content, sv),
      context := session.context.(history := session.context.history + [Turn("user", content)]))
  }

  /** What follows the reply: store the customer's message, then the
      rest of `PersistReply`. */
  function Persist(
    s: State, sessionId: string, content: string, received: Session, reply: string,
    sv: Services, f: TurnFresh, c: TurnCalls): Step<Result<Response, Error>>
  {
    var user := StoreMessageStep(s, UserMessage(sessionId, content, f), None, sv, c.userStore);
    if user.out.Failure? then Step(user.after, Failure(user.out.error))
    else PersistReply(user.after, sessionId, received, reply, sv, f, c)
  }

  /** Store the reply, then `RewriteSession`. */
  function PersistReply(
    s: State, sessionId: string, received: Session, reply: string,
    sv: Services, f: TurnFresh, c: TurnCalls): Step<Result<Response, Error>>
  {
    var aura := StoreMessageStep(s, ReplyMessage(sessionId, reply, f), None, sv, c.replyStore);
    if aura.out.Failure? then Step(aura.after, Failure(aura.out.error))
    else RewriteSession(aura.after, sessionId, received, reply, f, c)
  }

  /** Rewrite the cached session with the assistant's turn and the new
      activity time, update the row, and answer. */
  function RewriteSession(
    s: State, sessionId: string, received: Session, reply: string, f: TurnFresh, c: TurnCalls)
    : Step<Result<Response, Error>>
  {
    if !c.setOk then Step(s, Failure(CacheError))
    else
      var updated := received.(
        context := received.context.(history := received.context.history + [Turn("assistant", reply)]),
        lastActivity := f.activityAt);
      var cached := s.(cache := s.cache.(sessions := s.cache.sessions[sessionId := updated]));
      if !c.updateOk then Step(cached, Failure(DatabaseError))
      else
        Step(cached.(tables := TouchSession(cached.tables, sessionId, f.activityAt)),
             Success(Response(reply, GenerateSuggestions(IntentName(received.emotionalState.intent)), received.emotionalState.tone)))
  }

  /** `processMessage`. */
  function ProcessMessageStep(s: State, sessionId: string, content: string, sv: Services, f: TurnFresh, c: TurnCalls)
    : Step<Result<Response, Error>>
  {
    if !c.getOk then Step(s, Failure(CacheError))
    else if sessionId !in s.cache.sessions then Step(s, Failure(SessionNotFound))
    else
      var received := Received(s.cache.sessions[sessionId], content, sv);
      var prompt := BuildSystemPrompt(received, sv.stringify);
      match sv.generate(GenerationRequest(prompt, received.context.history))
      case None => Step(s, Failure(GenerationError))
      case Some(reply) => Persist(s, sessionId, content, received, reply, sv, f, c)
  }

  /** A session that is not cached is not found, and nothing else happens:
      no classification, no storage, no cache write. */
  lemma {:induction false} MissingSessionChangesNothing(
    s: State, sessionId: string, content: string, sv: Services, f: TurnFresh, c: TurnCalls)
    requires c.getOk && sessionId !in s.cache.sessions
    ensures ProcessMessageStep(s, sessionId, content, sv, f, c) == Step(s, Failure(SessionNotFound))
  {
  }

  /** Persisting a generated reply, when it succeeds: both messages
      are stored and the cached session is the received one with the
      assistant's turn and the new activity time. */
  lemma {:induction false} PersistSucceeded(
    s: State, sessionId: string, content: string, received: Session, reply: string,
    sv: Services, f: TurnFresh, c: TurnCalls)
    requires Persist(s, sessionId, content, received, reply, sv, f, c).out.Success?
    ensures var st := Persist(s, sessionId, content, received, reply, sv, f, c);
      && sessionId in st.after.cache.sessions
      && st.after.cache.sessions[sessionId] == received.(
           context := received.context.(history := received.context.history + [Turn("assistant", reply)]),
           lastActivity := f.activityAt)
      && f.userMessageId in st.after.tables.messages
      && st.after.tables.messages[f.userMessageId] == MessageRow(sessionId, Customer, content, f.userAt)
      && f.replyMessageId in st.after.tables.messages
      && st.after.tables.messages[f.replyMessageId] == MessageRow(sessionId, Aura, reply, f.replyAt)
      && st.out.value == Response(reply, GenerateSuggestions(IntentName(received.emotionalState.intent)), received.emotionalState.tone)
  {
    var user := StoreMessageStep(s, UserMessage(sessionId, content, f), None, sv, c.userStore);
    StoreMessageOutcome(s, UserMessage(sessionId, content, f), None, sv, c.userStore);
    StoreMessageOutcome(user.after, ReplyMessage(sessionId, reply, f), None, sv, c.replyStore);
  }

  /** Persisting a reply to a received message keeps every field of the
      session the message was received into, except the history, which
      gains the user's and the assistant's turns, the emotional state, set
      from the message, and the last activity. */
  lemma {:induction false} PersistedSession(
    s: State, sessionId: string, content: string, before: Session, reply: string,
    sv: Services, f: TurnFresh, c: TurnCalls)
    requires Persist(s, sessionId, content, Received(before, content, sv), reply, sv, f, c).out.Success?
    ensures var st := Persist(s, sessionId, content, Received(before, content, sv), reply, sv, f, c);
      && sessionId in st.after.cache.sessions
      && var after := st.after.cache.sessions[sessionId];
      && after.context.history == before.context.history + [Turn("user", content), Turn("assistant", reply)]
      && after.emotionalState == AnalyzedState(content, sv)
      && after.lastActivity == f.activityAt
      && after.sessionId == before.sessionId && after.customerId == before.customerId
      && after.channel == before.channel && after.startTime == before.startTime
      && after.context.preferences == before.context.preferences
      && after.context.recentInteractions == before.context.recentInteractions
  {
    var received := Received(before, content, sv);
    PersistSucceeded(s, sessionId, content, received, reply, sv, f, c);
    ReceivedFields(before, content, sv);
    assert before.context.history + [Turn("user", content)] + [Turn("assistant", reply)]
        == before.context.history + [Turn("user", content), Turn("assistant", reply)];
  }

  /** A successful turn appends exactly the user's and the assistant's
      turns to the cached history, replaces the emotional state with the
      message's analysis, moves the last activity, and keeps every other
      field of the session. */
  lemma {:induction false} SuccessfulTurn(
    s: State, sessionId: string, content: string, sv: Services, f: TurnFresh, c: TurnCalls)
    requires ProcessMessageStep(s, sessionId, content, sv, f, c).out.Success?
    ensures var st := ProcessMessageStep(s, sessionId, content, sv, f, c);
      var before := s.cache.sessions[sessionId];
      var reply := st.out.value.content;
      && sessionId in st.after.cache.sessions
      && var after := st.after.cache.sessions[sessionId];
      && after.context.history == before.context.history + [Turn("user", content), Turn("assistant", reply)]
      && after.emotionalState == AnalyzedState(content, sv)
      && after.lastActivity == f.activityAt
      && after.sessionId == before.sessionId && after.customerId == before.customerId
      && after.channel == before.channel && after.startTime == before.startTime
      && after.context.preferences == before.context.preferences
      && after.context.recentInteractions == before.context.recentInteractions
  {
    var before := s.cache.sessions[sessionId];
    var reply := ReachesPersist(s, sessionId, content, sv, f, c);
    PersistSucceeded(s, sessionId, content, Received(before, content, sv), reply, sv, f, c);
    PersistedSession(s, sessionId, content, before, reply, sv, f, c);
  }

  /** A successful turn stores both messages and answers with the
      message's tone and the suggestions for its intent. */
  lemma {:induction false} SuccessfulTurnAnswer(
    s: State, sessionId: string, content: string, sv: Services, f: TurnFresh, c: TurnCalls)
    requires ProcessMessageStep(s, sessionId, content, sv, f, c).out.Success?
    ensures var st := ProcessMessageStep(s, sessionId, content, sv, f, c);
      var reply := st.out.value.content;
      && f.userMessageId in st.after.tables.messages
      && st.after.tables.messages[f.userMessageId] == MessageRow(sessionId, Customer, content, f.userAt)
      && f.replyMessageId in st.after.tables.messages
      && st.after.tables.messages[f.replyMessageId] == MessageRow(sessionId, Aura, reply, f.replyAt)
      && st.out.value.emotionalTone == DetectTone(content).tone
      && st.out.value.suggestions == GenerateSuggestions(IntentName(IntentVerdict(content).0))
  {
    var before := s.cache.sessions[sessionId];
    var received := Received(before, content, sv);
    var reply := ReachesPersist(s, sessionId, content, sv, f, c);
    PersistSucceeded(s, sessionId, content, received, reply, sv, f, c);
    ReceivedFields(before, content, sv);
  }

  /** A turn that gets past the lookup and the generation is `Persist`
      of the received session and the generated reply. */
  lemma {:induction false} ReachesPersist(
    s: State, sessionId: string, content: string, sv: Services, f: TurnFresh, c: TurnCalls)
    returns (reply: string)
    requires ProcessMessageStep(s, sessionId, content, sv, f, c).out.Success?
    ensures c.getOk && sessionId in s.cache.sessions
    ensures ProcessMessageStep(s, sessionId, content, sv, f, c)
      == Persist(s, sessionId, content, Received(s.cache.sessions[sessionId], content, sv), reply, sv, f, c)
  {
    var received := Received(s.cache.sessions[sessionId], content, sv);
    reply := sv.generate(GenerationRequest(BuildSystemPrompt(received, sv.stringify), received.context.history)).value;
  }

  /** The received session differs from the cached one only in its
      emotional state, set from the message, and its history, which gains
      the user's turn. */
  lemma ReceivedFields(session: Session, content: string, sv: Services)
    ensures var r := Received(session, content, sv);
      && r.context.history == session.context.history + [Turn("user", content)]
      && r.emotionalState.tone == DetectTone(content).tone
      && r.emotionalState.intent == IntentVerdict(content).0
      && r.emotionalState == AnalyzedState(content, sv)
      && r.sessionId == session.sessionId && r.customerId == session.customerId
      && r.channel == session.channel && r.startTime == session.startTime
      && r.lastActivity == session.lastActivity
      && r.context.preferences == session.context.preferences
      && r.context.recentInteractions == session.context.recentInteractions
  {
  }

  /** The model sees the system prompt, then the last min(10, n) turns of
      the history that already ends with the new message, so its last
      input is the customer's message as a human turn. */
  lemma {:induction false} ModelSeesLatestTurns(prompt: string, earlier: seq<Turn>, content: string)
    ensures var history := earlier + [Turn("user", content)];
      var request := GenerationRequest(prompt, history);
      var n := |history|;
      && |request| == 1 + (if n < 10 then n else 10)
      && request[0] == SystemMessage(prompt)
      && request[|request| - 1] == HumanMessage(content)
      && forall k | 1 <= k < |request| :: request[k] == ChatOf(history[n - |request| + k])
  {
    var history := earlier + [Turn("user", content)];
    var request := GenerationRequest(prompt, history);
    var w := Window(history);
    var n := |history|;
    assert |request| == 1 + |w|;
    forall k | 1 <= k < |request| ensures request[k] == ChatOf(history[n - |request| + k]) {
      assert request[k] == request[1..][k - 1] == ChatOf(w[k - 1]);
      assert w[k - 1] == history[n - |w| + (k - 1)];
    }
    assert history[n - 1] == Turn("user", content);
    assert request[|request| - 1] == ChatOf(history[n - 1]);
  }

  /** The order of the effects once the reply exists: the cached
      session is rewritten only after both messages were stored, rows and
      vectors alike, and the reply is stored only after the customer's
      message. A failure before the cache write leaves the cache as it was. */
  lemma {:induction false} PersistOrder(
    s: State, sessionId: string, content: string, received: Session, reply: string,
    sv: Services, f: TurnFresh, c: TurnCalls)
    requires f.userMessageId != f.replyMessageId
    requires f.replyMessageId !in s.tables.messages
    ensures var st := Persist(s, sessionId, content, received, reply, sv, f, c);
      && (st.after.cache != s.cache ==>
            && f.userMessageId in st.after.tables.messages && f.userMessageId in st.after.index
            && f.replyMessageId in st.after.tables.messages && f.replyMessageId in st.after.index)
      && (f.replyMessageId in st.after.tables.messages ==> f.userMessageId in st.after.index)
      && (st.out.Failure? && st.out.error != DatabaseError ==> st.after.cache == s.cache)
  {
    var user := StoreMessageStep(s, UserMessage(sessionId, content, f), None, sv, c.userStore);
    StoreMessageOutcome(s, UserMessage(sessionId, content, f), None, sv, c.userStore);
    StoreMessageOutcome(user.after, ReplyMessage(sessionId, reply, f), None, sv, c.replyStore);
  }

  /** `PersistOrder` for the whole of `processMessage`: before the reply
      exists nothing is stored and the cache is untouched. */
  lemma {:induction false} PersistenceOrder(
    s: State, sessionId: string, content: string, sv: Services, f: TurnFresh, c: TurnCalls)
    requires f.userMessageId != f.replyMessageId
    requires f.replyMessageId !in s.tables.messages
    ensures var st := ProcessMessageStep(s, sessionId, content, sv, f, c);
      && (st.after.cache != s.cache ==>
            && f.userMessageId in st.after.tables.messages && f.userMessageId in st.after.index
            && f.replyMessageId in st.after.tables.messages && f.replyMessageId in st.after.index)
      && (f.replyMessageId in st.after.tables.messages ==> f.userMessageId in st.after.index)
      && (st.out.Failure? && st.out.error != DatabaseError ==> st.after.cache == s.cache)
  {
    if c.getOk && sessionId in s.cache.sessions {
      var received := Received(s.cache.sessions[sessionId], content, sv);
      var answer := sv.generate(GenerationRequest(BuildSystemPrompt(received, sv.stringify), received.context.history));
      if answer.Some? {
        PersistOrder(s, sessionId, content, received, answer.value, sv, f, c);
      }
    }
  }

  /** The vectors a turn stores carry no `customerId` key, so the
      retrieval filter on `customerId` can never select them. */
  lemma {:induction false} TurnVectorsLackCustomerId(sessionId: string, content: string, reply: string, f: TurnFresh)
    ensures "customerId" !in VectorMetadata(UserMessage(sessionId, content, f))
    ensures "customerId" !in VectorMetadata(ReplyMessage(sessionId, reply, f))
  {
  }

  /** Caching a session under its own id, with the row's customer. */
  lemma {:induction false} CacheSessionKeepsConsistency(s: State, id: string, session: Session)
    requires Consistent(s) && id in s.tables.sessions
    requires session.sessionId == id && session.customerId == s.tables.sessions[id].customerId
    ensures Consistent(s.(cache := s.cache.(sessions := s.cache.sessions[id := session])))
  {
  }

  lemma {:induction false} TouchSessionKeepsConsistency(s: State, id: string, at: int)
    requires Consistent(s)
    ensures Consistent(s.(tables := TouchSession(s.tables, id, at)))
  {
  }

  lemma {:induction false} PersistKeepsConsistency(
    s: State, sessionId: string, content: string, received: Session, reply: string,
    sv: Services, f: TurnFresh, c: TurnCalls)
    requires Consistent(s) && sessionId in s.cache.sessions
    requires received.sessionId == sessionId && received.customerId == s.cache.sessions[sessionId].customerId
    ensures Consistent(Persist(s, sessionId, content, received, reply, sv, f, c).after)
  {
    var user := StoreMessageStep(s, UserMessage(sessionId, content, f), None, sv, c.userStore);
    StoreMessageKeepsConsistency(s, UserMessage(sessionId, content, f), None, sv, c.userStore);
    StoreMessageOutcome(s, UserMessage(sessionId, content, f), None, sv, c.userStore);
    var aura := StoreMessageStep(user.after, ReplyMessage(sessionId, reply, f), None, sv, c.replyStore);
    StoreMessageKeepsConsistency(user.after, ReplyMessage(sessionId, reply, f), None, sv, c.replyStore);
    StoreMessageOutcome(user.after, ReplyMessage(sessionId, reply, f), None, sv, c.replyStore);
    if user.out.Success? && aura.out.Success? && c.setOk {
      var updated := received.(
        context := received.context.(history := received.context.history + [Turn("assistant", reply)]),
        lastActivity := f.activityAt);
      CacheSessionKeepsConsistency(aura.after, sessionId, updated);
      var cached := aura.after.(cache := aura.after.cache.(sessions := aura.after.cache.sessions[sessionId := updated]));
      TouchSessionKeepsConsistency(cached, sessionId, f.activityAt);
    }
  }

  lemma {:induction false} ProcessMessageKeepsConsistency(
    s: State, sessionId: string, content: string, sv: Services, f: TurnFresh, c: TurnCalls)
    requires Consistent(s)
    ensures Consistent(ProcessMessageStep(s, sessionId, content, sv, f, c).after)
  {
    if c.getOk && sessionId in s.cache.sessions {
      var received := Received(s.cache.sessions[sessionId], content, sv);
      var prompt := BuildSystemPrompt(received, sv.stringify);
      var answer := sv.generate(GenerationRequest(prompt, received.context.history));
      if answer.Some? {
        PersistKeepsConsistency(s, sessionId, content, received, answer.value, sv, f, c);
      }
    }
  }

  // ---------------------------------------------------------------------
  // endSession
  // ---------------------------------------------------------------------

  /** Whether the `sessions` update and the cache delete succeeded. */
  datatype EndCalls = EndCalls(updateOk: bool, deleteOk: bool)

  /** `UPDATE sessions SET end_time = ?, status = 'ended' WHERE session_id = ?` */
  function EndRow(t: Tables, id: string, at: int): Tables {
    if id in t.sessions then t.(sessions := t.sessions[id := t.sessions[id].(endTime := Some(at), status := Ended)]) else t
  }

  /** `endSession`: end the row, then delete the cached session. */
  function EndSessionStep(s: State, sessionId: string, now: int, c: EndCalls): Step<Result<(), Error>> {
    if !c.updateOk then Step(s, Failure(DatabaseError))
    else
      var ended := s.(tables := EndRow(s.tables, sessionId, now));
      if !c.deleteOk then Step(ended, Failure(CacheError))
      else Step(ended.(cache := ended.cache.(sessions := ended.cache.sessions - {sessionId})), Success(()))
  }

  /** A successful end marks the row ended at `now` and drops the cached
      session; a second end also succeeds, keeps it ended and uncached,
      and overwrites the end time: two ends are one end at the later time. */
  lemma {:induction false} EndSessionTwice(s: State, sessionId: string, first: int, second: int)
    ensures var once := EndSessionStep(s, sessionId, first, EndCalls(true, true));
      var twice := EndSessionStep(once.after, sessionId, second, EndCalls(true, true));
      && once.out.Success? && twice.out.Success?
      && sessionId !in twice.after.cache.sessions
      && (sessionId in s.tables.sessions ==>
            twice.after.tables.sessions[sessionId].status == Ended
            && twice.after.tables.sessions[sessionId].endTime == Some(second))
      && twice == EndSessionStep(s, sessionId, second, EndCalls(true, true))
  {
    var once := EndSessionStep(s, sessionId, first, EndCalls(true, true));
    assert once.after.cache.sessions - {sessionId} == s.cache.sessions - {sessionId};
  }

  /** After a successful end, or once the cached session expires, the
      next message finds no session. */
  lemma {:induction false} EndedSessionNotFound(
    s: State, sessionId: string, now: int, content: string, sv: Services, f: TurnFresh, c: TurnCalls)
    requires c.getOk
    ensures var ended := EndSessionStep(s, sessionId, now, EndCalls(true, true)).after;
      ProcessMessageStep(ended, sessionId, content, sv, f, c) == Step(ended, Failure(SessionNotFound))
    ensures var expired := s.(cache := s.cache.(sessions := s.cache.sessions - {sessionId}));
      ProcessMessageStep(expired, sessionId, content, sv, f, c) == Step(expired, Failure(SessionNotFound))
  {
  }

  lemma {:induction false} EndSessionKeepsConsistency(s: State, sessionId: string, now: int, c: EndCalls)
    requires Consistent(s)
    ensures Consistent(EndSessionStep(s, sessionId, now, c).after)
  {
  }

  // ---------------------------------------------------------------------
  // getHistory
  // ---------------------------------------------------------------------

  /** A `messages` row with its primary key. */
  datatype HistoryRow = HistoryRow(messageId: string, row: MessageRow)

  function Reverse<T>(s: seq<T>): (r: seq<T>)
    ensures |r| == |s|
    ensures forall k | 0 <= k < |s| :: r[k] == s[|s| - 1 - k]
  {
    if s == [] then [] else Reverse(s[1..]) + [s[0]]
  }

  /** `getHistory`: the query's rows reversed; `[]` when the query fails. */
  function GetHistory(answer: Option<seq<HistoryRow>>): (h: seq<HistoryRow>)
    ensures answer.None? ==> h == []
    ensures answer.Some? ==> |h| == |answer.value|
                             && forall k | 0 <= k < |h| :: h[k] == answer.value[|h| - 1 - k]
  {
    match answer
    case None => []
    case Some(rows) => Reverse(rows)
  }

  ghost function SessionMessageIds(t: Tables, sessionId: string): set<string> {
    set id | id in t.messages && t.messages[id].sessionId == sessionId
  }

  ghost function RowIds(rows: seq<HistoryRow>): set<string> {
    set k | 0 <= k < |rows| :: rows[k].messageId
  }

  function Min(a: int, b: int): int {
    if a <= b then a else b
  }

  /** What `SELECT * FROM messages WHERE session_id = ? ORDER BY timestamp
      DESC LIMIT ?` returns: distinct rows of the session, newest first,
      `limit` of them or all there are, none newer than an omitted one. */
  ghost predicate NewestFirst(t: Tables, sessionId: string, limit: int, rows: seq<HistoryRow>) {
    && 0 <= limit
    && (forall k | 0 <= k < |rows| ::
          rows[k].messageId in SessionMessageIds(t, sessionId) && t.messages[rows[k].messageId] == rows[k].row)
    && (forall j, k | 0 <= j < k < |rows| :: rows[j].messageId != rows[k].messageId)
    && (forall j, k | 0 <= j < k < |rows| :: rows[j].row.timestamp >= rows[k].row.timestamp)
    && |rows| == Min(limit, |SessionMessageIds(t, sessionId)|)
    && (forall id | id in SessionMessageIds(t, sessionId) - RowIds(rows) ::
          forall k | 0 <= k < |rows| :: t.messages[id].timestamp <= rows[k].row.timestamp)
  }

  /** The history is the session's `limit` newest messages (or all of
      them) in ascending time order, and no omitted message is newer than
      the oldest returned one. */
  lemma {:induction false} HistoryIsNewestOldestFirst(t: Tables, sessionId: string, limit: int, rows: seq<HistoryRow>)
    requires NewestFirst(t, sessionId, limit, rows)
    ensures var h := GetHistory(Some(rows));
      && |h| == Min(limit, |SessionMessageIds(t, sessionId)|)
      && (forall j, k | 0 <= j < k < |h| :: h[j].row.timestamp <= h[k].row.timestamp)
      && (forall k | 0 <= k < |h| ::
            h[k].messageId in t.messages && t.messages[h[k].messageId] == h[k].row && h[k].row.sessionId == sessionId)
      && RowIds(h) == RowIds(rows)
      && (forall id | id in SessionMessageIds(t, sessionId) - RowIds(h) ::
            forall k | 0 <= k < |h| :: t.messages[id].timestamp <= h[k].row.timestamp)
  {
    var h := Reverse(rows);
    forall j, k | 0 <= j < k < |h| ensures h[j].row.timestamp <= h[k].row.timestamp {
      assert h[j] == rows[|rows| - 1 - j] && h[k] == rows[|rows| - 1 - k];
    }
    assert RowIds(h) == RowIds(rows) by {
      forall id | id in RowIds(rows) ensures id in RowIds(h) {
        var k :| 0 <= k < |rows| && rows[k].messageId == id;
        assert h[|rows| - 1 - k] == rows[k];
      }
    }
    forall id, k | id in SessionMessageIds(t, sessionId) - RowIds(h) && 0 <= k < |h|
      ensures t.messages[id].timestamp <= h[k].row.timestamp
    {
      assert h[k] == rows[|rows| - 1 - k];
    }
  }

  /** `LIMIT 0` is answered with no rows, whatever the session holds. */
  lemma {:induction false} ZeroLimitHistory(t: Tables, sessionId: string)
    ensures NewestFirst(t, sessionId, 0, [])
  {
    assert RowIds([]) == {};
  }

  /** A failed query, a negative limit among its causes, gives `[]`. */
  lemma {:induction false} FailedHistoryIsEmpty()
    ensures GetHistory(None) == []
  {
  }

  // ---------------------------------------------------------------------
  // The service object
  // ---------------------------------------------------------------------

  class AuraOrchestrator {
    const memory: ContextMemory

    constructor(memory: ContextMemory)
      ensures this.memory == memory
    {
      this.memory := memory;
    }

    method InitializeSession(customerId: string, channel: string, f: InitFresh, sv: Services, c: InitCalls)
      returns (r: Result<Session, Error>)
      requires memory.stores.Valid()
      modifies memory.stores
      ensures memory.stores.Valid()
      ensures Step(memory.stores.Snapshot(), r)
        == InitializeSessionStep(old(memory.stores.Snapshot()), customerId, channel, f, sv, c)
    {
      var stores := memory.stores;
      InitializeSessionKeepsConsistency(stores.Snapshot(), customerId, channel, f, sv, c);
      var profile := memory.GetProfile(customerId, c.profile);
      var recent := RetrieveContext(stores.index, "", customerId, 5, sv, f.retrievedAt);
      var session := NewSession(f.sessionId, customerId, channel, f.now, profile, recent);
      if !c.insertOk || !CanInsertSession(stores.tables, f.sessionId, customerId) {
        return Failure(DatabaseError);
      }
      stores.tables := stores.tables.(sessions :=
        stores.tables.sessions[f.sessionId := SessionRow(customerId, channel, f.now, None, f.now, Active)]);
      if !c.setOk {
        return Failure(CacheError);
      }
      stores.cache := stores.cache.(sessions := stores.cache.sessions[f.sessionId := session]);
      return Success(session);
    }

    method ProcessMessage(sessionId: string, content: string, sv: Services, f: TurnFresh, c: TurnCalls)
      returns (r: Result<Response, Error>)
      requires memory.stores.Valid()
      modifies memory.stores
      ensures memory.stores.Valid()
      ensures Step(memory.stores.Snapshot(), r)
        == ProcessMessageStep(old(memory.stores.Snapshot()), sessionId, content, sv, f, c)
    {
      var stores := memory.stores;
      ProcessMessageKeepsConsistency(stores.Snapshot(), sessionId, content, sv, f, c);
      if !c.getOk {
        return Failure(CacheError);
      }
      if sessionId !in stores.cache.sessions {
        return Failure(SessionNotFound);
      }
      var session := stores.cache.sessions[sessionId];
      var sentiment := AnalyzeSentiment(content, sv.classify(content));
      var tone := DetectTone(content);
      var intent := ClassifyIntent(content);
      session := session.(emotionalState := EmotionalState(sentiment.sentiment, tone.tone, intent.primary, sentiment.confidence));
      session := session.(context := session.context.(history := session.context.history + [Turn("user", content)]));
      assert session == Received(stores.cache.sessions[sessionId], content, sv);
      var prompt := BuildSystemPrompt(session, sv.stringify);
      var reply := sv.generate(GenerationRequest(prompt, session.context.history));
      if reply.None? {
        return Failure(GenerationError);
      }
      r := PersistTurn(sessionId, content, session, reply.value, sv, f, c);
    }

    /** Everything `processMessage` does once the reply is generated. */
    method PersistTurn(
      sessionId: string, content: string, received: Session, reply: string,
      sv: Services, f: TurnFresh, c: TurnCalls) returns (r: Result<Response, Error>)
      requires memory.stores.Valid()
      modifies memory.stores
      ensures Step(memory.stores.Snapshot(), r)
        == Persist(old(memory.stores.Snapshot()), sessionId, content, received, reply, sv, f, c)
    {
      var stores := memory.stores;
      ghost var s0 := stores.Snapshot();
      var stored := memory.StoreMessage(UserMessage(sessionId, content, f), None, sv, c.userStore);
      if stored.Failure? {
        return Failure(stored.error);
      }
      ghost var s1 := stores.Snapshot();
      assert Persist(s0, sessionId, content, received, reply, sv, f, c)
          == PersistReply(s1, sessionId, received, reply, sv, f, c);
      stored := memory.StoreMessage(ReplyMessage(sessionId, reply, f), None, sv, c.replyStore);
      if stored.Failure? {
        return Failure(stored.error);
      }
      ghost var s2 := stores.Snapshot();
      assert PersistReply(s1, sessionId, received, reply, sv, f, c)
          == RewriteSession(s2, sessionId, received, reply, f, c);
      r := RewriteTurn(sessionId, received, reply, f, c);
    }

    /** The cache write and the activity update that close a turn. */
    method RewriteTurn(sessionId: string, received: Session, reply: string, f: TurnFresh, c: TurnCalls)
      returns (r: Result<Response, Error>)
      modifies memory.stores
      ensures Step(memory.stores.Snapshot(), r)
        == RewriteSession(old(memory.stores.Snapshot()), sessionId, received, reply, f, c)
    {
      var stores := memory.stores;
      if !c.setOk {
        return Failure(CacheError);
      }
      var updated := received.(
        context := received.context.(history := received.context.history + [Turn("assistant", reply)]),
        lastActivity := f.activityAt);
      stores.cache := stores.cache.(sessions := stores.cache.sessions[sessionId := updated]);
      if !c.updateOk {
        return Failure(DatabaseError);
      }
      stores.tables := TouchSession(stores.tables, sessionId, f.activityAt);
      return Success(Response(reply, GenerateSuggestions(IntentName(received.emotionalState.intent)), received.emotionalState.tone));
    }

    method EndSession(sessionId: string, now: int, c: EndCalls) returns (r: Result<(), Error>)
      requires memory.stores.Valid()
      modifies memory.stores
      ensures memory.stores.Valid()
      ensures Step(memory.stores.Snapshot(), r) == EndSessionStep(old(memory.stores.Snapshot()), sessionId, now, c)
    {
      var stores := memory.stores;
      EndSessionKeepsConsistency(stores.Snapshot(), sessionId, now, c);
      if !c.updateOk {
        return Failure(DatabaseError);
      }
      stores.tables := EndRow(stores.tables, sessionId, now);
      if !c.deleteOk {
        return Failure(CacheError);
      }
      stores.cache := stores.cache.(sessions := stores.cache.sessions - {sessionId});
      return Success(());
    }
  }
}
