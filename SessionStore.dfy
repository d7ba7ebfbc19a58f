/** The server's session store in server.js: the `chatSessions` map from
    session id to session record, and the four operations on it — starting
    a session (`POST /api/chat/start`), submitting a message
    (`POST /api/chat/message`), ending a session
    (`DELETE /api/chat/session/:sessionId`) and the periodic sweep of idle
    sessions. Each operation is specified by a function on the map and
    performed by a method of `SessionStore` that updates the map in place.
    The clock and the random id suffix are parameters. */
module Sessions {
  import opened Seqs
  import opened ServerLanguage
  import opened Dialogue

  // ---------------------------------------------------------------------------
  // Session ids (server.js:100)

  predicate IsDigit(c: char) { '0' <= c <= '9' }

  function DigitValue(c: char): (d: nat)
    requires IsDigit(c)
    ensures d < 10
  {
    c as int - '0' as int
  }

  /** The decimal digits of `n`, as a template literal prints an integer. */
  function Decimal(n: nat): (s: string)
    ensures |s| >= 1
    ensures forall i :: 0 <= i < |s| ==> IsDigit(s[i])
    decreases n
  {
    if n < 10 then [(48 + n) as char] else Decimal(n / 10) + [(48 + n % 10) as char]
  }

  /** The number a string of decimal digits denotes. */
  function DecimalValue(s: string): nat
    requires forall i :: 0 <= i < |s| ==> IsDigit(s[i])
  {
    if s == [] then 0 else DecimalValue(s[..|s| - 1]) * 10 + DigitValue(s[|s| - 1])
  }

  /** The printed time reads back as the time. */
  lemma {:induction false} DecimalRoundTrip(n: nat)
    ensures DecimalValue(Decimal(n)) == n
    decreases n
  {
    var s := Decimal(n);
    if n >= 10 {
      DecimalRoundTrip(n / 10);
      assert s[..|s| - 1] == Decimal(n / 10);
    } else {
      assert s[..|s| - 1] == [];
    }
  }

  /** The id generated when the request names none: the time in
      milliseconds and the random base-36 suffix. */
  function GeneratedId(now: nat, suffix: string): string
  {
    "session_" + Decimal(now) + "_" + suffix
  }

  /** `!sessionId` / `!message`: absent and empty strings are both missing. */
  predicate Given(field: Option<string>)
  {
    field.Some? && field.value != ""
  }

  /** `req.body.sessionId || generated`. */
  function SessionIdFor(requested: Option<string>, now: nat, suffix: string): (id: string)
    ensures id != ""
    ensures Given(requested) ==> id == requested.value
    ensures !Given(requested) ==> id == GeneratedId(now, suffix) && "session_" <= id
  {
    if Given(requested) then requested.value else GeneratedId(now, suffix)
  }

  predicate IsUnderscore(c: char)
  {
    c == '_'
  }

  /** In digits followed by `_`, the first underscore is the one after the digits. */
  lemma UnderscoreEndsDigits(d: string, rest: string)
    requires forall i :: 0 <= i < |d| ==> IsDigit(d[i])
    ensures FirstIndex(d + "_" + rest, IsUnderscore) == Some(|d|)
  {
    var t := d + "_" + rest;
    assert IsUnderscore(t[|d|]);
    forall j | 0 <= j < |d| ensures !IsUnderscore(t[j]) {
      assert t[j] == d[j];
    }
  }

  /** Generated ids are equal exactly when their times and their suffixes are:
      the digits of the time end at the first underscore after the prefix. */
  lemma GeneratedIdsDiffer(now1: nat, suffix1: string, now2: nat, suffix2: string)
    ensures GeneratedId(now1, suffix1) == GeneratedId(now2, suffix2) <==> now1 == now2 && suffix1 == suffix2
  {
    var d1, d2 := Decimal(now1), Decimal(now2);
    if GeneratedId(now1, suffix1) == GeneratedId(now2, suffix2) {
      var x := d1 + "_" + suffix1;
      assert x == GeneratedId(now1, suffix1)[8..];
      assert x == d2 + "_" + suffix2;
      UnderscoreEndsDigits(d1, suffix1);
      UnderscoreEndsDigits(d2, suffix2);
      assert d1 == x[..|d1|] == d2;
      assert suffix1 == x[|d1| + 1..] == suffix2;
      DecimalRoundTrip(now1);
      DecimalRoundTrip(now2);
    }
  }

  // ---------------------------------------------------------------------------
  // New sessions (server.js:102-135, 169-176) and the reported model

  /** The deployment's models (config.js). */
  datatype Config = Config(primaryModel: string, fallbackModel: string)

  const Production := Config("gemini-2.0-flash-001", "gemini-2.0-flash-exp")
  const Development := Config("gemini-2.0-flash-001", "gemini-2.0-flash-exp")
  const Testing := Config("gemini-2.0-flash-exp", "gemini-2.0-flash-001")

  /** The model name the start handler initialises `modelUsed` with. */
  const HardCodedModel := "gemini-1.5-flash"

  /** The English system prompt, then the English welcome. */
  function OpeningHistory(): (h: seq<Entry>)
    ensures |h| == 2 && h[0].role == User && h[1].role == Model
  {
    [Entry(User, EnglishSystemPrompt), Entry(Model, EnglishWelcome)]
  }

  /** The record stored by the start handler as written: the chat uses the
      configured primary model, but `modelUsed`, which both endpoints report
      as `model`, keeps its hard-coded initial value. */
  function NewSessionAsWritten(config: Config, now: int): (s: Session)
    ensures s.chatSession.model == config.primaryModel && s.modelUsed == HardCodedModel
    ensures s.chatSession.history == OpeningHistory() && s.messageCount == 0 && !s.isFallback
  {
    Session(ChatSession(config.primaryModel, OpeningHistory()), HardCodedModel, false, now, now, 0)
  }

  /** Under every configuration the as-written record reports a model other
      than the one its completions are requested from. */
  lemma AsWrittenReportsAnotherModel(config: Config, now: int)
    requires config == Production || config == Development || config == Testing
    ensures NewSessionAsWritten(config, now).modelUsed != NewSessionAsWritten(config, now).chatSession.model
  {
    assert HardCodedModel[7] == '1' && config.primaryModel[7] == '2';
  }

  /** The record the start handler evidently means to store: `modelUsed` is
      the primary model the chat is created with. */
  function NewSession(config: Config, now: int): (s: Session)
    ensures s.chatSession.model == config.primaryModel && s.modelUsed == config.primaryModel
    ensures s.chatSession.history == OpeningHistory() && s.messageCount == 0 && !s.isFallback
    ensures s.createdAt == now && s.lastActivity == now
    ensures HistoryFits(s)
  {
    Session(ChatSession(config.primaryModel, OpeningHistory()), config.primaryModel, false, now, now, 0)
  }

  /** What the store keeps true of every session it holds: the history has
      room for the messages counted, and the reported model is the model used. */
  predicate SessionOk(s: Session)
  {
    HistoryFits(s) && s.modelUsed == s.chatSession.model
  }

  /** A turn keeps a stored session well-formed, and a successful one
      reports the model the completion came from. */
  lemma TurnKeepsSessionOk(s: Session, now: int, prompt: string, messageType: string, completion: Completion)
    requires SessionOk(s)
    ensures var r := TurnWith(s, now, prompt, messageType, completion);
      SessionOk(r.session) && (r.response.Answered? ==> r.response.model == s.chatSession.model)
  {
    TurnKeepsHistoryFit(s, now, prompt, messageType, completion);
  }

  // ---------------------------------------------------------------------------
  // The store operations as functions of the map

  type Store = map<string, Session>

  datatype StartResponse = StartResponse(sessionId: string, model: string, isFallback: bool)

  datatype StartResult = StartResult(sessions: Store, response: StartResponse)

  /** The start handler: the session is stored under its id, replacing any
      session already stored there. */
  function Start(sessions: Store, config: Config, requested: Option<string>, now: nat, suffix: string): (r: StartResult)
    ensures r.response.sessionId == SessionIdFor(requested, now, suffix)
    ensures r.sessions.Keys == sessions.Keys + {r.response.sessionId}
    ensures r.sessions[r.response.sessionId] == NewSession(config, now)
    ensures forall id :: id in sessions && id != r.response.sessionId ==> r.sessions[id] == sessions[id]
    ensures r.response.model == config.primaryModel && !r.response.isFallback
  {
    var id := SessionIdFor(requested, now, suffix);
    StartResult(sessions[id := NewSession(config, now)], StartResponse(id, config.primaryModel, false))
  }

  /** The start handler as written: the stored record and the answer carry
      the hard-coded model name. */
  function StartAsWritten(sessions: Store, config: Config, requested: Option<string>, now: nat, suffix: string): (r: StartResult)
    ensures r.response.sessionId == SessionIdFor(requested, now, suffix)
    ensures r.sessions.Keys == sessions.Keys + {r.response.sessionId}
    ensures r.sessions[r.response.sessionId] == NewSessionAsWritten(config, now)
    ensures forall id :: id in sessions && id != r.response.sessionId ==> r.sessions[id] == sessions[id]
    ensures r.response.model == HardCodedModel && !r.response.isFallback
  {
    var id := SessionIdFor(requested, now, suffix);
    var session := NewSessionAsWritten(config, now);
    StartResult(sessions[id := session], StartResponse(id, session.modelUsed, session.isFallback))
  }

  /** As written, a start request under any configuration answers with a
      model other than the one the stored chat uses, and the stored record
      breaks the store's invariant; the corrected start differs from it only
      in the model name. */
  lemma StartAsWrittenBreaksSessionOk(sessions: Store, config: Config, requested: Option<string>, now: nat, suffix: string)
    requires config == Production || config == Development || config == Testing
    ensures var w := StartAsWritten(sessions, config, requested, now, suffix);
      && w.response.model != w.sessions[w.response.sessionId].chatSession.model
      && !SessionOk(w.sessions[w.response.sessionId])
    ensures var w := StartAsWritten(sessions, config, requested, now, suffix);
      var c := Start(sessions, config, requested, now, suffix);
      && w.response == c.response.(model := HardCodedModel)
      && w.sessions == c.sessions[c.response.sessionId := c.sessions[c.response.sessionId].(modelUsed := HardCodedModel)]
  {
    AsWrittenReportsAnotherModel(config, now);
  }

  const MissingFields := Rejected(400, "Missing required fields", "sessionId and message are required")
  const SessionNotFound := Rejected(404, "Session not found", "Chat session has expired or does not exist")

  /** `messageType = 'voice'` when the request has none. */
  function MessageTypeOf(messageType: Option<string>): string
  {
    if messageType.Some? then messageType.value else "voice"
  }

  datatype SubmitResult = SubmitResult(sessions: Store, response: ChatResponse)

  /** The message handler on the map. */
  function Submit(prompts: map<string, string>, sessions: Store, sessionId: Option<string>, message: Option<string>, messageType: Option<string>,
                  now: int, franc: FrancOutcome, completion: Completion): (r: SubmitResult)
    requires CoversPromptLanguages(prompts)
    ensures !Given(sessionId) || !Given(message) ==> r == SubmitResult(sessions, MissingFields)
    ensures Given(sessionId) && Given(message) && sessionId.value !in sessions ==> r == SubmitResult(sessions, SessionNotFound)
    ensures HttpStatus(r.response) == 400 <==> !Given(sessionId) || !Given(message)
    ensures HttpStatus(r.response) == 404 <==> Given(sessionId) && Given(message) && sessionId.value !in sessions
  {
    if !Given(sessionId) || !Given(message) then SubmitResult(sessions, MissingFields)
    else if sessionId.value !in sessions then SubmitResult(sessions, SessionNotFound)
    else
      var id := sessionId.value;
      var t := Turn(prompts, sessions[id], message.value, MessageTypeOf(messageType), now, franc, completion);
      SubmitResult(sessions[id := t.session], t.response)
  }

  /** For a found session, `Submit` is the turn on that session stored back under its id. */
  lemma SubmitFound(prompts: map<string, string>, sessions: Store, sessionId: Option<string>, message: Option<string>,
                    messageType: Option<string>, now: int, franc: FrancOutcome, completion: Completion)
    requires CoversPromptLanguages(prompts)
    requires Given(sessionId) && Given(message) && sessionId.value in sessions
    ensures var t := Turn(prompts, sessions[sessionId.value], message.value, MessageTypeOf(messageType), now, franc, completion);
      Submit(prompts, sessions, sessionId, message, messageType, now, franc, completion)
        == SubmitResult(sessions[sessionId.value := t.session], t.response)
  {
  }

  /** A message to a live session touches it, counts the message, keeps its
      history and appends the prompt and, when the model answered, its reply;
      the answer is a reply exactly when the model gave one. */
  lemma SubmitTouchesSession(prompts: map<string, string>, sessions: Store, sessionId: Option<string>, message: Option<string>,
                             messageType: Option<string>, now: int, franc: FrancOutcome, completion: Completion)
    requires CoversPromptLanguages(prompts)
    requires Given(sessionId) && Given(message) && sessionId.value in sessions
    ensures var r := Submit(prompts, sessions, sessionId, message, messageType, now, franc, completion);
      var before := sessions[sessionId.value];
      var after := r.sessions[sessionId.value];
      && after.lastActivity == now && after.messageCount == before.messageCount + 1
      && |after.chatSession.history| == |before.chatSession.history| + (if completion.Completed? then 2 else 1)
      && after.chatSession.history[..|before.chatSession.history|] == before.chatSession.history
      && Contains(after.chatSession.history[|before.chatSession.history|].text, message.value)
      && (r.response.Answered? <==> completion.Completed?)
  {
    SubmitFound(prompts, sessions, sessionId, message, messageType, now, franc, completion);
  }

  /** A message never adds or removes a session and changes no other session. */
  lemma SubmitKeepsOtherSessions(prompts: map<string, string>, sessions: Store, sessionId: Option<string>, message: Option<string>,
                                 messageType: Option<string>, now: int, franc: FrancOutcome, completion: Completion)
    requires CoversPromptLanguages(prompts)
    ensures var r := Submit(prompts, sessions, sessionId, message, messageType, now, franc, completion);
      && r.sessions.Keys == sessions.Keys
      && forall id :: id in sessions && (!Given(sessionId) || id != sessionId.value) ==> r.sessions[id] == sessions[id]
  {
    if Given(sessionId) && Given(message) && sessionId.value in sessions {
      SubmitFound(prompts, sessions, sessionId, message, messageType, now, franc, completion);
      var t := Turn(prompts, sessions[sessionId.value], message.value, MessageTypeOf(messageType), now, franc, completion);
      UpdateKeepsOthers(sessions, sessionId.value, t.session);
    } else {
      SubmitRejected(prompts, sessions, sessionId, message, messageType, now, franc, completion);
    }
  }

  lemma UpdateKeepsOthers<K, V>(m: map<K, V>, k: K, v: V)
    requires k in m
    ensures m[k := v].Keys == m.Keys
    ensures forall j :: j in m && j != k ==> m[k := v][j] == m[j]
  {
  }

  /** The two rejections leave the store as it was. */
  lemma SubmitRejected(prompts: map<string, string>, sessions: Store, sessionId: Option<string>, message: Option<string>,
                       messageType: Option<string>, now: int, franc: FrancOutcome, completion: Completion)
    requires CoversPromptLanguages(prompts)
    requires !Given(sessionId) || !Given(message) || sessionId.value !in sessions
    ensures Submit(prompts, sessions, sessionId, message, messageType, now, franc, completion)
      == SubmitResult(sessions, if !Given(sessionId) || !Given(message) then MissingFields else SessionNotFound)
  {
  }

  /** Every stored session is well-formed. */
  predicate AllOk(sessions: Store)
  {
    forall id :: id in sessions ==> SessionOk(sessions[id])
  }

  lemma AllOkUpdate(sessions: Store, id: string, s: Session)
    requires AllOk(sessions) && SessionOk(s)
    ensures AllOk(sessions[id := s])
  {
  }

  datatype EndResult = EndResult(sessions: Store, found: bool)

  /** The delete handler: success exactly when the id is stored, 404 otherwise. */
  function End(sessions: Store, sessionId: string): (r: EndResult)
    ensures r.found <==> sessionId in sessions
    ensures r.sessions.Keys == sessions.Keys - {sessionId}
    ensures forall id :: id in r.sessions ==> r.sessions[id] == sessions[id]
  {
    EndResult(sessions - {sessionId}, sessionId in sessions)
  }

  /** Ending a session twice: the second request is not found and changes nothing. */
  lemma EndTwiceIsNotFound(sessions: Store, sessionId: string)
    ensures var once := End(sessions, sessionId).sessions;
      !End(once, sessionId).found && End(once, sessionId).sessions == once
  {
    var once := End(sessions, sessionId).sessions;
    assert once - {sessionId} == once;
  }

  /** An hour in milliseconds. */
  const SessionLifetime := 60 * 60 * 1000

  /** Idle for longer than an hour at the sweep: `lastActivity < oneHourAgo`. */
  predicate Expired(s: Session, now: int)
  {
    s.lastActivity < now - SessionLifetime
  }

  /** The sessions a sweep at `now` keeps. */
  function Live(sessions: Store, now: int): (r: Store)
    ensures forall id :: id in r <==> id in sessions && !Expired(sessions[id], now)
    ensures forall id :: id in r ==> r[id] == sessions[id]
  {
    map id | id in sessions && !Expired(sessions[id], now) :: sessions[id]
  }

  /** A second sweep at the same time, or at an earlier one, removes nothing more. */
  lemma SweepIdempotent(sessions: Store, now: int, earlier: int)
    requires earlier <= now
    ensures Live(Live(sessions, now), earlier) == Live(sessions, now)
    ensures Live(Live(sessions, now), now) == Live(sessions, now)
  {
  }

  /** Sweeping at two times in turn is sweeping at the later time: what an
      earlier sweep keeps but a later one would remove goes then. */
  lemma SweepsCompose(sessions: Store, earlier: int, later: int)
    requires earlier <= later
    ensures Live(Live(sessions, earlier), later) == Live(sessions, later)
  {
    var a := Live(Live(sessions, earlier), later);
    var b := Live(sessions, later);
    forall id | id in b ensures id in a {
      assert !Expired(sessions[id], earlier);
    }
  }

  // ---------------------------------------------------------------------------
  // The store object

  class SessionStore {
    const config: Config
    const languagePrompts: map<string, string>
    /** `chatSessions` */
    var sessions: Store

    predicate Valid()
      reads this
    {
      CoversPromptLanguages(languagePrompts) && AllOk(sessions)
    }

    constructor (config: Config)
      ensures Valid() && this.config == config && languagePrompts == LanguagePrompts && sessions == map[]
    {
      this.config := config;
      languagePrompts := LanguagePrompts;
      sessions := map[];
    }

    /** `POST /api/chat/start` */
    method StartSession(requested: Option<string>, now: nat, suffix: string) returns (response: StartResponse)
      requires Valid()
      modifies this
      ensures Valid()
      ensures StartResult(sessions, response) == Start(old(sessions), config, requested, now, suffix)
    {
      var sessionId := SessionIdFor(requested, now, suffix);
      var session := NewSession(config, now);
      sessions := sessions[sessionId := session];
      response := StartResponse(sessionId, session.modelUsed, session.isFallback);
    }

    /** `POST /api/chat/message`: the session is touched and the prompt
        appended before the completion is awaited; the reply is appended after. */
    method SubmitMessage(sessionId: Option<string>, message: Option<string>, messageType: Option<string>,
                         now: int, franc: FrancOutcome, completion: Completion) returns (response: ChatResponse)
      requires Valid()
      modifies this
      ensures Valid()
      ensures SubmitResult(sessions, response) == Submit(languagePrompts, old(sessions), sessionId, message, messageType, now, franc, completion)
    {
      if !Given(sessionId) || !Given(message) {
        SubmitRejected(languagePrompts, sessions, sessionId, message, messageType, now, franc, completion);
        return MissingFields;
      }
      var id := sessionId.value;
      if id !in sessions {
        SubmitRejected(languagePrompts, sessions, sessionId, message, messageType, now, franc, completion);
        return SessionNotFound;
      }
      var before := sessions[id];
      var kind := MessageTypeOf(messageType);
      var turn := Turn(languagePrompts, before, message.value, kind, now, franc, completion);
      ghost var prompt := TurnPrompt(languagePrompts, before.messageCount + 1, message.value, franc);
      SubmitFound(languagePrompts, sessions, sessionId, message, messageType, now, franc, completion);
      TurnKeepsSessionOk(before, now, prompt, kind, completion);
      AllOkUpdate(sessions, id, turn.session);
      sessions := sessions[id := turn.session];
      response := turn.response;
    }

    /** `DELETE /api/chat/session/:sessionId`; `found` is the success answer, otherwise 404. */
    method EndSession(sessionId: string) returns (found: bool)
      requires Valid()
      modifies this
      ensures Valid()
      ensures EndResult(sessions, found) == End(old(sessions), sessionId)
    {
      found := sessionId in sessions;
      if found {
        sessions := sessions - {sessionId};
      }
    }

    /** The five-minute sweep: every session idle for more than an hour is removed. */
    method Sweep(now: int)
      requires Valid()
      modifies this
      ensures Valid()
      ensures sessions == Live(old(sessions), now)
    {
      var pending := sessions.Keys;
      ghost var before := sessions;
      while pending != {}
        invariant Valid()
        invariant pending <= sessions.Keys <= before.Keys
        invariant forall id :: id in sessions ==> sessions[id] == before[id]
        invariant forall id :: id in before ==> (id in sessions <==> id in pending || !Expired(before[id], now))
        decreases |pending|
      {
        var id :| id in pending;
        if Expired(sessions[id], now) {
          sessions := sessions - {id};
        }
        pending := pending - {id};
      }
      assert sessions.Keys == Live(before, now).Keys;
    }
  }
}
