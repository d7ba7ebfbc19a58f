/** One message turn of the server in server.js (`/api/chat/message` once the
    session is found): the session is touched, the message is classified and
    wrapped into a prompt in the detected language, the prompt is appended to
    the session's history, and the completion (an input here: the text the
    model returned or the error it raised) is appended, truncated for the
    reply, or classified into an HTTP error. */
module Dialogue {
  import opened Seqs
  import opened ServerLanguage

  // ---------------------------------------------------------------------------
  // Lower-casing and keyword classification (server.js:226-244)

  /** The upper-case letters `toLowerCase` maps here: Basic Latin A-Z and
      Latin-1 À-Þ except the multiplication sign. */
  predicate IsUpper(c: char)
  {
    'A' <= c <= 'Z' || ('\U{C0}' <= c <= '\U{DE}' && c != '\U{D7}')
  }

  /** `toLowerCase` for one character, for the Basic Latin and Latin-1 letters. */
  function LowerChar(c: char): char
  {
    if IsUpper(c) then (c as int + 32) as char else c
  }

  /** No upper-case letter is left, every other character is kept, and each
      upper-case letter becomes the letter 32 code points on. */
  function ToLower(s: string): (r: string)
    ensures |r| == |s|
    ensures forall i :: 0 <= i < |r| ==> !IsUpper(r[i])
    ensures forall i :: 0 <= i < |s| && !IsUpper(s[i]) ==> r[i] == s[i]
    ensures forall i :: 0 <= i < |s| && IsUpper(s[i]) ==> r[i] as int == s[i] as int + 32
  {
    seq(|s|, i requires 0 <= i < |s| => LowerChar(s[i]))
  }

  /** Lower-casing twice is lower-casing once. */
  lemma ToLowerIdempotent(s: string)
    ensures ToLower(ToLower(s)) == ToLower(s)
  {
    var l := ToLower(s);
    forall i | 0 <= i < |l| ensures ToLower(l)[i] == l[i] {
      assert !IsUpper(l[i]);
    }
  }

  const GratitudeKeywords: seq<string> :=
    ["thank", "thanks", "gracias", "merci", "danke", "धन्यवाद", "谢谢", "ありがとう", "감사합니다"]
  const FarewellKeywords: seq<string> :=
    ["bye", "goodbye", "adiós", "au revoir", "auf wiedersehen", "अलविदा", "再见", "さようなら", "안녕히"]

  /** `message.toLowerCase().includes(k)` for some keyword `k` of the list. */
  predicate Mentions(message: string, keywords: seq<string>)
  {
    exists i :: 0 <= i < |keywords| && Contains(ToLower(message), keywords[i])
  }

  datatype MessageKind = FirstMessage | Thanks | Goodbye | Plain

  /** The message's kind, in the source's order of tests. */
  function Classify(messageCount: int, message: string): (kind: MessageKind)
    ensures kind == FirstMessage <==> messageCount == 1
    ensures kind == Thanks <==> messageCount != 1 && Mentions(message, GratitudeKeywords)
    ensures kind == Goodbye <==> messageCount != 1 && !Mentions(message, GratitudeKeywords) && Mentions(message, FarewellKeywords)
    ensures kind == Plain <==> messageCount != 1 && !Mentions(message, GratitudeKeywords) && !Mentions(message, FarewellKeywords)
  {
    if messageCount == 1 then FirstMessage
    else if Mentions(message, GratitudeKeywords) then Thanks
    else if Mentions(message, FarewellKeywords) then Goodbye
    else Plain
  }

  /** The classification does not depend on letter case. */
  lemma ClassifyIgnoresCase(messageCount: int, message: string)
    ensures Classify(messageCount, ToLower(message)) == Classify(messageCount, message)
  {
    ToLowerIdempotent(message);
  }

  /** "thanks" and "goodbye" never decide anything: each contains an earlier
      keyword of its list ("thank", "bye"), so a message is a thank-you or a
      goodbye exactly as with the shorter lists. */
  lemma LongKeywordsAreRedundant(message: string)
    ensures Mentions(message, GratitudeKeywords) <==> Mentions(message, GratitudeKeywords[..1] + GratitudeKeywords[2..])
    ensures Mentions(message, FarewellKeywords) <==> Mentions(message, FarewellKeywords[..1] + FarewellKeywords[2..])
  {
    var lower := ToLower(message);
    var g := GratitudeKeywords[..1] + GratitudeKeywords[2..];
    var f := FarewellKeywords[..1] + FarewellKeywords[2..];
    if Mentions(message, GratitudeKeywords) {
      var i :| 0 <= i < |GratitudeKeywords| && Contains(lower, GratitudeKeywords[i]);
      if i == 1 {
        assert "thanks"[0..5] == "thank";
        ContainsAt("thanks", "thank", 0);
        ContainsTransitive(lower, "thanks", "thank");
        assert g[0] == "thank";
      } else if i == 0 {
        assert g[0] == GratitudeKeywords[i];
      } else {
        assert g[i - 1] == GratitudeKeywords[i];
      }
    }
    if Mentions(message, g) {
      var i :| 0 <= i < |g| && Contains(lower, g[i]);
      if i == 0 {
        assert g[i] == GratitudeKeywords[0];
      } else {
        assert g[i] == GratitudeKeywords[i + 1];
      }
    }
    if Mentions(message, FarewellKeywords) {
      var i :| 0 <= i < |FarewellKeywords| && Contains(lower, FarewellKeywords[i]);
      if i == 1 {
        assert "goodbye"[4..7] == "bye";
        ContainsAt("goodbye", "bye", 4);
        ContainsTransitive(lower, "goodbye", "bye");
        assert f[0] == "bye";
      } else if i == 0 {
        assert f[0] == FarewellKeywords[i];
      } else {
        assert f[i - 1] == FarewellKeywords[i];
      }
    }
    if Mentions(message, f) {
      var i :| 0 <= i < |f| && Contains(lower, f[i]);
      if i == 0 {
        assert f[i] == FarewellKeywords[0];
      } else {
        assert f[i] == FarewellKeywords[i + 1];
      }
    }
  }

  // ---------------------------------------------------------------------------
  // Prompt shaping (server.js:226-247)

  /** The texts a kind puts before and after the quoted message. */
  function Wrapper(kind: MessageKind): (string, string)
  {
    match kind
    case FirstMessage =>
      ("User says: \"", "\". This is their first message. Respond warmly and ask how you can help with electric vehicles.")
    case Thanks =>
      ("User says: \"", "\". They're thanking you. Respond warmly and offer to help with anything else.")
    case Goodbye =>
      ("User says: \"", "\". They're saying goodbye. Respond warmly and invite them back anytime.")
    case Plain => ("", "")
  }

  /** The message as the kind wraps it; a plain message is passed as it is. */
  function Shape(kind: MessageKind, message: string): (shaped: string)
    ensures kind == Plain ==> shaped == message
  {
    Wrapper(kind).0 + message + Wrapper(kind).1
  }

  /** The text sent to the model: the system prompt of the language, the
      language code, the shaped message and the instruction to answer in kind. */
  function OptimizedPrompt(systemPrompt: string, code: string, shaped: string): string
  {
    systemPrompt + "\n\nUser message (" + code + "): " + shaped
      + "\n\nRespond in the same language as the user's message."
  }

  /** The prompt of a turn begins with the system prompt and quotes the
      user's message verbatim, whatever its kind. */
  lemma PromptQuotesMessage(systemPrompt: string, code: string, kind: MessageKind, message: string)
    ensures systemPrompt <= OptimizedPrompt(systemPrompt, code, Shape(kind, message))
    ensures Contains(OptimizedPrompt(systemPrompt, code, Shape(kind, message)), message)
  {
    QuotedInTemplate(systemPrompt, "\n\nUser message (", code, "): ", Wrapper(kind).0, message, Wrapper(kind).1,
      "\n\nRespond in the same language as the user's message.");
  }

  // ---------------------------------------------------------------------------
  // Completion outcomes and replies (server.js:288-330)

  /** One entry of `error.errorDetails`: its `@type` and `retryDelay`, if present. */
  datatype ErrorDetail = ErrorDetail(typeName: Option<string>, retryDelay: Option<string>)

  /** The error the model client raised. */
  datatype ApiError = ApiError(status: Option<int>, message: string, errorDetails: Option<seq<ErrorDetail>>)

  /** What `generateContent` did: returned a text or threw. */
  datatype Completion = Completed(text: string) | Failed(error: ApiError)

  /** The JSON answer of the message endpoint. */
  datatype ChatResponse =
    | Answered(response: string, messageType: string, model: string, isFallback: bool)
    | RateLimited(retryAfter: string)
    | Rejected(status: int, error: string, details: string)

  function HttpStatus(r: ChatResponse): int
  {
    match r
    case Answered(_, _, _, _) => 200
    case RateLimited(_) => 429
    case Rejected(status, _, _) => status
  }

  const MaxReplyLength := 200

  /** The spoken reply: the text, cut to 200 characters plus an ellipsis when longer. */
  function Truncate(text: string): (reply: string)
    ensures |reply| <= MaxReplyLength + 3
    ensures |text| <= MaxReplyLength ==> reply == text
    ensures |text| > MaxReplyLength ==> text[..MaxReplyLength] <= reply && |reply| == MaxReplyLength + 3
    ensures |text| > MaxReplyLength ==> reply[MaxReplyLength..] == "..."
  {
    if |text| > MaxReplyLength then text[..MaxReplyLength] + "..." else text
  }

  /** Truncating a reply again changes nothing. */
  lemma TruncateIdempotent(text: string)
    ensures Truncate(Truncate(text)) == Truncate(text)
  {
    if |text| > MaxReplyLength {
      var r := Truncate(text);
      assert r[..MaxReplyLength] == text[..MaxReplyLength];
    }
  }

  predicate IsRetryInfo(d: ErrorDetail)
  {
    d.typeName.Some? && Contains(d.typeName.value, "RetryInfo")
  }

  /** `retryAfter`: the `retryDelay` of the first detail whose type mentions
      RetryInfo, when it is a non-empty string, and "60s" otherwise. */
  function RetryAfter(details: Option<seq<ErrorDetail>>): (delay: string)
    ensures delay != ""
    ensures delay != "60s" ==>
      && details.Some?
      && (exists i :: 0 <= i < |details.value| && IsRetryInfo(details.value[i]) && details.value[i].retryDelay == Some(delay))
  {
    match details
    case None => "60s"
    case Some(ds) =>
      match FirstIndex(ds, IsRetryInfo)
      case None => "60s"
      case Some(i) =>
        if ds[i].retryDelay.Some? && ds[i].retryDelay.value != "" then ds[i].retryDelay.value else "60s"
  }

  /** The answer to a failed completion. */
  function ClassifyFailure(e: ApiError): (r: ChatResponse)
    ensures HttpStatus(r) == 429 || HttpStatus(r) == 500
    ensures r.RateLimited? <==> e.status == Some(429)
    ensures HttpStatus(r) == 429 <==> e.status == Some(429) || Contains(e.message, "quota") || Contains(e.message, "Quota")
  {
    if e.status == Some(429) then RateLimited(RetryAfter(e.errorDetails))
    else if Contains(e.message, "quota") || Contains(e.message, "Quota") then
      Rejected(429, "API quota exceeded", "Daily/monthly quota limit reached. Please try again later or upgrade your plan.")
    else Rejected(500, "Failed to get AI response", e.message)
  }

  /** `ds[j]` is the detail `find` stops at: the first whose type mentions RetryInfo. */
  predicate FirstRetryInfoAt(ds: seq<ErrorDetail>, j: nat)
  {
    j < |ds| && IsRetryInfo(ds[j]) && forall k :: 0 <= k < j ==> !IsRetryInfo(ds[k])
  }

  predicate NamesDelay(d: ErrorDetail)
  {
    d.retryDelay.Some? && d.retryDelay.value != ""
  }

  /** A rate-limit error whose first RetryInfo detail names a delay passes it on. */
  lemma RetryAfterFromFirstRetryInfo(ds: seq<ErrorDetail>, i: nat)
    requires FirstRetryInfoAt(ds, i) && NamesDelay(ds[i])
    ensures RetryAfter(Some(ds)) == ds[i].retryDelay.value
  {
    var k := FirstIndex(ds, IsRetryInfo);
    assert k.Some?;
    if k.value < i {
    } else if k.value > i {
    }
  }

  /** Without details, without a RetryInfo detail, or when the first one
      names no delay, the client is asked to wait 60 s. */
  lemma RetryAfterDefaults(details: Option<seq<ErrorDetail>>)
    ensures details.None? ==> RetryAfter(details) == "60s"
    ensures details.Some? && (forall j :: 0 <= j < |details.value| ==> !IsRetryInfo(details.value[j])) ==>
      RetryAfter(details) == "60s"
    ensures details.Some? && (exists j: nat :: FirstRetryInfoAt(details.value, j) && !NamesDelay(details.value[j])) ==>
      RetryAfter(details) == "60s"
  {
    if details.Some? && exists j: nat :: FirstRetryInfoAt(details.value, j) && !NamesDelay(details.value[j]) {
      var ds := details.value;
      var j: nat :| FirstRetryInfoAt(ds, j) && !NamesDelay(ds[j]);
      var k := FirstIndex(ds, IsRetryInfo);
      assert k.Some?;
      if k.value < j {
      } else if k.value > j {
      }
    }
  }

  // ---------------------------------------------------------------------------
  // Sessions and the turn (server.js:169-176, 214-298)

  datatype Role = User | Model
  datatype Entry = Entry(role: Role, text: string)

  /** `chatSession`: the model the completions use and the conversation so far. */
  datatype ChatSession = ChatSession(model: string, history: seq<Entry>)

  /** A stored session; times are milliseconds since the epoch. */
  datatype Session = Session(
    chatSession: ChatSession, modelUsed: string, isFallback: bool,
    createdAt: int, lastActivity: int, messageCount: nat)

  datatype TurnResult = TurnResult(session: Session, response: ChatResponse)

  /** The prompt appended for `message` once the session counts `messageCount`
      messages: it starts with the system prompt of the detected language and
      quotes the message. */
  function TurnPrompt(prompts: map<string, string>, messageCount: int, message: string, franc: FrancOutcome): (prompt: string)
    requires CoversPromptLanguages(prompts)
    ensures Contains(prompt, message)
    ensures prompts[PromptLanguage(DetectLanguage(franc))] <= prompt
  {
    var code := PromptLanguage(DetectLanguage(franc));
    var kind := Classify(messageCount, message);
    PromptQuotesMessage(prompts[code], code, kind, message);
    OptimizedPrompt(prompts[code], code, Shape(kind, message))
  }

  /** The session side of a turn for a given prompt: touch, append the
      prompt, then append the model's text or classify its error. */
  function TurnWith(s: Session, now: int, prompt: string, messageType: string, completion: Completion): (r: TurnResult)
    ensures r.session.lastActivity == now && r.session.messageCount == s.messageCount + 1
    ensures r.session.chatSession.model == s.chatSession.model && r.session.modelUsed == s.modelUsed
    ensures r.session.isFallback == s.isFallback && r.session.createdAt == s.createdAt
    ensures var h := r.session.chatSession.history; var h0 := s.chatSession.history;
      && |h| == |h0| + (if completion.Completed? then 2 else 1)
      && h[..|h0|] == h0
      && h[|h0|] == Entry(User, prompt)
      && (completion.Completed? ==> h[|h0| + 1] == Entry(Model, completion.text))
    ensures r.response.Answered? <==> completion.Completed?
    ensures HttpStatus(r.response) in {200, 429, 500}
    ensures r.response.Answered? ==>
      && r.response.response == Truncate(completion.text)
      && r.response.model == s.modelUsed && r.response.isFallback == s.isFallback
      && r.response.messageType == messageType
    ensures completion.Failed? ==> r.response == ClassifyFailure(completion.error)
  {
    var asked := s.chatSession.history + [Entry(User, prompt)];
    var touched := s.(lastActivity := now, messageCount := s.messageCount + 1);
    match completion
    case Completed(text) =>
      TurnResult(touched.(chatSession := ChatSession(s.chatSession.model, asked + [Entry(Model, text)])),
                 Answered(Truncate(text), messageType, s.modelUsed, s.isFallback))
    case Failed(e) =>
      TurnResult(touched.(chatSession := ChatSession(s.chatSession.model, asked)), ClassifyFailure(e))
  }

  /** A message turn on a found session: the prompt is shaped from the message
      as the session counts it after the touch, in the detected language. */
  function Turn(prompts: map<string, string>, s: Session, message: string, messageType: string, now: int,
                franc: FrancOutcome, completion: Completion): TurnResult
    requires CoversPromptLanguages(prompts)
  {
    TurnWith(s, now, TurnPrompt(prompts, s.messageCount + 1, message, franc), messageType, completion)
  }

  // ---------------------------------------------------------------------------
  // The shape of a history

  /** User and model entries alternate, starting with the user. */
  predicate Alternating(h: seq<Entry>)
  {
    forall i :: 0 <= i < |h| ==> h[i].role == (if i % 2 == 0 then User else Model)
  }

  /** A history holds the two opening entries and, for `n` messages, one
      prompt per message and at most one reply per message. */
  predicate HistoryFits(s: Session)
  {
    var n := s.chatSession.history;
    2 + s.messageCount <= |n| <= 2 + 2 * s.messageCount
  }

  lemma TurnKeepsHistoryFit(s: Session, now: int, prompt: string, messageType: string, completion: Completion)
    requires HistoryFits(s)
    ensures HistoryFits(TurnWith(s, now, prompt, messageType, completion).session)
  {
  }

  /** A successful turn extends an alternating history by one prompt and one
      reply, so it stays alternating. */
  lemma SuccessfulTurnAlternates(s: Session, now: int, prompt: string, messageType: string, text: string)
    requires Alternating(s.chatSession.history) && |s.chatSession.history| % 2 == 0
    ensures var h := TurnWith(s, now, prompt, messageType, Completed(text)).session.chatSession.history;
      Alternating(h) && |h| % 2 == 0
  {
    var h0 := s.chatSession.history;
    var h := TurnWith(s, now, prompt, messageType, Completed(text)).session.chatSession.history;
    forall i | 0 <= i < |h| ensures h[i].role == (if i % 2 == 0 then User else Model) {
      if i < |h0| {
        assert h[i] == h[..|h0|][i];
      }
    }
  }

  /** A failed completion is not rolled back: the next turn leaves two user
      entries side by side, and the history stops alternating. */
  lemma FailedTurnBreaksAlternation(s: Session, t1: int, p1: string, t2: int, p2: string,
                                    messageType: string, e: ApiError, next: Completion)
    ensures var s1 := TurnWith(s, t1, p1, messageType, Failed(e)).session;
      var h := TurnWith(s1, t2, p2, messageType, next).session.chatSession.history;
      var k := |s.chatSession.history|;
      h[k].role == User && h[k + 1].role == User && !Alternating(h)
  {
    var k := |s.chatSession.history|;
    var s1 := TurnWith(s, t1, p1, messageType, Failed(e)).session;
    var h := TurnWith(s1, t2, p2, messageType, next).session.chatSession.history;
    assert h[k] == h[..k + 1][k];
    var odd := if k % 2 == 0 then k + 1 else k;
    assert h[odd].role != (if odd % 2 == 0 then User else Model);
  }

  /** One request of a conversation: when it arrives, the prompt it becomes and the model's outcome. */
  datatype Exchange = Exchange(now: int, prompt: string, completion: Completion)

  function Converse(s: Session, messageType: string, exchanges: seq<Exchange>): Session
    decreases |exchanges|
  {
    if exchanges == [] then s
    else
      var x := exchanges[0];
      Converse(TurnWith(s, x.now, x.prompt, messageType, x.completion).session, messageType, exchanges[1..])
  }

  predicate AllCompleted(exchanges: seq<Exchange>)
  {
    forall i :: 0 <= i < |exchanges| ==> exchanges[i].completion.Completed?
  }

  /** After `n` answered messages, whatever their prompts, an alternating
      history of even length has grown by exactly 2n entries, still
      alternates, and the session counts `n` more messages. */
  lemma {:induction false} ConversationGrowsByPairs(s: Session, messageType: string, exchanges: seq<Exchange>)
    requires Alternating(s.chatSession.history) && |s.chatSession.history| % 2 == 0
    requires AllCompleted(exchanges)
    ensures var r := Converse(s, messageType, exchanges);
      && |r.chatSession.history| == |s.chatSession.history| + 2 * |exchanges|
      && r.messageCount == s.messageCount + |exchanges|
      && Alternating(r.chatSession.history)
      && r.chatSession.history[..|s.chatSession.history|] == s.chatSession.history
    decreases |exchanges|
  {
    if exchanges != [] {
      var x := exchanges[0];
      var s1 := TurnWith(s, x.now, x.prompt, messageType, x.completion).session;
      SuccessfulTurnAlternates(s, x.now, x.prompt, messageType, x.completion.text);
      var rest := exchanges[1..];
      assert AllCompleted(rest) by {
        forall i | 0 <= i < |rest| ensures rest[i].completion.Completed? {
          assert rest[i] == exchanges[i + 1];
        }
      }
      ConversationGrowsByPairs(s1, messageType, rest);
      var h0 := s.chatSession.history;
      var h1 := s1.chatSession.history;
      var r := Converse(s1, messageType, rest).chatSession.history;
      assert r[..|h0|] == r[..|h1|][..|h0|];
    }
  }
}
