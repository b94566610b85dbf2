/** The rate-limited two-backend response gateway: the primary backend
    (Gemini) is tried only when its client exists and the tracker permits,
    a quota error puts the tracker into a 60-second cool-down, the secondary
    backend (OpenRouter/DeepSeek) is tried only when the primary gave no
    text, and a fixed apology labelled "Yok" is the last resort.

    The SDKs are abstracted: a configured backend is the function from the
    request it is sent to what comes back (text, or an exception's message).
    The gateway returns the list of backend calls it made, in order. */
module Gateway {
  import opened Optional
  import opened Text
  import opened RateLimit

  datatype Role = User | Assistant

  /** One `chat_history` entry: `{"role": ..., "content": ...}`. */
  datatype Message = Message(role: Role, content: string)

  /** What one backend call is given: the system instruction (absent for the
      research call), the history window and the new message. */
  datatype Request = Request(systemPrompt: Option<string>, history: seq<Message>, message: string)

  /** What a backend call comes back with: generated text (a missing text is
      the empty string), or an exception whose `str()` is `error`. */
  datatype Outcome = Returned(text: string) | Raised(error: string)

  type Service = Request -> Outcome

  /** The two clients; `None` where a client is not configured. */
  datatype Backends = Backends(primary: Option<Service>, secondary: Option<Service>)

  datatype Tier = Primary | Secondary

  /** One backend call made, with the request it was sent. */
  datatype Call = Call(tier: Tier, request: Request)

  /** Which backend produced the reply. */
  datatype Provider = Gemini | DeepSeek | Unavailable

  /** The label shown in the reply's footer. */
  function Label(p: Provider): string {
    match p
    case Gemini => "Gemini"
    case DeepSeek => "DeepSeek"
    case Unavailable => "Yok"
  }

  /** How many history entries a backend is sent (`chat_history[-10:]`). */
  const HistoryWindow: nat := 10

  const Apology: string := "⚠️ Şu anda yanıt veremiyorum. Lütfen biraz sonra tekrar deneyin."
  const ResearchPlaceholder: string := "Araştırma yapılamadı, genel bilgilerle devam ediliyor."

  /** Python's `history[-10:]`: the last `min(10, |history|)` entries. */
  function Window(history: seq<Message>): (w: seq<Message>)
    ensures |w| == if |history| < HistoryWindow then |history| else HistoryWindow
    ensures history == history[..|history| - |w|] + w
  {
    if |history| <= HistoryWindow then history else history[|history| - HistoryWindow..]
  }

  /** The newest entry is always inside the window. */
  lemma WindowKeepsNewest(history: seq<Message>)
    requires history != []
    ensures Window(history) != [] && Window(history)[|Window(history)| - 1] == history[|history| - 1]
  {
  }

  /** The request of a generation turn, for either backend. */
  function ChatRequest(systemPrompt: string, history: seq<Message>, message: string): Request {
    Request(Some(systemPrompt), Window(history), message)
  }

  /** The primary's quota signature: "429" in the error text, or
      "resource_exhausted" or "quota" in its lower-cased text. */
  predicate IsQuotaError(error: string) {
    Contains(error, "429") || Contains(Lower(error), "resource_exhausted") || Contains(Lower(error), "quota")
  }

  /** The quota test does not depend on the letter case of the error text. */
  lemma QuotaErrorIgnoresCase(error: string)
    ensures IsQuotaError(Lower(error)) <==> IsQuotaError(error)
  {
    LowerIdempotent(error);
    LowerKeepsCaseless(error, "429");
  }

  // ---------------------------------------------------------------------------
  // ask_gemini

  /** What one `ask_gemini` call returns (`None` for `(None, False)`), the
      tracker state it leaves and the calls it made. */
  datatype Attempt = Attempt(reply: Option<string>, rate: RateView, calls: seq<Call>)

  function AskGeminiSpec(r: RateView, now: int, primary: Option<Service>, req: Request): (a: Attempt)
    ensures a.calls == [] <==> primary.None? || !CanUse(r, now).permitted
    ensures a.calls == [] || a.calls == [Call(Primary, req)]
    ensures a.reply.Some? ==> a.calls != [] && primary.value(req) == Returned(a.reply.value)
  {
    if primary.None? then Attempt(None, r, [])
    else
      var c := CanUse(r, now);
      if !c.permitted then Attempt(None, c.after, [])
      else
        match primary.value(req)
        case Returned(text) => Attempt(Some(text), Recorded(c.after), [Call(Primary, req)])
        case Raised(error) =>
          Attempt(None, if IsQuotaError(error) then Blocked(c.after, now, CooldownSeconds) else c.after,
                  [Call(Primary, req)])
  }

  method AskGemini(tracker: RateLimitTracker, now: int, primary: Option<Service>,
                   systemPrompt: string, userMessage: string, history: seq<Message>)
    returns (reply: Option<string>, calls: seq<Call>)
    modifies tracker
    ensures Attempt(reply, tracker.View(), calls)
         == AskGeminiSpec(old(tracker.View()), now, primary, ChatRequest(systemPrompt, history, userMessage))
  {
    if primary.None? {
      return None, [];
    }
    var permitted := tracker.CanUseGemini(now);
    if !permitted {
      return None, [];
    }
    var req := ChatRequest(systemPrompt, history, userMessage);
    match primary.value(req)
    case Returned(text) =>
      tracker.RecordRequest();
      return Some(text), [Call(Primary, req)];
    case Raised(error) =>
      if IsQuotaError(error) {
        tracker.Block(now, CooldownSeconds);
      }
      return None, [Call(Primary, req)];
  }

  // ---------------------------------------------------------------------------
  // ask_openrouter

  /** `ask_openrouter`: the secondary's text, or `None` when it is not
      configured or raised. It keeps no state. */
  function AskOpenRouter(secondary: Option<Service>, req: Request): (reply: Option<string>)
    ensures reply.Some? <==> secondary.Some? && secondary.value(req).Returned?
    ensures reply.Some? ==> reply.value == secondary.value(req).text
  {
    match secondary
    case None => None
    case Some(service) =>
      match service(req)
      case Returned(text) => Some(text)
      case Raised(_) => None
  }

  // ---------------------------------------------------------------------------
  // get_ai_response

  /** The reply text, who produced it, the tracker state left and the calls made. */
  datatype Response = Response(text: string, provider: Provider, rate: RateView, calls: seq<Call>)

  /** `get_ai_response`: the primary's text when it is not empty, else the
      secondary's when it is not empty, else the apology. Only the primary
      touches the tracker. */
  function Respond(r: RateView, now: int, b: Backends, systemPrompt: string,
                   history: seq<Message>, message: string): (res: Response)
    ensures res.text != ""
    ensures res.rate == AskGeminiSpec(r, now, b.primary, ChatRequest(systemPrompt, history, message)).rate
    ensures |res.calls| <= 2
  {
    var req := ChatRequest(systemPrompt, history, message);
    var first := AskGeminiSpec(r, now, b.primary, req);
    if first.reply.Some? && first.reply.value != "" then
      Response(first.reply.value, Gemini, first.rate, first.calls)
    else
      var second := AskOpenRouter(b.secondary, req);
      var calls := first.calls + if b.secondary.Some? then [Call(Secondary, req)] else [];
      if second.Some? && second.value != "" then Response(second.value, DeepSeek, first.rate, calls)
      else Response(Apology, Unavailable, first.rate, calls)
  }

  method GetAiResponse(tracker: RateLimitTracker, now: int, backends: Backends,
                       systemPrompt: string, history: seq<Message>, userMessage: string)
    returns (text: string, provider: Provider, calls: seq<Call>)
    modifies tracker
    ensures Response(text, provider, tracker.View(), calls)
         == Respond(old(tracker.View()), now, backends, systemPrompt, history, userMessage)
  {
    var reply, primaryCalls := AskGemini(tracker, now, backends.primary, systemPrompt, userMessage, history);
    if reply.Some? && reply.value != "" {
      return reply.value, Gemini, primaryCalls;
    }
    var req := ChatRequest(systemPrompt, history, userMessage);
    var second := AskOpenRouter(backends.secondary, req);
    calls := primaryCalls + if backends.secondary.Some? then [Call(Secondary, req)] else [];
    if second.Some? && second.value != "" {
      return second.value, DeepSeek, calls;
    }
    return Apology, Unavailable, calls;
  }

  /** The primary answers this call with usable text. */
  predicate PrimaryAnswers(r: RateView, now: int, b: Backends, req: Request) {
    b.primary.Some? && CanUse(r, now).permitted
    && b.primary.value(req).Returned? && b.primary.value(req).text != ""
  }

  /** The secondary answers this call with usable text. */
  predicate SecondaryAnswers(b: Backends, req: Request) {
    b.secondary.Some? && b.secondary.value(req).Returned? && b.secondary.value(req).text != ""
  }

  /** Who answers: the primary when it gives text, else the secondary when it
      gives text, else the apology; the reply is never empty. */
  lemma ProviderChoice(r: RateView, now: int, b: Backends, systemPrompt: string,
                       history: seq<Message>, message: string)
    ensures var res := Respond(r, now, b, systemPrompt, history, message);
            var req := ChatRequest(systemPrompt, history, message);
            && (res.provider == Gemini <==> PrimaryAnswers(r, now, b, req))
            && (res.provider == DeepSeek <==> !PrimaryAnswers(r, now, b, req) && SecondaryAnswers(b, req))
            && (res.provider == Unavailable <==> !PrimaryAnswers(r, now, b, req) && !SecondaryAnswers(b, req))
            && (res.provider == Gemini ==> res.text == b.primary.value(req).text)
            && (res.provider == DeepSeek ==> res.text == b.secondary.value(req).text)
            && (res.provider == Unavailable ==> res.text == Apology)
            && res.text != ""
  {
  }

  /** The calls are made in strict order: at most one primary call, then at
      most one secondary call, and the secondary only when the primary gave
      no text. Both are sent the same request, holding only the history window. */
  lemma FallbackOrder(r: RateView, now: int, b: Backends, systemPrompt: string,
                      history: seq<Message>, message: string)
    ensures var res := Respond(r, now, b, systemPrompt, history, message);
            var req := ChatRequest(systemPrompt, history, message);
            && res.calls in {[], [Call(Primary, req)], [Call(Secondary, req)], [Call(Primary, req), Call(Secondary, req)]}
            && (Call(Secondary, req) in res.calls <==> b.secondary.Some? && !PrimaryAnswers(r, now, b, req))
            && (Call(Primary, req) in res.calls <==> b.primary.Some? && CanUse(r, now).permitted)
            && |req.history| <= HistoryWindow
            && history == history[..|history| - |req.history|] + req.history
  {
    var req := ChatRequest(systemPrompt, history, message);
    var first := AskGeminiSpec(r, now, b.primary, req);
    var tail: seq<Call> := if b.secondary.Some? then [Call(Secondary, req)] else [];
    if !(first.reply.Some? && first.reply.value != "") {
      assert Respond(r, now, b, systemPrompt, history, message).calls == first.calls + tail;
      assert Call(Primary, req) != Call(Secondary, req);
      assert !PrimaryAnswers(r, now, b, req);
      assert Call(Secondary, req) in first.calls + tail <==> b.secondary.Some?;
      assert Call(Primary, req) in first.calls + tail <==> b.primary.Some? && CanUse(r, now).permitted;
      if first.calls == [] {
        assert first.calls + tail == tail;
      } else if tail == [] {
        assert first.calls + tail == [Call(Primary, req)];
      } else {
        assert first.calls + tail == [Call(Primary, req), Call(Secondary, req)];
      }
    } else {
      assert PrimaryAnswers(r, now, b, req);
    }
  }

  /** Both backends are sent the same request: the system prompt, the
      windowed history and the message. */
  lemma EveryCallSendsWindow(r: RateView, now: int, b: Backends, systemPrompt: string,
                             history: seq<Message>, message: string)
    ensures forall c | c in Respond(r, now, b, systemPrompt, history, message).calls ::
              c.request == ChatRequest(systemPrompt, history, message)
  {
  }

  /** What the call leaves in the tracker: nothing but the check's own resets
      when the primary is skipped; one record when it returned (even empty
      text); a 60-second cool-down when it raised a quota error; no other
      change when it raised anything else. */
  lemma TrackerEffects(r: RateView, now: int, b: Backends, systemPrompt: string,
                       history: seq<Message>, message: string)
    ensures var res := Respond(r, now, b, systemPrompt, history, message);
            var req := ChatRequest(systemPrompt, history, message);
            var c := CanUse(r, now);
            && (b.primary.None? ==> res.rate == r)
            && (b.primary.Some? && !c.permitted ==> res.rate == c.after)
            && (b.primary.Some? && c.permitted && b.primary.value(req).Returned? ==> res.rate == Recorded(c.after))
            && (b.primary.Some? && c.permitted && b.primary.value(req).Raised? ==>
                  res.rate == if IsQuotaError(b.primary.value(req).error)
                              then Blocked(c.after, now, CooldownSeconds) else c.after)
  {
  }

  /** A quota error from the primary makes the next call, made before the
      60-second cool-down ends, skip the primary entirely whatever the
      counters say, and take the secondary's text when it has some. */
  lemma QuotaErrorSkipsPrimaryNextTime(r: RateView, now: int, later: int, b: Backends,
                                       systemPrompt: string, history: seq<Message>, message: string,
                                       history2: seq<Message>, message2: string)
    requires b.primary.Some? && CanUse(r, now).permitted
    requires var req := ChatRequest(systemPrompt, history, message);
             b.primary.value(req).Raised? && IsQuotaError(b.primary.value(req).error)
    requires later < now + CooldownSeconds
    ensures var first := Respond(r, now, b, systemPrompt, history, message);
            var second := Respond(first.rate, later, b, systemPrompt, history2, message2);
            var req2 := ChatRequest(systemPrompt, history2, message2);
            && first.rate.blockedUntil == Some(now + CooldownSeconds)
            && Call(Primary, req2) !in second.calls
            && second.rate == first.rate
            && (SecondaryAnswers(b, req2) ==> second.provider == DeepSeek)
  {
  }

  // ---------------------------------------------------------------------------
  // do_research

  /** The research question's fixed prose around the interpolated fields. */
  const ResearchIntro: string :=
    "Şu iki pozisyon arasındaki temel farkları ve tartışma noktalarını kısaca özetle:\n    \nPozisyon 1: "
  const ResearchOutro: string :=
    "\n\nŞunları listele (kısa):\n1. Pozisyon 1'in temel inançları (3 madde)\n2. Pozisyon 2'nin temel inançları (3 madde)  \n"
    + "3. Ana çelişki/tartışma noktaları (3 madde)\n4. Saldırı için kullanılabilecek zayıf noktalar (3 madde)\n\nTürkçe yaz, kısa tut."

  const SecondPositionLabel: string := "\nPozisyon 2: "
  const TopicLabel: string := "\nKonu: "

  /** The research question about the two positions and the topic. */
  function ResearchPrompt(userPosition: string, botPosition: string, topic: string): (p: string)
    ensures Contains(p, userPosition) && Contains(p, botPosition) && Contains(p, topic)
  {
    var beforeBot := ResearchIntro + userPosition + SecondPositionLabel;
    var beforeTopic := beforeBot + botPosition + TopicLabel;
    ContainsPiece(ResearchIntro, userPosition, SecondPositionLabel);
    ContainsBefore(beforeBot, botPosition, userPosition);
    ContainsBefore(beforeBot + botPosition, TopicLabel, userPosition);
    ContainsPiece(beforeBot, botPosition, TopicLabel);
    ContainsBefore(beforeTopic, topic, userPosition);
    ContainsBefore(beforeTopic, topic, botPosition);
    ContainsBefore(beforeTopic + topic, ResearchOutro, userPosition);
    ContainsBefore(beforeTopic + topic, ResearchOutro, botPosition);
    ContainsPiece(beforeTopic, topic, ResearchOutro);
    beforeTopic + topic + ResearchOutro
  }

  /** The research call: no system instruction and no history. */
  function ResearchRequest(prompt: string): Request {
    Request(None, [], prompt)
  }

  datatype Research = Research(notes: string, rate: RateView, calls: seq<Call>)

  /** `do_research`: the primary's text when its client exists, the tracker
      permits and the call returns; the placeholder otherwise. A failing
      research call never starts a cool-down. */
  function ResearchSpec(r: RateView, now: int, primary: Option<Service>, prompt: string): (res: Research)
    ensures res.rate.blockedUntil == r.blockedUntil
    ensures res.calls == [] || res.calls == [Call(Primary, ResearchRequest(prompt))]
    ensures res.calls == [] <==> primary.None? || !CanUse(r, now).permitted
    ensures res.calls == [] || primary.value(ResearchRequest(prompt)).Raised? ==> res.notes == ResearchPlaceholder
    ensures res.calls == [] || primary.value(ResearchRequest(prompt)).Raised? ==>
              res.rate == if primary.None? then r else CanUse(r, now).after
    ensures res.calls != [] && primary.value(ResearchRequest(prompt)).Returned? ==>
              res.notes == primary.value(ResearchRequest(prompt)).text && res.rate == Recorded(CanUse(r, now).after)
  {
    if primary.None? then Research(ResearchPlaceholder, r, [])
    else
      var c := CanUse(r, now);
      if !c.permitted then Research(ResearchPlaceholder, c.after, [])
      else
        var req := ResearchRequest(prompt);
        match primary.value(req)
        case Returned(text) => Research(text, Recorded(c.after), [Call(Primary, req)])
        case Raised(_) => Research(ResearchPlaceholder, c.after, [Call(Primary, req)])
  }

  method DoResearch(tracker: RateLimitTracker, now: int, primary: Option<Service>, prompt: string)
    returns (notes: string, calls: seq<Call>)
    modifies tracker
    ensures Research(notes, tracker.View(), calls) == ResearchSpec(old(tracker.View()), now, primary, prompt)
  {
    if primary.Some? {
      var permitted := tracker.CanUseGemini(now);
      if permitted {
        var req := ResearchRequest(prompt);
        match primary.value(req)
        case Returned(text) =>
          tracker.RecordRequest();
          return text, [Call(Primary, req)];
        case Raised(_) =>
          return ResearchPlaceholder, [Call(Primary, req)];
      }
    }
    return ResearchPlaceholder, [];
  }
}
