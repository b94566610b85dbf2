/** One chat's debate session: the five-question setup, the research call at
    its end, and the discussion rule pipeline (concession, defer, delegate,
    generation turn). Each handler returns the messages it would send. */
module Session {
  import opened Optional
  import opened Text
  import opened RateLimit
  import opened Gateway

  datatype Phase = Idle | Setup | Discussing

  /** A `MunazaraSession`'s fields as a value. */
  datatype SessionView = SessionView(
    phase: Phase,
    setupStep: nat,
    userPosition: string,
    botPosition: string,
    severity: string,
    style: string,
    topic: string,
    currentPoint: int,
    turnCount: nat,
    pointsWon: seq<string>,
    pointsLost: seq<string>,
    pointsPending: seq<string>,
    chatHistory: seq<Message>,
    researchNotes: string)

  const Hafif: string := "🟢Hafif"
  const Orta: string := "🟡Orta"
  const Sert: string := "🔴Sert"
  const Vahsi: string := "⚫Vahşi"
  /** The four severities, in the order of the system prompt's severity lines. */
  const Severities: seq<string> := [Hafif, Orta, Sert, Vahsi]
  const Sokratik: string := "Sokratik"
  const Diyalektik: string := "Diyalektik"

  /** `MunazaraSession()`. */
  const Fresh: SessionView :=
    SessionView(Idle, 0, "", "", Orta, Diyalektik, "", 0, 0, [], [], [], [], "")

  /** `MunazaraSession(state="SETUP", setup_step=0)`. */
  const SetupStart: SessionView := Fresh.(phase := Setup)

  /** The setup questions, one per step (their prose is shortened to each
      question's heading). */
  const SetupQuestions: seq<string> := [
    "🎭 **Münazara GPT'ye Hoş Geldiniz!**\n\n**1️⃣ Siz kimsiniz?** (Savunacağınız pozisyon)",
    "**2️⃣ Ben hangi pozisyondan saldırayım?**",
    "**3️⃣ Sertlik seviyesi:**\n\n🟢 Hafif\n🟡 Orta\n🔴 Sert\n⚫ Vahşi",
    "**4️⃣ Tartışma stili:**\n\n**Sokratik**\n**Diyalektik**",
    "**5️⃣ Konu:**"
  ]

  // ---------------------------------------------------------------------------
  // Setup answers

  predicate SaysHafif(text: string) { Contains(Lower(text), "hafif") || Contains(text, "🟢") }
  predicate SaysVahsi(text: string) { Contains(Lower(text), "vahşi") || Contains(text, "⚫") }
  predicate SaysSert(text: string) { Contains(Lower(text), "sert") || Contains(text, "🔴") }

  /** The severity answer, matched in the order hafif, vahşi, sert, with
      "Orta" as the default. */
  function ClassifySeverity(text: string): (s: string)
    ensures s in Severities
    ensures s == Hafif <==> SaysHafif(text)
    ensures s == Vahsi <==> !SaysHafif(text) && SaysVahsi(text)
    ensures s == Sert <==> !SaysHafif(text) && !SaysVahsi(text) && SaysSert(text)
    ensures s == Orta <==> !SaysHafif(text) && !SaysVahsi(text) && !SaysSert(text)
  {
    if SaysHafif(text) then Hafif
    else if SaysVahsi(text) then Vahsi
    else if SaysSert(text) then Sert
    else Orta
  }

  /** The style answer: Sokratik exactly when the lower-cased text says so. */
  function ClassifyStyle(text: string): (s: string)
    ensures s == Sokratik <==> Contains(Lower(text), "sokratik")
    ensures s == Sokratik || s == Diyalektik
  {
    if Contains(Lower(text), "sokratik") then Sokratik else Diyalektik
  }

  /** The answer to question `setupStep`, stored in that question's field:
      each of the five fields changes only at its own step, the severity and
      style being read from the answer, and nothing else changes. */
  function RecordAnswer(v: SessionView, text: string): (w: SessionView)
    ensures w.(userPosition := v.userPosition, botPosition := v.botPosition, severity := v.severity,
               style := v.style, topic := v.topic) == v
    ensures w.userPosition == if v.setupStep == 0 then text else v.userPosition
    ensures w.botPosition == if v.setupStep == 1 then text else v.botPosition
    ensures w.severity == if v.setupStep == 2 then ClassifySeverity(text) else v.severity
    ensures w.style == if v.setupStep == 3 then ClassifyStyle(text) else v.style
    ensures w.topic == if v.setupStep == 4 then text else v.topic
  {
    match v.setupStep
    case 0 => v.(userPosition := text)
    case 1 => v.(botPosition := text)
    case 2 => v.(severity := ClassifySeverity(text))
    case 3 => v.(style := ClassifyStyle(text))
    case 4 => v.(topic := text)
    case _ => v
  }

  const SavedNotice: string := "⏳ Ayarlar kaydedildi. Araştırma yapılıyor..."

  /** The fixed prose of the message that opens the discussion. */
  const ReadyHeader: string := "✅ **Münazara Hazır!**\n\n**Pozisyonlar:**\n👤 Siz: "
  const ReadyRule: string :=
    "\n\n⚠️ **KURAL:** Bir çürütmemi geçmem için \"haklısın\" demeniz gerekir.\n\n🎯 Şimdi ilk iddianızı söyleyin! ("
  const NoMention: string := "botu etiketleyerek"

  /** The message that opens the discussion, echoing the settings. */
  function ReadyMessage(v: SessionView, botUsername: string): string {
    var mention := if botUsername != "" then "@" + botUsername else NoMention;
    ReadyHeader + v.userPosition + "\n🤖 Ben: " + v.botPosition
    + "\n\n**Ayarlar:**\nSertlik: " + v.severity + "\nStil: " + v.style + "\nKonu: " + v.topic
    + ReadyRule + mention + " ile başlayın)"
  }

  /** What one handler call leaves: the session, the tracker, the messages
      sent and the backend calls made. */
  datatype Step = Step(session: SessionView, rate: RateView, outbound: seq<string>, calls: seq<Call>)

  /** `handle_setup`: store the answer, advance the step, then either ask the
      next question or run the research call and open the discussion. */
  function SetupSpec(v: SessionView, text: string, r: RateView, now: int,
                     primary: Option<Service>, botUsername: string): (s: Step)
    ensures s.session.setupStep == v.setupStep + 1
    ensures s.session.setupStep < |SetupQuestions| ==>
              && s.session == RecordAnswer(v, text).(setupStep := v.setupStep + 1)
              && s.rate == r && s.calls == []
              && s.outbound == [SetupQuestions[s.session.setupStep]]
    ensures s.session.setupStep >= |SetupQuestions| ==>
              var w := RecordAnswer(v, text).(setupStep := v.setupStep + 1);
              var res := ResearchSpec(r, now, primary, ResearchPrompt(w.userPosition, w.botPosition, w.topic));
              && s.session == w.(researchNotes := res.notes, phase := Discussing)
              && s.rate == res.rate && s.calls == res.calls
              && s.outbound == [SavedNotice, ReadyMessage(s.session, botUsername)]
  {
    var w := RecordAnswer(v, text).(setupStep := v.setupStep + 1);
    if w.setupStep < |SetupQuestions| then
      Step(w, r, [SetupQuestions[w.setupStep]], [])
    else
      Opening(w, r, now, primary, botUsername)
  }

  /** After the last answer: research the topic, store the notes and open the
      discussion. */
  function Opening(w: SessionView, r: RateView, now: int, primary: Option<Service>,
                   botUsername: string): (s: Step)
    ensures var res := ResearchSpec(r, now, primary, ResearchPrompt(w.userPosition, w.botPosition, w.topic));
            && s.session.phase == Discussing && s.session.researchNotes == res.notes
            && s.session.(phase := w.phase, researchNotes := w.researchNotes) == w
            && s.rate == res.rate && s.calls == res.calls
            && s.outbound == [SavedNotice, ReadyMessage(s.session, botUsername)]
  {
    var res := ResearchSpec(r, now, primary, ResearchPrompt(w.userPosition, w.botPosition, w.topic));
    var d := w.(researchNotes := res.notes, phase := Discussing);
    Step(d, res.rate, [SavedNotice, ReadyMessage(d, botUsername)], res.calls)
  }

  // ---------------------------------------------------------------------------
  // Discussion rules

  const ConcessionMarkers: seq<string> := ["haklısın", "haklısin", "pes", "1️⃣"]
  const DeferMarkers: seq<string> := ["geç", "geçelim", "3️⃣"]
  const DelegateInstruction: string := "Benim yerime cevap ver ve devam et."
  const ConcededReply: string := "✅ Bu noktayı geçiyorum. Başka açıdan saldırıyorum.\n\nYeni iddianızı söyleyin."
  const DeferredReply: string := "⏸️ Askıya aldım, çözülmedi, not ettim. Başka noktaya geçiyorum.\n\nYeni iddianızı söyleyin."
  const StalemateSuffix: string := "\n\n⚠️ _5 tur oldu. Kilitlendik mi? 'geç' yazabilirsiniz._"
  const StalemateTurns: nat := 5
  /** How much of the last history entry a noted point keeps. */
  const SnippetLength: nat := 50

  /** The rule that handles a discussion message, first match winning. */
  datatype Rule = Concede | Defer | Generate(message: string)

  /** The delegate marker: "2️⃣" in the raw text or "cevap ver" in the
      normalised text. */
  predicate IsDelegate(text: string) {
    Contains(text, "2️⃣") || Contains(Strip(Lower(text)), "cevap ver")
  }

  function SelectRule(text: string): (rule: Rule)
    ensures rule.Concede? <==> ContainsAny(Strip(Lower(text)), ConcessionMarkers)
    ensures rule.Defer? <==> !rule.Concede? && ContainsAny(Strip(Lower(text)), DeferMarkers)
    ensures rule.Generate? ==> rule.message == if IsDelegate(text) then DelegateInstruction else text
  {
    var normalised := Strip(Lower(text));
    if ContainsAny(normalised, ConcessionMarkers) then Concede
    else if ContainsAny(normalised, DeferMarkers) then Defer
    else if IsDelegate(text) then Generate(DelegateInstruction)
    else Generate(text)
  }

  /** The point a concession or deferral notes: the first 50 characters of the
      last history entry followed by "...". */
  function Snippet(history: seq<Message>): (p: string)
    requires history != []
    ensures var content := history[|history| - 1].content;
            |p| == (if |content| < SnippetLength then |content| else SnippetLength) + 3
    ensures 3 <= |p| <= SnippetLength + 3
    ensures IsPrefix(p[..|p| - 3], history[|history| - 1].content) && p[|p| - 3..] == "..."
  {
    Take(history[|history| - 1].content, SnippetLength) + "..."
  }

  /** What a concession or deferral appends to its list: the snippet, or
      nothing while the history is empty. */
  function Noted(history: seq<Message>): (ps: seq<string>)
    ensures |ps| == if history == [] then 0 else 1
    ensures history != [] ==> ps == [Snippet(history)]
  {
    if history == [] then [] else [Snippet(history)]
  }

  function UserEntry(userName: string, message: string): Message {
    Message(User, "[" + userName + "]: " + message)
  }

  function Footer(p: Provider): string {
    "\n\n_[" + Label(p) + "]_"
  }

  /** The step of a generation turn once the gateway has produced `res`:
      the user entry and the bare reply join the history, the turn is
      counted, and the sent reply carries the stalemate warning from the
      fifth turn on and the provider footer. */
  function AfterReply(v: SessionView, entry: Message, res: Response): Step {
    var turns := v.turnCount + 1;
    var reply := res.text + (if turns >= StalemateTurns then StalemateSuffix else "") + Footer(res.provider);
    Step(v.(chatHistory := v.chatHistory + [entry, Message(Assistant, res.text)], turnCount := turns),
         res.rate, [reply], res.calls)
  }

  /** The generation turn: the user entry is appended, the gateway answers
      from the history window (which already holds that entry), the reply is
      appended, the turn is counted, and the reply sent carries the stalemate
      warning from the fifth turn on and names its provider. */
  function GenerationTurn(v: SessionView, message: string, userName: string, r: RateView,
                          now: int, b: Backends): (s: Step)
    ensures s.session.turnCount == v.turnCount + 1
    ensures |s.session.chatHistory| == |v.chatHistory| + 2
    ensures |s.outbound| == 1
  {
    var entry := UserEntry(userName, message);
    AfterReply(v, entry, Respond(r, now, b, SystemPrompt(v), v.chatHistory + [entry], message))
  }

  /** `handle_discussion`: the first matching rule decides. */
  function DiscussionSpec(v: SessionView, text: string, userName: string, r: RateView,
                          now: int, b: Backends): (s: Step)
    ensures |s.outbound| == 1
    ensures SelectRule(text).Concede? ==>
              && s.session == v.(pointsWon := v.pointsWon + Noted(v.chatHistory), turnCount := 0)
              && s.outbound == [ConcededReply] && s.rate == r && s.calls == []
    ensures SelectRule(text).Defer? ==>
              && s.session == v.(pointsPending := v.pointsPending + Noted(v.chatHistory), turnCount := 0)
              && s.outbound == [DeferredReply] && s.rate == r && s.calls == []
    ensures SelectRule(text).Generate? ==> s == GenerationTurn(v, SelectRule(text).message, userName, r, now, b)
  {
    match SelectRule(text)
    case Concede =>
      Step(v.(pointsWon := v.pointsWon + Noted(v.chatHistory), turnCount := 0), r, [ConcededReply], [])
    case Defer =>
      Step(v.(pointsPending := v.pointsPending + Noted(v.chatHistory), turnCount := 0), r, [DeferredReply], [])
    case Generate(message) =>
      GenerationTurn(v, message, userName, r, now, b)
  }

  // ---------------------------------------------------------------------------
  // System prompt

  const SeverityKeywords: seq<string> := ["Hafif", "Orta", "Sert", "Vahşi"]
  const HafifLine: string := "🟢Hafif: Nazik dil, soru ağırlıklı"
  const OrtaLine: string := "🟡Orta: Direkt dil, iddia+soru dengeli"
  const SertLine: string := "🔴Sert: Keskin dil, kaçışa sıfır tolerans"
  const VahsiLine: string := "⚫Vahşi: Acımasız, reductio ad absurdum, merhamet yok"
  const SokratikLine: string := "Sokratik: Karşı iddia YOK. Sadece tek soru ama tuzak kuran."
  const DiyalektikLine: string := "Diyalektik: İddia + soru karışık."

  /** The severity section's four lines; line `k` is present exactly when the
      severity contains keyword `k`. */
  function SeverityLines(severity: string): (lines: seq<string>)
    ensures |lines| == |SeverityKeywords|
    ensures forall k :: 0 <= k < |lines| ==> (lines[k] != "" <==> Contains(severity, SeverityKeywords[k]))
  {
    [ if Contains(severity, "Hafif") then HafifLine else "",
      if Contains(severity, "Orta") then OrtaLine else "",
      if Contains(severity, "Sert") then SertLine else "",
      if Contains(severity, "Vahşi") then VahsiLine else "" ]
  }

  function StyleLine(style: string): string {
    if Contains(style, "Sokratik") then SokratikLine else DiyalektikLine
  }

  /** The system prompt's fixed prose (shortened to its section headings). */
  const PromptHeader: string := "# 🔥 MÜNAZARA GPT - RAKİP MODU\n\n## ROLLER\n- KULLANICI: "
  const PromptNotesHeading: string := "\n\n## ARAŞTIRMA NOTLARIN (KULLANICIYA GÖSTERME)\n"
  const PromptRules: string :=
    "\n\n## SALDIRI FORMATI (HER TURDA)\n## ISRAR KURALI\n## KAÇIŞ TESPİTİ\n\n## SERTLİK: "
  const PromptLimits: string := "\n\n## TUR SONU\n## YASAKLAR\n## SINIRLAR"

  /** The prompt up to the research notes: roles and settings. */
  function PromptPreamble(v: SessionView): string {
    PromptHeader + v.userPosition + " (savunuyor)\n- SEN: " + v.botPosition + " (saldırıyor)\n\n## AYARLAR\n- Sertlik: "
    + v.severity + "\n- Stil: " + v.style + "\n- Konu: " + v.topic + PromptNotesHeading
  }

  /** The rules and the severity section with its selected lines. */
  function SeveritySection(severity: string): string {
    PromptRules + severity + "\n" + Join("\n", SeverityLines(severity))
  }

  /** The style section and the closing limits. */
  function StyleSection(style: string): string {
    "\n\n## STİL: " + style + "\n" + StyleLine(style) + PromptLimits
  }

  /** `get_system_prompt`: the fixed prose with the session's positions,
      settings, research notes and the conditional severity and style lines. */
  function SystemPrompt(v: SessionView): string {
    PromptPreamble(v) + v.researchNotes + SeveritySection(v.severity) + StyleSection(v.style)
  }

  /** The prompt is built from the settings only, never from the history. */
  lemma PromptIgnoresHistory(v: SessionView, h: seq<Message>)
    ensures SystemPrompt(v.(chatHistory := h)) == SystemPrompt(v)
  {
  }

  /** The prompt carries the research notes, every severity line selected
      for the session's severity and the line of its style. */
  lemma PromptCarriesSettings(v: SessionView)
    ensures Contains(SystemPrompt(v), v.researchNotes)
    ensures forall k | 0 <= k < |SeverityKeywords| :: Contains(SystemPrompt(v), SeverityLines(v.severity)[k])
    ensures Contains(SystemPrompt(v), StyleLine(v.style))
  {
    var pre, sev, sty := PromptPreamble(v), SeveritySection(v.severity), StyleSection(v.style);
    ContainsPiece(pre, v.researchNotes, sev + sty);
    assert pre + v.researchNotes + (sev + sty) == SystemPrompt(v);
    forall k | 0 <= k < |SeverityKeywords| ensures Contains(SystemPrompt(v), SeverityLines(v.severity)[k]) {
      var line := SeverityLines(v.severity)[k];
      JoinKeepsParts("\n", SeverityLines(v.severity), k);
      ContainsAfter(PromptRules + v.severity + "\n", Join("\n", SeverityLines(v.severity)), line);
      ContainsAfter(pre + v.researchNotes, sev, line);
      ContainsBefore(pre + v.researchNotes + sev, sty, line);
    }
    ContainsPiece("\n\n## STİL: " + v.style + "\n", StyleLine(v.style), PromptLimits);
    ContainsAfter(pre + v.researchNotes + sev, sty, StyleLine(v.style));
  }

  // ---------------------------------------------------------------------------
  // Properties of the pure handlers

  /** Severity keyword `j` occurs in severity value `k` exactly when `j == k`. */
  lemma KeywordOccursOnlyInItsSeverity(k: nat, j: nat)
    requires k < |Severities| && j < |SeverityKeywords|
    ensures Contains(Severities[k], SeverityKeywords[j]) <==> k == j
  {
    var sev, word := Severities[k], SeverityKeywords[j];
    if k == j {
      ContainsAt(sev, word, 1);
    } else if Contains(sev, word) {
      ContainedCharsOccur(sev, word, 0);
    }
  }

  /** For each of the four severities the prompt carries exactly its own
      severity line. */
  lemma OneSeverityLine(severity: string)
    requires severity in Severities
    ensures forall j :: 0 <= j < |SeverityKeywords| ==>
              (SeverityLines(severity)[j] != "" <==> severity == Severities[j])
  {
    var k :| 0 <= k < |Severities| && Severities[k] == severity;
    forall j | 0 <= j < |SeverityKeywords|
      ensures SeverityLines(severity)[j] != "" <==> severity == Severities[j]
    {
      KeywordOccursOnlyInItsSeverity(k, j);
    }
  }

  /** The severity answer is read without regard to case. */
  lemma SeverityIgnoresCase(text: string)
    ensures ClassifySeverity(Lower(text)) == ClassifySeverity(text)
  {
    LowerIdempotent(text);
    LowerKeepsCaseless(text, "🟢");
    LowerKeepsCaseless(text, "⚫");
    LowerKeepsCaseless(text, "🔴");
  }

  /** The style answer is read without regard to case. */
  lemma StyleIgnoresCase(text: string)
    ensures ClassifyStyle(Lower(text)) == ClassifyStyle(text)
  {
    LowerIdempotent(text);
  }

  /** Which rule fires does not depend on letter case. */
  lemma RuleIgnoresCase(text: string)
    ensures SelectRule(Lower(text)).Concede? <==> SelectRule(text).Concede?
    ensures SelectRule(Lower(text)).Defer? <==> SelectRule(text).Defer?
    ensures IsDelegate(Lower(text)) <==> IsDelegate(text)
  {
    LowerIdempotent(text);
    LowerKeepsCaseless(text, "2️⃣");
  }

  /** Stripping surrounding whitespace before matching changes nothing: every
      marker starts and ends with a non-space character. */
  lemma MarkersIgnoreSurroundingSpace(text: string)
    ensures ContainsAny(Strip(Lower(text)), ConcessionMarkers) <==> ContainsAny(Lower(text), ConcessionMarkers)
    ensures ContainsAny(Strip(Lower(text)), DeferMarkers) <==> ContainsAny(Lower(text), DeferMarkers)
    ensures Contains(Strip(Lower(text)), "cevap ver") <==> Contains(Lower(text), "cevap ver")
  {
    forall p | p in ConcessionMarkers + DeferMarkers + ["cevap ver"]
      ensures Contains(Strip(Lower(text)), p) <==> Contains(Lower(text), p)
    {
      StripKeepsTrimmed(Lower(text), p);
    }
  }

  /** A generation turn appends exactly the user entry and then the gateway's
      bare reply, counts one turn and changes nothing else in the session. */
  lemma GenerationTurnHistory(v: SessionView, message: string, userName: string, r: RateView,
                              now: int, b: Backends)
    ensures var s := GenerationTurn(v, message, userName, r, now, b);
            var h := v.chatHistory + [UserEntry(userName, message)];
            var res := Respond(r, now, b, SystemPrompt(v), h, message);
            && s.session == v.(chatHistory := v.chatHistory + [UserEntry(userName, message), Message(Assistant, res.text)],
                               turnCount := v.turnCount + 1)
            && s.rate == res.rate && s.calls == res.calls
  {
  }

  /** Every backend call of a generation turn is sent the (possibly
      rewritten) message and the last `min(10, n)` of the `n` history
      entries, the newest being the user entry just appended. */
  lemma GenerationTurnCalls(v: SessionView, message: string, userName: string, r: RateView,
                            now: int, b: Backends)
    ensures var s := GenerationTurn(v, message, userName, r, now, b);
            var n := |v.chatHistory| + 1;
            forall c | c in s.calls ::
              && c.request.message == message
              && c.request.systemPrompt == Some(SystemPrompt(v))
              && |c.request.history| == (if n < HistoryWindow then n else HistoryWindow)
              && c.request.history[|c.request.history| - 1] == UserEntry(userName, message)
  {
    var h := v.chatHistory + [UserEntry(userName, message)];
    EveryCallSendsWindow(r, now, b, SystemPrompt(v), h, message);
    WindowKeepsNewest(h);
  }

  /** The message sent is the stored reply, then the stalemate warning from
      the fifth turn since the last concession or deferral on, then the footer
      naming the provider; from the fifth turn on it contains the warning. */
  lemma StalemateWarning(v: SessionView, message: string, userName: string, r: RateView,
                         now: int, b: Backends)
    ensures var s := GenerationTurn(v, message, userName, r, now, b);
            var h := v.chatHistory + [UserEntry(userName, message)];
            var res := Respond(r, now, b, SystemPrompt(v), h, message);
            var stored := s.session.chatHistory[|s.session.chatHistory| - 1].content;
            && s.outbound[0] == stored + (if s.session.turnCount >= StalemateTurns then StalemateSuffix else "")
                                + Footer(res.provider)
            && (v.turnCount + 1 >= StalemateTurns ==> Contains(s.outbound[0], StalemateSuffix))
  {
    var s := GenerationTurn(v, message, userName, r, now, b);
    var h := v.chatHistory + [UserEntry(userName, message)];
    var res := Respond(r, now, b, SystemPrompt(v), h, message);
    if v.turnCount + 1 >= StalemateTurns {
      ContainsPiece(res.text, StalemateSuffix, Footer(res.provider));
    }
  }

  /** A concession or deferral touches neither the history nor the tracker,
      calls no backend, resets the turn count whatever it was, and notes at
      most one point of at most 53 characters. */
  lemma ClosingRuleEffects(v: SessionView, text: string, userName: string, r: RateView,
                           now: int, b: Backends)
    requires !SelectRule(text).Generate?
    ensures var s := DiscussionSpec(v, text, userName, r, now, b);
            var noted := if SelectRule(text).Concede? then s.session.pointsWon else s.session.pointsPending;
            var before := if SelectRule(text).Concede? then v.pointsWon else v.pointsPending;
            && s.calls == [] && s.rate == r
            && s.session.chatHistory == v.chatHistory
            && s.session.turnCount == 0
            && s.session.phase == v.phase
            && noted[..|before|] == before
            && |noted| == |before| + (if v.chatHistory == [] then 0 else 1)
            && (v.chatHistory != [] ==> |noted[|before|]| <= SnippetLength + 3)
  {
  }

  // ---------------------------------------------------------------------------
  // The session invariant

  predicate NotYetDiscussed(v: SessionView) {
    v.turnCount == 0 && v.pointsWon == [] && v.pointsPending == [] && v.chatHistory == []
  }

  /** Users and assistant take turns, starting with a user entry. */
  predicate Alternates(h: seq<Message>) {
    |h| % 2 == 0 && forall i :: 0 <= i < |h| ==> h[i].role == if i % 2 == 0 then User else Assistant
  }

  /** The shape of every session the handlers can produce. */
  predicate WellFormed(v: SessionView) {
    && (v.phase == Idle ==> v == Fresh)
    && (v.phase == Setup ==> v.setupStep < |SetupQuestions| && v.researchNotes == "" && NotYetDiscussed(v))
    && (v.phase == Discussing ==> v.setupStep == |SetupQuestions|)
    && v.severity in Severities
    && (v.style == Sokratik || v.style == Diyalektik)
    && v.pointsLost == []
    && (forall i :: 0 <= i < |v.pointsWon| ==> |v.pointsWon[i]| <= SnippetLength + 3)
    && (forall i :: 0 <= i < |v.pointsPending| ==> |v.pointsPending[i]| <= SnippetLength + 3)
    && Alternates(v.chatHistory)
  }

  lemma FreshSessionsWellFormed()
    ensures WellFormed(Fresh) && WellFormed(SetupStart)
  {
  }

  /** A setup answer keeps the session well formed; the discussion opens
      exactly at the fifth answer, and without a usable primary the research
      notes are the placeholder. */
  lemma SetupKeepsWellFormed(v: SessionView, text: string, r: RateView, now: int,
                             primary: Option<Service>, botUsername: string)
    requires WellFormed(v) && v.phase == Setup
    ensures var s := SetupSpec(v, text, r, now, primary, botUsername);
            && WellFormed(s.session)
            && (s.session.phase == Discussing <==> v.setupStep == |SetupQuestions| - 1)
            && (s.session.phase == Setup <==> v.setupStep < |SetupQuestions| - 1)
            && (s.session.phase == Discussing && (primary.None? || !CanUse(r, now).permitted) ==>
                  s.session.researchNotes == ResearchPlaceholder)
  {
  }

  /** Appending the noted snippet keeps every noted point short. */
  lemma NotedPointsShort(points: seq<string>, history: seq<Message>)
    requires forall i :: 0 <= i < |points| ==> |points[i]| <= SnippetLength + 3
    ensures var ps := points + Noted(history);
            forall i :: 0 <= i < |ps| ==> |ps[i]| <= SnippetLength + 3
  {
  }

  /** One user entry and one assistant entry keep the turns alternating. */
  lemma ExchangeKeepsWellFormed(v: SessionView, question: Message, answer: Message)
    requires WellFormed(v) && v.phase == Discussing
    requires question.role == User && answer.role == Assistant
    ensures WellFormed(v.(chatHistory := v.chatHistory + [question, answer], turnCount := v.turnCount + 1))
  {
  }

  lemma GenerationKeepsWellFormed(v: SessionView, message: string, userName: string, r: RateView,
                                  now: int, b: Backends)
    requires WellFormed(v) && v.phase == Discussing
    ensures var s := GenerationTurn(v, message, userName, r, now, b);
            WellFormed(s.session) && s.session.phase == Discussing
  {
    GenerationTurnHistory(v, message, userName, r, now, b);
    var h := v.chatHistory + [UserEntry(userName, message)];
    var res := Respond(r, now, b, SystemPrompt(v), h, message);
    ExchangeKeepsWellFormed(v, UserEntry(userName, message), Message(Assistant, res.text));
  }

  /** A discussion message keeps the session well formed and in discussion. */
  lemma DiscussionKeepsWellFormed(v: SessionView, text: string, userName: string, r: RateView,
                                  now: int, b: Backends)
    requires WellFormed(v) && v.phase == Discussing
    ensures var s := DiscussionSpec(v, text, userName, r, now, b);
            WellFormed(s.session) && s.session.phase == Discussing
  {
    match SelectRule(text)
    case Concede =>
      NotedPointsShort(v.pointsWon, v.chatHistory);
    case Defer =>
      NotedPointsShort(v.pointsPending, v.chatHistory);
    case Generate(message) =>
      GenerationKeepsWellFormed(v, message, userName, r, now, b);
  }

  // ---------------------------------------------------------------------------
  // The mutable session

  class MunazaraSession {
    var phase: Phase
    var setupStep: nat
    var userPosition: string
    var botPosition: string
    var severity: string
    var style: string
    var topic: string
    var currentPoint: int
    var turnCount: nat
    var pointsWon: seq<string>
    var pointsLost: seq<string>
    var pointsPending: seq<string>
    var chatHistory: seq<Message>
    var researchNotes: string

    function View(): SessionView
      reads this
    {
      SessionView(phase, setupStep, userPosition, botPosition, severity, style, topic,
                  currentPoint, turnCount, pointsWon, pointsLost, pointsPending, chatHistory, researchNotes)
    }

    /** `MunazaraSession()`. */
    constructor ()
      ensures View() == Fresh
    {
      phase, setupStep := Idle, 0;
      userPosition, botPosition, severity, style, topic := "", "", Orta, Diyalektik, "";
      currentPoint, turnCount := 0, 0;
      pointsWon, pointsLost, pointsPending, chatHistory := [], [], [], [];
      researchNotes := "";
    }

    /** `MunazaraSession(state="SETUP", setup_step=0)`. */
    constructor StartSetup()
      ensures View() == SetupStart
    {
      phase, setupStep := Setup, 0;
      userPosition, botPosition, severity, style, topic := "", "", Orta, Diyalektik, "";
      currentPoint, turnCount := 0, 0;
      pointsWon, pointsLost, pointsPending, chatHistory := [], [], [], [];
      researchNotes := "";
    }
  }

  method HandleSetup(session: MunazaraSession, tracker: RateLimitTracker, now: int,
                     primary: Option<Service>, text: string, botUsername: string)
    returns (outbound: seq<string>, calls: seq<Call>)
    modifies session, tracker
    ensures Step(session.View(), tracker.View(), outbound, calls)
         == SetupSpec(old(session.View()), text, old(tracker.View()), now, primary, botUsername)
  {
    StoreAnswer(session, text);
    if session.setupStep < |SetupQuestions| {
      outbound, calls := [SetupQuestions[session.setupStep]], [];
      return;
    }
    outbound, calls := OpenDiscussion(session, tracker, now, primary, botUsername);
  }

  /** The answer is stored in the field of the current question and the
      step advances. */
  method StoreAnswer(session: MunazaraSession, text: string)
    modifies session
    ensures session.View() == RecordAnswer(old(session.View()), text).(setupStep := old(session.setupStep) + 1)
  {
    var step := session.setupStep;
    if step == 0 {
      session.userPosition := text;
    } else if step == 1 {
      session.botPosition := text;
    } else if step == 2 {
      session.severity := ClassifySeverity(text);
    } else if step == 3 {
      session.style := ClassifyStyle(text);
    } else if step == 4 {
      session.topic := text;
    }
    session.setupStep := session.setupStep + 1;
  }

  method OpenDiscussion(session: MunazaraSession, tracker: RateLimitTracker, now: int,
                        primary: Option<Service>, botUsername: string)
    returns (outbound: seq<string>, calls: seq<Call>)
    modifies session, tracker
    ensures Step(session.View(), tracker.View(), outbound, calls)
         == Opening(old(session.View()), old(tracker.View()), now, primary, botUsername)
  {
    ghost var w := session.View();
    var notes;
    notes, calls := DoResearch(tracker, now, primary,
                               ResearchPrompt(session.userPosition, session.botPosition, session.topic));
    session.researchNotes := notes;
    session.phase := Discussing;
    assert session.View() == w.(researchNotes := notes, phase := Discussing);
    outbound := [SavedNotice, ReadyMessage(session.View(), botUsername)];
  }

  method HandleDiscussion(session: MunazaraSession, tracker: RateLimitTracker, now: int,
                          backends: Backends, text: string, userName: string)
    returns (reply: string, calls: seq<Call>)
    modifies session, tracker
    ensures Step(session.View(), tracker.View(), [reply], calls)
         == DiscussionSpec(old(session.View()), text, userName, old(tracker.View()), now, backends)
  {
    ghost var v := session.View();
    ghost var r := tracker.View();
    var normalised := Strip(Lower(text));
    if ContainsAny(normalised, ConcessionMarkers) {
      if session.chatHistory != [] {
        session.pointsWon := session.pointsWon + [Snippet(session.chatHistory)];
      }
      session.turnCount := 0;
      assert session.View() == v.(pointsWon := v.pointsWon + Noted(v.chatHistory), turnCount := 0);
      assert SelectRule(text) == Concede;
      return ConcededReply, [];
    }
    if ContainsAny(normalised, DeferMarkers) {
      if session.chatHistory != [] {
        session.pointsPending := session.pointsPending + [Snippet(session.chatHistory)];
      }
      session.turnCount := 0;
      assert session.View() == v.(pointsPending := v.pointsPending + Noted(v.chatHistory), turnCount := 0);
      assert SelectRule(text) == Defer;
      return DeferredReply, [];
    }
    var message := text;
    if Contains(text, "2️⃣") || Contains(normalised, "cevap ver") {
      message := DelegateInstruction;
    }
    assert SelectRule(text) == Generate(message);
    reply, calls := TakeTurn(session, tracker, now, backends, message, userName);
  }

  /** The generation turn of `handle_discussion`. */
  method TakeTurn(session: MunazaraSession, tracker: RateLimitTracker, now: int,
                  backends: Backends, message: string, userName: string)
    returns (reply: string, calls: seq<Call>)
    modifies session, tracker
    ensures Step(session.View(), tracker.View(), [reply], calls)
         == GenerationTurn(old(session.View()), message, userName, old(tracker.View()), now, backends)
  {
    ghost var v := session.View();
    ghost var r := tracker.View();
    session.chatHistory := session.chatHistory + [UserEntry(userName, message)];
    ghost var h := session.chatHistory;
    assert session.View() == v.(chatHistory := h);
    PromptIgnoresHistory(v, h);
    var prompt := SystemPrompt(session.View());
    var response, provider;
    response, provider, calls := GetAiResponse(tracker, now, backends, prompt, session.chatHistory, message);
    ghost var res := Respond(r, now, backends, SystemPrompt(v), h, message);
    assert res == Response(response, provider, tracker.View(), calls);
    session.chatHistory := session.chatHistory + [Message(Assistant, response)];
    session.turnCount := session.turnCount + 1;
    assert h + [Message(Assistant, res.text)] == v.chatHistory + [UserEntry(userName, message), Message(Assistant, res.text)];
    assert session.View() == AfterReply(v, UserEntry(userName, message), res).session;
    if session.turnCount >= StalemateTurns {
      response := response + StalemateSuffix;
    }
    reply := response + Footer(provider);
    assert reply == res.text + (if v.turnCount + 1 >= StalemateTurns then StalemateSuffix else "") + Footer(res.provider);
  }
}
