/** The chat front end: the per-chat session store, the `/munazara`,
    `/bitir` and `/sifirla` commands, and the dispatch of ordinary messages
    by the session's phase. */
module Bot {
  import opened Optional
  import opened Text
  import opened RateLimit
  import opened Gateway
  import opened Session

  const DefaultSpeaker: string := "Kullanıcı"
  const IdleNotice: string := "❌ Aktif münazara yok. /munazara ile başlatın."
  const NoDebateNotice: string := "❌ Aktif münazara yok."
  const ResetNotice: string := "🔄 Oturum sıfırlandı. /munazara ile yeniden başlayabilirsiniz."

  /** `first_name or "Kullanıcı"`. */
  function SpeakerName(firstName: string): (name: string)
    ensures name != ""
    ensures firstName != "" ==> name == firstName
    ensures firstName == "" ==> name == DefaultSpeaker
  {
    if firstName == "" then DefaultSpeaker else firstName
  }

  // ---------------------------------------------------------------------------
  // Ordinary messages

  /** The message names the bot: `@name`, compared lower-cased, for a
      configured name. */
  predicate Mentions(raw: string, botUsername: string) {
    botUsername != "" && Contains(Lower(raw), "@" + Lower(botUsername))
  }

  /** The group gate: outside setup, a group message that neither mentions
      the bot nor replies to one of its messages is ignored. */
  predicate Ignored(v: SessionView, raw: string, isGroup: bool, replyToBot: bool, botUsername: string) {
    isGroup && v.phase != Setup && !Mentions(raw, botUsername) && !replyToBot
  }

  /** The text the handlers are given: in a group the mention `@name` is
      removed, with the name's own case, and the rest stripped; this can
      leave the empty string. */
  function HandledText(raw: string, isGroup: bool, botUsername: string): (text: string)
    ensures !isGroup || botUsername == "" ==> text == raw
    ensures |text| <= |raw|
    ensures isGroup && botUsername != "" && !Contains(raw, "@" + botUsername) ==> text == Strip(raw)
  {
    if isGroup && botUsername != "" then Strip(RemoveAll(raw, "@" + botUsername)) else raw
  }

  /** The phase dispatch on the handled text: an idle session answers only
      in groups and changes nothing, a session in setup takes the answer, a
      session in discussion takes a turn. */
  function PhaseStep(v: SessionView, text: string, firstName: string, isGroup: bool, r: RateView,
                     now: int, b: Backends, botUsername: string): (s: Step)
    ensures v.phase == Idle ==> s == Step(v, r, if isGroup then [IdleNotice] else [], [])
    ensures v.phase == Setup ==> s == SetupSpec(v, text, r, now, b.primary, botUsername)
    ensures v.phase == Discussing ==> s == DiscussionSpec(v, text, SpeakerName(firstName), r, now, b)
  {
    match v.phase
    case Idle => Step(v, r, if isGroup then [IdleNotice] else [], [])
    case Setup => SetupSpec(v, text, r, now, b.primary, botUsername)
    case Discussing => DiscussionSpec(v, text, SpeakerName(firstName), r, now, b)
  }

  /** `handle_message` on a message whose raw text is `raw`: a message
      without text is dropped, the group gate may ignore it, and otherwise
      the handled text (possibly empty) goes to the phase dispatch. */
  function MessageSpec(v: SessionView, raw: string, firstName: string, isGroup: bool, replyToBot: bool,
                       r: RateView, now: int, b: Backends, botUsername: string): (s: Step)
    ensures raw == "" || Ignored(v, raw, isGroup, replyToBot, botUsername) ==> s == Step(v, r, [], [])
    ensures raw != "" && v.phase == Setup ==>
              s == SetupSpec(v, HandledText(raw, isGroup, botUsername), r, now, b.primary, botUsername)
    ensures raw != "" && !Ignored(v, raw, isGroup, replyToBot, botUsername) && v.phase == Discussing ==>
              s == DiscussionSpec(v, HandledText(raw, isGroup, botUsername), SpeakerName(firstName), r, now, b)
    ensures raw != "" && !Ignored(v, raw, isGroup, replyToBot, botUsername) && v.phase == Idle ==>
              s == Step(v, r, if isGroup then [IdleNotice] else [], [])
  {
    if raw == "" || Ignored(v, raw, isGroup, replyToBot, botUsername) then Step(v, r, [], [])
    else PhaseStep(v, HandledText(raw, isGroup, botUsername), firstName, isGroup, r, now, b, botUsername)
  }

  /** A group message that is nothing but the mention still reaches the
      handlers, as the empty text: in setup it is stored as the answer, in
      discussion it takes a generation turn. */
  lemma MentionOnlyMessageIsHandled(v: SessionView, firstName: string, replyToBot: bool, r: RateView,
                                    now: int, b: Backends, botUsername: string)
    requires botUsername != "" && v.phase != Idle
    ensures var s := MessageSpec(v, "@" + botUsername, firstName, true, replyToBot, r, now, b, botUsername);
            && (v.phase == Setup ==> s == SetupSpec(v, "", r, now, b.primary, botUsername))
            && (v.phase == Discussing ==>
                  s == DiscussionSpec(v, "", SpeakerName(firstName), r, now, b)
                  && s.session.turnCount == v.turnCount + 1
                  && s.session.chatHistory[|v.chatHistory|] == UserEntry(SpeakerName(firstName), ""))
  {
    var raw := "@" + botUsername;
    assert Lower(raw) == "@" + Lower(botUsername);
    assert IsPrefix(Lower(raw), Lower(raw));
    assert Mentions(raw, botUsername);
    RemoveAllRepeated(raw, 1);
    assert Repeat(raw, 1) == raw;
    assert HandledText(raw, true, botUsername) == "";
    if v.phase == Discussing {
      assert !ContainsAny("", ConcessionMarkers) && !ContainsAny("", DeferMarkers);
      assert !IsDelegate("");
      GenerationTurnHistory(v, "", SpeakerName(firstName), r, now, b);
    }
  }

  /** A message never leaves a phase except from setup into discussion, and
      every session it produces is well formed. */
  lemma MessageKeepsWellFormed(v: SessionView, raw: string, firstName: string, isGroup: bool, replyToBot: bool,
                               r: RateView, now: int, b: Backends, botUsername: string)
    requires WellFormed(v)
    ensures var s := MessageSpec(v, raw, firstName, isGroup, replyToBot, r, now, b, botUsername);
            && WellFormed(s.session)
            && (s.session.phase == v.phase || (v.phase == Setup && s.session.phase == Discussing))
  {
    if raw != "" && !Ignored(v, raw, isGroup, replyToBot, botUsername) {
      var text := HandledText(raw, isGroup, botUsername);
      match v.phase
      case Idle =>
      case Setup =>
        SetupKeepsWellFormed(v, text, r, now, b.primary, botUsername);
      case Discussing =>
        DiscussionKeepsWellFormed(v, text, SpeakerName(firstName), r, now, b);
    }
  }

  // ---------------------------------------------------------------------------
  // The /bitir summary

  const SummaryTitle: string := "📊 **MÜNAZARA ÖZETİ**"
  const WonHeading: string := "✅ Çürütülen noktalar: "
  const LostHeading: string := "❌ Savunulan noktalar: "
  const PendingHeading: string := "⏸️ Askıdaki noktalar: "
  const TurnsHeading: string := "**Toplam tur:** "
  const SummaryClosing: string := "_Münazara sonlandırıldı. Yeni münazara için /munazara yazın._"

  /** One bullet per point, or the single bullet "• Yok" when there are none. */
  function BulletLines(points: seq<string>): (lines: seq<string>)
    ensures |lines| == if points == [] then 1 else |points|
    ensures points == [] ==> lines == ["• Yok"]
    ensures forall i | 0 <= i < |points| :: lines[i] == "• " + points[i]
  {
    if points == [] then ["• Yok"] else seq(|points|, i requires 0 <= i < |points| => "• " + points[i])
  }

  function SummaryLines(v: SessionView): seq<string> {
    [SummaryTitle, "", "**Pozisyonlar:**", "👤 Siz: " + v.userPosition, "🤖 Ben: " + v.botPosition, "",
     "**Ayarlar:**", "Sertlik: " + v.severity, "Stil: " + v.style, "Konu: " + v.topic, "",
     "**Sonuçlar:**", WonHeading + NatToString(|v.pointsWon|)]
    + BulletLines(v.pointsWon)
    + ["", LostHeading + NatToString(|v.pointsLost|)]
    + BulletLines(v.pointsLost)
    + ["", PendingHeading + NatToString(|v.pointsPending|)]
    + BulletLines(v.pointsPending)
    + ["", TurnsHeading + NatToString(v.turnCount), "", SummaryClosing]
  }

  /** The report `/bitir` sends before ending the debate. */
  function Summary(v: SessionView): string {
    Join("\n", SummaryLines(v))
  }

  /** Each point appears in its bullet list. */
  lemma BulletLinesListPoints(points: seq<string>, p: string)
    requires p in points
    ensures "• " + p in BulletLines(points)
  {
  }

  /** Every line of the summary is in the text sent. */
  lemma SummaryKeepsLines(v: SessionView)
    ensures forall line | line in SummaryLines(v) :: Contains(Summary(v), line)
  {
    var lines := SummaryLines(v);
    forall line | line in lines ensures Contains(Summary(v), line) {
      var k :| 0 <= k < |lines| && lines[k] == line;
      JoinKeepsParts("\n", lines, k);
    }
  }

  /** The summary opens with its title and repeats the two positions, the
      severity, the style and the topic. */
  lemma SummaryEchoesSettings(v: SessionView)
    ensures IsPrefix(SummaryTitle, Summary(v))
    ensures Contains(Summary(v), "👤 Siz: " + v.userPosition) && Contains(Summary(v), "🤖 Ben: " + v.botPosition)
    ensures Contains(Summary(v), "Sertlik: " + v.severity) && Contains(Summary(v), "Stil: " + v.style)
    ensures Contains(Summary(v), "Konu: " + v.topic)
  {
    var lines := SummaryLines(v);
    assert lines[0] == SummaryTitle && lines[3] == "👤 Siz: " + v.userPosition && lines[4] == "🤖 Ben: " + v.botPosition;
    assert lines[7] == "Sertlik: " + v.severity && lines[8] == "Stil: " + v.style && lines[9] == "Konu: " + v.topic;
    SummaryKeepsLines(v);
    assert Summary(v) == SummaryTitle + "\n" + Join("\n", lines[1..]);
    assert (SummaryTitle + "\n" + Join("\n", lines[1..]))[..|SummaryTitle|] == SummaryTitle;
  }

  /** The summary lists every noted point as a bullet and reports the three
      counts and the number of turns. */
  lemma SummaryReportsPoints(v: SessionView)
    ensures forall p | p in v.pointsWon + v.pointsLost + v.pointsPending :: Contains(Summary(v), "• " + p)
    ensures Contains(Summary(v), WonHeading + NatToString(|v.pointsWon|))
    ensures Contains(Summary(v), LostHeading + NatToString(|v.pointsLost|))
    ensures Contains(Summary(v), PendingHeading + NatToString(|v.pointsPending|))
    ensures Contains(Summary(v), TurnsHeading + NatToString(v.turnCount))
  {
    SummaryKeepsLines(v);
    forall p | p in v.pointsWon + v.pointsLost + v.pointsPending ensures "• " + p in SummaryLines(v) {
      if p in v.pointsWon {
        BulletLinesListPoints(v.pointsWon, p);
      } else if p in v.pointsLost {
        BulletLinesListPoints(v.pointsLost, p);
      } else {
        BulletLinesListPoints(v.pointsPending, p);
      }
    }
  }

  // ---------------------------------------------------------------------------
  // The session store

  /** The bot's mutable state: one session object per chat, and the shared
      rate limiter of the primary backend. */
  class Bot {
    var sessions: map<int, MunazaraSession>
    const tracker: RateLimitTracker
    const botUsername: string

    /** The value of every stored session. */
    ghost function Views(): map<int, SessionView>
      reads this, sessions.Values
    {
      map id | id in sessions :: sessions[id].View()
    }

    /** No two chats share a session object, so handling one chat's
        message leaves every other chat's session as it was. */
    ghost predicate Valid()
      reads this
    {
      forall i, j | i in sessions && j in sessions && i != j :: sessions[i] != sessions[j]
    }

    /** The bot starts with no sessions and a fresh limiter. */
    constructor (now: int, botUsername: string)
      ensures Valid() && Views() == map[]
      ensures fresh(tracker) && tracker.View() == Initial(now)
      ensures this.botUsername == botUsername
    {
      sessions := map[];
      tracker := new RateLimitTracker(now);
      this.botUsername := botUsername;
    }

    /** `/munazara`: a fresh session in setup replaces whatever the chat had,
        and the first setup question is sent. */
    method MunazaraCommand(chatId: int) returns (outbound: string)
      requires Valid()
      modifies this
      ensures Valid()
      ensures Views() == old(Views())[chatId := SetupStart]
      ensures outbound == SetupQuestions[0]
    {
      var session := new MunazaraSession.StartSetup();
      sessions := sessions[chatId := session];
      outbound := SetupQuestions[0];
    }

    /** `/bitir`: without a debate in progress only a notice is sent;
        otherwise the summary of the ended session is sent and the chat gets
        a fresh idle session. */
    method BitirCommand(chatId: int) returns (outbound: string)
      requires Valid()
      modifies this
      ensures Valid()
      ensures chatId !in old(Views()) || old(Views())[chatId].phase == Idle ==>
                Views() == old(Views()) && outbound == NoDebateNotice
      ensures chatId in old(Views()) && old(Views())[chatId].phase != Idle ==>
                Views() == old(Views())[chatId := Fresh] && outbound == Summary(old(Views())[chatId])
    {
      if chatId !in sessions || sessions[chatId].phase == Idle {
        return NoDebateNotice;
      }
      outbound := Summary(sessions[chatId].View());
      var session := new MunazaraSession();
      sessions := sessions[chatId := session];
    }

    /** `/sifirla`: the chat gets a fresh idle session in every case. */
    method SifirlaCommand(chatId: int) returns (outbound: string)
      requires Valid()
      modifies this
      ensures Valid()
      ensures Views() == old(Views())[chatId := Fresh]
      ensures outbound == ResetNotice
    {
      var session := new MunazaraSession();
      sessions := sessions[chatId := session];
      outbound := ResetNotice;
    }

    /** The chat's session, a fresh idle one being stored when the chat has
        none. */
    method SessionFor(chatId: int) returns (session: MunazaraSession)
      requires Valid()
      modifies this
      ensures Valid() && chatId in sessions && sessions[chatId] == session
      ensures chatId in old(sessions) ==> sessions == old(sessions)
      ensures chatId !in old(sessions) ==> sessions == old(sessions)[chatId := session] && fresh(session)
      ensures session.View() == if chatId in old(sessions) then old(session.View()) else Fresh
    {
      if chatId !in sessions {
        session := new MunazaraSession();
        sessions := sessions[chatId := session];
      } else {
        session := sessions[chatId];
      }
    }

    /** `handle_message`: a message with text stores a fresh idle session
        for a chat that has none, then passes the group gate and the phase
        dispatch; no other chat's session changes. */
    method HandleMessage(chatId: int, raw: string, firstName: string, isGroup: bool, replyToBot: bool,
                         now: int, backends: Backends)
      returns (outbound: seq<string>, calls: seq<Call>)
      requires Valid()
      modifies this, tracker, sessions.Values
      ensures Valid()
      ensures raw == "" ==> outbound == [] && calls == [] && sessions == old(sessions)
      ensures raw == "" ==> tracker.View() == old(tracker.View()) && Views() == old(Views())
      ensures raw != "" ==>
                var s := MessageSpec(if chatId in old(sessions) then old(sessions[chatId].View()) else Fresh,
                                     raw, firstName, isGroup, replyToBot, old(tracker.View()), now, backends,
                                     botUsername);
                && sessions.Keys == old(sessions).Keys + {chatId}
                && sessions[chatId].View() == s.session
                && tracker.View() == s.rate && outbound == s.outbound && calls == s.calls
      ensures forall id | id in old(sessions) && id != chatId ::
                sessions[id] == old(sessions[id]) && sessions[id].View() == old(sessions[id].View())
    {
      if raw == "" {
        return [], [];
      }
      var session := SessionFor(chatId);
      var admitted, text := Admit(session, raw, isGroup, replyToBot, botUsername);
      if !admitted {
        return [], [];
      }
      outbound, calls := Dispatch(session, tracker, text, firstName, isGroup, now, backends, botUsername);
    }
  }

  /** The group gate and mention stripping of `handle_message`. */
  method Admit(session: MunazaraSession, raw: string, isGroup: bool, replyToBot: bool, botUsername: string)
    returns (admitted: bool, text: string)
    ensures admitted <==> !Ignored(session.View(), raw, isGroup, replyToBot, botUsername)
    ensures admitted ==> text == HandledText(raw, isGroup, botUsername)
  {
    text := raw;
    if isGroup {
      var mentioned := botUsername != "" && Contains(Lower(raw), "@" + Lower(botUsername));
      if session.phase != Setup && !mentioned && !replyToBot {
        return false, text;
      }
      if botUsername != "" {
        text := Strip(RemoveAll(raw, "@" + botUsername));
      }
    }
    admitted := true;
  }

  /** The phase dispatch of `handle_message` on one session object. */
  method Dispatch(session: MunazaraSession, tracker: RateLimitTracker, text: string, firstName: string,
                  isGroup: bool, now: int, backends: Backends, botUsername: string)
    returns (outbound: seq<string>, calls: seq<Call>)
    modifies session, tracker
    ensures Step(session.View(), tracker.View(), outbound, calls)
         == PhaseStep(old(session.View()), text, firstName, isGroup, old(tracker.View()), now, backends, botUsername)
  {
    match session.phase {
      case Idle =>
        outbound, calls := if isGroup then [IdleNotice] else [], [];
      case Setup =>
        outbound, calls := HandleSetup(session, tracker, now, backends.primary, text, botUsername);
      case Discussing =>
        var reply;
        reply, calls := HandleDiscussion(session, tracker, now, backends, text, SpeakerName(firstName));
        outbound := [reply];
    }
  }
}
