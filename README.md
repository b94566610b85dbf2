# Münazara bot — a Dafny model of its session engine

Münazara GPT is a Telegram bot that argues against its users. Each chat has
one debate session. `/munazara` starts a five-question setup: the user's
position, the bot's position, a severity, a style and the topic. The last
answer triggers a research call and opens the discussion. From then on each
message is a concession ("haklısın", "pes", "1️⃣"), a deferral ("geç", "3️⃣")
or a generation turn. A generation turn sends the debate history to a
language-model gateway. The gateway tries a rate-limited primary backend
(Gemini) and then a secondary (DeepSeek through OpenRouter), and falls back
to a fixed apology. `/bitir` sends a summary and ends the debate; `/sifirla`
resets the chat.

The model has six modules, five for the concerns of `bot.py` and `Optional`
(`optional.dfy`) for the `Option` datatype they share:

- `RateLimit` (`rate_limit.dfy`): the primary's quota tracker. The class
  `RateLimitTracker` keeps the fields of the source. Each method is proved
  equal to a function on the value `RateView`. The lemmas state the cool-down,
  window and ceiling rules.
- `Gateway` (`gateway.dfy`): `ask_gemini`, `ask_openrouter`,
  `get_ai_response` and `do_research`. Backends are parameters of type
  `Option<Request -> Outcome>`; `None` is a client that was never configured.
  Each method returns the trace of backend calls it made, so the lemmas can
  state call order and what each call was sent.
- `Session` (`session.dfy`): the `MunazaraSession` record as a class, the
  setup and discussion handlers as methods proved against the functions
  `SetupSpec` and `DiscussionSpec`, the conditional lines of the system
  prompt, and the session invariant `WellFormed` with its preservation
  lemmas.
- `Bot` (`bot.dfy`): the per-chat session store and the commands
  `/munazara`, `/bitir`, `/sifirla`, and the phase dispatch of
  `handle_message`.
- `Text` (`text.dfy`): Python's `in` on strings, `str.lower()`,
  `str.strip()`, `s[:n]`, `str(n)` and `str.join`, with the lemmas the other
  modules need about them.

Time is an integer clock in seconds, passed to every operation that reads
the clock. Handlers return the messages they would send instead of sending
them.

The phases are not a strict cycle: `/munazara` restarts a session from any
phase, and `/bitir` and `/sifirla` also end a session that is still in setup
(`Bot.Bot.MunazaraCommand`, `Bot.Bot.BitirCommand`).

Consequences of the code that the model keeps as they are:

- The markers are matched as substrings of the lower-cased, stripped text.
  So any message containing "geç" (for example "geçerli") is a deferral, and
  any message containing "pes" is a concession.
- The generation turn appends "[name]: text" to the history before calling
  the gateway, and the gateway also sends the message itself. So every
  backend sees the new message twice: as the newest history entry and as the
  final user message (`Session.GenerationTurnCalls`).
- In a group the mention `@name` is removed from the text after the
  emptiness test, so a message that is only the mention reaches the handlers
  as the empty text: in setup it becomes the answer, in discussion it takes a
  generation turn (`Bot.MentionOnlyMessageIsHandled`).
- Nothing ever appends to `points_lost`, so `/bitir` always reports zero
  defended points (`Session.WellFormed` holds `pointsLost == []`).

## Model

| member | source | states |
|---|---|---|
| RateLimit.ResetWindows | bot.py:210-216 | each counter restarts, with its reset time set to now, exactly when strictly more than its window (60 s, 86400 s) has passed; otherwise counter and reset time are kept; the cool-down is untouched |
| RateLimit.CanUse | bot.py:204-219 | during a cool-down the answer is no and nothing changes; otherwise the windows are reset and the answer is yes iff both counters are below 4 and 240 |
| RateLimit.RateLimitTracker.constructor | bot.py:197-202 | a new tracker has zero counters, both reset times at now and no cool-down |
| RateLimit.RateLimitTracker.CanUseGemini | bot.py:204-219 | the answer and the new fields are those of `CanUse` on the old fields |
| RateLimit.RateLimitTracker.RecordRequest | bot.py:221-223 | both counters go up by one and nothing else changes |
| RateLimit.RateLimitTracker.Block | bot.py:225-226 | the cool-down ends `seconds` after now; nothing else changes |
| RateLimit.Recorded | bot.py:221-223 | one more request in both windows; no other field changes |
| RateLimit.Blocked | bot.py:225-226 | the tracker is cooling down from now until just before now + seconds, and not after; no other field changes |
| RateLimit.CooldownOverridesCounters | bot.py:207-208 | before a cool-down ends the answer is no and no counter is reset, whatever the counters are |
| RateLimit.CanUseIdempotent | bot.py:209-219 | checking twice at the same instant gives the same answer and state as checking once |
| RateLimit.RecordedTimesCounts | bot.py:221-223 | n records add exactly n to both counters and change nothing else |
| RateLimit.MinuteCeilingReached | bot.py:209-219 | from a fresh tracker, after 4 records every check within the same minute is refused |
| RateLimit.MinuteWindowRecovers | bot.py:209-219 | once more than a minute has passed, the tracker permits again and the minute count is 0, while the day ceiling is not reached |
| Gateway.Window | bot.py:260 | the history sent is the last min(10, n) entries, and it is a suffix of the history |
| Gateway.WindowKeepsNewest | bot.py:260 | the newest history entry is always inside the window |
| Gateway.QuotaErrorIgnoresCase | bot.py:287-289 | whether an error counts as a quota error ("429", "resource_exhausted", "quota") does not depend on the letter case of its text |
| Gateway.AskGeminiSpec | bot.py:251-295 | no call is made iff the client is missing or the tracker refuses; otherwise exactly one primary call; a reply is returned only when that call returned that text |
| Gateway.AskGemini | bot.py:251-295 | reply, calls and new tracker state are those of `AskGeminiSpec` on the old state |
| Gateway.AskOpenRouter | bot.py:320-347 | a reply exists iff the secondary is configured and returned, and it is the returned text |
| Gateway.Respond | bot.py:353-369 | the reply is never empty, only the primary's attempt changes the tracker, and at most two calls are made |
| Gateway.GetAiResponse | bot.py:353-369 | text, provider, calls and new tracker state are those of `Respond` on the old state |
| Gateway.ProviderChoice | bot.py:353-369 | Gemini iff the primary answered with non-empty text; DeepSeek iff not, and the secondary did; otherwise the apology; the text is that provider's text and never empty |
| Gateway.FallbackOrder | bot.py:353-369 | the calls are one of [], [primary], [secondary], [primary, secondary]; the secondary is called iff it is configured and the primary gave no text; the primary iff it is configured and the tracker permits; the history sent is a window of at most 10 entries |
| Gateway.EveryCallSendsWindow | bot.py:356-365 | both backends are sent the same system prompt, windowed history and message |
| Gateway.TrackerEffects | bot.py:251-295 | skipped primary: only the check's resets; returned: one record (even for empty text); quota error: a 60-second cool-down; other error: no further change |
| Gateway.QuotaErrorSkipsPrimaryNextTime | bot.py:287-292 | after a quota error the next call before the cool-down ends makes no primary call, leaves the tracker unchanged, and answers with DeepSeek when the secondary has text |
| Gateway.ResearchPrompt | bot.py:378-390 | the research question names both positions and the topic |
| Gateway.ResearchSpec | bot.py:375-408 | at most one primary call, with no system prompt and no history; the placeholder when the client is missing, the tracker refuses or the call raises, with only the check's resets in the tracker; the returned text with one record otherwise; research never starts a cool-down |
| Gateway.DoResearch | bot.py:375-408 | notes, calls and new tracker state are those of `ResearchSpec` on the old state |
| Session.MunazaraSession.constructor | bot.py:54-78 | a new session is the default IDLE session |
| Session.MunazaraSession.StartSetup | bot.py:447 | the session `/munazara` installs is the default one in SETUP at step 0 |
| Session.RecordAnswer | bot.py:586-609 | the answer lands in the field of its question: user position at step 0, bot position at 1, severity read from it at 2, style read from it at 3, topic at 4; every other field is kept |
| Session.ClassifySeverity | bot.py:592-601 | the result is one of the four severities; Hafif iff "hafif" or 🟢; else Vahşi iff "vahşi" or ⚫; else Sert iff "sert" or 🔴; else Orta |
| Session.ClassifyStyle | bot.py:602-607 | Sokratik iff the lower-cased answer contains "sokratik", else Diyalektik |
| Session.SeverityIgnoresCase | bot.py:593-599 | the severity read from an answer does not depend on its letter case |
| Session.StyleIgnoresCase | bot.py:604 | the style read from an answer does not depend on its letter case |
| Session.SetupSpec | bot.py:581-647 | the step always advances by one; before the fifth answer the answer is stored in its field and the next question is sent with no backend call; at the fifth the topic is stored, the research call is made on the stored positions and topic, its notes are kept, the phase becomes DISCUSSING, nothing else changes, and the "settings saved" notice and the ready message are sent |
| Session.HandleSetup | bot.py:581-647 | new session, tracker, messages and calls are those of `SetupSpec` on the old state |
| Session.Opening | bot.py:620-647 | the research call is made on the positions and topic; its notes are stored and the phase becomes DISCUSSING, nothing else in the session changes; the notice and the ready message are sent |
| Session.StoreAnswer | bot.py:586-612 | the session becomes `RecordAnswer` of the old session with the step advanced by one |
| Session.OpenDiscussion | bot.py:620-647 | new session, tracker, messages and calls are those of the research-and-open step on the old state |
| Session.SetupKeepsWellFormed | bot.py:581-647 | a setup answer keeps the session well formed; DISCUSSING comes exactly with the fifth answer; without a usable primary the notes are the placeholder |
| Session.SelectRule | bot.py:653-684 | concession iff the stripped lower-cased text contains a concession marker; deferral iff not, and it contains a deferral marker; otherwise a generation turn, whose message is the fixed instruction iff the text holds 2️⃣ or "cevap ver" |
| Session.RuleIgnoresCase | bot.py:653-683 | which rule fires does not depend on letter case |
| Session.MarkersIgnoreSurroundingSpace | bot.py:653-683 | stripping the text before matching changes no marker's outcome |
| Session.Snippet | bot.py:659 | the noted point is the first min(50, n) characters of the last entry's n, followed by "..." |
| Session.Noted | bot.py:658-660 | nothing is noted for an empty history; otherwise exactly the snippet of the last entry |
| Session.ClosingRuleEffects | bot.py:655-680 | a concession or deferral calls no backend, keeps the tracker and history, resets the turn count, keeps the old points and adds one point of at most 53 characters iff the history is non-empty |
| Session.DiscussionSpec | bot.py:649-706 | concession: the snippet of the last entry, if there is one, added to the points won, turn count 0, fixed reply, no call; deferral: the same on the pending points; otherwise exactly the generation turn on the selected message; always exactly one message |
| Session.HandleDiscussion | bot.py:649-706 | new session, tracker, reply and calls are those of `DiscussionSpec` on the old state |
| Session.GenerationTurn | bot.py:686-706 | the turn count goes up by one, the history grows by two entries, and one message is sent |
| Session.TakeTurn | bot.py:689-706 | new session, tracker, reply and calls are those of `GenerationTurn` on the old state |
| Session.GenerationTurnHistory | bot.py:689-699 | the history gets the "[name]: text" user entry and then the gateway's bare reply; the turn count goes up by one; nothing else in the session changes |
| Session.GenerationTurnCalls | bot.py:689-693 | every backend call gets the message, the session's system prompt and the last min(10, n) history entries, the newest being the user entry just added |
| Session.StalemateWarning | bot.py:701-706 | the message sent is the stored reply, then the stalemate warning when the turn count reaches 5, then the footer naming the provider; from the fifth turn on the warning is in the message |
| Session.SeverityLines | bot.py:171-174 | severity line k is present iff the severity contains keyword k |
| Session.KeywordOccursOnlyInItsSeverity | bot.py:171-174 | each of the four severities contains its own keyword and none of the other three |
| Session.OneSeverityLine | bot.py:171-174 | for each of the four severities the prompt carries exactly its own severity line |
| Session.PromptCarriesSettings | bot.py:131-190 | the system prompt holds the research notes, every severity line selected for the severity and the style's line |
| Session.PromptIgnoresHistory | bot.py:131-190 | the system prompt depends on the settings and notes only, never on the history |
| Session.FreshSessionsWellFormed | bot.py:54-78 | the default session and the fresh setup session are well formed |
| Session.NotedPointsShort | bot.py:658-673 | appending the noted snippet keeps every noted point at most 53 characters |
| Session.ExchangeKeepsWellFormed | bot.py:690-699 | one user entry then one assistant entry keep the history alternating |
| Session.GenerationKeepsWellFormed | bot.py:689-699 | a generation turn keeps the session well formed and in DISCUSSING |
| Session.DiscussionKeepsWellFormed | bot.py:649-706 | every discussion message keeps the session well formed and in DISCUSSING |
| Bot.SpeakerName | bot.py:537 | the speaker's first name, or "Kullanıcı" when it is empty; never empty |
| Bot.HandledText | bot.py:558-560 | outside groups, or without a bot name, the text is the raw text; in groups it is no longer than the raw text, and a text without "@name" is only stripped |
| Bot.PhaseStep | bot.py:562-579 | IDLE: no change, a notice only in groups; SETUP: the setup handler; DISCUSSING: the discussion handler with the speaker's name |
| Bot.MessageSpec | bot.py:529-579 | a message without text, or a group message outside setup that neither mentions nor replies to the bot, changes nothing and sends nothing; otherwise the handled text, even when empty, goes to the handler of the session's phase |
| Bot.MentionOnlyMessageIsHandled | bot.py:531-578 | a group message that is only "@name" reaches the handlers as the empty text: stored as the answer in setup, a generation turn in discussion |
| Bot.MessageKeepsWellFormed | bot.py:562-579 | a message keeps the session well formed and changes the phase only from SETUP to DISCUSSING |
| Bot.Admit | bot.py:546-560 | the message is let through iff it is not ignored by the group gate, and then its text is the handled text |
| Bot.Dispatch | bot.py:562-579 | new session, tracker, messages and calls are those of `PhaseStep` on the old state |
| Bot.BulletLines | bot.py:475-481 | line i is "• " followed by point i, or the single line "• Yok" when there are no points |
| Bot.BulletLinesListPoints | bot.py:475-481 | every point appears as a "• " bullet |
| Bot.SummaryKeepsLines | bot.py:462-485 | every line of the summary is in the text sent |
| Bot.SummaryEchoesSettings | bot.py:462-485 | the summary starts with its title and repeats both positions, the severity, the style and the topic |
| Bot.SummaryReportsPoints | bot.py:462-485 | the summary lists every won, defended and pending point as a bullet, and reports the three counts and the number of turns |
| Bot.Bot.constructor | bot.py:81 | the store starts empty, with a fresh tracker |
| Bot.Bot.MunazaraCommand | bot.py:442-450 | the chat gets a fresh SETUP session at step 0, whatever it had; the first question is sent |
| Bot.Bot.BitirCommand | bot.py:452-490 | without a session, or with an IDLE one, only the notice is sent and nothing changes; otherwise the summary of the old session is sent and the chat gets a fresh IDLE session |
| Bot.Bot.SifirlaCommand | bot.py:523-527 | the chat gets a fresh IDLE session in every case, and the reset notice is sent |
| Bot.Bot.SessionFor | bot.py:540-543 | a chat without a session gets a fresh IDLE one; an existing session object is kept |
| Bot.Bot.HandleMessage | bot.py:529-579 | a message without text changes nothing; otherwise the chat's session (a fresh IDLE one if missing), the tracker, the messages and the calls are those of `MessageSpec`; no other chat's session object or contents change |

## Left out

- Telegram I/O: `reply_text`, `send_action`, `parse_mode`, reply-to ids and the retry without Markdown (bot.py:708-718) are left out. Handlers return the text they would send.
- Whether a message replies to one of the bot's own messages (bot.py:548-552) is a parameter of `Bot.MessageSpec`, since it depends on Telegram's message ids.
- The SDK calls are left out: client construction, model names, temperatures, token limits and the shape of the messages sent. Each backend is a function from the request to a returned text or a raised error.
- A reply whose `response.text` is `None` is modelled as the empty string. `get_ai_response` treats both as no answer. `do_research` would store `None` as the notes, and the model stores "".
- Logging, configuration, `setup_gemini`, `setup_openrouter`, `main`, `error_handler`, `start_command`, the `/durum` report (whose `can_use_gemini()` call may reset the windows, as any check does) and `app.py` are not part of this model.
- Concurrency: the handlers are `async` and could interleave at their `await` points. The model runs each handler to completion.
- RateLimit.RateLimitTracker.CanUseGemini: the clock is whole seconds passed in by the caller, not `datetime.now()` with sub-second precision. Each gateway call reads the clock once, so `block` uses the same instant as the check before it.
- Session.ClassifySeverity: `str.lower()` is modelled for ASCII A-Z and Ç, Ğ, Ö, Ş, Ü only. Capital İ (lowered by Python to two characters) and other scripts are left as they are. `str.strip()` strips only tab, line feed, vertical tab, form feed, carriage return, the separators U+001C to U+001F and space; other Unicode whitespace such as U+00A0 is kept.
- Session.SystemPrompt: the fixed prose of the system prompt and of the setup questions is shortened to its headings; the research prompt is kept word for word. The interpolated fields and the conditional severity and style lines are kept exactly.
- Bot.Bot.HandleMessage: an update without a message is modelled as a message with empty text. The store-wide invariant `Session.WellFormed` is proved on the values the handlers produce (`Bot.MessageKeepsWellFormed`), not carried by the class.
