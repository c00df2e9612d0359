# TripSimulator core, modelled in Dafny

TripSimulator is a chat simulator. The user picks a partner and trades messages with them. A language model writes the partner's replies, and each reply raises an irritation level. When the level reaches 100 the partner blocks the user, and an ad interstitial leads to a score card. This project models the sequential logic under the React views and proves properties of it:

- `App` (`app.dfy`): the session state machine of `App.tsx`, as the class `ChatSession`. Each handler is a method. A handler that awaits or sets a timer is split at that point:
  - the send handler becomes `SendMessage` (the guard and append, up to the await), then `CompleteWithReply` or `CompleteWithError` (after it);
  - each `setTimeout` callback is its own method (`OpeningMessageFires`, `BlockTimerFires`).
  Two extra fields represent the event loop:
  - `inFlight` holds the awaited gateway call with the values its closure captured;
  - `timers` holds the registered callbacks that have not fired yet.
  The class invariant keeps the irritation level in [0, 100] and makes the typing flag equal to "a call is in flight", which gives single-flight sending.
- `Gateway` (`gateway.dfy`): the outcome handling of `getPartnerResponse` in `services/geminiService.ts`:
  - the key check;
  - `trim`;
  - the greedy `{…}` extraction;
  - the parse fallback, truncated to 100 characters with increment 5;
  - the error classification and the 17-line stock pool with increment 3.
  The remote call is an input (`RemoteOutcome`), `JSON.parse` is a partial function passed in, and `Math.random` is an index below 17.
- `ChatHeader` (`chat_header.dfy`): the threshold classifiers of `components/ChatHeader.tsx`.
  - The status line and the meter are enumerations whose rank is pinned to one independent reference definition, "how many thresholds the level has reached". Their band lemmas and monotonicity follow from it.
  - The avatar ring and dot are an enumeration with its own if-and-only-if contract per colour; `AlertMonotone` proves its monotonicity.
  - The call icons and the warning badge are predicates; `IconBadgeMonotone` proves that each stays on as the level rises, and `IconsFollowAvatar` and `BadgeOnlyWhenWorst` relate them to the other classifiers.
- `BlockedScreen` (`blocked_screen.dfy`): the ad countdown of `components/BlockedScreen.tsx`, as the class `AdInterstitial`. A ghost tick counter shows that the ad can only be hidden after five ticks.
- `Types` (`types.dfy`): the enums and records of `types.ts`.

Where the documented design and the code differ, the model follows the code:

- A missing API key does not reach the caller. `API_KEY_MISSING` is thrown inside the same `try` whose `catch` turns every error without the not-found marker into a pool reply. So the session's check for `API_KEY_MISSING` can never match an error from the gateway.
- The opening message replaces the message list instead of appending to it. A message sent before the timer fires is lost.
- Restart does not clear the typing flag, and a reply still in flight completes afterwards.
- Selecting a partner has no status guard.
- Negative increments lower the irritation; the level is only clamped into [0, 100].
- A reply can be empty: an empty response gives reply `""`.
- The design extracts the first JSON object in the response. The greedy `/\{[\s\S]*\}/` takes everything from the first `{` to the last `}` instead, so a response holding two objects hands both together to `JSON.parse`, which fails, and the raw-text fallback is used.
- The design adds `max(increment, 0)`. The code's `|| 5` turns an increment of 0 into 5, and a negative increment is added as it is.
- The completion adds the increment to the irritation level captured when the message was sent, not the current one. The two differ only when a restart happens while a call is in flight.

## Model

| member | source | states |
|---|---|---|
| `Types.GenderValues` | types.ts:2-5 | the gender enum has exactly the two distinct values 'Erkek' and 'Kadın' |
| `Types.SenderValues` | types.ts:10 | a sender is exactly 'user' or 'partner', and the two differ |
| `Types.GameStatusValues` | types.ts:20-24 | the status enum has exactly three distinct values |
| `Gateway.TrimStartSpec` | services/geminiService.ts:51 | trimming the front keeps the suffix after a run of whitespace, and the result does not start with whitespace |
| `Gateway.TrimEndSpec` | services/geminiService.ts:51 | trimming the back keeps the prefix before a run of whitespace, and the result does not end with whitespace |
| `Gateway.TrimSpec` | services/geminiService.ts:51 | `trim` returns a slice with only whitespace cut from both ends, and the slice neither starts nor ends with whitespace |
| `Gateway.TrimKeepsBareText` | services/geminiService.ts:51 | a text that neither starts nor ends with whitespace is returned unchanged by `trim` |
| `Gateway.FirstIndexOf` | services/geminiService.ts:54 | index of the first occurrence of a character, or the length when it does not occur |
| `Gateway.LastIndexOf` | services/geminiService.ts:54 | index of the last occurrence of a character, or -1 when it does not occur |
| `Gateway.JsonMatch` | services/geminiService.ts:54 | the regex matches exactly when some `{` precedes some `}`; the match runs from the first `{` to the last `}` |
| `Gateway.CandidateIsOuterBraces` | services/geminiService.ts:54-55 | the text handed to `JSON.parse` is that outer-brace slice when it exists, otherwise the whole trimmed text |
| `Gateway.EmbeddedObjectExtracted` | services/geminiService.ts:54-58 | prose before an object (with no `{`) and after it (with no `}`) is cut away, and the parser sees exactly the object |
| `Gateway.NoisyObjectExample` | services/geminiService.ts:54-58 | `prefix-noise {"reply":"Peki","irritationIncrement":7} trailing-noise` resolves to reply "Peki" with increment 7 |
| `Gateway.TwoObjectsReadAsOne` | services/geminiService.ts:54-55 | for two objects separated by a space, `JSON.parse` receives both together, never the first object alone |
| `Gateway.NoisyResponseResolves` | services/geminiService.ts:25-58 | the whole call, with a configured key and the noisy response text, resolves to reply "Peki" with increment 7 |
| `Gateway.RawTextReply` | services/geminiService.ts:61-64 | the fallback reply is a prefix of the trimmed text, at most 100 long, the whole text when that is short enough, and has increment 5 |
| `Gateway.ParseFailureFallsBack` | services/geminiService.ts:57-64 | when parsing fails, the reply is a prefix of at most 100 characters of the full trimmed text (not of the slice), the full text when short, with increment 5 |
| `Gateway.EmptyResponse` | services/geminiService.ts:51-64 | an absent or empty response text gives reply "" with increment 5 |
| `Gateway.Contains` | services/geminiService.ts:70 | a string can only contain a needle no longer than itself |
| `Gateway.ContainsIff` | services/geminiService.ts:70 | `includes` holds exactly when the needle occurs at some position |
| `Gateway.NotFoundAnywhere` | services/geminiService.ts:70-72 | an error message with the not-found marker anywhere in it is recognised |
| `Gateway.MissingKeyIsNotRethrown` | services/geminiService.ts:33-34 | the missing-key message does not carry the not-found marker, so the catch never rethrows it |
| `Gateway.PoolSize` | services/geminiService.ts:5-23 | the stock pool holds 17 lines |
| `Gateway.PoolReply` | services/geminiService.ts:75-80 | a pool reply is one of the stock lines, with increment 3 |
| `Gateway.GetPartnerResponse` | services/geminiService.ts:25-82 | rejects exactly when a configured key meets a remote error mentioning the marker, and then only with `API_KEY_NOT_FOUND`; a missing key and every other error give a pool reply; a response resolves to the parsed object or the raw-text fallback |
| `ChatHeader.GetStatusInfo` | components/ChatHeader.tsx:13-20 | typing wins; otherwise the mood's rank is the number of the thresholds 30, 50, 70, 90 that the level has reached |
| `ChatHeader.TypingOverridesLevel` | components/ChatHeader.tsx:14 | while typing, the status reads 'yazıyor...' at every level |
| `ChatHeader.MoodBands` | components/ChatHeader.tsx:15-19 | each mood is shown for exactly its level range: <30, 30-49, 50-69, 70-89, >=90 |
| `ChatHeader.MoodMonotone` | components/ChatHeader.tsx:15-19 | a higher level never shows a calmer mood |
| `ChatHeader.GetBarStyle` | components/ChatHeader.tsx:25-44 | the meter band's rank is the number of the thresholds 30, 50, 80, 90 that the level has reached |
| `ChatHeader.MeterBands` | components/ChatHeader.tsx:27-43 | each meter band is shown for exactly its level range: >=90, 80-89, 50-79, 30-49, <30 |
| `ChatHeader.MeterMonotone` | components/ChatHeader.tsx:27-43 | a higher level never shows a calmer meter |
| `ChatHeader.AvatarAlert` | components/ChatHeader.tsx:56-65 | the ring and the dot are red exactly above 80, orange exactly for 51-80, neutral exactly up to 50 |
| `ChatHeader.AlertMonotone` | components/ChatHeader.tsx:56-65 | a higher level never shows a calmer avatar |
| `ChatHeader.IconBadgeMonotone` | components/ChatHeader.tsx:76-80 | once the call icons are disabled or the badge is shown, a higher level keeps them so |
| `ChatHeader.IconsFollowAvatar` | components/ChatHeader.tsx:76-77 | the video and phone icons are disabled exactly when the level is above 80, that is when the avatar is red |
| `ChatHeader.BadgeOnlyWhenWorst` | components/ChatHeader.tsx:80 | the badge (above 90) only shows with the critical meter, the about-to-block mood, a red avatar and disabled icons |
| `BlockedScreen.AdInterstitial.constructor` | components/BlockedScreen.tsx:12-14 | on mount the ad is visible, the countdown is 5 and the stats are hidden |
| `BlockedScreen.AdInterstitial.Tick` | components/BlockedScreen.tsx:31-34 | a tick happens only while the ad is visible and the countdown is above 0, and it lowers the countdown by exactly 1 |
| `BlockedScreen.AdInterstitial.CloseAd` | components/BlockedScreen.tsx:44-48 | closing does nothing while the countdown is above 0 and hides the ad at 0; once hidden, five ticks have passed |
| `BlockedScreen.AdInterstitial.RevealStats` | components/BlockedScreen.tsx:37-42 | the stats appear only through the reveal timer, armed once the ad is hidden |
| `BlockedScreen.ShortestRun` | components/BlockedScreen.tsx:12-48 | five ticks, a close and the reveal reach the score card, and a close before that is ignored |
| `App.ChatSession.constructor` | App.tsx:12-19 | the session starts in SELECTION with no partner, no messages, irritation 0, empty input, no typing, picker closed and no notice |
| `App.ChatSession.SelectPartner` | App.tsx:45-58 | the partner is 'Partnerim' with the gender's avatar; the status becomes PLAYING, the notice is cleared and the opening timer is registered; nothing else changes |
| `App.ChatSession.OpeningMessageFires` | App.tsx:59-67 | the message list becomes exactly the one partner message with id 'initial' and the fixed text |
| `App.ChatSession.SendMessage` | App.tsx:70-94 | rejected, with nothing changed, on blank input, a status other than PLAYING or a pending reply; otherwise appends exactly one user message with the trimmed input, keeps earlier messages, and clears the input, picker and notice, sets typing and issues one call |
| `App.ChatSession.CompleteWithReply` | App.tsx:96-112 | typing stops; exactly one partner message with the reply is appended; the irritation becomes the clamped sum; the block timer is registered exactly when that reaches 100 |
| `App.ChatSession.CompleteWithError` | App.tsx:113-120 | typing stops; messages, irritation and status are unchanged; the notice is set only for `API_KEY_NOT_FOUND` or `API_KEY_MISSING`, otherwise left alone |
| `App.ChatSession.BlockTimerFires` | App.tsx:111 | the status becomes BLOCKED and nothing else changes |
| `App.ChatSession.SelectEmoji` | App.tsx:123-125 | the input becomes the old input followed by the emoji; nothing else changes |
| `App.ChatSession.EditInput` | App.tsx:198 | the input becomes the typed value; nothing else changes |
| `App.ChatSession.ToggleEmojiPicker` | App.tsx:186 | the picker flips; nothing else changes |
| `App.ChatSession.CloseEmojiPicker` | App.tsx:154 | the picker closes; nothing else changes |
| `App.ChatSession.Restart` | App.tsx:127-135 | SELECTION, no partner, no messages, irritation 0, empty input, picker closed, no notice; the typing flag, a call in flight and the timers are kept |
| `App.EffectiveIncrement` | App.tsx:107 | a missing or zero increment counts as 5, and any other increment is used as it is |
| `App.NewIrritation` | App.tsx:107 | the new level always lies in [0, 100]; it is the sum when the sum is in range, and 100 or 0 when the sum is beyond either end |
| `App.FalsyIncrementCountsAsDefault` | App.tsx:107 | an increment of 0 and a missing increment both add 5 |
| `App.NonNegativeIncrementNeverLowers` | App.tsx:107 | a non-negative or missing increment never lowers an in-range level |
| `App.NegativeIncrementLowers` | App.tsx:107 | for every positive level and negative increment the new level is below the old one: the sum, or 0 when the sum is negative |
| `App.BlockIffSumReachesLimit` | App.tsx:107-112 | the block is scheduled exactly when the unclamped sum reaches 100 |
| `App.FallbackRepliesRaiseIrritation` | App.tsx:107 | a pool reply raises an in-range level by 3 and a raw-text reply by 5, capped at 100 |
| `App.EndToEnd` | App.tsx:45-112 | selecting a male partner, the opening line, sending "Selam" and a reply with increment 7 give three messages, irritation 7, no typing and no pending timers |

## Left out

- React rendering, CSS class strings, scrolling and animation are presentation. The header bands are enumerations, not style strings.
- The key selection dialog (`checkAndFixKey`, `window.aistudio`) is a foreign call. `handlePartnerSelect` awaits it and ignores the result.
- The `GoogleGenAI` request and the persona prompt are foreign calls. Their outcome is the `RemoteOutcome` input, and the gender and name passed to the gateway are only recorded in the request.
- General `JSON.parse` is a partial function passed in. Its results are limited to the flat `{reply, irritationIncrement}` record. A parse that yields another shape (a number, an array, a non-string reply, a non-integer or non-numeric increment) is not modelled, because only literal objects of the expected shape are represented.
- `Math.random` is the index `pick`, which lies below the pool size. Randomness itself cannot be specified.
- `Date.now()` ids and `Date` timestamps come from the clock. They are parameters of the methods, and no uniqueness is claimed.
- The timer delays (1000 ms, 1200 ms, 500 ms, 1 s ticks) are not modelled. Each timer is an event method that requires its callback to have been registered.
- Interleavings of overlapping async handlers beyond one call in flight are not modelled. Neither are stale closures other than the captured irritation level.
- AdSense (`adsbygoogle`, `adStatus`), score sharing through `window.open`, and `console` logging are I/O.
- Gateway.RawTextReply: counts Unicode scalar values, whereas `substring(0, 100)` counts UTF-16 code units. Text with characters outside the Basic Multilingual Plane is truncated at a different point.
- The selection screen, message bubble and emoji picker components are presentation only. Their callbacks reach the session through `SelectPartner` and `SelectEmoji`.
- The irritation above 80 also turns on a texture overlay on the meter. This is style only.
