# AI-Companion call screen: a Dafny model

This project models the part of the AI-Companion web app that holds state and
logic rather than markup.

- **Call screen (`VideoCallModal`).** One call with an AI tutor ("companion"). It
  keeps a transcript of user and companion entries and the mute, camera, captions,
  chat and fullscreen flags. It shows "thinking" and "speaking" indicators and a
  running call duration. It also holds the local camera/microphone stream and a peer
  connection.
  - The user's messages get a canned reply after a random delay.
  - Once media is acquired and the peer connection is built, the companion "joins"
    two seconds later. It introduces itself by its own name and posts one presence
    line 30 seconds after that. If the connection's constructor throws, the companion
    never joins.
  - Ending the call, or leaving the page after start-up completed, stops the devices.
    A start-up that completes after the page was left is not released: see "## Findings".
- **Companion catalog (`GET /api/companions`).** A constant list of six personas.
- **Records.** The shared record shapes.

The model has seven modules:

| module | models |
|---|---|
| `Types` | The records: `Companion`, `Message` (a transcript entry), `Sender` (`user` or `companion`), `CallProps`, `CallControls`. |
| `CompanionsRoute` | The catalog and `GET`, and the catalog's invariants. |
| `JsText` | The JavaScript string operations the screen relies on: `trim`, `toString`, `padStart`, `join`, substring occurrence. |
| `CallClock` | The duration tick and `formatDuration`, with JavaScript's sign rules for `%`. |
| `Replies` | The greeting, the eight reply templates and the five presence lines. |
| `VideoCallModal` | The session as a `Session` class, with one method per handler. |
| `Wrappers` | `Option`. |

### How `Session` is built

- **State.** The React `useState` values form one `CallState` record. The refs
  (`localStream`, `peer`, `intervalActive`) are fields of their own.
- **The host.** A `Host` record holds what lies outside the component:
  - the pending timers;
  - the entries handed to `onMessage`, and which of them arrived after unmounting;
  - the number of `onEnd` calls;
  - whether the screen is mounted.
- **Devices.** Camera/microphone tracks and the peer connection are objects. The
  handlers flip their `enabled`, `stopped` and `closed` bits in place.
- **Timers.** Each `setTimeout` is a due time in the pending bag of its callback. A
  `Fire...` method runs that callback and consumes one due time. Which due timer runs
  next is the caller's choice.
- **Randomness.** Each `Math.random()` choice is a parameter with a range precondition.
- **Specifications.** Each chat handler is proved against a step function on
  snapshots (`SendStep`, `ReplyStep`, ...). The transcript invariant `ChatInv` is
  proved to be preserved by every step.
- **After unmounting.** React drops state updates, but timers still run. Their entries
  still reach `onMessage`, and they still arm their follow-up timers. The model keeps
  this behaviour.

### Where the code and the written design differ

The model follows the code in each case:

- `cleanup` (components/VideoCallModal.tsx:329-345) does not cancel pending
  `setTimeout`s, so replies, the greeting and the presence line can still fire after
  the call ended.
- The "periodic" message is a single `setTimeout` (components/VideoCallModal.tsx:170-191),
  not an interval.
- Start-up failures are only logged (components/VideoCallModal.tsx:107-109). There is
  no failed state.

## Model

| member | source | states |
|---|---|---|
| Types.InitialCaptions | components/VideoCallModal.tsx:29-38 | captions are on exactly when the optional `captions` prop was given as true; missing means false |
| CompanionsRoute.Get | app/api/companions/route.ts:62-64 | GET returns the whole catalog: six entries, ids "1".."6" by position, ids and names pairwise distinct, 3 or 4 specialties each; as a function of nothing, repeated calls return the same sequence |
| CompanionsRoute.CatalogWellFormed | app/api/companions/route.ts:5-60 | the catalog has six entries with ids "1".."6" in declaration order, distinct ids, distinct names and 3-4 specialties each |
| CompanionsRoute.Catalog | app/api/companions/route.ts:5-60 | defines the six personas in declaration order; its properties are stated by `CatalogWellFormed` and the lemmas below |
| CompanionsRoute.CatalogIdsInOrder | app/api/companions/route.ts:5-60 | entry i (from 0) has as id the decimal numeral of i+1, so ids are pairwise distinct |
| CompanionsRoute.CatalogNamesDistinct | app/api/companions/route.ts:5-60 | no two entries share a name |
| CompanionsRoute.CatalogSpecialtyCounts | app/api/companions/route.ts:5-60 | every entry lists three or four specialties |
| CompanionsRoute.CatalogSpecialtiesNonEmpty | app/api/companions/route.ts:5-60 | every catalog companion has a `specialties[0]` |
| CompanionsRoute.CatalogSpecialtiesReal | app/api/companions/route.ts:5-60 | no catalog specialty is the text "undefined" |
| CompanionsRoute.CatalogSpecialtiesCapitalised | app/api/companions/route.ts:5-60 | every specialty of every entry is non-empty and starts with a capital letter |
| JsText.TrimStartSuffix | components/VideoCallModal.tsx:280 | trimming the start keeps the longest suffix that does not start with white space, and everything dropped is white space |
| JsText.TrimEndPrefix | components/VideoCallModal.tsx:280 | trimming the end keeps the longest prefix that does not end in white space, and everything dropped is white space |
| JsText.Trim | components/VideoCallModal.tsx:280 | defines `trim()` as trimming both ends; `TrimStartSuffix`, `TrimEndPrefix`, `TrimEmptyIffBlank` and `TrimmedEnds` state what it keeps |
| JsText.TrimEmptyIffBlank | components/VideoCallModal.tsx:280 | `trim()` gives the empty (falsy) string exactly when every character is white space |
| JsText.NonBlankSurvivesTrim | components/VideoCallModal.tsx:280 | a string with one non-white-space character trims to a non-empty string |
| JsText.TrimmedEnds | components/VideoCallModal.tsx:280 | a non-empty trimmed string neither starts nor ends with white space |
| JsText.NatToString | components/VideoCallModal.tsx:350 | `toString` of a non-negative integer is a non-empty digit string with no leading zero, one digit below 10 and two digits below 100 |
| JsText.NatToStringRoundTrip | components/VideoCallModal.tsx:350 | reading the decimal numeral back gives the number |
| JsText.NumberToStringDenotes | components/VideoCallModal.tsx:350 | `toString` of an integer starts with "-" exactly when it is negative; the rest is a non-empty digit string without leading zeros whose value is the magnitude |
| JsText.PadStart | components/VideoCallModal.tsx:350 | `padStart` keeps the string as the suffix, fills only with the filler, and reaches the requested length |
| JsText.Join | components/VideoCallModal.tsx:299-302 | defines `join(sep)`: the elements in order with `sep` between neighbours; `ResponsesNameAllSpecialties` and `ResponsesNameCompanion` state which joins the replies contain |
| JsText.JoinContainsElements | components/VideoCallModal.tsx:299-302 | every element of an array occurs in its `join(sep)`, whatever the separator |
| JsText.LeadingZerosValue | components/VideoCallModal.tsx:350 | zero-padding a numeral does not change its value |
| CallClock.Elapsed | components/VideoCallModal.tsx:65 | the displayed duration is the floor of the elapsed milliseconds over 1000: the largest r with 1000 * r <= now - start |
| CallClock.ElapsedNonNegative | components/VideoCallModal.tsx:65 | the displayed duration is at least zero once the clock reads at least the start time |
| CallClock.ElapsedMonotone | components/VideoCallModal.tsx:65 | a later tick never shows a shorter call |
| CallClock.JsRemainder60 | components/VideoCallModal.tsx:349 | `seconds % 60` is Euclidean for non-negative input; for negative input it is non-positive, above -60 and congruent |
| CallClock.FormatDuration | components/VideoCallModal.tsx:347-351 | defines `formatDuration` for every integer with JavaScript's rules for `Math.floor`, `%`, `toString` and `padStart`; `FormatDurationShape`, `FormatDurationRoundTrip`, `FormatDurationInjective` and `FormatDurationNegativeRejected` state its meaning |
| CallClock.FormatDurationShape | components/VideoCallModal.tsx:347-351 | for s >= 0 the text is minutes (two or more digits, value s / 60), a colon, and exactly two second digits (value s % 60) |
| CallClock.FormatNonNegative | components/VideoCallModal.tsx:347-351 | for s >= 0 the text is the zero-padded clock face of (s / 60, s % 60) |
| CallClock.FormatDurationRoundTrip | components/VideoCallModal.tsx:347-351 | parsing the display back gives the second count |
| CallClock.FormatDurationInjective | components/VideoCallModal.tsx:347-351 | distinct non-negative counts are displayed differently |
| CallClock.FormatDurationNegative | components/VideoCallModal.tsx:347-351 | a count of -1 renders as "-1:-1" |
| CallClock.FormatDurationNegativeRejected | components/VideoCallModal.tsx:347-351 | every negative count (a clock set back) is displayed with a leading "-", in a form no non-negative count produces: it does not read back as a duration |
| Replies.FirstTwo | components/VideoCallModal.tsx:300 | `slice(0, 2)` is the prefix of length min(2, count) |
| Replies.JoinGreeting | components/VideoCallModal.tsx:158 | defines the arrival greeting, which interpolates the companion's own name; `JoinGreetingNamesCompanion` states that it contains that name |
| Replies.JoinGreetingNamesCompanion | components/VideoCallModal.tsx:158 | the join greeting contains the companion's name |
| Replies.Responses | components/VideoCallModal.tsx:297-306 | defines the eight reply texts in source order; `ResponsesNameFirstSpecialty`, `ResponsesNameAllSpecialties` and `ResponsesNameCompanion` state what each contains |
| Replies.ResponsesNameFirstSpecialty | components/VideoCallModal.tsx:297-306 | there are eight replies, and replies 0, 3, 5, 6 and 7 contain the first specialty |
| Replies.ResponsesNameAllSpecialties | components/VideoCallModal.tsx:299-302 | replies 1 and 4 contain all specialties, joined by " and " and by ", " |
| Replies.ResponsesNameCompanion | components/VideoCallModal.tsx:300 | reply 2 contains the companion's name and its first two specialties joined by " and " |
| Replies.CatalogRepliesNameSpecialty | components/VideoCallModal.tsx:298 | for a catalog companion the first-specialty replies name a real specialty, never "undefined" |
| Replies.EmptySpecialtiesRenderUndefined | components/VideoCallModal.tsx:298 | a companion without specialties gets the word "undefined" in reply 0 |
| Replies.PeriodicMessages | components/VideoCallModal.tsx:171-177 | defines the five presence lines in source order, from which `FirePeriodic` picks one |
| VideoCallModal.LocalStream.AllTracks | components/VideoCallModal.tsx:129 | `getTracks()` contains the audio and the video track when present, each exactly once, and nothing else |
| VideoCallModal.MediaTrack.constructor | components/VideoCallModal.tsx:86-89 | a fresh track is enabled and not stopped |
| VideoCallModal.MediaTrack.Stop | components/VideoCallModal.tsx:331 | `stop()` marks the track stopped and leaves `enabled` alone |
| VideoCallModal.PeerConnection.constructor | components/VideoCallModal.tsx:125 | a new connection has no senders and is open |
| VideoCallModal.PeerConnection.AddTrack | components/VideoCallModal.tsx:130 | `addTrack` appends exactly that track |
| VideoCallModal.PeerConnection.Close | components/VideoCallModal.tsx:335 | `close()` closes the connection, also when it was closed already |
| VideoCallModal.CountFromAppend | components/VideoCallModal.tsx:287 | appending an entry raises its sender's count by one and leaves the other's alone |
| VideoCallModal.SendStep | components/VideoCallModal.tsx:279-322 | defines `sendMessage` on a snapshot; `SendBlankIsNoop`, `SendAppendsOneUserEntry` and `SendKeepsChatInv` state its effect |
| VideoCallModal.ReplyStep | components/VideoCallModal.tsx:295-320 | defines the reply callback on a snapshot, mounted or not; `ReplyAppendsOneCompanionEntry`, `LateReplyOnlyNotifies` and `ReplyKeepsChatInv` state its effect |
| VideoCallModal.SpeakingOffStep | components/VideoCallModal.tsx:319 | defines a speaking-off callback on a snapshot; `SpeakingOffKeepsChatInv` states that it keeps the transcript invariant |
| VideoCallModal.JoinStep | components/VideoCallModal.tsx:151-191 | defines `simulateCompanionJoin` run by its timer; `JoinGreetsByName` and `JoinKeepsChatInv` state its effect |
| VideoCallModal.PresenceStep | components/VideoCallModal.tsx:170-191 | defines the one-shot presence callback; `PresenceKeepsChatInv` states that it keeps the transcript invariant |
| VideoCallModal.UnmountStep | components/VideoCallModal.tsx:54-74 | defines the effect of unmounting: the interval cleared and state updates no longer applied; `UnmountKeepsChatInv` states that it keeps the transcript invariant |
| VideoCallModal.InitialChatInv | components/VideoCallModal.tsx:31-51 | the transcript invariant holds at mount |
| VideoCallModal.SendKeepsChatInv | components/VideoCallModal.tsx:279-322 | sending keeps every user entry matched by a delivered reply or by exactly one pending reply timer, and keeps the observer in step |
| VideoCallModal.ReplyKeepsChatInv | components/VideoCallModal.tsx:295-320 | a reply firing, mounted or not, keeps the transcript invariant |
| VideoCallModal.JoinKeepsChatInv | components/VideoCallModal.tsx:151-168 | the companion's arrival keeps the transcript invariant |
| VideoCallModal.PresenceKeepsChatInv | components/VideoCallModal.tsx:170-191 | the presence line keeps the transcript invariant |
| VideoCallModal.SpeakingOffKeepsChatInv | components/VideoCallModal.tsx:319 | clearing the speaking indicator keeps the transcript invariant |
| VideoCallModal.UnmountKeepsChatInv | components/VideoCallModal.tsx:56-58 | unmounting keeps the transcript invariant |
| VideoCallModal.CompanionPostKeepsCounts | components/VideoCallModal.tsx:162-163 | a companion entry leaves the user-entry count alone, and the observer sees it after the transcript (mounted) or after the late entries (unmounted) |
| VideoCallModal.SendBlankIsNoop | components/VideoCallModal.tsx:280 | a blank or white-space-only input changes nothing: same transcript, no "thinking", no reply scheduled |
| VideoCallModal.SendAppendsOneUserEntry | components/VideoCallModal.tsx:281-320 | a non-blank input appends exactly one user entry with the untrimmed text after the unchanged earlier entries, clears the input, sets "thinking", and adds exactly one reply timer, due 1500 to 4500 ms later, to the pending ones; no timer is cancelled and no other timer changes |
| VideoCallModal.ReplyAppendsOneCompanionEntry | components/VideoCallModal.tsx:295-320 | a reply while mounted clears "thinking", appends exactly one companion entry with the reply text, sets "speaking", removes exactly the fired timer from the pending replies and arms a 4000 ms speaking-off timer; no other timer changes |
| VideoCallModal.LateReplyOnlyNotifies | components/VideoCallModal.tsx:314-315 | a reply after unmount leaves the screen's state alone and still hands its entry to the observer |
| VideoCallModal.JoinGreetsByName | components/VideoCallModal.tsx:156-166 | the companion's arrival appends exactly one companion entry that contains the companion's name, after the unchanged earlier entries, and sets "speaking" |
| VideoCallModal.Session.AudioTrack | components/VideoCallModal.tsx:253 | the audio track, when present, is one of the stream's tracks |
| VideoCallModal.Session.VideoTrack | components/VideoCallModal.tsx:263 | the video track, when present, is one of the stream's tracks |
| VideoCallModal.Session.constructor | components/VideoCallModal.tsx:31-51 | mounting starts with an empty transcript, the controls unmuted with video on and captions from the prop, the start time taken, the interval armed, no stream and no connection; the session invariant holds |
| VideoCallModal.Session.InitializeCall | components/VideoCallModal.tsx:83-110 | a refused media request only marks start-up done; otherwise fresh enabled audio and video tracks are kept; a throwing connection constructor stops there; on success a new open connection carries every local track and the arrival timer is armed 2000 ms later |
| VideoCallModal.Session.InitializePeerConnection | components/VideoCallModal.tsx:118-132 | a new open connection replaces the old one and carries every local track, in `getTracks()` order |
| VideoCallModal.Session.Tick | components/VideoCallModal.tsx:62-67 | only the duration changes: whole seconds since the start, floored, and non-negative once the clock passes the start |
| VideoCallModal.Session.SetNewMessage | components/VideoCallModal.tsx:480 | only the input text changes |
| VideoCallModal.Session.SendMessage | components/VideoCallModal.tsx:279-322 | the new state is `SendStep` of the old one, whose effects `SendBlankIsNoop`, `SendAppendsOneUserEntry` and `SendKeepsChatInv` state |
| VideoCallModal.Session.FireReply | components/VideoCallModal.tsx:295-320 | the new state is `ReplyStep` with reply text `responses[i]` for 0 <= i < 8, consuming one due reply timer |
| VideoCallModal.Session.FireSpeakingOff | components/VideoCallModal.tsx:319 | one due speaking-off timer is consumed and the speaking indicator cleared (while mounted) |
| VideoCallModal.Session.FireJoin | components/VideoCallModal.tsx:151-191 | the new state is `JoinStep` with the name-bearing greeting: one due join timer is consumed, and a 3000 ms speaking-off timer and the 30000 ms presence timer are armed |
| VideoCallModal.Session.FirePeriodic | components/VideoCallModal.tsx:170-191 | the new state is `PresenceStep` with presence line `i` for 0 <= i < 5: the one presence timer is consumed and not re-armed, and a 2000 ms speaking-off timer is armed |
| VideoCallModal.Session.ToggleMute | components/VideoCallModal.tsx:251-259 | with an audio track, that track's `enabled` and `isMuted` both flip; without one nothing changes; everything else is untouched; `isMuted == !audio.enabled` is preserved |
| VideoCallModal.Session.ToggleMuteTwice | components/VideoCallModal.tsx:251-259 | muting twice restores the session and the audio track |
| VideoCallModal.Session.ToggleVideo | components/VideoCallModal.tsx:261-269 | with a video track, that track's `enabled` and `isVideoEnabled` both flip; without one nothing changes; `isVideoEnabled == video.enabled` is preserved |
| VideoCallModal.Session.ToggleVideoTwice | components/VideoCallModal.tsx:261-269 | toggling the camera twice restores the session and the video track |
| VideoCallModal.Session.ToggleCaptions | components/VideoCallModal.tsx:271-273 | only `isCaptionsEnabled` flips; the other controls and the rest of the session are unchanged |
| VideoCallModal.Session.ToggleFullscreen | components/VideoCallModal.tsx:275-277 | only `isFullscreen` flips |
| VideoCallModal.Session.ToggleChat | components/VideoCallModal.tsx:381 | only `showChat` flips |
| VideoCallModal.Session.Cleanup | components/VideoCallModal.tsx:329-345 | safe with or without media: every local track ends stopped with `enabled` unchanged, the connection is closed, the interval is cleared, and the transcript, flags, refs and pending timers are untouched |
| VideoCallModal.Session.StopLocalTracks | components/VideoCallModal.tsx:330-332 | every track of the stream, if any, ends stopped with `enabled` unchanged |
| VideoCallModal.Session.CleanupTwice | components/VideoCallModal.tsx:329-345 | a second `cleanup` on released references changes nothing further |
| VideoCallModal.Session.EndCall | components/VideoCallModal.tsx:324-327 | everything is released and `onEnd` is signalled exactly once; nothing else changes |
| VideoCallModal.Session.Unmount | components/VideoCallModal.tsx:54-74 | the effects' clean-ups release everything and the screen is unmounted; the transcript invariant survives (`UnmountKeepsChatInv`) |
| VideoCallModal.Session.EndCallThenUnmount | components/VideoCallModal.tsx:56-58 | ending the call and then unmounting runs `cleanup` twice and leaves everything released, with one end signal |
| VideoCallModal.Session.InitializeCallGuarded | components/VideoCallModal.tsx:83-110 | with an unmount check after the media request: while mounted it has exactly the effect `InitializeCall` states for each outcome; once unmounted, only the late stream is recorded and stopped at once, with no connection built, no timer armed and the state untouched, so the screen stays released |
| VideoCallModal.ChatHandlersKeepValid | components/VideoCallModal.tsx:279-322 | handlers that leave the controls, refs, mount flag and tracks alone keep the session invariant |
| VideoCallModal.LateStartLeaksDevices | components/VideoCallModal.tsx:86-105 | unmounting before the media request settles leaves, as written, a live audio track on an unmounted screen |
| VideoCallModal.LateStartReleasesDevices | components/VideoCallModal.tsx:86-105 | with the unmount check the same sequence leaves every device released |
| VideoCallModal.StopAll | components/VideoCallModal.tsx:331 | after the loop every given track is stopped with `enabled` unchanged |
| VideoCallModal.AddAll | components/VideoCallModal.tsx:129-131 | after the loop the connection's senders are the old ones followed by the given tracks in order |

## Left out

- Canvas drawing of the synthetic companion feed (components/VideoCallModal.tsx:194-249): graphics, image loading and `captureStream`. `FireJoin` models only the transcript and timer effects of the arrival.
- Browser media APIs: `getUserMedia` and the `RTCPeerConnection` constructor become the `InitOutcome` parameter of `InitializeCall`. The ICE and `ontrack` handlers (components/VideoCallModal.tsx:134-148) only log or attach video, so they are not modelled.
- The WebSocket stub (components/VideoCallModal.tsx:112-116) only logs. `socketRef` is never assigned, so the socket branch of `cleanup` (lines 338-340) is dead. There is no socket field.
- JSX rendering, auto-scroll and styling (components/VideoCallModal.tsx:76-81, 353-534), apart from the handlers bound there.
- `console.error`/`console.log`, the `recordingBlob` argument of `onEnd` (never passed) and the `roomId`/`userId` props beyond being stored.
- Real time: `Date` values and `Date.now()` are integer milliseconds passed in as `now`.
- `Math.random()`: reply and presence-line indices and the reply delay are parameters with range preconditions. The delay is a whole number of milliseconds in [1500, 4500).
- app/companions/page.tsx and app/call/[roomId]/page.tsx are not part of this model: they are fetch, JSON decoding, navigation and rendering.
- `NextResponse.json` serialisation and the 500 branch of `GET` (app/api/companions/route.ts:63-70): framework wrapping; the catalog literal cannot throw.
- React scheduling: state updaters are applied at once, in handler order, and re-render batching is not modelled. The timer effect's dependency never changes, so it runs once.
- VideoCallModal.Session.FireReply: the order in which due timers run is left to the caller, and a due time only bounds when a callback may run (`due <= now`). Timer clamping and drift are not modelled.
- VideoCallModal.Session.SendMessage: the chat methods do not carry the session invariant in their contracts. It is restored separately by `ChatHandlersKeepValid`, whose premises these methods' `Snapshot` ensures imply.
- VideoCallModal.Session.constructor: the reply texts and the greeting are rendered once from `companion` and kept as constants. The source renders them at each firing, but the props never change.
- JavaScript's floating-point number formatting (exponent notation from 1e21 up, fractions): durations and timestamps in milliseconds stay far below 2^53. Within that range `Math.floor` of `(now - start) / 1000` and of `seconds / 60` is exact, and `toString` gives plain decimal digits, so the model works on integers.

## Findings

| source | as written | input that shows it | evidently intended | confidence | as-written member | corrected member |
|---|---|---|---|---|---|---|
| components/VideoCallModal.tsx:86-105 | the continuation after `getUserMedia` never checks whether the screen is still mounted; unmount-time `cleanup` has already run and found nothing to release | unmount while the browser's permission prompt is open, then grant access | a stream that arrives after unmount is stopped at once and no connection or timer is set up | not executed | VideoCallModal.LateStartLeaksDevices | VideoCallModal.Session.InitializeCallGuarded |
