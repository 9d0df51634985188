/**
 * The call screen's session and its event handlers.
 *
 * The component's `useState` values form one `CallState` record, its refs are
 * fields of their own, and what lies outside the component (pending timers, the
 * `onMessage` and `onEnd` callbacks, whether React still has the screen mounted)
 * is a `Host` record; all of them are fields of one `Session` object, and every
 * handler is a method. Each `setTimeout` is a due time in the pending bag of its
 * callback; the `Fire...` method of that callback consumes one when it runs, and
 * the order in which due timers run is left to the caller. Each `Math.random()`
 * choice is a parameter with a range precondition. Camera/microphone tracks and
 * the peer connection are objects whose `enabled`, `stopped` and `closed` bits the
 * handlers flip in place.
 *
 * After unmounting, React drops state updates, but refs, `setTimeout` and the
 * `onMessage` callback still work: a timer that runs late arms its follow-up timers
 * and hands its entry to the observer without touching the transcript.
 */
module VideoCallModal {
  import opened Wrappers
  import opened Types
  import JsText
  import Replies
  import CallClock

  /** Delays and speaking windows of the handlers' timers, in milliseconds. */
  const JoinDelay := 2000
  const JoinSpeakingWindow := 3000
  const PeriodicDelay := 30000
  const PeriodicSpeakingWindow := 2000
  const ReplySpeakingWindow := 4000
  /** A reply is due `1500 + Math.random() * 3000` ms after the user's message. */
  const ReplyMinDelay := 1500
  const ReplyDelaySpread := 3000

  datatype TrackKind = Audio | Video

  /**
   * The local media stream: its first audio track and its first video track
   * (`getAudioTracks()[0]`, `getVideoTracks()[0]`), either of which may be missing.
   */
  datatype LocalStream = LocalStream(audio: Option<MediaTrack>, video: Option<MediaTrack>)
  {
    /** `getTracks()`. */
    function AllTracks(): (r: seq<MediaTrack>)
      ensures audio.Some? ==> audio.value in r
      ensures video.Some? ==> video.value in r
      ensures forall i :: 0 <= i < |r| ==> Some(r[i]) == audio || Some(r[i]) == video
      ensures |r| == (if audio.Some? then 1 else 0) + (if video.Some? then 1 else 0)
    {
      (if audio.Some? then [audio.value] else []) + (if video.Some? then [video.value] else [])
    }
  }

  /**
   * The `setTimeout`s whose callbacks have not run yet, as due times (host ms), one
   * bag per callback: the companion's arrival, a reply, clearing the speaking
   * indicator, and the one-shot presence message.
   */
  datatype Timers = Timers(join: multiset<int>, replies: multiset<int>, speakingOff: multiset<int>, presence: multiset<int>)

  const NoTimers := Timers(multiset{}, multiset{}, multiset{}, multiset{})

  /**
   * How the asynchronous start-up ended: the media request was refused, the peer
   * connection constructor threw after media was acquired, or both succeeded.
   */
  datatype InitOutcome = MediaDenied | PeerConstructionFailed | Connected

  /** One local camera or microphone track. */
  class MediaTrack {
    const kind: TrackKind
    var enabled: bool
    var stopped: bool

    /** A freshly acquired track is live and enabled. */
    constructor (kind: TrackKind)
      ensures this.kind == kind && enabled && !stopped
    {
      this.kind := kind;
      enabled := true;
      stopped := false;
    }

    /** `track.stop()`: releases the device; `enabled` is left as it was. */
    method Stop()
      modifies this
      ensures stopped && enabled == old(enabled)
    {
      stopped := true;
    }
  }

  /** The peer connection: the tracks added to it and whether it was closed. */
  class PeerConnection {
    var senders: seq<MediaTrack>
    var closed: bool

    constructor ()
      ensures senders == [] && !closed
    {
      senders := [];
      closed := false;
    }

    /** `addTrack(track, stream)`. */
    method AddTrack(t: MediaTrack)
      modifies this
      ensures senders == old(senders) + [t] && closed == old(closed)
    {
      senders := senders + [t];
    }

    /** `close()`: closing twice is harmless. */
    method Close()
      modifies this
      ensures closed && senders == old(senders)
    {
      closed := true;
    }
  }

  /** The number of transcript entries written by `who`. */
  function CountFrom(messages: seq<Message>, who: Sender): nat
  {
    if messages == [] then 0
    else CountFrom(messages[..|messages| - 1], who) + (if messages[|messages| - 1].from == who then 1 else 0)
  }

  lemma CountFromAppend(messages: seq<Message>, m: Message, who: Sender)
    ensures CountFrom(messages + [m], who) == CountFrom(messages, who) + (if m.from == who then 1 else 0)
  {
    assert (messages + [m])[..|messages|] == messages;
  }

  /**
   * The component's `useState` values: the transcript, the text box, the two
   * indicators, the chat and fullscreen flags, the controls and the displayed duration.
   */
  datatype CallState = CallState(
    messages: seq<Message>,
    newMessage: string,
    speaking: bool,
    thinking: bool,
    showChat: bool,
    isFullscreen: bool,
    controls: CallControls,
    callDuration: int)

  /**
   * What lies outside the component: the pending timers, the entries handed to
   * `onMessage` in call order, those of them handed over after unmounting, the
   * number of `onEnd` calls, and whether the screen is still mounted.
   */
  datatype Host = Host(timers: Timers, delivered: seq<Message>, late: seq<Message>, endSignals: int, mounted: bool)

  /** A snapshot of a session: its state, host, refs and bookkeeping. */
  datatype View = View(
    state: CallState,
    host: Host,
    localStream: Option<LocalStream>,
    peer: Option<PeerConnection>,
    intervalActive: bool,
    repliesDelivered: int,
    initDone: bool)

  /**
   * The state right after mounting: empty transcript and text box, `captions`
   * defaulting to false, the start time taken from the clock and the duration
   * interval armed (the start time is never null, so the timer effect always sets it).
   */
  function Initial(props: CallProps, now: int): View
  {
    View(CallState([], "", false, false, false, false, CallControls(false, true, InitialCaptions(props), Some(now)), 0),
      Host(NoTimers, [], [], 0, true), None, None, true, 0, false)
  }

  /** What `onMessage?.(m)` hands to the observer: `m` when one was supplied. */
  function Notify(hasObserver: bool, m: Message): seq<Message>
  {
    if hasObserver then [m] else []
  }

  /*
   * Each handler's effect on a snapshot. Every entry goes through
   * `setMessages(prev => [...prev, m])` followed by `onMessage?.(m)`: while mounted
   * the entry joins the transcript and reaches the observer; after unmounting React
   * drops the state update, so the entry only reaches the observer (and is recorded
   * in `late`), while the timers the callback arms are armed all the same.
   */

  /**
   * `sendMessage` with a text box holding `newMessage`: nothing when the trimmed
   * text is empty; otherwise the untrimmed text is posted as a user entry, the box
   * cleared, "thinking" set and one reply timer armed `delay` ms later.
   */
  function SendStep(v: View, hasObserver: bool, now: int, delay: int): View
  {
    var s := v.state;
    var m := Message(FromUser, s.newMessage, now);
    if JsText.Trim(s.newMessage) == [] then v
    else
      v.(state := s.(messages := s.messages + [m], newMessage := "", thinking := true),
        host := v.host.(delivered := v.host.delivered + Notify(hasObserver, m),
          timers := v.host.timers.(replies := v.host.timers.replies + multiset{now + delay})))
  }

  /**
   * The reply callback with reply `text`, consuming the reply timer due at `due`:
   * "thinking" off, the reply posted, "speaking" on, a speaking-off timer armed.
   */
  function ReplyStep(v: View, hasObserver: bool, due: int, text: string, now: int): View
    requires due in v.host.timers.replies
  {
    var s, h := v.state, v.host;
    var m := Message(FromCompanion, text, now);
    var t := h.timers.(replies := h.timers.replies - multiset{due},
      speakingOff := h.timers.speakingOff + multiset{now + ReplySpeakingWindow});
    if h.mounted then
      v.(state := s.(messages := s.messages + [m], thinking := false, speaking := true),
        host := h.(delivered := h.delivered + Notify(hasObserver, m), timers := t),
        repliesDelivered := v.repliesDelivered + 1)
    else
      v.(host := h.(delivered := h.delivered + Notify(hasObserver, m), late := h.late + [m], timers := t))
  }

  /** A speaking-off callback, consuming the speaking-off timer due at `due`. */
  function SpeakingOffStep(v: View, due: int): View
    requires due in v.host.timers.speakingOff
  {
    var h := v.host;
    var t := h.timers.(speakingOff := h.timers.speakingOff - multiset{due});
    if h.mounted then v.(state := v.state.(speaking := false), host := h.(timers := t))
    else v.(host := h.(timers := t))
  }

  /**
   * `simulateCompanionJoin` run by the join timer due at `due`, with greeting `text`:
   * the greeting posted, "speaking" on, a speaking-off timer and the presence timer armed.
   */
  function JoinStep(v: View, hasObserver: bool, due: int, text: string, now: int): View
    requires due in v.host.timers.join
  {
    var s, h := v.state, v.host;
    var m := Message(FromCompanion, text, now);
    var t := h.timers.(join := h.timers.join - multiset{due},
      speakingOff := h.timers.speakingOff + multiset{now + JoinSpeakingWindow},
      presence := h.timers.presence + multiset{now + PeriodicDelay});
    if h.mounted then
      v.(state := s.(messages := s.messages + [m], speaking := true),
        host := h.(delivered := h.delivered + Notify(hasObserver, m), timers := t))
    else
      v.(host := h.(delivered := h.delivered + Notify(hasObserver, m), late := h.late + [m], timers := t))
  }

  /** The presence callback run by the presence timer due at `due`, with line `text`. */
  function PresenceStep(v: View, hasObserver: bool, due: int, text: string, now: int): View
    requires due in v.host.timers.presence
  {
    var s, h := v.state, v.host;
    var m := Message(FromCompanion, text, now);
    var t := h.timers.(presence := h.timers.presence - multiset{due},
      speakingOff := h.timers.speakingOff + multiset{now + PeriodicSpeakingWindow});
    if h.mounted then
      v.(state := s.(messages := s.messages + [m], speaking := true),
        host := h.(delivered := h.delivered + Notify(hasObserver, m), timers := t))
    else
      v.(host := h.(delivered := h.delivered + Notify(hasObserver, m), late := h.late + [m], timers := t))
  }

  /** Unmounting: the duration interval is cleared and React stops applying state updates. */
  function UnmountStep(v: View): View
  {
    v.(host := v.host.(mounted := false), intervalActive := false)
  }

  /**
   * The transcript invariant. While mounted, every user entry has had its reply
   * appended or has exactly one reply timer pending, and "thinking" is only shown
   * while some reply is pending. The observer, when there is one, has seen the
   * transcript followed by what timers delivered after unmounting.
   */
  ghost predicate ChatInv(v: View, hasObserver: bool)
  {
    var s, h := v.state, v.host;
    (h.mounted ==> CountFrom(s.messages, FromUser) == v.repliesDelivered + |h.timers.replies|) &&
    (h.mounted ==> s.thinking ==> |h.timers.replies| > 0) &&
    (h.mounted ==> h.late == []) &&
    h.delivered == (if hasObserver then s.messages + h.late else [])
  }

  lemma InitialChatInv(props: CallProps, now: int)
    ensures ChatInv(Initial(props, now), props.hasMessageObserver)
  {
  }

  /**
   * A companion entry posted to `v` leaves the user-entry count alone and keeps the
   * observer in step with the transcript and the late entries.
   */
  lemma {:induction false} CompanionPostKeepsCounts(v: View, hasObserver: bool, m: Message)
    requires ChatInv(v, hasObserver) && m.from == FromCompanion
    ensures var s, h := v.state, v.host;
      (h.mounted ==> CountFrom(s.messages + [m], FromUser) == CountFrom(s.messages, FromUser)) &&
      (h.mounted ==> h.delivered + Notify(hasObserver, m) == (if hasObserver then (s.messages + [m]) + h.late else [])) &&
      (!h.mounted ==> h.delivered + Notify(hasObserver, m) == (if hasObserver then s.messages + (h.late + [m]) else []))
  {
    var s, h := v.state, v.host;
    if h.mounted {
      CountFromAppend(s.messages, m, FromUser);
      assert s.messages + [m] + [] == s.messages + [m];
    } else if hasObserver {
      assert s.messages + (h.late + [m]) == s.messages + h.late + [m];
    }
  }

  lemma {:induction false} SendKeepsChatInv(v: View, hasObserver: bool, now: int, delay: int)
    requires ChatInv(v, hasObserver) && v.host.mounted
    ensures ChatInv(SendStep(v, hasObserver, now, delay), hasObserver)
  {
    if JsText.Trim(v.state.newMessage) != [] {
      var m := Message(FromUser, v.state.newMessage, now);
      CountFromAppend(v.state.messages, m, FromUser);
      assert v.state.messages + [m] + [] == v.state.messages + [m];
    }
  }

  lemma {:induction false} ReplyKeepsChatInv(v: View, hasObserver: bool, due: int, text: string, now: int)
    requires ChatInv(v, hasObserver) && due in v.host.timers.replies
    ensures ChatInv(ReplyStep(v, hasObserver, due, text, now), hasObserver)
  {
    CompanionPostKeepsCounts(v, hasObserver, Message(FromCompanion, text, now));
  }

  lemma {:induction false} JoinKeepsChatInv(v: View, hasObserver: bool, due: int, text: string, now: int)
    requires ChatInv(v, hasObserver) && due in v.host.timers.join
    ensures ChatInv(JoinStep(v, hasObserver, due, text, now), hasObserver)
  {
    CompanionPostKeepsCounts(v, hasObserver, Message(FromCompanion, text, now));
  }

  lemma {:induction false} PresenceKeepsChatInv(v: View, hasObserver: bool, due: int, text: string, now: int)
    requires ChatInv(v, hasObserver) && due in v.host.timers.presence
    ensures ChatInv(PresenceStep(v, hasObserver, due, text, now), hasObserver)
  {
    CompanionPostKeepsCounts(v, hasObserver, Message(FromCompanion, text, now));
  }

  lemma SpeakingOffKeepsChatInv(v: View, hasObserver: bool, due: int)
    requires ChatInv(v, hasObserver) && due in v.host.timers.speakingOff
    ensures ChatInv(SpeakingOffStep(v, due), hasObserver)
  {
  }

  lemma UnmountKeepsChatInv(v: View, hasObserver: bool)
    requires ChatInv(v, hasObserver) && v.host.mounted
    ensures ChatInv(UnmountStep(v), hasObserver)
  {
  }

  /** A blank or white-space-only text box makes `sendMessage` a no-op. */
  lemma {:induction false} SendBlankIsNoop(v: View, hasObserver: bool, now: int, delay: int)
    requires JsText.Blank(v.state.newMessage)
    ensures SendStep(v, hasObserver, now, delay) == v
  {
    JsText.TrimEmptyIffBlank(v.state.newMessage);
  }

  /**
   * Any other text appends exactly one user entry carrying the untrimmed text after
   * the unchanged earlier entries, clears the box, sets "thinking" and adds exactly one
   * reply timer, due 1.5 s to 4.5 s later, to the pending ones; no timer is cancelled.
   */
  lemma {:induction false} SendAppendsOneUserEntry(v: View, hasObserver: bool, now: int, delay: int)
    requires v.host.mounted && !JsText.Blank(v.state.newMessage)
    requires ReplyMinDelay <= delay < ReplyMinDelay + ReplyDelaySpread
    ensures var r := SendStep(v, hasObserver, now, delay);
      |r.state.messages| == |v.state.messages| + 1 && r.state.messages[..|v.state.messages|] == v.state.messages &&
      r.state.messages[|v.state.messages|] == Message(FromUser, v.state.newMessage, now) &&
      r.state.newMessage == "" && r.state.thinking &&
      r.host.timers == v.host.timers.(replies := v.host.timers.replies + multiset{now + delay}) &&
      now + 1500 <= now + delay < now + 4500
  {
    JsText.TrimEmptyIffBlank(v.state.newMessage);
    var r := SendStep(v, hasObserver, now, delay);
    assert r.state.messages == v.state.messages + [Message(FromUser, v.state.newMessage, now)];
    assert r.state.messages[..|v.state.messages|] == v.state.messages;
  }

  /**
   * A reply that runs while mounted clears "thinking", appends exactly one companion
   * entry carrying the reply text, sets "speaking", removes exactly the timer that
   * fired from the pending replies and arms a 4 s speaking-off timer; no other timer changes.
   */
  lemma ReplyAppendsOneCompanionEntry(v: View, hasObserver: bool, due: int, text: string, now: int)
    requires v.host.mounted && due in v.host.timers.replies
    ensures var r := ReplyStep(v, hasObserver, due, text, now);
      r.state.messages == v.state.messages + [Message(FromCompanion, text, now)] &&
      !r.state.thinking && r.state.speaking &&
      r.host.timers == v.host.timers.(replies := v.host.timers.replies - multiset{due},
        speakingOff := v.host.timers.speakingOff + multiset{now + 4000})
  {
  }

  /**
   * After unmounting, a late reply leaves the transcript and the indicators alone but
   * still reaches the observer.
   */
  lemma LateReplyOnlyNotifies(v: View, hasObserver: bool, due: int, text: string, now: int)
    requires !v.host.mounted && due in v.host.timers.replies
    ensures var r := ReplyStep(v, hasObserver, due, text, now);
      r.state == v.state &&
      r.host.delivered == v.host.delivered + (if hasObserver then [Message(FromCompanion, text, now)] else [])
  {
  }

  /** The companion's arrival appends one entry that names the companion and sets "speaking". */
  lemma {:induction false} JoinGreetsByName(v: View, hasObserver: bool, due: int, c: Companion, now: int)
    requires v.host.mounted && due in v.host.timers.join
    ensures var r := JoinStep(v, hasObserver, due, Replies.JoinGreeting(c), now);
      |r.state.messages| == |v.state.messages| + 1 && r.state.messages[..|v.state.messages|] == v.state.messages &&
      r.state.messages[|v.state.messages|].from == FromCompanion &&
      JsText.Occurs(c.name, r.state.messages[|v.state.messages|].text) && r.state.speaking
  {
    Replies.JoinGreetingNamesCompanion(c);
    var r := JoinStep(v, hasObserver, due, Replies.JoinGreeting(c), now);
    assert r.state.messages[..|v.state.messages|] == v.state.messages;
  }

  /** One mounted call screen. */
  class Session {
    const roomId: string
    const userId: string
    const companion: Companion
    /** Whether the optional `onMessage` callback was supplied. */
    const hasObserver: bool
    /** The eight reply texts and the greeting, rendered from `companion`. */
    const replies: seq<string>
    const greeting: string

    var state: CallState
    var host: Host
    /** `localStreamRef`: the local stream's tracks, once `getUserMedia` has resolved. */
    var localStream: Option<LocalStream>
    /** `peerConnectionRef`. */
    var peer: Option<PeerConnection>
    /** `callTimerRef`: the duration interval exists and has not been cleared. */
    var intervalActive: bool
    /** How many reply callbacks have appended their entry. */
    ghost var repliesDelivered: int
    /** Whether the start-up continuation has run. */
    ghost var initDone: bool

    ghost function Snapshot(): View
      reads this
    {
      View(state, host, localStream, peer, intervalActive, repliesDelivered, initDone)
    }

    /** The objects behind `localStream`. */
    ghost function Tracks(): set<MediaTrack>
      reads this`localStream
    {
      if localStream.None? then {}
      else
        (if localStream.value.audio.Some? then {localStream.value.audio.value} else {}) +
        (if localStream.value.video.Some? then {localStream.value.video.value} else {})
    }

    ghost function Peers(): set<PeerConnection>
      reads this`peer
    {
      if peer.Some? then {peer.value} else {}
    }

    /** The audio track toggled by the mute button, when there is a stream with one. */
    function AudioTrack(): (r: Option<MediaTrack>)
      reads this`localStream
      ensures r.Some? ==> r.value in Tracks()
    {
      if localStream.Some? then localStream.value.audio else None
    }

    /** The video track toggled by the camera button, when there is a stream with one. */
    function VideoTrack(): (r: Option<MediaTrack>)
      reads this`localStream
      ensures r.Some? ==> r.value in Tracks()
    {
      if localStream.Some? then localStream.value.video else None
    }

    ghost function AudioSet(): set<MediaTrack>
      reads this`localStream
    {
      if AudioTrack().Some? then {AudioTrack().value} else {}
    }

    ghost function VideoSet(): set<MediaTrack>
      reads this`localStream
    {
      if VideoTrack().Some? then {VideoTrack().value} else {}
    }

    /**
     * The session invariant. The control flags mirror the tracks: muted exactly when
     * the audio track is disabled, video on exactly when the video track is enabled.
     * Before start-up completes there is no stream, no connection, and the flags hold
     * their initial values. The duration interval does not outlive the screen.
     */
    ghost predicate Valid()
      reads this, Tracks()
    {
      var c := state.controls;
      c.callStartTime.Some? &&
      (!initDone ==> localStream.None? && peer.None? && !c.isMuted && c.isVideoEnabled) &&
      (AudioTrack().Some? ==> AudioTrack().value.kind == Audio && c.isMuted == !AudioTrack().value.enabled) &&
      (VideoTrack().Some? ==> VideoTrack().value.kind == Video && c.isVideoEnabled == VideoTrack().value.enabled) &&
      (!host.mounted ==> !intervalActive)
    }

    /** Every local track stopped, the connection closed and the interval cleared. */
    ghost predicate Released()
      reads this, Tracks(), Peers()
    {
      (forall t :: t in Tracks() ==> t.stopped) &&
      (peer.Some? ==> peer.value.closed) &&
      !intervalActive
    }

    /** Mounting. */
    constructor (props: CallProps, now: int)
      ensures Valid()
      ensures roomId == props.roomId && userId == props.userId && companion == props.companion
      ensures hasObserver == props.hasMessageObserver
      ensures replies == Replies.Responses(props.companion) && greeting == Replies.JoinGreeting(props.companion)
      ensures Snapshot() == Initial(props, now)
    {
      roomId := props.roomId;
      userId := props.userId;
      companion := props.companion;
      hasObserver := props.hasMessageObserver;
      replies := Replies.Responses(props.companion);
      greeting := Replies.JoinGreeting(props.companion);
      state := CallState([], "", false, false, false, false, CallControls(false, true, InitialCaptions(props), Some(now)), 0);
      host := Host(NoTimers, [], [], 0, true);
      localStream := None;
      peer := None;
      intervalActive := true;
      repliesDelivered := 0;
      initDone := false;
    }

    /**
     * The continuation of the start-up effect once `getUserMedia` settles. A refusal
     * is only logged. Otherwise the stream (one audio and one video track) is kept,
     * then the peer connection is built; if its constructor throws, the rest is
     * skipped and the error only logged, else the companion's arrival is scheduled.
     * Nothing here checks whether the screen is still mounted.
     */
    method InitializeCall(now: int, outcome: InitOutcome)
      requires Valid() && !initDone
      modifies this
      ensures Valid()
      ensures outcome == MediaDenied ==> Snapshot() == old(Snapshot()).(initDone := true)
      ensures outcome != MediaDenied ==>
        AudioTrack().Some? && VideoTrack().Some? &&
        fresh(AudioTrack().value) && fresh(VideoTrack().value) &&
        (forall t :: t in Tracks() ==> t.enabled && !t.stopped)
      ensures outcome == PeerConstructionFailed ==>
        Snapshot() == old(Snapshot()).(localStream := localStream, initDone := true)
      ensures outcome == Connected ==>
        peer.Some? && fresh(peer.value) && peer.value.senders == localStream.value.AllTracks() && !peer.value.closed &&
        Snapshot() == old(Snapshot()).(localStream := localStream, peer := peer,
          host := old(host).(timers := old(host.timers).(join := old(host.timers.join) + multiset{now + JoinDelay})),
          initDone := true)
    {
      initDone := true;
      if outcome == MediaDenied {
        return;
      }
      var audio := new MediaTrack(Audio);
      var video := new MediaTrack(Video);
      localStream := Some(LocalStream(Some(audio), Some(video)));
      if outcome == PeerConstructionFailed {
        return;
      }
      InitializePeerConnection();
      host := host.(timers := host.timers.(join := host.timers.join + multiset{now + JoinDelay}));
    }

    /**
     * `initializePeerConnection`: a new connection to which every local track is
     * added. The ICE and remote-track handlers are not modelled.
     */
    method InitializePeerConnection()
      modifies this
      ensures peer.Some? && fresh(peer.value) && !peer.value.closed
      ensures peer.value.senders == if localStream.Some? then localStream.value.AllTracks() else []
      ensures Snapshot() == old(Snapshot()).(peer := peer)
    {
      var pc := new PeerConnection();
      peer := Some(pc);
      if localStream.Some? {
        AddAll(pc, localStream.value.AllTracks());
      }
    }

    /** One tick of the duration interval at host time `now`. */
    method Tick(now: int)
      requires state.controls.callStartTime.Some? && intervalActive
      modifies this
      ensures Snapshot() == old(Snapshot()).(state := old(state).(callDuration := state.callDuration))
      ensures state.callDuration == CallClock.Elapsed(state.controls.callStartTime.value, now)
      ensures now >= state.controls.callStartTime.value ==> state.callDuration >= 0
    {
      var start := state.controls.callStartTime.value;
      state := state.(callDuration := CallClock.Elapsed(start, now));
      if now >= start {
        CallClock.ElapsedNonNegative(start, now);
      }
    }

    /** The text box's `onChange`. */
    method SetNewMessage(text: string)
      requires host.mounted
      modifies this
      ensures Snapshot() == old(Snapshot()).(state := old(state).(newMessage := text))
    {
      state := state.(newMessage := text);
    }

    /**
     * Send (button or Enter). `delay` is `1500 + Math.random() * 3000` truncated to
     * whole milliseconds, as `setTimeout` does.
     */
    method SendMessage(now: int, delay: int)
      requires host.mounted
      requires ReplyMinDelay <= delay < ReplyMinDelay + ReplyDelaySpread
      modifies this
      ensures Snapshot() == SendStep(old(Snapshot()), hasObserver, now, delay)
    {
      if JsText.Trim(state.newMessage) != [] {
        var m := Message(FromUser, state.newMessage, now);
        state := state.(messages := state.messages + [m], newMessage := "", thinking := true);
        host := host.(delivered := host.delivered + Notify(hasObserver, m),
          timers := host.timers.(replies := host.timers.replies + multiset{now + delay}));
      }
    }

    /** The reply timer due at `due` runs at `now` and picks reply `pick` of the eight. */
    method FireReply(due: int, now: int, pick: nat)
      requires due in host.timers.replies && due <= now
      requires pick < |replies|
      modifies this
      ensures Snapshot() == ReplyStep(old(Snapshot()), hasObserver, due, replies[pick], now)
    {
      var m := Message(FromCompanion, replies[pick], now);
      var t := host.timers.(replies := host.timers.replies - multiset{due},
        speakingOff := host.timers.speakingOff + multiset{now + ReplySpeakingWindow});
      if host.mounted {
        state := state.(messages := state.messages + [m], thinking := false, speaking := true);
        host := host.(delivered := host.delivered + Notify(hasObserver, m), timers := t);
        repliesDelivered := repliesDelivered + 1;
      } else {
        host := host.(delivered := host.delivered + Notify(hasObserver, m), late := host.late + [m], timers := t);
      }
    }

    /** A speaking-off timer runs: the indicator is cleared, whoever set it last. */
    method FireSpeakingOff(due: int, now: int)
      requires due in host.timers.speakingOff && due <= now
      modifies this
      ensures Snapshot() == SpeakingOffStep(old(Snapshot()), due)
    {
      var t := host.timers.(speakingOff := host.timers.speakingOff - multiset{due});
      if host.mounted {
        state := state.(speaking := false);
      }
      host := host.(timers := t);
    }

    /** The join timer runs `simulateCompanionJoin`; the synthetic video feed is not modelled. */
    method FireJoin(due: int, now: int)
      requires due in host.timers.join && due <= now
      modifies this
      ensures Snapshot() == JoinStep(old(Snapshot()), hasObserver, due, greeting, now)
    {
      var m := Message(FromCompanion, greeting, now);
      var t := host.timers.(join := host.timers.join - multiset{due},
        speakingOff := host.timers.speakingOff + multiset{now + JoinSpeakingWindow},
        presence := host.timers.presence + multiset{now + PeriodicDelay});
      if host.mounted {
        state := state.(messages := state.messages + [m], speaking := true);
        host := host.(delivered := host.delivered + Notify(hasObserver, m), timers := t);
      } else {
        host := host.(delivered := host.delivered + Notify(hasObserver, m), late := host.late + [m], timers := t);
      }
    }

    /** The presence timer runs, once, and picks line `pick` of the five; it is not re-armed. */
    method FirePeriodic(due: int, now: int, pick: nat)
      requires due in host.timers.presence && due <= now
      requires pick < |Replies.PeriodicMessages|
      modifies this
      ensures Snapshot() == PresenceStep(old(Snapshot()), hasObserver, due, Replies.PeriodicMessages[pick], now)
    {
      var m := Message(FromCompanion, Replies.PeriodicMessages[pick], now);
      var t := host.timers.(presence := host.timers.presence - multiset{due},
        speakingOff := host.timers.speakingOff + multiset{now + PeriodicSpeakingWindow});
      if host.mounted {
        state := state.(messages := state.messages + [m], speaking := true);
        host := host.(delivered := host.delivered + Notify(hasObserver, m), timers := t);
      } else {
        host := host.(delivered := host.delivered + Notify(hasObserver, m), late := host.late + [m], timers := t);
      }
    }

    /**
     * Mute button: when a local stream with an audio track exists, that track's
     * `enabled` and the `isMuted` flag are both flipped; otherwise nothing changes.
     */
    method ToggleMute()
      requires Valid() && host.mounted
      modifies this, AudioSet()
      ensures Valid()
      ensures Snapshot() == old(Snapshot()).(state := old(state).(controls := old(state.controls).(
        isMuted := if old(AudioTrack()).Some? then !old(state.controls.isMuted) else old(state.controls.isMuted))))
      ensures AudioTrack().Some? ==>
        AudioTrack().value.enabled == !old(AudioTrack().value.enabled) &&
        AudioTrack().value.stopped == old(AudioTrack().value.stopped)
    {
      var audio := AudioTrack();
      if audio.Some? {
        audio.value.enabled := !audio.value.enabled;
        state := state.(controls := state.controls.(isMuted := !state.controls.isMuted));
      }
    }

    /** Muting twice restores the session and the audio track. */
    method ToggleMuteTwice()
      requires Valid() && host.mounted
      modifies this, AudioSet()
      ensures Valid() && Snapshot() == old(Snapshot())
      ensures AudioTrack().Some? ==> AudioTrack().value.enabled == old(AudioTrack().value.enabled)
    {
      ToggleMute();
      ToggleMute();
    }

    /**
     * Camera button: when a local stream with a video track exists, that track's
     * `enabled` and the `isVideoEnabled` flag are both flipped; otherwise nothing changes.
     */
    method ToggleVideo()
      requires Valid() && host.mounted
      modifies this, VideoSet()
      ensures Valid()
      ensures Snapshot() == old(Snapshot()).(state := old(state).(controls := old(state.controls).(
        isVideoEnabled := if old(VideoTrack()).Some? then !old(state.controls.isVideoEnabled) else old(state.controls.isVideoEnabled))))
      ensures VideoTrack().Some? ==>
        VideoTrack().value.enabled == !old(VideoTrack().value.enabled) &&
        VideoTrack().value.stopped == old(VideoTrack().value.stopped)
    {
      var video := VideoTrack();
      if video.Some? {
        video.value.enabled := !video.value.enabled;
        state := state.(controls := state.controls.(isVideoEnabled := !state.controls.isVideoEnabled));
      }
    }

    /** Turning the camera off and on again restores the session and the video track. */
    method ToggleVideoTwice()
      requires Valid() && host.mounted
      modifies this, VideoSet()
      ensures Valid() && Snapshot() == old(Snapshot())
      ensures VideoTrack().Some? ==> VideoTrack().value.enabled == old(VideoTrack().value.enabled)
    {
      ToggleVideo();
      ToggleVideo();
    }

    /** Captions button: only `isCaptionsEnabled` flips. */
    method ToggleCaptions()
      requires Valid() && host.mounted
      modifies this
      ensures Valid()
      ensures Snapshot() == old(Snapshot()).(state := old(state).(controls := old(state.controls).(
        isCaptionsEnabled := !old(state.controls.isCaptionsEnabled))))
    {
      state := state.(controls := state.controls.(isCaptionsEnabled := !state.controls.isCaptionsEnabled));
    }

    /** Fullscreen button: only `isFullscreen` flips. */
    method ToggleFullscreen()
      requires host.mounted
      modifies this
      ensures Snapshot() == old(Snapshot()).(state := old(state).(isFullscreen := !old(state.isFullscreen)))
    {
      state := state.(isFullscreen := !state.isFullscreen);
    }

    /** Chat button: only `showChat` flips. */
    method ToggleChat()
      requires host.mounted
      modifies this
      ensures Snapshot() == old(Snapshot()).(state := old(state).(showChat := !old(state.showChat)))
    {
      state := state.(showChat := !state.showChat);
    }

    /**
     * `cleanup`: each release is guarded by a null check, so it is safe before media
     * was acquired. Every local track is stopped, the connection closed and the
     * duration interval cleared; the references are not reset and pending
     * `setTimeout`s are not cancelled, so the state, the host and the refs are untouched.
     */
    method Cleanup()
      requires Valid()
      modifies this, Tracks(), Peers()
      ensures Snapshot() == old(Snapshot()).(intervalActive := false)
      ensures Valid() && Released()
      ensures forall t :: t in Tracks() ==> t.enabled == old(t.enabled)
      ensures peer.Some? ==> peer.value.senders == old(peer.value.senders)
    {
      StopLocalTracks();
      if peer.Some? {
        peer.value.Close();
      }
      intervalActive := false;
    }

    /** `localStreamRef.current.getTracks().forEach(track => track.stop())`, when there is a stream. */
    method StopLocalTracks()
      modifies Tracks()
      ensures forall t :: t in Tracks() ==> t.stopped && t.enabled == old(t.enabled)
    {
      if localStream.Some? {
        StopAll(localStream.value.AllTracks());
      }
    }

    /** Cleaning up an already released session changes nothing further. */
    method CleanupTwice()
      requires Valid()
      modifies this, Tracks(), Peers()
      ensures Snapshot() == old(Snapshot()).(intervalActive := false)
      ensures Valid() && Released()
    {
      Cleanup();
      Cleanup();
    }

    /** End-call button: `cleanup`, then `onEnd`. */
    method EndCall()
      requires Valid() && host.mounted
      modifies this, Tracks(), Peers()
      ensures Valid() && Released()
      ensures Snapshot() == old(Snapshot()).(intervalActive := false, host := old(host).(endSignals := old(host.endSignals) + 1))
      ensures forall t :: t in Tracks() ==> t.enabled == old(t.enabled)
    {
      Cleanup();
      host := host.(endSignals := host.endSignals + 1);
    }

    /**
     * Unmounting runs the effects' clean-ups: `cleanup` from the start-up effect, then
     * `clearInterval` from the timer effect.
     */
    method Unmount()
      requires Valid() && host.mounted
      modifies this, Tracks(), Peers()
      ensures Valid() && Released()
      ensures Snapshot() == UnmountStep(old(Snapshot()))
      ensures forall t :: t in Tracks() ==> t.enabled == old(t.enabled)
    {
      Cleanup();
      intervalActive := false;
      host := host.(mounted := false);
    }

    /**
     * Ending the call and then leaving the page runs `cleanup` twice; the second run
     * finds everything released and changes nothing further.
     */
    method EndCallThenUnmount()
      requires Valid() && host.mounted
      modifies this, Tracks(), Peers()
      ensures Valid() && Released() && !host.mounted
      ensures Snapshot() == UnmountStep(old(Snapshot())).(host := old(host).(endSignals := old(host.endSignals) + 1, mounted := false))
    {
      EndCall();
      Unmount();
    }

    /**
     * The start-up continuation with an unmount check after `getUserMedia`: a stream
     * that arrives after the screen is gone is stopped at once and nothing else is
     * set up, so an unmounted screen stays released.
     */
    method InitializeCallGuarded(now: int, outcome: InitOutcome)
      requires Valid() && !initDone
      requires !host.mounted ==> Released()
      modifies this
      ensures Valid()
      ensures !host.mounted ==> Released()
      ensures host.mounted == old(host.mounted)
      ensures old(host.mounted) && outcome == MediaDenied ==> Snapshot() == old(Snapshot()).(initDone := true)
      ensures old(host.mounted) && outcome != MediaDenied ==>
        AudioTrack().Some? && VideoTrack().Some? &&
        fresh(AudioTrack().value) && fresh(VideoTrack().value) &&
        (forall t :: t in Tracks() ==> t.enabled && !t.stopped)
      ensures old(host.mounted) && outcome == PeerConstructionFailed ==>
        Snapshot() == old(Snapshot()).(localStream := localStream, initDone := true)
      ensures old(host.mounted) && outcome == Connected ==>
        peer.Some? && fresh(peer.value) && peer.value.senders == localStream.value.AllTracks() && !peer.value.closed &&
        Snapshot() == old(Snapshot()).(localStream := localStream, peer := peer,
          host := old(host).(timers := old(host.timers).(join := old(host.timers.join) + multiset{now + JoinDelay})),
          initDone := true)
      ensures !old(host.mounted) && outcome == MediaDenied ==> Snapshot() == old(Snapshot()).(initDone := true)
      ensures !old(host.mounted) && outcome != MediaDenied ==>
        Snapshot() == old(Snapshot()).(localStream := localStream, initDone := true) &&
        AudioTrack().Some? && VideoTrack().Some? &&
        fresh(AudioTrack().value) && fresh(VideoTrack().value) &&
        (forall t :: t in Tracks() ==> t.stopped)
    {
      if host.mounted {
        InitializeCall(now, outcome);
        return;
      }
      initDone := true;
      if outcome == MediaDenied {
        return;
      }
      var audio := new MediaTrack(Audio);
      var video := new MediaTrack(Video);
      localStream := Some(LocalStream(Some(audio), Some(video)));
      StopAll(localStream.value.AllTracks());
    }
  }

  /**
   * The chat handlers leave the invariant alone: it only depends on the controls,
   * the refs, the mount flag and the tracks, none of which they touch.
   */
  twostate lemma ChatHandlersKeepValid(s: Session)
    requires old(s.Valid())
    requires s.state.controls == old(s.state.controls) && s.host.mounted == old(s.host.mounted)
    requires s.localStream == old(s.localStream) && s.peer == old(s.peer)
    requires s.intervalActive == old(s.intervalActive) && s.initDone == old(s.initDone)
    requires forall t :: t in old(s.Tracks()) ==> unchanged(t)
    ensures s.Valid()
  {
  }

  /**
   * The media request settles only after the screen was unmounted (the user left
   * while the permission prompt was open). `cleanup` already ran and found nothing
   * to stop; the late continuation then keeps a live camera and microphone and a
   * connection nobody will close.
   */
  method LateStartLeaksDevices(props: CallProps, now: int) returns (s: Session)
    ensures !s.host.mounted && !s.Released()
    ensures s.AudioTrack().Some? && !s.AudioTrack().value.stopped
  {
    s := new Session(props, now);
    s.Unmount();
    s.InitializeCall(now, Connected);
    assert s.AudioTrack().value in s.Tracks();
  }

  /** The same sequence with the unmount check leaves every device released. */
  method LateStartReleasesDevices(props: CallProps, now: int) returns (s: Session)
    ensures !s.host.mounted && s.Released()
    ensures s.AudioTrack().Some? && s.AudioTrack().value.stopped
  {
    s := new Session(props, now);
    s.Unmount();
    s.InitializeCallGuarded(now, Connected);
    assert s.AudioTrack().value in s.Tracks();
  }

  /** `tracks.forEach(track => track.stop())`. */
  method StopAll(tracks: seq<MediaTrack>)
    modifies set t | t in tracks
    ensures forall t :: t in tracks ==> t.stopped && t.enabled == old(t.enabled)
  {
    var i := 0;
    while i < |tracks|
      invariant 0 <= i <= |tracks|
      invariant forall j :: 0 <= j < i ==> tracks[j].stopped
      invariant forall t :: t in tracks ==> t.enabled == old(t.enabled)
    {
      tracks[i].Stop();
      i := i + 1;
    }
  }

  /** `getTracks().forEach(track => pc.addTrack(track, stream))`. */
  method AddAll(pc: PeerConnection, tracks: seq<MediaTrack>)
    modifies pc
    ensures pc.senders == old(pc.senders) + tracks && pc.closed == old(pc.closed)
  {
    var i := 0;
    while i < |tracks|
      invariant 0 <= i <= |tracks|
      invariant pc.senders == old(pc.senders) + tracks[..i] && pc.closed == old(pc.closed)
    {
      pc.AddTrack(tracks[i]);
      i := i + 1;
    }
  }
}
