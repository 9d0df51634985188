/** The record shapes shared by the catalog route and the call screen. */
module Types {
  import opened Wrappers

  /** A companion persona: seven fields, `specialties` an ordered list of tags. */
  datatype Companion = Companion(
    id: string,
    name: string,
    avatarUrl: string,
    description: string,
    voiceId: string,
    personality: string,
    specialties: seq<string>)

  /** Who wrote a transcript entry: the literal union `'user' | 'companion'`. */
  datatype Sender = FromUser | FromCompanion

  /** One transcript entry; `timestamp` is the host clock in milliseconds when it was created. */
  datatype Message = Message(from: Sender, text: string, timestamp: int)

  /**
   * The properties the call screen is mounted with. The `onEnd` callback is represented
   * by the session's count of end signals; `onMessage` is optional, so only its presence
   * is recorded. `captions` is optional.
   */
  datatype CallProps = CallProps(
    roomId: string,
    userId: string,
    companion: Companion,
    hasMessageObserver: bool,
    captions: Option<bool>)

  /** The three control booleans and the nullable call start time (milliseconds). */
  datatype CallControls = CallControls(
    isMuted: bool,
    isVideoEnabled: bool,
    isCaptionsEnabled: bool,
    callStartTime: Option<int>)

  /** The `captions = false` default of the call screen's parameter list. */
  function InitialCaptions(props: CallProps): (r: bool)
    ensures r <==> props.captions == Some(true)
  {
    props.captions.GetOr(false)
  }
}
