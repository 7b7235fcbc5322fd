/**
 * The player controller of the `App` component (App.tsx) as values: the five
 * pieces of React state, and one function per handler or callback giving the
 * state it leaves behind. Outcomes decided by the browser (whether the audio
 * element is mounted, whether `play()` resolves) are parameters.
 */
module Controller {
  import opened Wrappers
  import opened Constants
  import opened Strings

  /** The component's state: `currentStreamIdx`, `isPlaying`, `volume`, `isMuted`, `requestText`. */
  datatype PlayerState = PlayerState(
    currentStreamIdx: nat,
    isPlaying: bool,
    volume: real,
    isMuted: bool,
    requestText: string)

  /** How the promise returned by the audio element's `play()` settles. */
  datatype PlayOutcome = Resolved | Rejected

  /** The audio element's events the component listens to. */
  datatype AudioEvent = Error | Ended | Pause | Play

  /** The selected index names a channel, and the volume is within the slider's range. */
  predicate Valid(s: PlayerState)
  {
    s.currentStreamIdx < |STREAMS| && 0.0 <= s.volume <= 1.0
  }

  /** The state the component mounts with. */
  const INITIAL: PlayerState := PlayerState(0, false, 0.8, false, "")

  lemma InitialIsValid()
    ensures Valid(INITIAL) && !INITIAL.isPlaying && INITIAL.requestText == ""
  {
  }

  /** The channel the audio element's `src` is bound to. */
  function CurrentStream(s: PlayerState): (c: Stream)
    requires Valid(s)
    ensures c in STREAMS
  {
    STREAMS[s.currentStreamIdx]
  }

  /** The level the volume effect writes to the audio element. */
  function EffectiveVolume(s: PlayerState): (r: real)
    ensures s.isMuted ==> r == 0.0
    ensures !s.isMuted ==> r == s.volume
    ensures Valid(s) ==> 0.0 <= r <= 1.0
  {
    if s.isMuted then 0.0 else s.volume
  }

  /** `togglePlay`: pause when playing; otherwise start, keeping the paused state if the start is refused. */
  function TogglePlay(s: PlayerState, hasAudio: bool, outcome: PlayOutcome): (r: PlayerState)
    ensures !hasAudio ==> r == s
    ensures hasAudio && s.isPlaying ==> !r.isPlaying
    ensures hasAudio && !s.isPlaying ==> (r.isPlaying <==> outcome == Resolved)
    ensures r.(isPlaying := s.isPlaying) == s
    ensures Valid(s) ==> Valid(r)
  {
    if !hasAudio then s
    else if s.isPlaying then s.(isPlaying := false)
    else if outcome == Resolved then s.(isPlaying := true)
    else s
  }

  /** Whether `togglePlay` reports a failed start to the user. */
  function TogglePlayFails(s: PlayerState, hasAudio: bool, outcome: PlayOutcome): (failed: bool)
    ensures failed <==> hasAudio && !s.isPlaying && !TogglePlay(s, hasAudio, outcome).isPlaying
    ensures failed ==> TogglePlay(s, hasAudio, outcome) == s
  {
    hasAudio && !s.isPlaying && outcome == Rejected
  }

  /** `toggleMute`: flip the mute flag and nothing else. */
  function ToggleMute(s: PlayerState): (r: PlayerState)
    ensures r.isMuted == !s.isMuted
    ensures r.(isMuted := s.isMuted) == s
    ensures Valid(s) ==> Valid(r)
  {
    s.(isMuted := !s.isMuted)
  }

  /** `handleVolumeChange`: store the slider's value; a value above zero lifts the mute. */
  function HandleVolumeChange(s: PlayerState, v: real): (r: PlayerState)
    requires 0.0 <= v <= 1.0
    ensures r.volume == v
    ensures r.isMuted != s.isMuted <==> v > 0.0 && s.isMuted
    ensures v == 0.0 ==> r.isMuted == s.isMuted
    ensures v > 0.0 ==> EffectiveVolume(r) == v
    ensures r.(volume := s.volume, isMuted := s.isMuted) == s
    ensures Valid(s) ==> Valid(r)
  {
    var muted := if v > 0.0 && s.isMuted then false else s.isMuted;
    s.(volume := v, isMuted := muted)
  }

  /** `switchStream`: selecting another channel pauses and moves the selection; selecting the current one does nothing. */
  function SwitchStream(s: PlayerState, index: nat): (r: PlayerState)
    requires index < |STREAMS|
    ensures index == s.currentStreamIdx ==> r == s
    ensures index != s.currentStreamIdx ==> r.currentStreamIdx == index && !r.isPlaying
    ensures r.volume == s.volume && r.isMuted == s.isMuted && r.requestText == s.requestText
    ensures Valid(s) ==> Valid(r)
  {
    if index == s.currentStreamIdx then s
    else s.(isPlaying := false, currentStreamIdx := index)
  }

  /** The step `switchStream` schedules with `setTimeout`: mark the player as playing. */
  function ResumeAfterSwitch(s: PlayerState): (r: PlayerState)
    ensures r.isPlaying
    ensures r.(isPlaying := s.isPlaying) == s
    ensures Valid(s) ==> Valid(r)
  {
    s.(isPlaying := true)
  }

  /** The effect that runs when `currentStreamIdx` changes: a refused `play()` marks the player paused. */
  function StreamEffect(s: PlayerState, hasAudio: bool, outcome: PlayOutcome): (r: PlayerState)
    ensures r.isPlaying ==> s.isPlaying
    ensures r.isPlaying != s.isPlaying <==> s.isPlaying && hasAudio && outcome == Rejected
    ensures r.(isPlaying := s.isPlaying) == s
    ensures Valid(s) ==> Valid(r)
  {
    if s.isPlaying && hasAudio && outcome == Rejected then s.(isPlaying := false) else s
  }

  /**
   * Whether the effect on `currentStreamIdx` asks the audio element to play:
   * exactly when how that `play()` settles makes a difference to the state.
   */
  function EffectCallsPlay(s: PlayerState, hasAudio: bool): (calls: bool)
    ensures calls <==> StreamEffect(s, hasAudio, Rejected) != StreamEffect(s, hasAudio, Resolved)
  {
    s.isPlaying && hasAudio
  }

  /** The audio element's callbacks: error, end and pause mark the player paused, play marks it playing. */
  function OnAudioEvent(s: PlayerState, e: AudioEvent): (r: PlayerState)
    ensures r.isPlaying <==> e == Play
    ensures r.(isPlaying := s.isPlaying) == s
    ensures Valid(s) ==> Valid(r)
  {
    match e
    case Error => s.(isPlaying := false)
    case Ended => s.(isPlaying := false)
    case Pause => s.(isPlaying := false)
    case Play => s.(isPlaying := true)
  }

  /** The text area's change handler: store the draft verbatim. */
  function SetRequestText(s: PlayerState, text: string): (r: PlayerState)
    ensures r.requestText == text
    ensures r.(requestText := s.requestText) == s
    ensures Valid(s) ==> Valid(r)
  {
    s.(requestText := text)
  }

  /** The fixed text of a song request. */
  const REQUEST_GREETING: string := "Olá! Gostaria de pedir a música: "

  /** The deep link that opens a chat with the radio, `text` carrying the encoded request. */
  function WhatsAppLink(draft: string, encode: string -> string): (link: string)
    ensures |link| >= 33 && link[..33] == "https://wa.me/5511999999999?text="
    ensures link[33..] == encode("Olá! Gostaria de pedir a música: " + draft)
  {
    LinkPrefixValue();
    "https://wa.me/" + WHATSAPP_NUMBER + "?text=" + encode(REQUEST_GREETING + draft)
  }

  /** The link `sendWhatsAppRequest` opens: none for a blank draft, otherwise the link for the untrimmed draft. */
  function RequestLink(s: PlayerState, encode: string -> string): (u: Option<string>)
    ensures IsBlank(s.requestText) <==> u == None
    ensures u.Some? ==> u.value == WhatsAppLink(s.requestText, encode)
  {
    if IsBlank(s.requestText) then None else Some(WhatsAppLink(s.requestText, encode))
  }

  /** The state `sendWhatsAppRequest` leaves: the draft is cleared once its link is opened. */
  function SendWhatsAppRequest(s: PlayerState): (r: PlayerState)
    ensures IsBlank(s.requestText) ==> r == s
    ensures !IsBlank(s.requestText) ==> r.requestText == ""
    ensures r.(requestText := s.requestText) == s
    ensures Valid(s) ==> Valid(r)
  {
    if IsBlank(s.requestText) then s else s.(requestText := "")
  }

  // Properties relating several calls.

  /** Selecting the channel already selected changes no field at all. */
  lemma SwitchToCurrentIsNoOp(s: PlayerState)
    requires Valid(s)
    ensures SwitchStream(s, s.currentStreamIdx) == s
  {
  }

  /** The scheduled step raises `isPlaying` after a switch whether or not the player was playing before it. */
  lemma SwitchThenTimerPlays(s: PlayerState, index: nat)
    requires Valid(s) && index < |STREAMS| && index != s.currentStreamIdx
    ensures ResumeAfterSwitch(SwitchStream(s, index)).isPlaying
    ensures ResumeAfterSwitch(SwitchStream(s, index)) == s.(currentStreamIdx := index, isPlaying := true)
  {
  }

  /**
   * Because `switchStream` lowers `isPlaying` before the index changes, the
   * effect that runs on the new index never asks the audio element to play and
   * leaves the state as the switch left it.
   */
  lemma EffectAfterSwitchIsSilent(s: PlayerState, index: nat, hasAudio: bool, outcome: PlayOutcome)
    requires Valid(s) && index < |STREAMS| && index != s.currentStreamIdx
    ensures !EffectCallsPlay(SwitchStream(s, index), hasAudio)
    ensures StreamEffect(SwitchStream(s, index), hasAudio, outcome) == SwitchStream(s, index)
  {
  }

  /** Picking a channel binds the audio element's source to that channel. */
  lemma SwitchBindsStream(s: PlayerState, index: nat)
    requires Valid(s) && index < |STREAMS|
    ensures CurrentStream(SwitchStream(s, index)) == STREAMS[index]
  {
  }

  /** Muting twice restores the state, and with it the effective volume. */
  lemma ToggleMuteTwice(s: PlayerState)
    ensures ToggleMute(ToggleMute(s)) == s
    ensures EffectiveVolume(ToggleMute(ToggleMute(s))) == EffectiveVolume(s)
  {
  }

  /** Moving the slider above zero while muted unmutes and makes that value the effective volume. */
  lemma VolumeUnmutes(s: PlayerState, v: real)
    requires s.isMuted && 0.0 < v <= 1.0
    ensures !HandleVolumeChange(s, v).isMuted
    ensures EffectiveVolume(HandleVolumeChange(s, v)) == v
  {
  }

  /** Repeating an audio event changes nothing more. */
  lemma AudioEventIdempotent(s: PlayerState, e: AudioEvent)
    ensures OnAudioEvent(OnAudioEvent(s, e), e) == OnAudioEvent(s, e)
  {
  }

  /** A blank draft opens nothing and is kept, whatever the encoder. */
  lemma BlankRequestSendsNothing(s: PlayerState, encode: string -> string)
    requires forall k :: 0 <= k < |s.requestText| ==> IsWhiteSpace(s.requestText[k])
    ensures RequestLink(s, encode) == None
    ensures SendWhatsAppRequest(s) == s
  {
  }

  /** A draft that is not blank opens the deep link with the prefixed, untrimmed draft and is then cleared. */
  lemma RequestLinkShape(s: PlayerState, encode: string -> string)
    requires !IsBlank(s.requestText)
    ensures RequestLink(s, encode)
      == Some("https://wa.me/5511999999999?text=" + encode("Olá! Gostaria de pedir a música: " + s.requestText))
    ensures SendWhatsAppRequest(s).requestText == ""
  {
    var link := WhatsAppLink(s.requestText, encode);
    assert link == link[..33] + link[33..];
  }

  /** The part of every request link before the encoded message. */
  lemma LinkPrefixValue()
    ensures "https://wa.me/" + WHATSAPP_NUMBER + "?text=" == "https://wa.me/5511999999999?text="
  {
  }

  /**
   * With an encoder that never maps two messages to one string (as percent-encoding
   * does not), two drafts that open the same link are the same draft, so the draft
   * reaches the link untrimmed and whole.
   */
  lemma WhatsAppLinkInjective(a: string, b: string, encode: string -> string)
    requires forall x, y :: encode(x) == encode(y) ==> x == y
    requires WhatsAppLink(a, encode) == WhatsAppLink(b, encode)
    ensures a == b
  {
    var prefix := "https://wa.me/" + WHATSAPP_NUMBER + "?text=";
    var ea, eb := encode(REQUEST_GREETING + a), encode(REQUEST_GREETING + b);
    assert prefix + ea == prefix + eb;
    assert ea == (prefix + ea)[|prefix|..];
    assert eb == (prefix + eb)[|prefix|..];
    assert REQUEST_GREETING + a == REQUEST_GREETING + b;
    assert a == (REQUEST_GREETING + a)[|REQUEST_GREETING|..];
    assert b == (REQUEST_GREETING + b)[|REQUEST_GREETING|..];
  }

  /** The example request from the form's placeholder text. */
  lemma ExampleRequest(s: PlayerState, encode: string -> string)
    requires s.requestText == "Imagine - John Lennon"
    ensures RequestLink(s, encode)
      == Some("https://wa.me/5511999999999?text=" + encode("Olá! Gostaria de pedir a música: Imagine - John Lennon"))
    ensures SendWhatsAppRequest(s).requestText == ""
  {
    assert !IsWhiteSpace(s.requestText[0]);
    RequestLinkShape(s, encode);
    ExampleMessage();
  }

  /** The message of the example request. */
  lemma ExampleMessage()
    ensures REQUEST_GREETING + "Imagine - John Lennon" == "Olá! Gostaria de pedir a música: Imagine - John Lennon"
  {
  }
}
