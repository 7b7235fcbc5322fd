/**
 * Sessions as sequences of user actions, timer and effect steps and audio
 * events, and what holds however they interleave.
 */
module Traces {
  import opened Constants
  import opened Controller

  /** One thing that can happen to the component. */
  datatype Action =
    | PressPlay(hasAudio: bool, outcome: PlayOutcome)
    | PressMute
    | SlideVolume(v: real)
    | PickStream(index: nat)
    | TimerFires
    | IndexEffect(hasAudio: bool, outcome: PlayOutcome)
    | Audio(e: AudioEvent)
    | TypeRequest(text: string)
    | PressSend

  /** The arguments the page can supply: slider values in [0, 1], indices of STREAMS. */
  predicate Allowed(a: Action)
  {
    match a
    case SlideVolume(v) => 0.0 <= v <= 1.0
    case PickStream(i) => i < |STREAMS|
    case _ => true
  }

  predicate AllAllowed(trace: seq<Action>)
  {
    forall i :: 0 <= i < |trace| ==> Allowed(trace[i])
  }

  function Step(s: PlayerState, a: Action): (r: PlayerState)
    requires Allowed(a)
    ensures Valid(s) ==> Valid(r)
    ensures !a.SlideVolume? ==> r.volume == s.volume
    ensures !a.PickStream? ==> r.currentStreamIdx == s.currentStreamIdx
  {
    match a
    case PressPlay(h, o) => TogglePlay(s, h, o)
    case PressMute => ToggleMute(s)
    case SlideVolume(v) => HandleVolumeChange(s, v)
    case PickStream(i) => SwitchStream(s, i)
    case TimerFires => ResumeAfterSwitch(s)
    case IndexEffect(h, o) => StreamEffect(s, h, o)
    case Audio(e) => OnAudioEvent(s, e)
    case TypeRequest(t) => SetRequestText(s, t)
    case PressSend => SendWhatsAppRequest(s)
  }

  function Run(s: PlayerState, trace: seq<Action>): (r: PlayerState)
    requires AllAllowed(trace)
    decreases |trace|
  {
    if trace == [] then s else Run(Step(s, trace[0]), trace[1..])
  }

  /** Every session keeps the selection on a channel and the volume within [0, 1]. */
  lemma {:induction false} RunPreservesValid(s: PlayerState, trace: seq<Action>)
    requires Valid(s) && AllAllowed(trace)
    ensures Valid(Run(s, trace))
    decreases |trace|
  {
    if trace != [] {
      RunPreservesValid(Step(s, trace[0]), trace[1..]);
    }
  }

  /** Only the slider changes the stored volume; muting, in particular, never does. */
  lemma {:induction false} VolumeOnlyFromSlider(s: PlayerState, trace: seq<Action>)
    requires AllAllowed(trace)
    requires forall i :: 0 <= i < |trace| ==> !trace[i].SlideVolume?
    ensures Run(s, trace).volume == s.volume
    decreases |trace|
  {
    if trace != [] {
      VolumeOnlyFromSlider(Step(s, trace[0]), trace[1..]);
    }
  }

  /** Only the channel list changes the selected channel. */
  lemma {:induction false} ChannelOnlyFromPicks(s: PlayerState, trace: seq<Action>)
    requires AllAllowed(trace)
    requires forall i :: 0 <= i < |trace| ==> !trace[i].PickStream?
    ensures Run(s, trace).currentStreamIdx == s.currentStreamIdx
    decreases |trace|
  {
    if trace != [] {
      ChannelOnlyFromPicks(Step(s, trace[0]), trace[1..]);
    }
  }
}
