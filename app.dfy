/**
 * The `App` component as an object: its five state fields, updated in place by
 * one method per handler and audio callback. Each method's new state is the
 * matching function of module Controller applied to the old state.
 */
module AppComponent {
  import opened Wrappers
  import opened Constants
  import opened Strings
  import C = Controller

  class App {
    var currentStreamIdx: nat
    var isPlaying: bool
    var volume: real
    var isMuted: bool
    var requestText: string

    /** The fields as one value. */
    function State(): (s: C.PlayerState)
      reads this
    {
      C.PlayerState(currentStreamIdx, isPlaying, volume, isMuted, requestText)
    }

    predicate Valid()
      reads this
    {
      C.Valid(State())
    }

    /** Mounting: first channel, paused, volume 0.8, not muted, empty draft. */
    constructor ()
      ensures Valid() && State() == C.INITIAL
    {
      currentStreamIdx := 0;
      isPlaying := false;
      volume := 0.8;
      isMuted := false;
      requestText := "";
    }

    /** `togglePlay`; `failed` is whether the "could not start" alert is shown. */
    method TogglePlay(hasAudio: bool, outcome: C.PlayOutcome) returns (failed: bool)
      requires Valid()
      modifies this
      ensures Valid()
      ensures State() == C.TogglePlay(old(State()), hasAudio, outcome)
      ensures failed == C.TogglePlayFails(old(State()), hasAudio, outcome)
    {
      failed := false;
      if !hasAudio {
        return;
      }
      if isPlaying {
        isPlaying := false;
      } else if outcome == C.Resolved {
        isPlaying := true;
      } else {
        failed := true;
      }
    }

    /** `toggleMute`. */
    method ToggleMute()
      requires Valid()
      modifies this
      ensures Valid()
      ensures State() == C.ToggleMute(old(State()))
    {
      isMuted := !isMuted;
    }

    /** `handleVolumeChange`, with the slider's value already read as a number. */
    method HandleVolumeChange(v: real)
      requires Valid() && 0.0 <= v <= 1.0
      modifies this
      ensures Valid()
      ensures State() == C.HandleVolumeChange(old(State()), v)
    {
      volume := v;
      if v > 0.0 && isMuted {
        isMuted := false;
      }
    }

    /** `switchStream`, up to scheduling its delayed step, which is ResumeAfterSwitch. */
    method SwitchStream(index: nat)
      requires Valid() && index < |STREAMS|
      modifies this
      ensures Valid()
      ensures State() == C.SwitchStream(old(State()), index)
    {
      if index == currentStreamIdx {
        return;
      }
      isPlaying := false;
      currentStreamIdx := index;
    }

    /** The timer callback `switchStream` schedules. */
    method ResumeAfterSwitch()
      requires Valid()
      modifies this
      ensures Valid()
      ensures State() == C.ResumeAfterSwitch(old(State()))
    {
      isPlaying := true;
    }

    /** The effect on `currentStreamIdx`; `outcome` is how the `play()` it may call settles. */
    method StreamEffect(hasAudio: bool, outcome: C.PlayOutcome)
      requires Valid()
      modifies this
      ensures Valid()
      ensures State() == C.StreamEffect(old(State()), hasAudio, outcome)
    {
      if isPlaying && hasAudio {
        if outcome == C.Rejected {
          isPlaying := false;
        }
      }
    }

    /** The audio element's `onError`. */
    method OnError()
      requires Valid()
      modifies this
      ensures Valid()
      ensures State() == C.OnAudioEvent(old(State()), C.Error)
    {
      isPlaying := false;
    }

    /** The audio element's `onEnded`. */
    method OnEnded()
      requires Valid()
      modifies this
      ensures Valid()
      ensures State() == C.OnAudioEvent(old(State()), C.Ended)
    {
      isPlaying := false;
    }

    /** The audio element's `onPause`. */
    method OnPause()
      requires Valid()
      modifies this
      ensures Valid()
      ensures State() == C.OnAudioEvent(old(State()), C.Pause)
    {
      isPlaying := false;
    }

    /** The audio element's `onPlay`. */
    method OnPlay()
      requires Valid()
      modifies this
      ensures Valid()
      ensures State() == C.OnAudioEvent(old(State()), C.Play)
    {
      isPlaying := true;
    }

    /** The text area's `onChange`. */
    method SetRequestText(text: string)
      requires Valid()
      modifies this
      ensures Valid()
      ensures State() == C.SetRequestText(old(State()), text)
    {
      requestText := text;
    }

    /** `sendWhatsAppRequest`; `url` is the link it opens, None when it alerts instead. */
    method SendWhatsAppRequest(encode: string -> string) returns (url: Option<string>)
      requires Valid()
      modifies this
      ensures Valid()
      ensures url == C.RequestLink(old(State()), encode)
      ensures State() == C.SendWhatsAppRequest(old(State()))
    {
      if Trim(requestText) == "" {
        return None;
      }
      var message := C.REQUEST_GREETING + requestText;
      url := Some("https://wa.me/" + WHATSAPP_NUMBER + "?text=" + encode(message));
      requestText := "";
    }
  }
}
