# WebRadio Pro player controller, in Dafny

WebRadio Pro is a single-page web radio: a player for a live audio stream, a
list of channels to switch between, and a "request a song" box that opens a
WhatsApp chat with the request prefilled. All of its behaviour lives in the
`App` component (App.tsx). This project models that component's state machine:
the five pieces of React state (`currentStreamIdx`, `isPlaying`, `volume`,
`isMuted`, `requestText`) and every handler, effect and audio-element callback
that changes them.

Modules:

- `Constants` — the values of constants.ts: the recipient number `WHATSAPP_NUMBER`
  and the two-channel list `STREAMS`.
- `Strings` — ECMAScript's `String.prototype.trim` (leading and trailing
  WhiteSpace and LineTerminator code points removed) and the blank test
  `!requestText.trim()`.
- `Controller` — the state as a value `PlayerState` with one function per
  handler giving the state it leaves; contracts state what each handler does
  and what it leaves alone, and lemmas relate several steps.
- `AppComponent` — class `App`, the component as an object with the five
  fields; one method per handler updates them in place, and each method's new
  state is the matching `Controller` function of the old one.
- `Traces` — a session as a sequence of actions, and properties proved for every
  session by induction.

What the browser decides is a parameter: whether the audio element is mounted
(`hasAudio`) and whether the promise of its `play()` resolves or rejects
(`PlayOutcome`). `encodeURIComponent` (ECMA-262, section 19.2.6, URI Handling
Functions: percent-encoding in the sense of section 2.1 of RFC 3986) is a
function parameter `encode`; the one property used of it, in
`WhatsAppLinkInjective`, is that it maps distinct strings to distinct strings.
The `setTimeout` callback of `switchStream` and the effect on
`currentStreamIdx` are methods of their own, which the caller runs in the order
React and the timer would.

Behaviour modelled as the code has it, where one might expect otherwise:

- The volume is stored exactly as the slider delivers it; nothing clamps it.
  Values lie in [0, 1] only because the range input has `min="0"` and
  `max="1"`, so `HandleVolumeChange` requires `0 <= v <= 1`.
- The step scheduled by `switchStream` sets `isPlaying` to true whether or not
  the player was playing before the switch (`SwitchThenTimerPlays`), and it does
  not call `play()`.
- The code has no check, when a `play()` promise settles, that the channel it
  was called for is still selected (App.tsx:29-31, App.tsx:45-46); the model
  does not show the consequences, since in it a promise settles in the same
  step as the call.
- Because `switchStream` lowers `isPlaying` before the index changes, the
  effect on the new index never calls `play()` (`EffectAfterSwitchIsSilent`).

## Model

| member | source | states |
|---|---|---|
| `Controller.InitialIsValid` | App.tsx:7-11 | the state the component mounts with selects a channel, has a volume in [0, 1], is paused and has an empty draft |
| `Controller.CurrentStream` | App.tsx:14 | the stream the audio element is bound to is one of the configured channels |
| `Controller.EffectiveVolume` | App.tsx:17-21 | the level written to the audio element is 0 while muted and the stored volume otherwise, so it lies in [0, 1] |
| `Controller.TogglePlay` | App.tsx:37-52 | without an audio element nothing changes; when playing it pauses; when paused it plays exactly if `play()` resolves; only `isPlaying` can change |
| `Controller.ToggleMute` | App.tsx:54-56 | negates `isMuted` and changes no other field, the volume in particular |
| `Controller.HandleVolumeChange` | App.tsx:58-64 | stores the value verbatim; `isMuted` changes exactly when the value is above zero and it was muted; at zero the mute is kept; above zero the effective volume is the value; nothing else changes |
| `Controller.SwitchStream` | App.tsx:66-69 | selecting the current channel changes nothing; another channel becomes selected with `isPlaying` false; volume, mute and draft are kept; a valid selection stays valid |
| `Controller.ResumeAfterSwitch` | App.tsx:74 | the timer callback sets `isPlaying` and changes nothing else |
| `Controller.StreamEffect` | App.tsx:24-35 | the index effect never raises `isPlaying`; it lowers it exactly when it calls `play()` (playing with an audio element) and the call is rejected; nothing else changes |
| `Controller.OnAudioEvent` | App.tsx:266-272 | after error, ended or pause the player is not playing, after play it is; no other field changes |
| `Controller.SetRequestText` | App.tsx:242-244 | the text area stores the draft verbatim and changes nothing else |
| `Controller.TogglePlayFails` | App.tsx:47-49 | the failure alert is shown exactly when a start was attempted (audio element present, paused) and the player is still paused afterwards; the state is then unchanged |
| `Controller.EffectCallsPlay` | App.tsx:25 | the index effect calls `play()` exactly when the way that `play()` settles can change the resulting state (a rejection then marks the player paused) |
| `Controller.WhatsAppLink` | App.tsx:82-83 | the link is `https://wa.me/5511999999999?text=` followed by the encoding of `Olá! Gostaria de pedir a música: ` and the draft as typed |
| `Controller.RequestLink` | App.tsx:77-84 | a blank draft opens no link; any other draft opens the WhatsApp link built from the untrimmed draft |
| `Controller.SendWhatsAppRequest` | App.tsx:77-86 | a blank draft leaves the state unchanged; otherwise the draft is cleared and nothing else changes |
| `Controller.SwitchToCurrentIsNoOp` | App.tsx:67 | switching to the selected channel leaves every field unchanged |
| `Controller.SwitchThenTimerPlays` | App.tsx:66-75 | a switch to another channel followed by its timer step ends playing on the new channel, from a playing or a paused start, with volume, mute and draft kept |
| `Controller.EffectAfterSwitchIsSilent` | App.tsx:24-35 | after a switch to another channel the index effect does not call `play()` and changes nothing |
| `Controller.SwitchBindsStream` | App.tsx:14 | after picking channel `i` the audio element's source is the stream of `STREAMS[i]` |
| `Controller.ToggleMuteTwice` | App.tsx:54-56 | muting twice restores the state and the effective volume |
| `Controller.VolumeUnmutes` | App.tsx:61-63 | a volume above zero set while muted unmutes and becomes the effective volume |
| `Controller.AudioEventIdempotent` | App.tsx:266-272 | a repeated audio event changes nothing more than the first |
| `Controller.BlankRequestSendsNothing` | App.tsx:78-81 | a draft made only of white space opens no link and is kept |
| `Controller.RequestLinkShape` | App.tsx:82-85 | a draft that is not blank opens exactly `https://wa.me/5511999999999?text=` followed by the encoding of `Olá! Gostaria de pedir a música: ` and the untrimmed draft, and is then cleared |
| `Controller.LinkPrefixValue` | constants.ts:4 | the link prefix holds the configured number |
| `Controller.WhatsAppLinkInjective` | App.tsx:82-83 | with an injective encoder, equal links come from equal drafts: the whole draft, untrimmed, reaches the link |
| `Controller.ExampleMessage` | App.tsx:82 | the message for the draft `Imagine - John Lennon` is `Olá! Gostaria de pedir a música: Imagine - John Lennon` |
| `Controller.ExampleRequest` | App.tsx:82-85 | the draft `Imagine - John Lennon` opens the link for that message and is cleared |
| `Strings.TrimStart` | App.tsx:78 | the result is a suffix of the input preceded only by white space and not starting with white space |
| `Strings.TrimEnd` | App.tsx:78 | the result is a prefix of the input followed only by white space and not ending with white space |
| `Strings.Trim` | App.tsx:78 | the result is a slice of the input with only white space cut before and after it, and it neither starts nor ends with white space |
| `Strings.IsBlank` | App.tsx:78 | a draft trims to the empty string exactly when all of its characters are white space |
| `AppComponent.App.constructor` | App.tsx:7-11 | the fields start at channel 0, paused, volume 0.8, not muted, empty draft |
| `AppComponent.App.TogglePlay` | App.tsx:37-52 | the new fields are `Controller.TogglePlay` of the old ones; the failure alert is shown exactly when paused, with an audio element, and `play()` rejects |
| `AppComponent.App.ToggleMute` | App.tsx:54-56 | the new fields are `Controller.ToggleMute` of the old ones |
| `AppComponent.App.HandleVolumeChange` | App.tsx:58-64 | the new fields are `Controller.HandleVolumeChange` of the old ones |
| `AppComponent.App.SwitchStream` | App.tsx:66-69 | the new fields are `Controller.SwitchStream` of the old ones |
| `AppComponent.App.ResumeAfterSwitch` | App.tsx:74 | the new fields are `Controller.ResumeAfterSwitch` of the old ones |
| `AppComponent.App.StreamEffect` | App.tsx:24-35 | the new fields are `Controller.StreamEffect` of the old ones |
| `AppComponent.App.OnError` | App.tsx:266-269 | the new fields are `Controller.OnAudioEvent` of the old ones for an error |
| `AppComponent.App.OnEnded` | App.tsx:270 | the new fields are `Controller.OnAudioEvent` of the old ones for the end of the stream |
| `AppComponent.App.OnPause` | App.tsx:271 | the new fields are `Controller.OnAudioEvent` of the old ones for a pause |
| `AppComponent.App.OnPlay` | App.tsx:272 | the new fields are `Controller.OnAudioEvent` of the old ones for a start |
| `AppComponent.App.SetRequestText` | App.tsx:244 | the new fields are `Controller.SetRequestText` of the old ones |
| `AppComponent.App.SendWhatsAppRequest` | App.tsx:77-86 | the link returned is `Controller.RequestLink` of the old fields and the new fields are `Controller.SendWhatsAppRequest` of the old ones |
| `Traces.Step` | App.tsx:24-272 | every handler, effect, timer step, the text area's change handler (line 244) and the audio callbacks (lines 266-272) keep the state valid; only the slider changes the volume and only the channel list changes the selection |
| `Traces.RunPreservesValid` | App.tsx:178-206 | in every session, given slider values in [0, 1] and indices of the channel list, the selection stays on a channel and the volume in [0, 1] |
| `Traces.VolumeOnlyFromSlider` | App.tsx:54-64 | a session without slider moves ends with the volume it started with |
| `Traces.ChannelOnlyFromPicks` | App.tsx:66-75 | a session without channel picks ends on the channel it started on |

## Left out

- Rendering, CSS classes, framer-motion animations and the random visualizer bars (App.tsx:88-280, apart from the handlers wired at lines 167, 175, 184, 206, 244, 249 and 266-272, the slider bounds at lines 180-181 and the stream binding at line 264): presentation only.
- Audio playback, network transport of the stream, `window.open`, `alert` and `console`: browser I/O; their outcomes are parameters or return values (`hasAudio`, `PlayOutcome`, the returned link, the `failed` flag).
- The 50 ms delay of `setTimeout` and React's scheduling and batching of effects and state updates: the timer step and the effect are explicit methods run in a caller-chosen order; stale closures over `isPlaying` are not modelled.
- The volume effect's write to the audio element (App.tsx:17-21) is modelled only as the level it writes, `EffectiveVolume`; the element's own volume is not a field.
- `parseFloat` of the slider's string and floating-point arithmetic: the volume is a `real` that is only stored and compared.
- TogglePlay, StreamEffect: the `play()` promise settles within the same step as the call; a settlement arriving after later events (a channel switch, a second press, an audio event) is not represented.
- RequestLink, SendWhatsAppRequest: drafts are sequences of Unicode scalar values; a draft holding a lone surrogate, on which `encodeURIComponent` throws URIError so that no link opens and the draft is kept, is not represented.
- The internals of `encodeURIComponent`: it is a parameter; no property beyond injectivity is assumed.
- A `play()` that returns `undefined` instead of a promise (App.tsx:28) behaves like a resolved one in the effect, since neither changes state; it is not a separate outcome.
- The header's static WhatsApp link (App.tsx:100) and the channels' display fields beyond their being configuration values.
