# Portfolio page interactions — a Dafny model

This project models the stateful core of the portfolio site's `script.js`:

- **Theme switcher** (`Theme`): the four themes `default`, `blue`, `white`,
  `pink` in cycling order, the current index, the document root's
  `data-theme` attribute and the `portfolio-theme` entry in local storage.
  Startup restores a saved name only when it is one of the themes; each click
  advances the index modulo 4, sets or removes the attribute and saves the new
  name.
- **Video modal controller** (`Player`): the single `<video>` element as a
  record (`src`, `currentTime`, `duration`, `muted`, `paused`) together with
  the log of `load`/`play`/`pause` calls made on it, the script's `isPlaying`
  flag, the modal's `active` class, the body's `no-scroll` class, the two
  button icons and the progress displays. Opening takes the outcomes of the
  autoplay attempt and of the muted retry as booleans; the keyboard
  listeners act only while the modal is active.
- **`formatTime`** (`TimeFormat`): the `minutes:seconds` readout over whole
  seconds, proved equal to an independent two-digit rendering of the seconds
  and proved to read back (through `ParseTime`) as the number it came from.
- **Active navigation link** (`NavHighlight`): the scroll handler's choice of
  the last section whose top minus 200 pixels is at most the scroll offset,
  and the marking of the matching link.

Everything is immutable records and pure transition functions; the two loops
of the scroll handler are a method with a loop invariant and a recursive
function. The DOM, local storage and the media element are fields of those
records; the animation library and timers are not modelled (see "Left
out"). Three rules of the HTML media element are built in, because the
script relies on them: `load()` rewinds to 0, forgets the duration and
leaves the element paused (`MediaLoad`); the `ended` event leaves the element
paused (`Ended`); a resolved `play()` leaves it unpaused (`MediaPlay`). The
lemmas that the flag mirrors the element (`SyncedPreserved`) depend on these
rules. One further rule is not built in: `play()` on an element that has
reached its end rewinds it to 0 first; the model keeps the end position until
the next `timeupdate`. `Options` holds the optional-value datatype
used for absent storage entries, attributes and sources.

Where the intent of the code and the code differ, the code is modelled as
written and the difference is recorded under "Findings". In particular the
controller's `isPlaying` flag is not guaranteed to mirror the element's real
play state: the code does not resync it after a successful muted retry, and
`togglePlayPause` ignores the outcome of its own `play()` call.

## Model

| member | source | states |
|---|---|---|
| Theme.IndexOf | script.js:17-18 | `indexOf` gives the first position of the name in the list, or -1 exactly when the name is not in the list |
| Theme.AttrFor | script.js:35-39 | the attribute is absent exactly for `default` and is the theme's own name for every other theme |
| Theme.Load | script.js:14-24 | a present, recognised saved name selects its own index and attribute (none for `default`); an absent, empty or unknown name leaves index 0 and no attribute; storage is left as read |
| Theme.Cycle | script.js:29-42 | a click moves to index `(i+1) mod 4`, shows that theme's attribute and stores exactly that theme's name |
| Theme.CycleName | script.js:31-32 | the name a click announces is a theme name and is the one the click selected |
| Theme.NotificationText | script.js:67 | the notification reads the theme name with its first letter capitalised followed by " Theme" |
| Theme.LoadShown | script.js:15-24 | whatever storage holds, after startup the attribute agrees with the selected theme |
| Theme.CycleShownAndSaved | script.js:31-42 | after any click, attribute and storage both agree with the selected theme |
| Theme.CycleNIndex | script.js:31 | after n clicks the index has advanced by n modulo 4 |
| Theme.FourCyclesIdentity | script.js:31-42 | four clicks from a consistent page return exactly to the same page |
| Theme.IndexOfThemes | script.js:11 | the theme names are distinct: each name's `indexOf` is its own position |
| Theme.ReloadAfterCycle | script.js:15-42 | reloading the page after a click restores the theme, attribute and storage that click left |
| Theme.LoadIdempotent | script.js:15-24 | loading what storage holds after a load yields the same page again |
| Theme.NotificationExamples | script.js:67 | the four notifications read "Default Theme", "Blue Theme", "White Theme", "Pink Theme" |
| TimeFormat.NatToString | script.js:596 | the decimal rendering is non-empty, all digits, without leading zeros, and denotes the number |
| TimeFormat.FormatTime | script.js:593-597 | the readout is the minutes `s div 60` in decimal, a colon, and the tens and units digits of `s mod 60` |
| TimeFormat.SecondsPadded | script.js:596 | the conditional `'0'` prefix always yields the two-digit rendering of a value below 100 |
| TimeFormat.SecondsFieldInRange | script.js:595-596 | the seconds field is two digits, the first in 0..5, reading as `s mod 60` |
| TimeFormat.FormatTimeRoundTrip | script.js:593-597 | every readout parses back as the number of seconds it was made from |
| TimeFormat.FormatTimeInjective | script.js:593-597 | distinct numbers of seconds give distinct readouts |
| TimeFormat.FormatTimeExamples | script.js:593-597 | 0, 65, 599 and 3600 seconds read "0:00", "1:05", "9:59" and "60:00" |
| Player.PlayIconFor | script.js:519-526 | the play button shows the pause icon exactly when playing and the play icon exactly when not |
| Player.MuteIconFor | script.js:541-548 | the mute button shows the muted icon exactly when muted and the speaker icon exactly when not |
| Player.UpdatePlayPauseIcon | script.js:519-526 | redrawing sets the play button's icon from the flag and changes nothing else |
| Player.OpenStart | script.js:426-441 | opening sets the source to the requested URL, reloads (paused, position 0), shows the modal, locks scrolling and calls load then play, leaving mute and the flag alone |
| Player.Open | script.js:426-453 | as written: a first play that resolves sets the flag; a rejected one mutes and retries; a rejected retry clears the flag; a resolved retry leaves the flag and the play button as they were, while the other outcomes redraw the button from the new flag; source, position 0 and `active` are set in every case |
| Player.OpenFixed | script.js:426-453 | as evidently intended: the flag ends true exactly when either attempt succeeds, it mirrors the element, and the mute button shows the forced mute |
| Player.Toggle | script.js:501-509 | play/pause flips the flag, calls pause exactly when it was playing and play exactly when it was not, and leaves the icon matching the new flag |
| Player.Ended | script.js:600-603 | the `ended` event clears the flag, pauses the element and shows the play icon; the position, both readouts, the progress width, the mute state and icon, the source and the call log are unchanged |
| Player.ToggleMute | script.js:529-531 | the mute control flips `muted`, redraws its icon from the new value and changes nothing else on the element |
| Player.TimeUpdate | script.js:569-574 | on `timeupdate` the element's position becomes `t`, the progress bar takes the width given as input, and the elapsed readout is exactly `formatTime(t)`, which reads back as `t`; nothing else changes |
| Player.LoadedMetadata | script.js:576-578 | on `loadedmetadata` the element's duration becomes `d` and the total readout is exactly `formatTime(d)`, which reads back as `d`; nothing else changes |
| Player.CloseComplete | script.js:461-474 | close completion, from any state, leaves the modal hidden, scrolling unlocked, the element paused without a source at position 0, the flag false with the play icon, width "0%" and both readouts "0:00" |
| Player.KeyDown | script.js:490-937 | with the modal hidden no key changes anything; with it shown Escape closes (the listener at lines 490-494), space toggles play and `M` toggles mute (the listener at lines 907-937) |
| Player.InitialConsistent | script.js:409 | the flag starts false; together with the assumed initial markup (see "Left out") the page starts hidden with both icons matching the state |
| Player.CloseForgetsHistory | script.js:461-474 | closing ends in the same state whatever came before, apart from the mute setting that closing never resets |
| Player.CloseIdempotent | script.js:461-474 | closing an already closed player changes nothing but the call log |
| Player.ToggleTwice | script.js:501-526 | two play/pause clicks restore the flag and the button |
| Player.IconsMatchPreserved | script.js:441-603 | every transition keeps both icons matching the state, except the as-written fallback open |
| Player.SyncedPreserved | script.js:441-603 | the flag keeps mirroring the element through every transition whose play request succeeds |
| Player.ToggleIgnoresRejection | script.js:505-507 | a play click whose promise is rejected leaves the flag set on a paused element |
| Player.OpenRetryLeavesFlagStale | script.js:446-451 | after a close, a blocked autoplay with a successful muted retry leaves the flag false while the video plays, so the next click calls play again |
| Player.OpenFallbackLeavesMuteIconStale | script.js:446-448 | after the autoplay fallback the element is muted while the mute button still shows the speaker icon |
| Player.OpenReplacesPrevious | script.js:428-452 | (corrected open) opening a second video without closing leaves only its source, at position 0, with a flag fixed by the new play outcomes alone |
| Player.EndToEnd | script.js:426-603 | (corrected open) a 30-second video with autoplay blocked and the muted retry succeeding is playing and muted; after the end both readouts show "0:30"; after closing everything is reset |
| NavHighlight.LastReached | script.js:948-955 | reference: the index of the last section in document order whose top minus 200 is at most the offset, or -1 if none |
| NavHighlight.CurrentSection | script.js:946-955 | the handler's loop settles on the id of that last reached section, or "" when none is reached |
| NavHighlight.Highlight | script.js:957-962 | afterwards exactly the links whose href is `'#'` followed by the chosen id are active, and hrefs are unchanged |
| NavHighlight.OnScroll | script.js:945-962 | a scroll event chooses the last reached section's id ("" if none) and leaves active exactly the links whose href is `'#'` followed by that id |
| NavHighlight.AtMostOneActive | script.js:957-962 | when link hrefs are distinct, at most one link is active afterwards |
| NavHighlight.HighlightIgnoresPrevious | script.js:957-962 | the result does not depend on which links were active before: repeating it changes nothing |
| NavHighlight.TopOfPageMarksBareHash | script.js:946-962 | above every section the chosen id is "", so only links whose href is exactly `#` become active |
| NavHighlight.LastReachedMonotone | script.js:948-955 | scrolling further down never moves the choice to an earlier section |

## Findings

| source | as written | input that shows it | evidently intended | confidence | as-written member | corrected member |
|---|---|---|---|---|---|---|
| script.js:446-451 | when the first `play()` is rejected and the muted retry resolves, `isPlaying` is not set | open a video after a close (flag false) with autoplay blocked and muted playback allowed: the video plays, the button shows "play", and the next click calls `play()` instead of pausing | the successful retry sets `isPlaying` to true and redraws the button | medium, not executed | Player.OpenRetryLeavesFlagStale | Player.OpenFixed |
| script.js:446-448 | the autoplay fallback sets `muted` without calling `updateMuteIcon` | same open with autoplay blocked: the element is muted and the mute button shows the speaker icon | the mute button is redrawn after the forced mute | medium, not executed | Player.OpenFallbackLeavesMuteIconStale | Player.OpenFixed |

`Player.Open` is the as-written transition; `Player.OpenFixed` is the
corrected one, and the invariant lemmas (`SyncedPreserved`,
`IconsMatchPreserved`), `OpenReplacesPrevious` and `EndToEnd` are stated
about it.

## Left out

- GSAP tweens, scroll-triggered reveals, parallax, hover micro-animations, the custom cursor, the stats counter, the image tilt: animation-library calls with cosmetic parameters, or floating-point pixel arithmetic.
- The 0.3 s fade-out of `closeVideoModal`: the close button, the backdrop click and Escape go straight to `CloseComplete`; a key pressed during the fade, while the modal is still `active`, is not modelled.
- The play promises are settled at once inside `Open`: events arriving between the `play()` call and its outcome are not interleaved.
- Player.KeyDown: `F` (fullscreen) and the arrow keys (seek by 5 seconds) leave the modelled state unchanged, because fullscreen depends on the browser's `document.fullscreenElement` and the seek relies on the browser to clamp `currentTime`; the Escape listener tests `e.key` while the others test `e.code`, and both are collapsed into one `Key` value.
- The progress-bar click seek: floating-point division of pixel positions.
- Player.TimeUpdate: the progress width is an input string, not computed, because it is the browser's floating-point rendering of `currentTime / duration * 100` (with `NaN` or `Infinity` before metadata); only that the bar takes the given width, and the "0%" reset on close, are modelled.
- TimeFormat.FormatTime: whole, non-negative seconds only; `Math.floor` of fractional seconds and `NaN` before metadata are not modelled. The rendering is exact only while the minutes stay below 10^21 (JavaScript writes larger numbers in exponent notation) and the seconds below 2^53 (where JavaScript numbers stop being exact integers); an infinite duration, which JavaScript renders as "Infinity:NaN", is not modelled.
- Theme.NotificationText: capitalisation covers ASCII letters only, not the full `toUpperCase` case mapping; the notification's timer and removal are left out.
- Local storage and the DOM are fields of the state records; the model assumes storage reads and writes succeed, while the code does not catch their failure (a throwing `getItem` would stop the script before any later listener is installed, a throwing `setItem` would stop the click handler before the notification). The page is assumed to start with no `data-theme` attribute and, for the player, with nothing loaded, paused and unmuted, the modal without `active`, the body without `no-scroll`, the play button showing `fas fa-play`, the mute button showing `fas fa-volume-up`, the progress width "0%" and both readouts "0:00", since the markup is not part of this model.
- The `<source>` child's `src` being cleared on close is folded into the element's `src` becoming absent.
- The resize debounce, the contact-form simulation, lazy loading and console logging: timers, async plumbing and output only.
- The code keeps no guard against a late media event from a previously opened source, and it never clamps a seek; neither is modelled, as neither exists.
- Nav links and sections are given as sequences; `offsetTop` and `pageYOffset` are whole pixels.
