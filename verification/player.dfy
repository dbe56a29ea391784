/** The video modal and its player controls (script.js lines 398-603 and the
    keyboard shortcuts at 490-494 and 907-937). The one `<video>` element is
    abstracted as a record of the properties the script reads and writes, plus
    the log of media methods it calls; every play promise's outcome is an
    input. */
module Player {
  import opened Options
  import opened TimeFormat

  /** A media method the script calls on the video element. */
  datatype Call = LoadCall | PlayCall | PauseCall

  /** The video element as the script sees it. `duration` is absent until
      metadata has loaded. */
  datatype Media = Media(
    src: Option<string>,
    currentTime: nat,
    duration: Option<nat>,
    muted: bool,
    paused: bool)

  /** The controller: the media element, the methods called on it, the
      script's own `isPlaying` flag, the modal's `active` class, the body's
      `no-scroll` class, the two button icons and the three progress displays. */
  datatype Player = Player(
    media: Media,
    calls: seq<Call>,
    isPlaying: bool,
    active: bool,
    noScroll: bool,
    playIcon: string,
    muteIcon: string,
    progressWidth: string,
    currentText: string,
    durationText: string)

  /** A key the document's keydown listeners look at. */
  datatype Key = Escape | Space | KeyM | KeyF | ArrowLeft | ArrowRight | OtherKey

  const PauseIcon: string := "fas fa-pause"
  const PlayIcon: string := "fas fa-play"
  const MutedIcon: string := "fas fa-volume-mute"
  const UnmutedIcon: string := "fas fa-volume-up"

  /** The play/pause button's icon class for a value of `isPlaying`. */
  function PlayIconFor(playing: bool): (c: string)
    ensures c == PauseIcon <==> playing
    ensures c == PlayIcon <==> !playing
  {
    if playing then PauseIcon else PlayIcon
  }

  /** The mute button's icon class for a value of `muted`. */
  function MuteIconFor(muted: bool): (c: string)
    ensures c == MutedIcon <==> muted
    ensures c == UnmutedIcon <==> !muted
  {
    if muted then MutedIcon else UnmutedIcon
  }

  /** The page as served: nothing loaded, modal hidden, paused, unmuted. */
  const Initial: Player := Player(
    Media(None, 0, None, false, true), [], false, false, false,
    PlayIcon, UnmutedIcon, "0%", "0:00", "0:00")

  /** `load()` restarts the element: position 0, no metadata, paused. */
  function MediaLoad(m: Media): Media {
    m.(currentTime := 0, duration := None, paused := true)
  }

  /** `play()` whose promise resolves (`ok`) or is rejected. */
  function MediaPlay(m: Media, ok: bool): Media {
    if ok then m.(paused := false) else m
  }

  /** `updatePlayPauseIcon`. */
  function UpdatePlayPauseIcon(s: Player): (t: Player)
    ensures t.playIcon == PlayIconFor(s.isPlaying)
    ensures t.(playIcon := s.playIcon) == s
  {
    s.(playIcon := if s.isPlaying then PauseIcon else PlayIcon)
  }

  /** The two buttons show what the state is. */
  predicate IconsMatch(s: Player) {
    s.playIcon == PlayIconFor(s.isPlaying) && s.muteIcon == MuteIconFor(s.media.muted)
  }

  /** The script's flag agrees with whether the element is really playing. */
  predicate Synced(s: Player) {
    s.isPlaying == !s.media.paused
  }

  /** The synchronous part of `openVideoModal`: assign the source, reload,
      rewind, show the modal, lock page scrolling and ask to play. */
  function OpenStart(s: Player, url: string): (t: Player)
    ensures t.media.src == Some(url) && t.media.currentTime == 0 && t.media.paused
    ensures t.media.muted == s.media.muted
    ensures t.active && t.noScroll
    ensures t.calls == s.calls + [LoadCall, PlayCall]
    ensures t.isPlaying == s.isPlaying && IconsMatch(t) == IconsMatch(s)
  {
    var m := MediaLoad(s.media.(src := Some(url))).(currentTime := 0);
    s.(media := m, calls := s.calls + [LoadCall, PlayCall], active := true, noScroll := true)
  }

  /** `openVideoModal(url)` as written. The first play resolving sets the flag;
      its rejection mutes the element and plays again, and only that retry's
      rejection touches the flag (clearing it). */
  function Open(s: Player, url: string, firstOk: bool, retryOk: bool): (t: Player)
    ensures t.media.src == Some(url) && t.media.currentTime == 0 && t.media.duration.None?
    ensures t.active && t.noScroll
    ensures firstOk ==> t.isPlaying && !t.media.paused && t.media.muted == s.media.muted
    ensures firstOk ==> t.calls == s.calls + [LoadCall, PlayCall]
    ensures !firstOk ==> t.media.muted && t.calls == s.calls + [LoadCall, PlayCall, PlayCall]
    ensures !firstOk && !retryOk ==> !t.isPlaying && t.media.paused
    ensures !firstOk && retryOk ==> t.isPlaying == s.isPlaying && !t.media.paused
    ensures firstOk || !retryOk ==> t.playIcon == PlayIconFor(t.isPlaying)
    ensures !firstOk && retryOk ==> t.playIcon == s.playIcon
    ensures t.muteIcon == s.muteIcon
    ensures t.progressWidth == s.progressWidth && t.currentText == s.currentText && t.durationText == s.durationText
  {
    var o := OpenStart(s, url);
    if firstOk then
      UpdatePlayPauseIcon(o.(media := MediaPlay(o.media, true), isPlaying := true))
    else
      var r := o.(media := MediaPlay(o.media.(muted := true), retryOk), calls := o.calls + [PlayCall]);
      if retryOk then r
      else UpdatePlayPauseIcon(r.(isPlaying := false))
  }

  /** `openVideoModal` as evidently intended: a successful muted retry also
      sets the flag, and the mute button is redrawn after the forced mute. */
  function OpenFixed(s: Player, url: string, firstOk: bool, retryOk: bool): (t: Player)
    ensures t.media.src == Some(url) && t.media.currentTime == 0 && t.media.duration.None?
    ensures t.active && t.noScroll
    ensures t.isPlaying <==> firstOk || retryOk
    ensures !firstOk ==> t.media.muted
    ensures Synced(t) && t.playIcon == PlayIconFor(t.isPlaying)
    ensures !firstOk || IconsMatch(s) ==> IconsMatch(t)
  {
    var o := OpenStart(s, url);
    if firstOk then
      UpdatePlayPauseIcon(o.(media := MediaPlay(o.media, true), isPlaying := true))
    else
      var r := o.(media := MediaPlay(o.media.(muted := true), retryOk), calls := o.calls + [PlayCall],
                  muteIcon := MuteIconFor(true));
      UpdatePlayPauseIcon(r.(isPlaying := retryOk))
  }

  /** `togglePlayPause`: pause when the flag says playing, otherwise play,
      flip the flag and redraw the button. The play promise is not awaited,
      so `playOk` reaches only the element. */
  function Toggle(s: Player, playOk: bool): (t: Player)
    ensures t.isPlaying == !s.isPlaying
    ensures t.calls == s.calls + [if s.isPlaying then PauseCall else PlayCall]
    ensures t.playIcon == PlayIconFor(t.isPlaying)
    ensures s.isPlaying ==> t.media.paused
    ensures t.media.(paused := s.media.paused) == s.media
    ensures t.(media := s.media, calls := s.calls, isPlaying := s.isPlaying, playIcon := s.playIcon) == s
  {
    if s.isPlaying then
      UpdatePlayPauseIcon(s.(media := s.media.(paused := true), calls := s.calls + [PauseCall], isPlaying := false))
    else
      UpdatePlayPauseIcon(s.(media := MediaPlay(s.media, playOk), calls := s.calls + [PlayCall], isPlaying := true))
  }

  /** The element's `ended` event: the element stops and the flag is cleared. */
  function Ended(s: Player): (t: Player)
    ensures !t.isPlaying && t.media.paused && t.playIcon == PlayIcon
    ensures t.media.currentTime == s.media.currentTime && t.currentText == s.currentText
    ensures t.calls == s.calls && t.active == s.active
    ensures t.durationText == s.durationText && t.progressWidth == s.progressWidth && t.muteIcon == s.muteIcon
    ensures t.media.(paused := s.media.paused) == s.media
  {
    UpdatePlayPauseIcon(s.(media := s.media.(paused := true), isPlaying := false))
  }

  /** The mute button: flip `muted` and redraw the button. */
  function ToggleMute(s: Player): (t: Player)
    ensures t.media.muted == !s.media.muted
    ensures t.muteIcon == MuteIconFor(t.media.muted)
    ensures t.media.(muted := s.media.muted) == s.media
    ensures t.isPlaying == s.isPlaying && t.playIcon == s.playIcon && t.calls == s.calls
  {
    s.(media := s.media.(muted := !s.media.muted),
       muteIcon := if !s.media.muted then MutedIcon else UnmutedIcon)
  }

  /** The element's `timeupdate` event at whole second `t`: the progress
      bar takes `width`, the browser's rendering of `t / duration * 100`
      followed by `%`, and the elapsed readout shows `t`. */
  function TimeUpdate(s: Player, t: nat, width: string): (r: Player)
    ensures r.media.currentTime == t && r.currentText == FormatTime(t)
    ensures ParseTime(r.currentText) == Some(t)
    ensures r.progressWidth == width
    ensures r.(media := s.media, currentText := s.currentText, progressWidth := s.progressWidth) == s
    ensures r.media.(currentTime := s.media.currentTime) == s.media
  {
    FormatTimeRoundTrip(t);
    s.(media := s.media.(currentTime := t), progressWidth := width, currentText := FormatTime(t))
  }

  /** The element's `loadedmetadata` event with a whole-second duration `d`:
      the total readout shows `d`. */
  function LoadedMetadata(s: Player, d: nat): (r: Player)
    ensures r.media.duration == Some(d) && r.durationText == FormatTime(d)
    ensures ParseTime(r.durationText) == Some(d)
    ensures r.(media := s.media, durationText := s.durationText) == s
    ensures r.media.(duration := s.media.duration) == s.media
  {
    FormatTimeRoundTrip(d);
    s.(media := s.media.(duration := Some(d)), durationText := FormatTime(d))
  }

  /** The `onComplete` step of `closeVideoModal`: hide the modal, unlock
      scrolling, pause, rewind, detach the source, reload, clear the flag and
      reset every display. */
  function CloseComplete(s: Player): (t: Player)
    ensures !t.active && !t.noScroll
    ensures t.media.paused && t.media.src.None? && t.media.currentTime == 0 && t.media.duration.None?
    ensures !t.isPlaying && t.playIcon == PlayIcon
    ensures t.progressWidth == "0%" && t.currentText == "0:00" && t.durationText == "0:00"
    ensures t.calls == s.calls + [PauseCall, LoadCall]
    ensures t.media.muted == s.media.muted && t.muteIcon == s.muteIcon
  {
    var m := s.media.(paused := true);
    var m := m.(currentTime := 0);
    var m := m.(src := None);
    var u := s.(media := MediaLoad(m), active := false, noScroll := false,
                calls := s.calls + [PauseCall, LoadCall], isPlaying := false);
    UpdatePlayPauseIcon(u).(progressWidth := "0%", currentText := "0:00", durationText := "0:00")
  }

  /** A keydown on the document. Escape closes an open modal; space and `M`
      act through the play and mute controls while the modal is open; every
      key does nothing while it is closed. `F` and the arrows act on parts of
      the element this model leaves out. */
  function KeyDown(s: Player, k: Key, playOk: bool): (t: Player)
    ensures !s.active ==> t == s
    ensures s.active && k == Escape ==> !t.active && t.media.src.None? && !t.isPlaying
    ensures s.active && k == Space ==> t.isPlaying == !s.isPlaying
    ensures s.active && k == KeyM ==> t.media.muted == !s.media.muted
    ensures k == OtherKey ==> t == s
  {
    if !s.active then s
    else
      match k
      case Escape => CloseComplete(s)
      case Space => Toggle(s, playOk)
      case KeyM => ToggleMute(s)
      case _ => s
  }

  /** The state without the call log, for comparing outcomes. */
  function Forget(s: Player): Player {
    s.(calls := [])
  }

  lemma InitialConsistent()
    ensures IconsMatch(Initial) && Synced(Initial) && !Initial.active
  {
  }

  /** Closing ends in the same state whatever came before, apart from the
      mute setting, which the script never resets, and the call log. */
  lemma CloseForgetsHistory(s: Player, u: Player)
    requires s.media.muted == u.media.muted && s.muteIcon == u.muteIcon
    ensures Forget(CloseComplete(s)) == Forget(CloseComplete(u))
  {
  }

  /** Closing twice is the same as closing once, apart from the log. */
  lemma CloseIdempotent(s: Player)
    ensures Forget(CloseComplete(CloseComplete(s))) == Forget(CloseComplete(s))
  {
  }

  /** Two clicks on play/pause restore the flag and the button. */
  lemma ToggleTwice(s: Player, ok1: bool, ok2: bool)
    requires IconsMatch(s)
    ensures var t := Toggle(Toggle(s, ok1), ok2);
      t.isPlaying == s.isPlaying && t.playIcon == s.playIcon && IconsMatch(t)
  {
  }

  /** Every transition except the as-written open keeps the buttons honest. */
  lemma IconsMatchPreserved(s: Player, url: string, a: bool, b: bool, k: Key, t: nat, w: string)
    requires IconsMatch(s)
    ensures IconsMatch(Toggle(s, a)) && IconsMatch(Ended(s)) && IconsMatch(ToggleMute(s))
    ensures IconsMatch(TimeUpdate(s, t, w)) && IconsMatch(LoadedMetadata(s, t))
    ensures IconsMatch(CloseComplete(s)) && IconsMatch(KeyDown(s, k, a))
    ensures IconsMatch(OpenFixed(s, url, a, b))
    ensures a ==> IconsMatch(Open(s, url, a, b))
  {
  }

  /** The flag keeps mirroring the element through every transition whose
      play request succeeds. */
  lemma SyncedPreserved(s: Player, url: string, a: bool, b: bool, t: nat, w: string)
    requires Synced(s)
    ensures a ==> Synced(Toggle(s, a))
    ensures Synced(Ended(s)) && Synced(ToggleMute(s)) && Synced(CloseComplete(s))
    ensures Synced(TimeUpdate(s, t, w)) && Synced(LoadedMetadata(s, t))
    ensures Synced(OpenFixed(s, url, a, b))
  {
  }

  /** A play click whose promise is rejected leaves the flag set on a paused
      element: `togglePlayPause` never looks at the outcome. */
  lemma ToggleIgnoresRejection(s: Player)
    requires !s.isPlaying && s.media.paused
    ensures Toggle(s, false).isPlaying && Toggle(s, false).media.paused
  {
  }

  /** As written, a blocked autoplay whose muted retry succeeds leaves the
      flag from before: after a close it is false while the video plays, the
      button offers "play", and the next click calls play again instead of
      pausing. */
  lemma OpenRetryLeavesFlagStale(url: string)
    ensures var s := Open(Initial, url, false, true);
      !s.isPlaying && !s.media.paused && s.playIcon == PlayIcon &&
      Toggle(s, true).calls[|Toggle(s, true).calls| - 1] == PlayCall && !Synced(s)
  {
  }

  /** As written, the forced mute of the autoplay fallback is not shown: the
      element is muted while the button still shows the unmuted icon. */
  lemma OpenFallbackLeavesMuteIconStale(url: string, retryOk: bool)
    ensures var s := Open(Initial, url, false, retryOk);
      s.media.muted && s.muteIcon == UnmutedIcon && !IconsMatch(s)
  {
  }

  /** Opening a second video without closing the first leaves only the second
      one's source, from position 0, with a flag that depends only on the new
      play outcomes. */
  lemma OpenReplacesPrevious(s: Player, u: Player, url: string, a: bool, b: bool)
    ensures var x, y := OpenFixed(s, url, a, b), OpenFixed(u, url, a, b);
      x.media.src == y.media.src == Some(url) && x.media.currentTime == y.media.currentTime == 0 &&
      x.isPlaying == y.isPlaying && x.media.paused == y.media.paused && x.playIcon == y.playIcon
  {
  }

  /** A 30-second video: autoplay is blocked, the muted retry succeeds, the
      metadata arrives, playback reaches the end, and the modal is closed. */
  lemma EndToEnd(url: string)
    ensures var s1 := OpenFixed(Initial, url, false, true);
      s1.isPlaying && s1.media.muted && s1.active && IconsMatch(s1)
    ensures var s4 := Ended(TimeUpdate(LoadedMetadata(OpenFixed(Initial, url, false, true), 30), 30, "100%"));
      !s4.isPlaying && s4.currentText == s4.durationText == "0:30"
    ensures var s5 := CloseComplete(Ended(TimeUpdate(LoadedMetadata(OpenFixed(Initial, url, false, true), 30), 30, "100%")));
      !s5.active && s5.media.src.None? && s5.media.currentTime == 0 && !s5.isPlaying &&
      s5.currentText == "0:00" && s5.durationText == "0:00" && s5.progressWidth == "0%"
  {
    assert FormatTime(30) == "0:30";
  }
}
