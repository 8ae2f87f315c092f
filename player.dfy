/** The playlist and playback state machine of script.js: the module-level
    variables playlist, currentTrackIndex, autoplay and randomPlay, the audio
    element, the video popup and the text of the page elements the handlers
    write, as the fields of one Player object. Platform calls are reduced to
    the field updates they make visible: audio.play() and pause() set
    `paused`, showPopup/closePopup set the popup, textContent writes set a
    label. Fullscreen is entered with the popup and left with it. */
module MediaPlayer {
  import opened Playback

  /** The audio element as the script reads and writes it. */
  datatype Audio = Audio(src: string, paused: bool)

  /** The video popup: shown (display "flex") with the video's url, or hidden
      (display "none") with the video element's src cleared. Its video plays
      exactly while it is shown. */
  datatype Popup = Popup(visible: bool, src: string)

  const Hidden := Popup(false, "")

  /** The textContent of the page elements the script writes: the play/pause
      button, the "current track" text, the current and total time, and the
      autoplay and shuffle buttons. */
  datatype Labels = Labels(
    playPause: string,
    currentTrack: string,
    currentTime: string,
    totalTime: string,
    autoplayButton: string,
    shuffleButton: string)

  /** The caption toggleAutoplay and toggleRandom write for a flag. */
  function FlagText(prefix: string, on: bool): string {
    prefix + ": " + if on then "On" else "Off"
  }

  class Player {
    var playlist: seq<Track>
    var currentTrackIndex: nat
    var autoplay: bool
    var randomPlay: bool
    var audio: Audio
    var popup: Popup
    var labels: Labels

    /** What every handler keeps: every track has an object URL, the audio
        element never plays without a source, the popup shows a video exactly
        when it has one, and the two toggle buttons show their flags. The
        current index is NOT kept below |playlist|: removeTrack and
        clearPlaylist leave it as it was. */
    ghost predicate Valid()
      reads this
    {
      && (forall t | t in playlist :: t.url != "")
      && (audio.src == "" ==> audio.paused)
      && (popup.visible <==> popup.src != "")
      && labels.autoplayButton == FlagText("Autoplay", autoplay)
      && labels.shuffleButton == FlagText("Shuffle", randomPlay)
    }

    /** The state at page load (script.js:4-7). The initial label texts come
        from the page markup: "Play", "No track playing", "0:00", "0:00",
        "Autoplay: Off", "Shuffle: Off". */
    constructor ()
      ensures Valid()
      ensures playlist == [] && currentTrackIndex == 0 && !autoplay && !randomPlay
      ensures audio == Audio("", true) && popup == Hidden
      ensures labels == Labels("Play", "No track playing", "0:00", "0:00", "Autoplay: Off", "Shuffle: Off")
    {
      playlist := [];
      currentTrackIndex := 0;
      autoplay := false;
      randomPlay := false;
      audio := Audio("", true);
      popup := Hidden;
      labels := Labels("Play", "No track playing", "0:00", "0:00", "Autoplay: Off", "Shuffle: Off");
    }

    /** The state playTrack(k) leaves behind, with `audioOnEntry` the audio
        element as it was when playTrack began (nextTrack and prevTrack pause
        it first). The index becomes k. A "video/mp4" track opens the popup
        on its url and touches neither the audio element nor the labels; any
        other track closes the popup, loads its url into the audio element,
        starts it, and writes "Pause" and "Now playing: <name>". Nothing else
        changes. */
    twostate predicate PlayedTrack(k: nat, audioOnEntry: Audio)
      reads this
    {
      && playlist == old(playlist)
      && k < |playlist|
      && currentTrackIndex == k
      && autoplay == old(autoplay)
      && randomPlay == old(randomPlay)
      && var t := playlist[k];
         if IsVideo(t) then
           popup == Popup(true, t.url)
           && audio == audioOnEntry
           && labels == old(labels)
         else
           popup == Hidden
           && audio == Audio(t.url, false)
           && labels == old(labels).(playPause := "Pause", currentTrack := "Now playing: " + t.name)
    }

    /** handleFiles (script.js:62-71): pushes one record per file, in file
        order; urls[k] stands for URL.createObjectURL(files[k]), which is
        never empty. */
    method HandleFiles(files: seq<File>, urls: seq<string>)
      requires Valid()
      requires |urls| == |files|
      requires forall k :: 0 <= k < |urls| ==> urls[k] != ""
      modifies this
      ensures Valid()
      ensures playlist == old(playlist) + Records(files, urls)
      ensures unchanged(this`currentTrackIndex, this`autoplay, this`randomPlay, this`audio, this`popup, this`labels)
    {
      for i := 0 to |files|
        modifies this`playlist
        invariant playlist == old(playlist) + Records(files[..i], urls[..i])
        invariant forall t | t in playlist :: t.url != ""
      {
        RecordsSnoc(files, urls, i);
        playlist := playlist + [Track(urls[i], files[i].name, files[i].mime)];
      }
      assert files[..|files|] == files && urls[..|urls|] == urls;
    }

    /** showPopup (script.js:105-123): the video element gets the url and
        plays, the popup is displayed and fullscreen is requested. */
    method ShowPopup(videoUrl: string)
      modifies this
      ensures popup == Popup(true, videoUrl)
      ensures unchanged(this`playlist, this`currentTrackIndex, this`autoplay, this`randomPlay, this`audio, this`labels)
    {
      popup := popup.(src := videoUrl);
      popup := popup.(visible := true);
    }

    /** closePopup (script.js:125-134): the video element is paused and its
        src cleared, the popup is hidden and fullscreen is left. */
    method ClosePopup()
      modifies this
      ensures popup == Hidden
      ensures unchanged(this`playlist, this`currentTrackIndex, this`autoplay, this`randomPlay, this`audio, this`labels)
    {
      popup := popup.(src := "");
      popup := popup.(visible := false);
    }

    /** playTrack (script.js:85-103). An index outside the playlist makes
        playlist[index].type throw, so callers must pass a valid one. */
    method PlayTrack(index: nat)
      requires Valid()
      requires index < |playlist|
      modifies this
      ensures Valid()
      ensures PlayedTrack(index, old(audio))
    {
      var track := playlist[index];
      currentTrackIndex := index;
      if track.mime == "video/mp4" {
        ShowPopup(track.url);
      } else {
        ClosePopup();
        audio := audio.(src := track.url);
        audio := audio.(paused := false);
        labels := labels.(playPause := "Pause");
        labels := labels.(currentTrack := "Now playing: " + track.name);
      }
    }

    /** The effect of playOrPauseAudio: nothing on an empty playlist; paused
        without a source, playTrack(0); paused with a source, resume and
        write "Pause"; playing, pause and write "Play". */
    twostate predicate ToggledPlayback()
      reads this
    {
      if old(playlist) == [] then
        unchanged(this)
      else if old(audio).paused && old(audio).src == "" then
        PlayedTrack(0, old(audio))
      else
        && playlist == old(playlist)
        && currentTrackIndex == old(currentTrackIndex)
        && autoplay == old(autoplay)
        && randomPlay == old(randomPlay)
        && popup == old(popup)
        && audio == old(audio).(paused := !old(audio).paused)
        && labels == old(labels).(playPause := if old(audio).paused then "Pause" else "Play")
    }

    /** playOrPauseAudio (script.js:158-172). */
    method PlayOrPauseAudio()
      requires Valid()
      modifies this
      ensures Valid()
      ensures ToggledPlayback()
    {
      if |playlist| == 0 {
        return;
      }
      if audio.paused {
        if audio.src == "" {
          PlayTrack(0);
        } else {
          audio := audio.(paused := false);
          labels := labels.(playPause := "Pause");
        }
      } else {
        audio := audio.(paused := true);
        labels := labels.(playPause := "Play");
      }
    }

    /** togglePlayPause (script.js:148-156), with the resumption of a
        suspended audio context taken as immediate. */
    method TogglePlayPause()
      requires Valid()
      modifies this
      ensures Valid()
      ensures ToggledPlayback()
    {
      PlayOrPauseAudio();
    }

    /** prevTrack (script.js:174-180): on a non-empty playlist, pause the
        audio and play the previous track, cyclically. */
    method PrevTrack()
      requires Valid()
      modifies this
      ensures Valid()
      ensures old(playlist) == [] ==> unchanged(this)
      ensures old(playlist) != [] ==>
        PlayedTrack(PrevIndex(old(currentTrackIndex), |old(playlist)|), old(audio).(paused := true))
    {
      if |playlist| > 0 {
        audio := audio.(paused := true);
        currentTrackIndex := (currentTrackIndex - 1 + |playlist|) % |playlist|;
        PlayTrack(currentTrackIndex);
      }
    }

    /** nextTrack (script.js:182-188): on a non-empty playlist, pause the
        audio and play the next track, cyclically. */
    method NextTrack()
      requires Valid()
      modifies this
      ensures Valid()
      ensures old(playlist) == [] ==> unchanged(this)
      ensures old(playlist) != [] ==>
        PlayedTrack(NextIndex(old(currentTrackIndex), |old(playlist)|), old(audio).(paused := true))
    {
      if |playlist| > 0 {
        audio := audio.(paused := true);
        currentTrackIndex := (currentTrackIndex + 1) % |playlist|;
        PlayTrack(currentTrackIndex);
      }
    }

    /** toggleAutoplay (script.js:190-193). */
    method ToggleAutoplay()
      requires Valid()
      modifies this
      ensures Valid()
      ensures autoplay == !old(autoplay)
      ensures labels == old(labels).(autoplayButton := if autoplay then "Autoplay: On" else "Autoplay: Off")
      ensures unchanged(this`playlist, this`currentTrackIndex, this`randomPlay, this`audio, this`popup)
    {
      autoplay := !autoplay;
      labels := labels.(autoplayButton := FlagText("Autoplay", autoplay));
    }

    /** toggleRandom (script.js:195-198). */
    method ToggleRandom()
      requires Valid()
      modifies this
      ensures Valid()
      ensures randomPlay == !old(randomPlay)
      ensures labels == old(labels).(shuffleButton := if randomPlay then "Shuffle: On" else "Shuffle: Off")
      ensures unchanged(this`playlist, this`currentTrackIndex, this`autoplay, this`audio, this`popup)
    {
      randomPlay := !randomPlay;
      labels := labels.(shuffleButton := FlagText("Shuffle", randomPlay));
    }

    /** clearPlaylist (script.js:200-208): empties the playlist, stops and
        unloads the audio and resets the three display texts. The index, the
        flags and the popup are left as they were. */
    method ClearPlaylist()
      requires Valid()
      modifies this
      ensures Valid()
      ensures playlist == []
      ensures audio == Audio("", true)
      ensures labels == old(labels).(currentTrack := "No track playing", currentTime := "0:00", totalTime := "0:00")
      ensures unchanged(this`currentTrackIndex, this`autoplay, this`randomPlay, this`popup)
    {
      playlist := [];
      audio := audio.(paused := true);
      audio := audio.(src := "");
      labels := labels.(currentTrack := "No track playing");
      labels := labels.(currentTime := "0:00");
      labels := labels.(totalTime := "0:00");
    }

    /** removeTrack (script.js:210-218): playlist.splice(index, 1). The
        display texts are reset only when the playlist ends up empty; the
        index, the flags, the audio and the popup are never touched, even when
        the removed track is the one playing. */
    method RemoveTrack(index: int)
      requires Valid()
      modifies this
      ensures Valid()
      ensures playlist == SpliceOne(old(playlist), index)
      ensures playlist == [] ==>
        labels == old(labels).(currentTrack := "No track playing", currentTime := "0:00", totalTime := "0:00")
      ensures playlist != [] ==> labels == old(labels)
      ensures unchanged(this`currentTrackIndex, this`autoplay, this`randomPlay, this`audio, this`popup)
    {
      playlist := SpliceOne(playlist, index);
      if |playlist| == 0 {
        labels := labels.(currentTrack := "No track playing", currentTime := "0:00", totalTime := "0:00");
      }
    }

    /** handleTrackEnd (script.js:284-304), the "ended" handler of the audio
        element and of the popup's video. With autoplay off it writes "Play".
        With autoplay on the next index is r under shuffle, r standing for
        Math.floor(Math.random() * playlist.length), and the successor of the
        current index otherwise; that track is played on the video or the
        audio branch. With autoplay on and an empty playlist the source throws
        (playlist[...] is undefined), so that case is excluded. */
    method HandleTrackEnd(r: nat)
      requires Valid()
      requires autoplay ==> playlist != []
      requires autoplay && randomPlay ==> r < |playlist|
      modifies this
      ensures Valid()
      ensures !old(autoplay) ==>
        labels == old(labels).(playPause := "Play")
        && unchanged(this`playlist, this`currentTrackIndex, this`autoplay, this`randomPlay, this`audio, this`popup)
      ensures old(autoplay) && old(randomPlay) ==> PlayedTrack(r, old(audio))
      ensures old(autoplay) && !old(randomPlay) ==>
        PlayedTrack(NextIndex(old(currentTrackIndex), |old(playlist)|), old(audio))
    {
      if autoplay {
        if randomPlay {
          currentTrackIndex := r;
        } else {
          currentTrackIndex := (currentTrackIndex + 1) % |playlist|;
        }
        var next := playlist[currentTrackIndex];
        if next.mime == "video/mp4" {
          ShowPopup(next.url);
        } else {
          ClosePopup();
          PlayTrack(currentTrackIndex);
        }
      } else {
        labels := labels.(playPause := "Play");
      }
    }
  }

  /** Pausing and resuming with the play/pause button gives back the audio
      element and the label as they were. */
  method PauseThenResume(p: Player)
    requires p.Valid() && p.playlist != [] && !p.audio.paused
    modifies p
    ensures p.Valid()
    ensures unchanged(p`playlist, p`currentTrackIndex, p`autoplay, p`randomPlay, p`audio, p`popup)
    ensures p.labels == old(p.labels).(playPause := "Pause")
  {
    p.TogglePlayPause();
    assert p.audio.paused && p.audio.src != "";
    p.TogglePlayPause();
  }

  /** prevTrack right after nextTrack comes back to the track it started
      from, whenever the index was in range. */
  method NextThenPrev(p: Player)
    requires p.Valid() && p.currentTrackIndex < |p.playlist|
    modifies p
    ensures p.Valid()
    ensures p.currentTrackIndex == old(p.currentTrackIndex)
    ensures p.playlist == old(p.playlist)
  {
    ghost var i := p.currentTrackIndex;
    p.NextTrack();
    p.PrevTrack();
    PrevAfterNext(i, |p.playlist|);
  }

  /** Two audio tracks and a video, autoplay on and shuffle off: starting
      from track 0, three ends of track visit 1, 2 (in the popup) and 0. */
  method AutoplayTraversal() {
    var p := new Player();
    p.HandleFiles([File("a.mp3", "audio/mpeg"), File("b.mp3", "audio/mpeg"), File("c.mp4", "video/mp4")],
                  ["blob:a", "blob:b", "blob:c"]);
    p.ToggleAutoplay();
    p.PlayTrack(0);
    assert p.currentTrackIndex == 0 && p.audio == Audio("blob:a", false);
    p.HandleTrackEnd(0);
    assert p.currentTrackIndex == 1 && p.audio == Audio("blob:b", false);
    assert p.labels.currentTrack == "Now playing: b.mp3";
    p.HandleTrackEnd(0);
    assert p.currentTrackIndex == 2 && p.popup == Popup(true, "blob:c");
    assert p.audio.src == "blob:b";
    p.HandleTrackEnd(0);
    assert p.currentTrackIndex == 0 && p.popup == Hidden && p.audio == Audio("blob:a", false);
  }

  /** removeTrack leaves the index where it was, so it can point past the
      end; nextTrack still lands on a track because of the modulo. */
  method StaleIndexAfterRemove() {
    var p := new Player();
    p.HandleFiles([File("a.mp3", "audio/mpeg"), File("b.mp3", "audio/mpeg")], ["blob:a", "blob:b"]);
    p.PlayTrack(1);
    p.RemoveTrack(1);
    assert |p.playlist| == 1 && p.currentTrackIndex == 1;
    p.NextTrack();
    assert p.currentTrackIndex == 0 && p.audio == Audio("blob:a", false);
  }

  /** Removing the only, playing track with autoplay on leaves the audio
      playing over an empty playlist: the state in which the source's
      handleTrackEnd throws, which HandleTrackEnd's precondition excludes. */
  method EmptiedWhilePlaying() {
    var p := new Player();
    p.HandleFiles([File("a.mp3", "audio/mpeg")], ["blob:a"]);
    p.ToggleAutoplay();
    p.PlayTrack(0);
    p.RemoveTrack(0);
    assert p.playlist == [] && p.autoplay && !p.audio.paused;
  }
}
