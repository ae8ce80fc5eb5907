/**
 * The music player's playlist and transport state (renderer.js): the
 * module-level variables behind the buttons, the slider and the playlist
 * items, together with the part of the `<audio>` element the handlers read
 * and write.
 *
 * Each handler runs to completion. The `play()` promise is settled inside the
 * handler that calls it; whether it resolves is the `playStarts` parameter.
 */
module Player {
  import opened Wrappers
  import opened Tracks
  import opened Navigation

  class MusicPlayer {
    // renderer.js module state
    var playlist: seq<Track>
    var currentTrackIndex: int
    var isPlaying: bool
    var isDraggingProgress: bool
    /** `progressInterval` holds a pending animation frame of the progress loop. */
    var progressScheduled: bool

    // the audio element and the title it shows
    /** `audioPlayer.paused` */
    var paused: bool
    /** `audioPlayer.src` */
    var src: string
    /** `trackTitle.textContent` */
    var title: string
    /** The playlist position whose track `src` and `title` show, if any. */
    ghost var loadedIndex: Option<nat>

    /**
     * The object invariant: the index is a playlist position (0 while the
     * playlist is empty), the audio element shows the loaded entry, and the
     * element only plays while the player believes it is playing.
     */
    ghost predicate Valid()
      reads this
    {
      && IndexOk(currentTrackIndex, |playlist|)
      && (match loadedIndex
          case None => src == ""
          case Some(k) => k < |playlist| && src == SourceUrl(playlist[k]) && title == playlist[k].name)
      && (!paused ==> isPlaying)
    }

    /** The loaded track is the selected one, and one is loaded once there is one. */
    ghost predicate Synced()
      reads this
    {
      if playlist == [] then loadedIndex == None else loadedIndex == Some(currentTrackIndex)
    }

    /** Nothing about the loaded track or the audio element changed. */
    twostate predicate AudioUnchanged()
      reads this
    {
      && src == old(src) && title == old(title) && loadedIndex == old(loadedIndex)
      && paused == old(paused)
    }

    /** The state when the page loads (renderer.js:5-10). */
    constructor ()
      ensures Valid() && Synced()
      ensures playlist == [] && currentTrackIndex == 0
      ensures !isPlaying && !isDraggingProgress && !progressScheduled
      ensures paused && src == "" && loadedIndex == None
    {
      playlist := [];
      currentTrackIndex := 0;
      isPlaying := false;
      isDraggingProgress := false;
      progressScheduled := false;
      paused := true;
      src := "";
      title := "";
      loadedIndex := None;
    }

    /**
     * `loadTrack(index)`: for a playlist position, show its name and point
     * the element at its file; assigning `src` reloads the element, which
     * leaves it paused, so playback resumes only if the player was playing
     * and `play()` succeeds. Any other index changes nothing.
     */
    method LoadTrack(index: int, playStarts: bool)
      requires Valid()
      modifies this
      ensures Valid()
      ensures playlist == old(playlist) && currentTrackIndex == old(currentTrackIndex)
      ensures isPlaying == old(isPlaying) && isDraggingProgress == old(isDraggingProgress)
      ensures progressScheduled == old(progressScheduled)
      ensures 0 <= index < |playlist| ==>
        && loadedIndex == Some(index)
        && src == SourceUrl(playlist[index]) && title == playlist[index].name
        && paused == !(isPlaying && playStarts)
      ensures !(0 <= index < |playlist|) ==> AudioUnchanged()
      ensures 0 <= index < |playlist| && index == currentTrackIndex ==> Synced()
    {
      if 0 <= index < |playlist| {
        var track := playlist[index];
        title := track.name;
        src := SourceUrl(track);
        loadedIndex := Some(index);
        paused := true;
        if isPlaying && playStarts {
          paused := false;
        }
      }
    }

    /**
     * `selectMusic` once the dialog has answered: `None` when the dialog
     * call failed, otherwise the chosen paths (empty when cancelled). The
     * chosen files are appended in order; if the playlist was empty, the
     * first of them is selected and loaded.
     */
    method AppendSelection(selection: Option<seq<string>>, playStarts: bool)
      requires Valid() && Synced()
      modifies this
      ensures Valid() && Synced()
      ensures isPlaying == old(isPlaying) && isDraggingProgress == old(isDraggingProgress)
      ensures progressScheduled == old(progressScheduled)
      ensures selection.None? || selection.value == [] ==>
        playlist == old(playlist) && currentTrackIndex == old(currentTrackIndex) && AudioUnchanged()
      ensures selection.Some? ==> playlist == old(playlist) + TracksOf(selection.value)
      ensures selection.Some? && selection.value != [] && old(playlist) == [] ==>
        && currentTrackIndex == 0 && loadedIndex == Some(0)
        && src == "file://" + selection.value[0] && title == Basename(selection.value[0])
        && paused == !(isPlaying && playStarts)
      ensures old(playlist) != [] ==> currentTrackIndex == old(currentTrackIndex) && AudioUnchanged()
    {
      if selection.Some? && |selection.value| > 0 {
        var newTracks := TracksOf(selection.value);
        playlist := playlist + newTracks;
        if |playlist| == |newTracks| {
          currentTrackIndex := 0;
          LoadTrack(currentTrackIndex, playStarts);
        }
      }
    }

    /** A click on the playlist item at `index` selects and loads that entry. */
    method SelectItem(index: nat, playStarts: bool)
      requires Valid() && Synced()
      requires index < |playlist|
      modifies this
      ensures Valid() && Synced()
      ensures playlist == old(playlist) && currentTrackIndex == index
      ensures isPlaying == old(isPlaying) && isDraggingProgress == old(isDraggingProgress)
      ensures progressScheduled == old(progressScheduled)
      ensures src == SourceUrl(playlist[index]) && paused == !(isPlaying && playStarts)
    {
      currentTrackIndex := index;
      LoadTrack(currentTrackIndex, playStarts);
    }

    /** The previous-track button: one place back, from the first entry to the last. */
    method Prev(playStarts: bool)
      requires Valid() && Synced()
      modifies this
      ensures Valid() && Synced()
      ensures playlist == old(playlist)
      ensures isPlaying == old(isPlaying) && isDraggingProgress == old(isDraggingProgress)
      ensures progressScheduled == old(progressScheduled)
      ensures playlist == [] ==> currentTrackIndex == old(currentTrackIndex) && AudioUnchanged()
      ensures playlist != [] ==>
        && currentTrackIndex == PrevIndex(old(currentTrackIndex), |playlist|)
        && src == SourceUrl(playlist[currentTrackIndex]) && paused == !(isPlaying && playStarts)
    {
      if |playlist| > 0 {
        currentTrackIndex := (currentTrackIndex - 1 + |playlist|) % |playlist|;
        LoadTrack(currentTrackIndex, playStarts);
      }
    }

    /** The next-track button: one place on, from the last entry to the first. */
    method Next(playStarts: bool)
      requires Valid() && Synced()
      modifies this
      ensures Valid() && Synced()
      ensures playlist == old(playlist)
      ensures isPlaying == old(isPlaying) && isDraggingProgress == old(isDraggingProgress)
      ensures progressScheduled == old(progressScheduled)
      ensures playlist == [] ==> currentTrackIndex == old(currentTrackIndex) && AudioUnchanged()
      ensures playlist != [] ==>
        && currentTrackIndex == NextIndex(old(currentTrackIndex), |playlist|)
        && src == SourceUrl(playlist[currentTrackIndex]) && paused == !(isPlaying && playStarts)
    {
      if |playlist| > 0 {
        currentTrackIndex := (currentTrackIndex + 1) % |playlist|;
        LoadTrack(currentTrackIndex, playStarts);
      }
    }

    /**
     * The element's `ended` event. The element has paused itself before the
     * event fires; the handler stops the progress loop and advances as Next
     * does, so a playing player goes on with the next track.
     */
    method TrackEnded(playStarts: bool)
      requires Valid() && Synced()
      modifies this
      ensures Valid() && Synced()
      ensures playlist == old(playlist) && !progressScheduled
      ensures isPlaying == old(isPlaying) && isDraggingProgress == old(isDraggingProgress)
      ensures playlist == [] ==> currentTrackIndex == old(currentTrackIndex) && paused
      ensures playlist == [] ==> src == old(src) && title == old(title) && loadedIndex == old(loadedIndex)
      ensures playlist != [] ==>
        && currentTrackIndex == NextIndex(old(currentTrackIndex), |playlist|)
        && src == SourceUrl(playlist[currentTrackIndex]) && paused == !(isPlaying && playStarts)
    {
      paused := true;
      progressScheduled := false;
      if |playlist| > 0 {
        currentTrackIndex := (currentTrackIndex + 1) % |playlist|;
        LoadTrack(currentTrackIndex, playStarts);
      }
    }

    /**
     * The play/pause button, which looks at the element rather than at
     * `isPlaying`: a paused element is asked to play, and only if that
     * succeeds is the player marked playing and the progress loop started;
     * a playing element is paused, the player marked not playing and the
     * loop stopped.
     */
    method TogglePlay(playStarts: bool)
      requires Valid()
      modifies this
      ensures Valid()
      ensures playlist == old(playlist) && currentTrackIndex == old(currentTrackIndex)
      ensures src == old(src) && title == old(title) && loadedIndex == old(loadedIndex)
      ensures isDraggingProgress == old(isDraggingProgress)
      ensures old(paused) && playStarts ==> !paused && isPlaying && progressScheduled
      ensures old(paused) && !playStarts ==>
        paused && isPlaying == old(isPlaying) && progressScheduled == old(progressScheduled)
      ensures !old(paused) ==> paused && !isPlaying && !progressScheduled
    {
      if paused {
        if playStarts {
          paused := false;
          isPlaying := true;
          progressScheduled := true;
        }
      } else {
        paused := true;
        isPlaying := false;
        progressScheduled := false;
      }
    }

    /** Pressing the mouse on the progress slider starts a drag and stops the progress loop. */
    method ProgressMouseDown()
      requires Valid()
      modifies this`isDraggingProgress, this`progressScheduled
      ensures Valid()
      ensures isDraggingProgress && !progressScheduled
    {
      isDraggingProgress := true;
      progressScheduled := false;
    }

    /**
     * Releasing the mouse on the slider ends any drag, seeks, and restarts
     * the progress loop if the element is playing.
     */
    method ProgressMouseUp()
      requires Valid()
      modifies this`isDraggingProgress, this`progressScheduled
      ensures Valid()
      ensures !isDraggingProgress
      ensures progressScheduled == (old(progressScheduled) || !paused)
    {
      isDraggingProgress := false;
      if !paused {
        progressScheduled := true;
      }
    }

    /**
     * Leaving the slider during a drag ends the drag, restarting the progress
     * loop if the element is playing; outside a drag it changes nothing.
     */
    method ProgressMouseLeave()
      requires Valid()
      modifies this`isDraggingProgress, this`progressScheduled
      ensures Valid()
      ensures !isDraggingProgress
      ensures !old(isDraggingProgress) ==> progressScheduled == old(progressScheduled)
      ensures old(isDraggingProgress) ==> progressScheduled == (old(progressScheduled) || !paused)
    {
      if isDraggingProgress {
        isDraggingProgress := false;
        if !paused {
          progressScheduled := true;
        }
      }
    }
  }

  /**
   * Three files chosen into an empty player and Next pressed three times:
   * the selection goes 0, 1, 2 and wraps back to 0, each time with that
   * entry's file loaded.
   */
  method WrapAroundScenario(a: string, b: string, c: string) returns (visited: seq<int>, sources: seq<string>)
    ensures visited == [0, 1, 2, 0]
    ensures sources == ["file://" + a, "file://" + b, "file://" + c, "file://" + a]
  {
    var p := new MusicPlayer();
    p.AppendSelection(Some([a, b, c]), false);
    ghost var tracks := TracksOf([a, b, c]);
    assert p.playlist == tracks && |tracks| == 3;
    assert tracks[0].path == a && tracks[1].path == b && tracks[2].path == c;
    var i0, s0 := p.currentTrackIndex, p.src;
    p.Next(false);
    var i1, s1 := p.currentTrackIndex, p.src;
    p.Next(false);
    var i2, s2 := p.currentTrackIndex, p.src;
    p.Next(false);
    var i3, s3 := p.currentTrackIndex, p.src;
    assert i0 == 0 && i1 == 1 && i2 == 2 && i3 == 0;
    assert s0 == "file://" + a && s1 == "file://" + b && s2 == "file://" + c && s3 == "file://" + a;
    visited, sources := [i0, i1, i2, i3], [s0, s1, s2, s3];
  }
}
