/** The bot's module-level state as an object whose event handlers update
    its fields in place. Each handler is one atomic step, and each is proved
    to take the state exactly where the matching transition of module
    `Playback` says. */
module Bot {
  import opened Playback

  class MusicBot {
    var queue: seq<string>
    var isLooping: bool
    var currentlyPlaying: bool
    var currentTrackUrl: Option<string>
    var isProcessing: bool
    var connected: bool          // `connection` is set
    var hasPlayer: bool          // `player` is set
    var tempFilePresent: bool    // audio.webm exists
    var finalFilePresent: bool   // audio.mp3 exists

    /** The fields read as one value of the transition system. */
    ghost function State(): BotState
      reads this
    {
      BotState(queue, isLooping, currentlyPlaying, currentTrackUrl, isProcessing,
               connected, hasPlayer, tempFilePresent, finalFilePresent)
    }

    /** Module initialisation. The two files may be left over from an
        earlier run. */
    constructor (tempLeftOver: bool, finalLeftOver: bool)
      ensures State() == Initial().(tempFilePresent := tempLeftOver, finalFilePresent := finalLeftOver)
    {
      queue := [];
      isLooping := false;
      currentlyPlaying := false;
      currentTrackUrl := None;
      isProcessing := false;
      connected := false;
      hasPlayer := false;
      tempFilePresent := tempLeftOver;
      finalFilePresent := finalLeftOver;
    }

    /** `cleanUpFiles`, also run once from the client's 'ready' handler. */
    method CleanUpFiles()
      modifies this
      ensures State() == Playback.CleanUpFiles(old(State()))
    {
      tempFilePresent := false;
      finalFilePresent := false;
    }

    method Cleanup()
      modifies this
      ensures State() == Playback.Cleanup(old(State()))
    {
      if connected {
        connected := false;
      }
      CleanUpFiles();
      currentlyPlaying := false;
      currentTrackUrl := None;
    }

    /** `playNext`; `fetch` is the URL handed to the downloader, if a cycle
        was started. */
    method PlayNext() returns (fetch: Option<string>)
      modifies this
      ensures Step(State(), fetch) == Playback.PlayNext(old(State()))
    {
      if |queue| == 0 {
        Cleanup();
        return None;
      }
      var videoUrl := queue[0];
      queue := queue[1..];
      currentTrackUrl := Some(videoUrl);
      currentlyPlaying := true;
      fetch := None;
      if !isProcessing {
        isProcessing := true;
        tempFilePresent := true;
        fetch := Some(videoUrl);
      }
    }

    /** The callback that ends the cycle in flight, followed by the
        `isProcessing = false` that `playNext` runs after its await. */
    method OnCycleOutcome(o: Outcome)
      requires isProcessing
      modifies this
      ensures State() == Playback.CycleOutcome(old(State()), o).next
    {
      if o.Converted? {
        finalFilePresent := true;
        hasPlayer := true;
      } else {
        CleanUpFiles();
        var nested := PlayNext();
        assert nested.None?;
      }
      isProcessing := false;
    }

    /** A `/play` request; `resolved` is the search's first result, if any. */
    method OnPlay(resolved: Option<string>) returns (joined: bool)
      modifies this
      ensures Request(State(), joined) == Playback.Play(old(State()), resolved)
    {
      if !Truthy(resolved) {
        return false;
      }
      queue := queue + [resolved.value];
      joined := !currentlyPlaying && !isProcessing;
      if joined {
        connected := true;
      }
    }

    /** The voice connection's Ready event. Setting `currentlyPlaying` before
        `playNext` has no effect of its own: the step is `playNext`'s. */
    method OnConnectionReady() returns (fetch: Option<string>)
      modifies this
      ensures Step(State(), fetch) == Playback.PlayNext(old(State()))
    {
      currentlyPlaying := true;
      fetch := PlayNext();
    }

    /** The voice connection's Disconnected event. */
    method OnConnectionDisconnected()
      modifies this
      ensures State() == Playback.Cleanup(old(State()))
    {
      Cleanup();
    }

    method OnLoop()
      modifies this
      ensures State() == Playback.Loop(old(State()))
    {
      isLooping := !isLooping;
      if isLooping && Truthy(currentTrackUrl) {
        queue := [currentTrackUrl.value] + queue;
      }
    }

    method OnSkip() returns (fetch: Option<string>)
      modifies this
      ensures Step(State(), fetch) == Playback.Skip(old(State()))
    {
      fetch := None;
      if hasPlayer {
        currentlyPlaying := false;
        fetch := PlayNext();
      }
    }

    method OnPlayerIdle() returns (fetch: Option<string>)
      requires isLooping ==> currentTrackUrl.Some?
      modifies this
      ensures Step(State(), fetch) == Playback.PlayerIdle(old(State()))
    {
      if isLooping {
        queue := [currentTrackUrl.value] + queue;
      }
      currentlyPlaying := false;
      fetch := PlayNext();
    }

    method OnPlayerError() returns (fetch: Option<string>)
      modifies this
      ensures Step(State(), fetch) == Playback.PlayerError(old(State()))
    {
      currentlyPlaying := false;
      fetch := PlayNext();
    }
  }
}
