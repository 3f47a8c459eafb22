/** The queue/playback state machine of the bot, as pure transitions.

    `BotState` gathers the module-level variables of the bot: the pending
    queue, the looping flag, the `currentlyPlaying` / `isProcessing` flags,
    the current track URL, whether a voice connection and an audio player
    exist, and whether each of the two temporary files is on disk.

    Every event handler of the bot is a function from the old state to the
    new one. Each function's postcondition states what the handler does to
    the queue and flags; the class in module `Bot` is proved against these
    functions, and module `Traces` proves properties of runs of them.

    A fetch/transcode cycle is split in two, as the source's callbacks are:
    `PlayNext` starts it (the URL handed to the downloader is the step's
    `fetch` effect), and `CycleOutcome` is the download-error, write-error or
    conversion callback that ends it.
 */
module Playback {

  datatype Option<+T> = None | Some(value: T)

  /** JavaScript truthiness of a `string | null` value: null and "" are falsy. */
  predicate Truthy(u: Option<string>) {
    u.Some? && u.value != ""
  }

  /** How a started fetch/transcode cycle ends. */
  datatype Outcome =
    | Converted        // download finished and ffmpeg exited cleanly
    | DownloadFailed   // the download stream emitted 'error'
    | WriteFailed      // the file write stream emitted 'error'
    | ConvertFailed    // ffmpeg reported an error

  predicate Failed(o: Outcome) {
    !o.Converted?
  }

  datatype BotState = BotState(
    queue: seq<string>,
    isLooping: bool,
    currentlyPlaying: bool,
    currentTrackUrl: Option<string>,
    isProcessing: bool,
    connected: bool,          // `connection` holds a voice connection
    hasPlayer: bool,          // `player` holds an audio player
    tempFilePresent: bool,    // audio.webm exists
    finalFilePresent: bool)   // audio.mp3 exists

  /** A handler step that may start a download: the new state, and the URL
      handed to the downloader if a fetch/transcode cycle was started. */
  datatype Step = Step(next: BotState, fetch: Option<string>)

  /** A `/play` step: the new state, and whether a voice channel was joined. */
  datatype Request = Request(next: BotState, joined: bool)

  /** The state right after start-up: module initialisation followed by the
      `cleanUpFiles` run from the client's 'ready' handler. */
  function Initial(): BotState
  {
    BotState([], false, false, None, false, false, false, false, false)
  }

  /** `cleanUpFiles`: both temporary files are gone and nothing else changes. */
  function CleanUpFiles(s: BotState): (r: BotState)
    ensures !r.tempFilePresent && !r.finalFilePresent
    ensures r.(tempFilePresent := s.tempFilePresent, finalFilePresent := s.finalFilePresent) == s
  {
    s.(tempFilePresent := false, finalFilePresent := false)
  }

  /** Running `cleanUpFiles` a second time changes nothing. */
  lemma CleanUpFilesIdempotent(s: BotState)
    ensures CleanUpFiles(CleanUpFiles(s)) == CleanUpFiles(s)
  {
  }

  /** `cleanup`: drops the connection, removes the files and forgets the
      current track. The queue, the looping flag, `isProcessing` and the
      audio player are left as they were. */
  function Cleanup(s: BotState): (r: BotState)
    ensures !r.connected && !r.currentlyPlaying && r.currentTrackUrl.None?
    ensures !r.tempFilePresent && !r.finalFilePresent
    ensures r.queue == s.queue && r.isLooping == s.isLooping
    ensures r.isProcessing == s.isProcessing && r.hasPlayer == s.hasPlayer
  {
    var s1 := s.(connected := false);
    CleanUpFiles(s1).(currentlyPlaying := false, currentTrackUrl := None)
  }

  /** `r` is what advancing the queue of `s` yields, field by field. On an
      empty queue: the `cleanup` effects, no fetch, and `isProcessing` as it
      was. Otherwise the head is removed and becomes the current track with
      `currentlyPlaying` set, the rest of the queue keeps its order, and a
      fetch of that head starts exactly when no cycle was in flight, in which
      case `isProcessing` and audio.webm are set. The looping flag and the
      audio player are untouched either way; `s.currentlyPlaying` plays no
      part. */
  predicate Advances(s: BotState, r: Step) {
    && r.next.isLooping == s.isLooping
    && r.next.hasPlayer == s.hasPlayer
    && (r.fetch.Some? <==> s.queue != [] && !s.isProcessing)
    && (r.fetch.Some? ==> r.fetch.value == s.queue[0])
    && (s.queue == [] ==>
          r.next.queue == [] && r.next.currentTrackUrl.None? &&
          !r.next.connected && !r.next.currentlyPlaying &&
          !r.next.tempFilePresent && !r.next.finalFilePresent &&
          r.next.isProcessing == s.isProcessing)
    && (s.queue != [] ==>
          r.next.queue == s.queue[1..] && r.next.currentTrackUrl == Some(s.queue[0]) &&
          r.next.currentlyPlaying && r.next.isProcessing && r.next.connected == s.connected &&
          r.next.finalFilePresent == s.finalFilePresent &&
          r.next.tempFilePresent == (s.tempFilePresent || r.fetch.Some?))
  }

  /** `playNext`. On an empty queue it runs `cleanup`. Otherwise it removes the
      head, makes it the current track and, unless a cycle is already in
      flight, starts a fetch/transcode cycle for it (the write stream
      creates audio.webm). */
  function PlayNext(s: BotState): (r: Step)
    ensures Advances(s, r)
  {
    if |s.queue| == 0 then
      Step(Cleanup(s), None)
    else
      var videoUrl := s.queue[0];
      var s1 := s.(queue := s.queue[1..], currentTrackUrl := Some(videoUrl), currentlyPlaying := true);
      if !s1.isProcessing then
        Step(s1.(isProcessing := true, tempFilePresent := true), Some(videoUrl))
      else
        Step(s1, None)
  }

  /** The end of a fetch/transcode cycle, i.e. the callbacks inside
      `downloadAndPlayTrack` followed by the `isProcessing = false` that
      `playNext` runs once the cycle's promise settles.

      On success a fresh audio player is created and plays audio.mp3; the
      queue and the current track are not touched. On any failure both
      files are removed and `playNext` runs while `isProcessing` is still
      true: it dequeues the next track (or tears down on an empty queue) but
      starts no download for it. */
  function CycleOutcome(s: BotState, o: Outcome): (r: Step)
    requires s.isProcessing
    ensures !r.next.isProcessing && r.fetch.None?
    ensures r.next.isLooping == s.isLooping
    ensures o.Converted? ==>
      r.next.hasPlayer && r.next.finalFilePresent && r.next.tempFilePresent == s.tempFilePresent &&
      r.next.queue == s.queue && r.next.currentTrackUrl == s.currentTrackUrl &&
      r.next.currentlyPlaying == s.currentlyPlaying && r.next.connected == s.connected
    ensures Failed(o) ==>
      !r.next.tempFilePresent && !r.next.finalFilePresent && r.next.hasPlayer == s.hasPlayer
    ensures Failed(o) && s.queue == [] ==>
      !r.next.connected && !r.next.currentlyPlaying && r.next.currentTrackUrl.None? && r.next.queue == []
    ensures Failed(o) && s.queue != [] ==>
      r.next.currentTrackUrl == Some(s.queue[0]) && r.next.queue == s.queue[1..] &&
      r.next.currentlyPlaying && r.next.connected == s.connected
  {
    if o.Converted? then
      Step(s.(finalFilePresent := true, hasPlayer := true, isProcessing := false), None)
    else
      var cleaned := CleanUpFiles(s);
      var nested := PlayNext(cleaned);
      Step(nested.next.(isProcessing := false), nested.fetch)
  }

  /** A `/play` request whose search resolved to `resolved` (None when the
      search found nothing). A falsy URL changes nothing. Otherwise the URL
      is appended to the back of the queue, and the voice channel is joined
      exactly when neither a track is current nor a cycle is in flight. */
  function Play(s: BotState, resolved: Option<string>): (r: Request)
    ensures !Truthy(resolved) ==> r.next == s && !r.joined
    ensures Truthy(resolved) ==>
      r.next.queue == s.queue + [resolved.value] &&
      (r.joined <==> !s.currentlyPlaying && !s.isProcessing) &&
      r.next.connected == (s.connected || r.joined) &&
      r.next.(queue := s.queue, connected := s.connected) == s
  {
    if !Truthy(resolved) then
      Request(s, false)
    else
      var s1 := s.(queue := s.queue + [resolved.value]);
      if !s1.currentlyPlaying && !s1.isProcessing then
        Request(s1.(connected := true), true)
      else
        Request(s1, false)
  }

  /** `/loop`: flips the flag; when it becomes true and there is a current
      track, that track is put back at the front of the queue at once. */
  function Loop(s: BotState): (r: BotState)
    ensures r.isLooping == !s.isLooping
    ensures r.queue ==
      if r.isLooping && Truthy(s.currentTrackUrl) then [s.currentTrackUrl.value] + s.queue else s.queue
    ensures r.(isLooping := s.isLooping, queue := s.queue) == s
  {
    var s1 := s.(isLooping := !s.isLooping);
    if s1.isLooping && Truthy(s1.currentTrackUrl) then
      s1.(queue := [s1.currentTrackUrl.value] + s1.queue)
    else
      s1
  }

  /** `/skip`: with no audio player nothing changes; otherwise the queue
      advances past the current track whatever the looping flag says. */
  function Skip(s: BotState): (r: Step)
    ensures !s.hasPlayer ==> r == Step(s, None)
    ensures s.hasPlayer ==> Advances(s, r)
  {
    if s.hasPlayer then
      var s1 := s.(currentlyPlaying := false);
      PlayNext(s1)
    else
      Step(s, None)
  }

  /** The player's Idle event (the track finished). When looping, the current
      track is put back at the front first, so it becomes current again and
      the queue behind it is unchanged; otherwise the queue advances.
      The precondition is the source's non-null assertion on the URL. */
  function PlayerIdle(s: BotState): (r: Step)
    requires s.isLooping ==> s.currentTrackUrl.Some?
    ensures !s.isLooping ==> Advances(s, r)
    ensures s.isLooping ==> Advances(s.(queue := [s.currentTrackUrl.value] + s.queue), r)
    ensures s.isLooping ==>
      r.next.currentTrackUrl == s.currentTrackUrl && r.next.queue == s.queue &&
      r.next.currentlyPlaying && r.next.isProcessing &&
      r.fetch == (if s.isProcessing then None else s.currentTrackUrl)
  {
    var s1 := if s.isLooping then s.(queue := [s.currentTrackUrl.value] + s.queue) else s;
    var s2 := s1.(currentlyPlaying := false);
    PlayNext(s2)
  }

  /** The player's error event: the queue advances with no re-insertion,
      whatever the looping flag says. */
  function PlayerError(s: BotState): (r: Step)
    ensures Advances(s, r)
  {
    PlayNext(s.(currentlyPlaying := false))
  }
}
