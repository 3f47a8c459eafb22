/** Runs of the bot: sequences of events delivered one at a time, and the
    properties that hold over every run. */
module Traces {
  import opened Playback

  /** The events the bot reacts to. */
  datatype Event =
    | PlayRequest(resolved: Option<string>)
    | ConnectionReady
    | ConnectionDisconnected
    | LoopCommand
    | SkipCommand
    | PlayerIdleEvent
    | PlayerErrorEvent
    | CycleEnded(outcome: Outcome)

  /** Whether `e` can be delivered in `s`: a cycle's callback only while that
      cycle is in flight, and the Idle handler only where the source's
      non-null assertion on the current URL holds. */
  predicate Enabled(s: BotState, e: Event) {
    match e
    case PlayerIdleEvent => s.isLooping ==> s.currentTrackUrl.Some?
    case CycleEnded(_) => s.isProcessing
    case _ => true
  }

  function Apply(s: BotState, e: Event): Step
    requires Enabled(s, e)
  {
    match e
    case PlayRequest(u) => Step(Play(s, u).next, None)
    case ConnectionReady => PlayNext(s.(currentlyPlaying := true))
    case ConnectionDisconnected => Step(Cleanup(s), None)
    case LoopCommand => Step(Loop(s), None)
    case SkipCommand => Skip(s)
    case PlayerIdleEvent => PlayerIdle(s)
    case PlayerErrorEvent => PlayerError(s)
    case CycleEnded(o) => CycleOutcome(s, o)
  }

  /** The end state of a run and the URLs handed to the downloader, in order. */
  datatype Trace = Trace(last: BotState, fetched: seq<string>)

  /** Delivers `events` in order from `s`; None when one of them cannot be
      delivered where it arrives. */
  function Run(s: BotState, events: seq<Event>): Option<Trace>
    decreases |events|
  {
    if events == [] then Some(Trace(s, []))
    else if !Enabled(s, events[0]) then None
    else
      var step := Apply(s, events[0]);
      match Run(step.next, events[1..])
      case None => None
      case Some(t) =>
        var mine := if step.fetch.Some? then [step.fetch.value] else [];
        Some(Trace(t.last, mine + t.fetched))
  }

  /** No URL in `q` is empty. */
  predicate NoEmptyUrl(q: seq<string>) {
    forall i :: 0 <= i < |q| ==> q[i] != ""
  }

  /** The consistency the handlers keep between them: no empty URL is ever
      queued or current (the `/play` guard rejects falsy URLs),
      `currentlyPlaying` holds exactly when there is a current track, and
      audio.mp3 only exists once a player has been created. */
  predicate Valid(s: BotState) {
    NoEmptyUrl(s.queue) &&
    (s.currentTrackUrl.Some? ==> s.currentTrackUrl.value != "") &&
    (s.currentlyPlaying <==> s.currentTrackUrl.Some?) &&
    (s.finalFilePresent ==> s.hasPlayer)
  }

  lemma InitialValid()
    ensures Valid(Initial())
  {
  }

  /** One event keeps `Valid`, never fetches an empty URL, and never drops
      the audio player. */
  lemma ApplyKeepsValid(s: BotState, e: Event)
    requires Valid(s) && Enabled(s, e)
    ensures Valid(Apply(s, e).next)
    ensures Apply(s, e).fetch.Some? ==> Apply(s, e).fetch.value != ""
    ensures s.hasPlayer ==> Apply(s, e).next.hasPlayer
  {
  }

  /** Every run from a valid state ends in a valid state, fetches only
      non-empty URLs, and keeps the audio player once one exists. */
  lemma {:induction false} RunKeepsValid(s: BotState, events: seq<Event>)
    requires Valid(s) && Run(s, events).Some?
    ensures Valid(Run(s, events).value.last)
    ensures forall i :: 0 <= i < |Run(s, events).value.fetched| ==> Run(s, events).value.fetched[i] != ""
    ensures s.hasPlayer ==> Run(s, events).value.last.hasPlayer
    decreases |events|
  {
    if events != [] {
      var step := Apply(s, events[0]);
      ApplyKeepsValid(s, events[0]);
      RunKeepsValid(step.next, events[1..]);
    }
  }

  function CycleEnds(events: seq<Event>): nat
    decreases |events|
  {
    if events == [] then 0
    else (if events[0].CycleEnded? then 1 else 0) + CycleEnds(events[1..])
  }

  function Flag(b: bool): nat {
    if b then 1 else 0
  }

  /** At most one fetch/transcode cycle is in flight: over any run, every
      download started is matched by exactly one outcome callback, except
      for the cycle still in flight at the end. */
  lemma {:induction false} CyclesBalance(s: BotState, events: seq<Event>)
    requires Run(s, events).Some?
    ensures |Run(s, events).value.fetched| + Flag(s.isProcessing)
         == CycleEnds(events) + Flag(Run(s, events).value.last.isProcessing)
    decreases |events|
  {
    if events != [] {
      var step := Apply(s, events[0]);
      assert step.fetch.Some? ==> !s.isProcessing && step.next.isProcessing;
      assert events[0].CycleEnded? ==> s.isProcessing && !step.next.isProcessing;
      assert step.fetch.None? && !events[0].CycleEnded? ==> step.next.isProcessing == s.isProcessing;
      CyclesBalance(step.next, events[1..]);
    }
  }

  function LoopCommands(events: seq<Event>): nat
    decreases |events|
  {
    if events == [] then 0
    else (if events[0].LoopCommand? then 1 else 0) + LoopCommands(events[1..])
  }

  /** Only `/loop` changes the looping flag: teardown, skips, errors and
      finished tracks all leave it as it was. */
  lemma {:induction false} LoopingOnlyByCommand(s: BotState, events: seq<Event>)
    requires Run(s, events).Some?
    ensures Run(s, events).value.last.isLooping == (s.isLooping != (LoopCommands(events) % 2 == 1))
    decreases |events|
  {
    if events != [] {
      var step := Apply(s, events[0]);
      assert step.next.isLooping == (s.isLooping != events[0].LoopCommand?);
      LoopingOnlyByCommand(step.next, events[1..]);
    }
  }

  /** A burst of `/play` requests that all resolve: the joins they cause. */
  function Requests(s: BotState, urls: seq<string>): (BotState, nat)
    decreases |urls|
  {
    if urls == [] then (s, 0)
    else
      var req := Play(s, Some(urls[0]));
      var rest := Requests(req.next, urls[1..]);
      (rest.0, rest.1 + Flag(req.joined))
  }

  /** Requests append their URLs to the back of the queue in order and leave
      the current track and both flags alone. Until the connection's Ready
      event sets `currentlyPlaying`, EVERY request joins the channel again;
      once a track is current or a cycle is in flight, none does. */
  lemma {:induction false} RequestsAppend(s: BotState, urls: seq<string>)
    requires forall i :: 0 <= i < |urls| ==> urls[i] != ""
    ensures Requests(s, urls).0.queue == s.queue + urls
    ensures Requests(s, urls).0.currentTrackUrl == s.currentTrackUrl
    ensures Requests(s, urls).0.currentlyPlaying == s.currentlyPlaying
    ensures Requests(s, urls).0.isProcessing == s.isProcessing
    ensures Requests(s, urls).1 == if !s.currentlyPlaying && !s.isProcessing then |urls| else 0
    decreases |urls|
  {
    if urls != [] {
      var req := Play(s, Some(urls[0]));
      RequestsAppend(req.next, urls[1..]);
      assert s.queue + [urls[0]] + urls[1..] == s.queue + urls;
    }
  }

  /** `k` rounds of: the track finishes (Idle) and its new cycle converts. */
  function Replays(s: BotState, k: nat): (BotState, seq<string>)
    requires s.isLooping && s.currentTrackUrl.Some? && !s.isProcessing
    decreases k
  {
    if k == 0 then (s, [])
    else
      var idle := PlayerIdle(s);
      var done := CycleOutcome(idle.next, Converted).next;
      var rest := Replays(done, k - 1);
      (rest.0, [idle.fetch.value] + rest.1)
  }

  /** Once looping is on, every natural completion brings the same URL back:
      after `k` rounds the current track and the queue behind it are what
      they were, and the downloader was handed that URL `k` times. */
  lemma {:induction false} ReplaysRepeatTrack(s: BotState, k: nat)
    requires s.isLooping && s.currentTrackUrl.Some? && !s.isProcessing
    ensures Replays(s, k).0.currentTrackUrl == s.currentTrackUrl
    ensures Replays(s, k).0.queue == s.queue
    ensures Replays(s, k).1 == seq(k, _ => s.currentTrackUrl.value)
    ensures k > 0 ==> Replays(s, k).0.currentlyPlaying && Replays(s, k).0.hasPlayer
    decreases k
  {
    if k > 0 {
      var idle := PlayerIdle(s);
      var done := CycleOutcome(idle.next, Converted).next;
      ReplaysRepeatTrack(done, k - 1);
      assert Replays(s, k).1 == [s.currentTrackUrl.value] + Replays(done, k - 1).1;
      if k == 1 {
        assert Replays(s, k).0 == done;
      }
    }
  }

  /** The connection's Ready handler sets `currentlyPlaying` and then runs
      `playNext`, which decides that flag itself: the step is `playNext`'s. */
  lemma ReadyIsPlayNext(s: BotState)
    ensures Apply(s, ConnectionReady) == PlayNext(s)
  {
  }

  /** A failed cycle stalls the next track. From a queue `[a, b] + rest`
      with no cycle in flight and no audio player yet, `playNext` fetches
      `a`; when that cycle fails, `b` becomes the current track with
      `currentlyPlaying` set, but no download is ever started for it.
      Afterwards `/skip` is a no-op (there is no player) and further
      `/play` requests only queue up, joining nothing. */
  lemma FailedCycleStallsNextTrack(s: BotState, a: string, b: string, rest: seq<string>,
                                   o: Outcome, later: seq<string>)
    requires s.queue == [a, b] + rest && !s.isProcessing && !s.hasPlayer && Failed(o)
    requires NoEmptyUrl(later)
    ensures PlayNext(s).fetch == Some(a)
    ensures var stalled := CycleOutcome(PlayNext(s).next, o).next;
      stalled.currentTrackUrl == Some(b) && stalled.queue == rest &&
      stalled.currentlyPlaying && !stalled.isProcessing &&
      Skip(stalled) == Step(stalled, None) &&
      Requests(stalled, later).1 == 0 &&
      Requests(stalled, later).0.currentTrackUrl == Some(b)
  {
    var started := PlayNext(s);
    assert started.next.queue == [b] + rest;
    var stalled := CycleOutcome(started.next, o).next;
    RequestsAppend(stalled, later);
  }

  /** Two requests before the connection is ready. Each one joins the
      channel, and each join registers its own Ready listener, so the
      connection's Ready event runs `playNext` once per join. The first run
      fetches `a`; the second finds that cycle in flight, dequeues `b` and
      makes it current without fetching it. */
  lemma DoubleJoinDoubleReady(s: BotState, a: string, b: string)
    requires s.queue == [] && !s.currentlyPlaying && !s.isProcessing
    requires a != "" && b != ""
    ensures Requests(s, [a, b]).1 == 2
    ensures var t := Run(s, [PlayRequest(Some(a)), PlayRequest(Some(b)), ConnectionReady, ConnectionReady]);
      t.Some? && t.value.fetched == [a] &&
      t.value.last.currentTrackUrl == Some(b) && t.value.last.queue == [] &&
      t.value.last.currentlyPlaying && t.value.last.isProcessing
  {
    RequestsAppend(s, [a, b]);
    var s1 := Play(s, Some(a)).next;
    var s2 := Play(s1, Some(b)).next;
    assert s2.queue == [a, b];
    var r1 := PlayNext(s2.(currentlyPlaying := true));
    var r2 := PlayNext(r1.next.(currentlyPlaying := true));
    assert r1.fetch == Some(a) && r2.fetch.None?;
    var events := [PlayRequest(Some(a)), PlayRequest(Some(b)), ConnectionReady, ConnectionReady];
    assert events[3..][1..] == [] && events[2..][1..] == events[3..] && events[1..][1..] == events[2..];
    assert Apply(r1.next, ConnectionReady) == r2 && Apply(s2, ConnectionReady) == r1;
    assert events[3..][0] == ConnectionReady && events[2..][0] == ConnectionReady;
    assert Run(r2.next, events[3..][1..]) == Some(Trace(r2.next, []));
    var t3 := Run(r1.next, events[3..]);
    assert t3.Some? && t3.value.last == r2.next && t3.value.fetched == [];
    var t2 := Run(s2, events[2..]);
    assert t2.Some? && t2.value.last == r2.next && t2.value.fetched == [a];
    var t1 := Run(s1, events[1..]);
    assert t1.Some? && t1.value.last == r2.next && t1.value.fetched == [a];
  }
}
