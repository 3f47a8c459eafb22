# HanaGrooveBot playback state machine in Dafny

This project models the queue and playback state machine of the bot's
top-level `index.ts`. This is a single-guild Discord music bot. A `/play`
request resolves a search to a URL and appends it to a FIFO queue. `playNext`
takes tracks off the front and runs a download → ffmpeg → play cycle for each,
unless a cycle is already in flight.
The player's Idle and error events advance the queue. `/loop` toggles
repeat-one, and `/skip` forces the queue to advance. `cleanup` tears the voice
connection down.

The module-level variables of `index.ts` are the state:
- `queue`
- `isLooping`
- `currentlyPlaying`
- `currentTrackUrl`
- `isProcessing`
- whether `connection` and `player` are set
- whether `audio.webm` and `audio.mp3` exist

Three modules:

- `Playback` (`playback.dfy`): the state as the value `BotState`, with one
  pure transition function per handler. Each function's postcondition states
  what the handler does to the queue, the flags and the files.
- `Bot` (`bot.dfy`): the class `MusicBot`. Its fields are the module-level
  variables, and each handler is a method that updates them in place. Every
  method is proved to move the state exactly as its `Playback` transition
  says.
- `Traces` (`traces.dfy`): event sequences and properties of whole runs,
  proved by induction. These cover the invariant every handler keeps, the
  balance of started and finished cycles, looping, bursts of requests and the
  stall after a failed cycle.

A fetch/transcode cycle takes two steps, as in the source's callbacks.
`playNext` starts a cycle: it sets `isProcessing`, creates the write stream
and hands the URL to the downloader. That URL is the step's `fetch` effect.
Later one callback ends the cycle: the download-error, write-error or ffmpeg
callback. Its outcome is the parameter `Outcome`. The `isProcessing = false`
that `playNext` runs after its `await` is part of that same closing step.
Every handler is one atomic step.

Behaviour of `index.ts` worth knowing, all of it kept in the model:
- `cleanup` (index.ts:221-229) does not clear the queue, `isLooping`,
  `isProcessing` or the player.
- A disconnect runs only `cleanup` (index.ts:106-109), so the queue survives
  it.
- After a successful cycle (index.ts:183-209) audio.webm and audio.mp3 stay
  on disk until the next `cleanUpFiles`; of the cycle's callbacks, only the
  error ones (index.ts:168-172, 177-181, 213-217) remove them.
- Turning `/loop` on puts the current track back at the front of the queue at
  once (index.ts:118-124), before the current track has finished.
- On a failed cycle the nested `playNext` (index.ts:171, 180, 216) runs while
  `isProcessing` is still true (it is reset at index.ts:151). It dequeues the
  next track and makes it current, but starts no download for it. With no
  audio player yet, `/skip` then does nothing and further `/play` requests
  only queue, so that track is not fetched until some later event moves the
  queue on (`Traces.FailedCycleStallsNextTrack`).
- From an idle bot, nothing sets `currentlyPlaying` before the connection's
  Ready handler runs (index.ts:100-104; `playNext` sets it at index.ts:146
  only once called), so every `/play` that arrives before it joins the
  channel again (index.ts:93-98, `Traces.RequestsAppend`). Each join adds one
  more Ready listener, and one Ready event then runs `playNext` once per join
  (`Traces.DoubleJoinDoubleReady`).

## Model

| member | source | states |
|---|---|---|
| `Playback.CleanUpFiles` | index.ts:47-54 | neither temporary file exists afterwards, and nothing else in the state changes |
| `Playback.CleanUpFilesIdempotent` | index.ts:47-54 | running `cleanUpFiles` twice leaves the same state as running it once |
| `Playback.Cleanup` | index.ts:221-229 | no connection, `currentlyPlaying` false, no current track, no files; queue, `isLooping`, `isProcessing` and player unchanged |
| `Playback.PlayNext` | index.ts:137-153 | every field of the new state (`Advances`). Empty queue: the `cleanup` effects, no fetch, `isProcessing` kept. Non-empty queue: the head is removed and becomes current with `currentlyPlaying`, the rest keeps its order, connection and audio.mp3 are kept. A fetch of that head starts if and only if `isProcessing` was false, and then `isProcessing` and audio.webm are set. `isLooping` and the player are kept |
| `Playback.CycleOutcome` | index.ts:148-217 | `isProcessing` is false afterwards and no new fetch starts. On success a player exists, `audio.mp3` exists, and queue and current track are unchanged. On any failure both files are gone and the next track is dequeued without a fetch, or the bot tears down when the queue is empty |
| `Playback.Play` | index.ts:83-111 | no or empty search result: nothing changes. Otherwise the URL is appended at the back, and the bot joins if and only if neither `currentlyPlaying` nor `isProcessing` holds; nothing else changes |
| `Playback.Loop` | index.ts:118-124 | `isLooping` flips. The current URL goes to the front of the queue exactly when the new value is true and there is a current track; nothing else changes |
| `Playback.Skip` | index.ts:125-133 | without a player nothing changes. With a player the queue advances past the current track whatever `isLooping` is, every field as for `playNext`: an empty queue tears down, and a fetch starts only when no cycle is in flight |
| `Playback.PlayerIdle` | index.ts:194-200 | looping: the state is that of advancing the queue with the current URL put back at its front, so the same URL becomes current again, the queue behind it is unchanged, and it is fetched unless a cycle is in flight. Not looping: every field as for a plain advance, including teardown on an empty queue |
| `Playback.PlayerError` | index.ts:202-206 | every field as for a plain advance whatever `isLooping` is: no re-insertion, teardown on an empty queue, and a fetch only when no cycle is in flight |
| `Bot.MusicBot.constructor` | index.ts:32-41 | all variables start empty or false; the files may be left over from an earlier run |
| `Bot.MusicBot.CleanUpFiles` | index.ts:47-54 | the new state is `Playback.CleanUpFiles` of the old one |
| `Bot.MusicBot.Cleanup` | index.ts:221-229 | the new state is `Playback.Cleanup` of the old one |
| `Bot.MusicBot.PlayNext` | index.ts:137-153 | new state and fetched URL are `Playback.PlayNext` of the old state |
| `Bot.MusicBot.OnCycleOutcome` | index.ts:167-217 | the new state is `Playback.CycleOutcome` of the old one; the nested `playNext` fetches nothing |
| `Bot.MusicBot.OnPlay` | index.ts:83-111 | new state and join decision are `Playback.Play` of the old state |
| `Bot.MusicBot.OnConnectionReady` | index.ts:100-104 | the step equals `Playback.PlayNext` of the old state: the `currentlyPlaying = true` before it has no effect of its own |
| `Bot.MusicBot.OnConnectionDisconnected` | index.ts:106-109 | the new state is `Playback.Cleanup` of the old one |
| `Bot.MusicBot.OnLoop` | index.ts:118-124 | the new state is `Playback.Loop` of the old one |
| `Bot.MusicBot.OnSkip` | index.ts:125-133 | the step is `Playback.Skip` of the old state |
| `Bot.MusicBot.OnPlayerIdle` | index.ts:194-200 | the step is `Playback.PlayerIdle` of the old state |
| `Bot.MusicBot.OnPlayerError` | index.ts:202-206 | the step is `Playback.PlayerError` of the old state |
| `Traces.InitialValid` | index.ts:36-41 | the start-up state satisfies the handlers' invariant `Valid` |
| `Traces.ApplyKeepsValid` | index.ts:86-229 | every handler keeps `Valid`, never fetches an empty URL, and never drops the player |
| `Traces.RunKeepsValid` | index.ts:86-229 | every run from a valid state ends valid, fetches only non-empty URLs, and keeps the player once created |
| `Traces.CyclesBalance` | index.ts:148-152 | over any run, the fetches started plus an initial in-flight cycle equal the outcome callbacks plus a final in-flight cycle, so at most one cycle is ever in flight |
| `Traces.LoopingOnlyByCommand` | index.ts:118-119 | over any run, `isLooping` changes exactly by the parity of the `/loop` commands; teardown, skips and track ends keep it |
| `Traces.RequestsAppend` | index.ts:91-111 | a burst of requests appends its URLs in order and leaves the current track and both flags alone. Each request joins when nothing is current or in flight, and none joins otherwise |
| `Traces.ReplaysRepeatTrack` | index.ts:194-200 | with looping on, k completed-and-converted rounds keep the same current URL and queue, and fetch that URL k times |
| `Traces.ReadyIsPlayNext` | index.ts:100-104 | the connection's Ready step equals `playNext` from the state before it |
| `Traces.FailedCycleStallsNextTrack` | index.ts:168-172 | from `[a, b] + rest`, `a` is fetched; after its failed cycle `b` is current and `currentlyPlaying` holds, but no fetch of `b` starts. With no player, `/skip` is then a no-op, and further `/play` requests only queue and join nothing, leaving `b` current |
| `Traces.DoubleJoinDoubleReady` | index.ts:93-104 | from an idle state, two `/play` requests both join; two Ready events then fetch only the first URL and leave the second current and dequeued without a fetch |

## Left out

- `src/index.ts` and `src/index copy.ts` are not part of this model. They
  wrap a third-party player library whose queue semantics are not visible
  here.
- Discord client setup, slash-command registration and reply texts
  (index.ts:27-30, 56-80, 231-270) are network and UI plumbing.
- The YouTube search (index.ts:83-89) is an input: the resolved URL, or None
  when nothing was found.
- The downloader, the file write stream, the ffmpeg subprocess and the
  cookie/agent loading (index.ts:43-45, 155-176) are not modelled. Their
  result is the `Outcome` parameter of the cycle's closing step. Starting a
  cycle marks `audio.webm` as present.
- The voice connection and audio player objects are only the `connected` and
  `hasPlayer` flags. The model leaves out any behaviour the library adds on
  its own. For example, `player.stop()` emitting Idle, or `joinVoiceChannel`
  reusing an existing connection. Each join at index.ts:94-109 registers one
  more Ready listener, so one Ready event runs the handler once per join; in
  the model each such run is its own `ConnectionReady` event.
- Promise and microtask ordering inside a handler are not modelled; each
  handler is one atomic step.
- The model assumes every `interaction.reply` succeeds and that nothing
  else runs while it is awaited. In the source, `/loop` and `/skip` await
  their reply in the middle of the handler (index.ts:120, 128). A rejected
  reply ends `/loop` after the flip of `isLooping` and before the re-queue
  (index.ts:121-124), and ends `/skip` after `player.stop()` and before
  `currentlyPlaying = false; playNext()` (index.ts:129-130). Other events,
  such as the player's Idle or a cycle's callback, may also run during
  either wait. `Playback.Loop`, `Playback.Skip`, `Bot.MusicBot.OnLoop` and
  `Bot.MusicBot.OnSkip` always run to completion. The search awaited by
  `/play` (index.ts:83) comes before any change of state and is the
  handler's input.
- Filesystem errors inside `cleanUpFiles` are caught and logged by the source
  and are not modelled. In the source, a failed first unlink skips the second.
- A cycle's stream and ffmpeg callbacks are delivered at most once per cycle.
  The model leaves out two stream errors firing for one cycle.
- `Bot.MusicBot.OnPlayerIdle`: requires `currentTrackUrl` to be set when
  looping. This is the source's non-null assertion `currentTrackUrl!`. The
  model does not capture a null pushed onto the queue if that assertion were
  false.
- `Playback.PlayerIdle`: the same requirement, for the same reason.
