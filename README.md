# currently_listening, modelled in Dafny

`currently_listening` keeps one shared fact, "the song being listened to
now", and pushes it to websocket subscribers. Four programs take part, and
each is modelled here as one module.

- **The Go server** (`server/main.go`), module `ListeningServer` in
  `listening_server.dfy`. It holds four variables: the song, the latest
  producer timestamp (nullable), the server time of the last write and a
  playing flag. Three transitions change them: `/set-listening`,
  `/clear-listening` and the staleness reaper. The websocket message
  handler reads them and so does the image endpoint. The class `Server`
  keeps the four variables as fields and updates them in place. Its
  methods are proved against the pure step functions `SetStep`,
  `ClearStep` and `Reaped`. A step returns its broadcast snapshot and its
  reply instead of sending them. Lemmas about runs of events (`Run`) give
  the invariant and the ordering behaviour.
- **The local relay** (`currently_listening_py/currently_listening_py/server.py`),
  module `Relay` in `relay.dfy`. It builds a SetListening or ClearListening
  body from the latest mpv media. It forwards that body upstream only when
  it changes what was last forwarded. The upstream posts are a ghost log of
  the class `SocketDataManager`. `get_cover_art` is a first-match search
  over `COVERS`, and whether a file exists is a function parameter.
- **The mpv reporter** (`currently_listening_py/currently_listening_py/socket_data.py`),
  module `MpvGate` in `mpv_gate.dfy`. The `_started` flag and the event
  name decide when a report goes to the relay and what `is_playing` it
  carries. The reports are a ghost log.
- **The Discord presence client** (`currently_listening_py/currently_listening_py/discord_presence.py`),
  module `DiscordPresence` in `discord_presence.dfy`. It covers
  `Song.describe`, the LIFO queue that `__anext__` drains down to its
  latest item, and the update / skip / clear decision of the presence loop.
  The RPC calls are a ghost log.

`Latest` (`latest.dfy`) holds one shared rule. Both Python clients sort a
list stably by a key and take the last element. That element is the last
one among those with the greatest key. `Wrappers` (`wrappers.dfy`) defines
`Option`, which stands in for Go's nil pointers and Python's `None`.

Time, the network and the file system are parameters. Python's sort plus
`last` is stated as `Latest.LastMaxIndex`. Python's `os.path.dirname` and
`os.path.join` are written out for POSIX paths.

The server's ordering rules are looser than "only a strictly newer write
wins", and the model keeps them as written:

- Only a strictly OLDER write is rejected (`<` at `server/main.go:155`
  and `:205`), so an equal timestamp is accepted (`EqualTimestampAccepted`).
- Accepted timestamps can decrease. The set guard applies only while a
  song is stored (`server/main.go:155`), so after an accepted
  clear, a set older than the clear is accepted and the timestamp goes
  backwards (`ClearThenOlderSetRewinds`). What does hold is proved: a run of
  sets alone never rewinds (`SetsNeverRewind`), and neither does a run of
  clears alone (`ClearsNeverRewind`).
- The reaper does not keep the last timestamp: it sets it to nil
  (`server/main.go:71`), so after a reap any set and any clear are
  accepted (`SetAndClearAfterReapAccepted`).
- The client in `currently_listening_py/__main__.py` sends
  "currently-playing". The server does not recognise that message and
  answers nothing (`Dispatch`).

## Model

| member | source | states |
|---|---|---|
| ListeningServer.SetStep | server/main.go:154-184 | a set is rejected, with both timestamps and no state change, exactly when a song is stored, a timestamp is known and StartedAt is strictly smaller; otherwise song = cur, timestamp = StartedAt, lastUpdated = now, playing, the broadcast is the "currently-listening" snapshot {cur, true} of the new state and the reply carries cur's artist, album and title and ImageDesc of its image; the invariant is preserved |
| ListeningServer.ClearStep | server/main.go:204-230 | a clear is rejected, with no state change, exactly when a timestamp is known and EndedAt is strictly smaller; otherwise song = nil, timestamp = EndedAt, lastUpdated = now, not playing, and the broadcast is the "currently-listening" snapshot {nil, false} of the new state; the invariant is preserved |
| ListeningServer.Reaped | server/main.go:66-73 | when stale (song stored, playing, lastUpdated ≠ 0, now − lastUpdated > staleAfter) the state becomes nil / nil / 0 / false, otherwise nothing changes; the invariant is preserved |
| ListeningServer.Dispatch | server/main.go:46-111 | "currently-listening" is answered with currentlyListeningJSON's envelope {msg_type "currently-listening", data {song, playing}} of the current state, "ping" with {msg_type "pong", data null}, and any other text gets no reply |
| ListeningServer.Image | server/main.go:240-251 | the image endpoint answers 404 exactly when no song is stored or its Base64Image is empty, and otherwise serves that non-empty Base64Image |
| ListeningServer.ImageDesc | server/main.go:178-181 | the image description is the prefix of Base64Image of length min(10, len) |
| ListeningServer.Server.constructor | server/main.go:41-44 | the server starts with no song, no timestamp, lastUpdated 0, not playing, and the invariant holds |
| ListeningServer.Server.Set | server/main.go:154-181 | updating the four fields in place gives exactly SetStep's new state and outcome, and keeps the invariant |
| ListeningServer.Server.Clear | server/main.go:204-219 | updating in place gives exactly ClearStep's new state and outcome, and keeps the invariant |
| ListeningServer.Server.Reap | server/main.go:66-76 | the reaper body gives Reaped's state, broadcasts exactly when the state was stale, and that one broadcast is the snapshot {nil, false} of the initial state |
| ListeningServer.Server.HandleMessage | server/main.go:89-111 | on the current fields, "currently-listening" is answered with {msg_type "currently-listening", data {song, playing}}, "ping" with {msg_type "pong", data null}, and any other text gets no reply |
| ListeningServer.RunKeepsConsistent | server/main.go:41-44 | over any sequence of sets, clears and reaper ticks, "playing ⇔ a song is stored" and "a stored song's StartedAt is the known timestamp" stay true |
| ListeningServer.ReachableConsistent | server/main.go:41-44 | every state reached from the initial one satisfies that invariant |
| ListeningServer.SetsNeverRewind | server/main.go:155-168 | while a song is stored and only sets arrive, a song stays stored and the timestamp never decreases |
| ListeningServer.ClearsNeverRewind | server/main.go:205-216 | once a timestamp is known, a run of clears alone keeps one and never decreases it |
| ListeningServer.EqualTimestampAccepted | server/main.go:155 | a set whose StartedAt equals the stored song's timestamp is accepted |
| ListeningServer.SetAfterClearAccepted | server/main.go:155-218 | after an accepted clear, a set with any StartedAt is accepted |
| ListeningServer.SetAndClearAfterReapAccepted | server/main.go:66-73 | after the reaper fires the timestamp is nil, so a set and a clear with any timestamp are both accepted |
| ListeningServer.ReapTwiceIsReapOnce | server/main.go:66-73 | once the reaper has fired, no later tick is stale or changes the state |
| ListeningServer.TwoSetsKeepTheNewer | server/main.go:155-166 | two sets in either order, the first accepted: the stored timestamp ends as the larger StartedAt |
| ListeningServer.ClearThenOlderSetRewinds | server/main.go:155-218 | from the initial state, clear(200) followed by a set with StartedAt 50 is accepted and leaves the timestamp at 50 |
| Latest.LastMaxIndex | currently_listening_py/currently_listening_py/server.py:139-140 | a stable sort by key followed by taking the last element picks an element with the greatest key, and every later element has a strictly smaller key; the Discord client's `__anext__` (discord_presence.py:152-153) relies on the same rule through DiscordPresence.LatestOfDrained |
| Latest.LastMaxIndexUnique | currently_listening_py/currently_listening_py/server.py:139-140 | those two properties determine that index, for the relay's media and for the Discord client's drained queue alike |
| Relay.UpdateStep | currently_listening_py/currently_listening_py/server.py:44-67 | a ClearListening posts "clear-listening" and resets to None/False exactly when the argument is_playing is false and the manager is playing; a SetListening posts "set-listening" and is stored with playing = True exactly when is_playing is true and it differs from the stored body; without a post nothing changes; "playing ⇔ a body is stored" is preserved |
| Relay.RepeatedSetIsIdempotent | currently_listening_py/currently_listening_py/server.py:58 | submitting the same SetListening again posts nothing and changes nothing |
| Relay.RepeatedClearPostsOnce | currently_listening_py/currently_listening_py/server.py:47-56 | of two consecutive clears, at most the first posts |
| Relay.ReplayPostsNoRedundancy | currently_listening_py/currently_listening_py/server.py:44-67 | over any sequence of updates, a clear post is always followed by a set post, and a set post is never followed by the same post, including across the post made before the sequence |
| Relay.RelayNeverRepeats | currently_listening_py/currently_listening_py/server.py:23-67 | from construction, the posts upstream never hold two clears in a row nor the same set twice in a row |
| Relay.LatestMedia | currently_listening_py/currently_listening_py/server.py:137-140 | the media acted on is one of the media read, has the greatest start_time, and among media tied on that start_time it is the last one in the list |
| Relay.BuildBody | currently_listening_py/currently_listening_py/server.py:127-168 | nothing is sent for an empty list, for a media that is not allowed or one without metadata; otherwise a SetListening when playing (its metadata, started_at = the latest start time, its image is the cached cover text, or "" when images are not cached or none was found) or a ClearListening with ended_at = that start time; its time is never less than any media's start time |
| Relay.DirName | currently_listening_py/currently_listening_py/server.py:79 | os.path.dirname gives a prefix of the path, and "" when the path has no '/' |
| Relay.DirNameShape | currently_listening_py/currently_listening_py/server.py:79 | when the path has a '/', dirname is a non-empty prefix of the text up to the last '/': all of it when that text is only slashes, otherwise that text with its trailing slashes (and only those) removed |
| Relay.LastSlash | currently_listening_py/currently_listening_py/server.py:79 | the position dirname splits at: the last '/' of the path, or -1 when there is none |
| Relay.StripTrailingSlashes | currently_listening_py/currently_listening_py/server.py:79 | dirname's removal of trailing slashes: a prefix that does not end in '/', and only slashes were removed |
| Relay.DirNameExamples | currently_listening_py/currently_listening_py/server.py:79 | dirname of "a/b" is "a", of "a//b" is "a", of "/b" is "/", and of "b" is "" |
| Relay.Join | currently_listening_py/currently_listening_py/server.py:81 | os.path.join of a relative name gives the directory, then one '/' only when the directory is non-empty and does not already end in '/', then the name |
| Relay.FirstExisting | currently_listening_py/currently_listening_py/server.py:80-84 | the index found is the first whose path exists; none is found exactly when no path exists |
| Relay.CoverArt | currently_listening_py/currently_listening_py/server.py:77-84 | get_cover_art returns the path of the first COVERS name whose file exists in the media's directory (that name joined to the directory), and None exactly when none exists; CoverPaths is its helper listing the candidate paths |
| Relay.SocketDataManager.constructor | currently_listening_py/currently_listening_py/server.py:20-27 | a new manager stores nothing, is not playing and has posted nothing |
| Relay.SocketDataManager.UpdateCurrentlyListening | currently_listening_py/currently_listening_py/server.py:44-67 | updating the fields in place gives UpdateStep's state, appends its post (if any) to the log, and keeps the invariant |
| Relay.SocketDataManager.ProcessCurrentlyListening | currently_listening_py/currently_listening_py/server.py:127-172 | when BuildBody yields a body it is handed to the update with the report's is_playing; otherwise nothing changes and nothing is posted |
| MpvGate.ReportedPlaying | currently_listening_py/currently_listening_py/socket_data.py:76-97 | the reported is_playing is true exactly when the report is not final and reading pause gave false; a final report or a connection error reports false |
| MpvGate.EventReports | currently_listening_py/currently_listening_py/socket_data.py:66-74 | an event makes one report exactly when started and the event is "eof", "paused", "resumed" or "final-write", and none otherwise; a "final-write" report says not playing |
| MpvGate.SocketDataServer.constructor | currently_listening_py/currently_listening_py/socket_data.py:53-63 | a new reporter is not started and has reported nothing |
| MpvGate.SocketDataServer.SendData | currently_listening_py/currently_listening_py/socket_data.py:76-97 | appends exactly one report, carrying ReportedPlaying, and leaves the flag alone |
| MpvGate.SocketDataServer.NEvent | currently_listening_py/currently_listening_py/socket_data.py:66-74 | leaves the flag unchanged and appends exactly EventReports for the event |
| MpvGate.SocketDataServer.StoreFileMetadata | currently_listening_py/currently_listening_py/socket_data.py:105-108 | sets the flag and appends exactly one report |
| MpvGate.StartedIsSticky | currently_listening_py/currently_listening_py/socket_data.py:63-107 | once set, the flag stays set through any calls, and reports are only ever appended |
| MpvGate.SilentUntilStarted | currently_listening_py/currently_listening_py/socket_data.py:66-69 | before store_file_metadata has run, any sequence of events changes nothing and reports nothing |
| MpvGate.AtMostOneReportPerCall | currently_listening_py/currently_listening_py/socket_data.py:66-108 | n calls add at most n reports |
| DiscordPresence.Describe | currently_listening_py/currently_listening_py/discord_presence.py:21-31 | the text starts with "title - artist" when the title is non-empty and with the artist otherwise; a non-empty album appends " (album)"; a None or empty album adds nothing |
| DiscordPresence.EmptyAlbumDescribedAsMissing | currently_listening_py/currently_listening_py/discord_presence.py:28-29 | an empty album and a missing album give the same text |
| DiscordPresence.LatestOfDrained | currently_listening_py/currently_listening_py/discord_presence.py:147-153 | the last element with the greatest time in the back-to-front drain is the queue's first element with the greatest time |
| DiscordPresence.SocketWithPoll.constructor | currently_listening_py/currently_listening_py/discord_presence.py:112 | the queue starts empty |
| DiscordPresence.SocketWithPoll.Put | currently_listening_py/currently_listening_py/discord_presence.py:122-127 | a received payload is queued with its receive time |
| DiscordPresence.SocketWithPoll.Next | currently_listening_py/currently_listening_py/discord_presence.py:132-157 | on an empty queue, SENTINEL and the queue unchanged; otherwise the queue is emptied and the result is the payload of an item with the greatest time, the earliest such one |
| DiscordPresence.Decide | currently_listening_py/currently_listening_py/discord_presence.py:188-213 | SENTINEL is skipped; a playing payload with a song is skipped exactly when it equals current_state, and otherwise updates with song.describe(); everything else clears, even when current_state is already None |
| DiscordPresence.PresenceLoop.constructor | currently_listening_py/currently_listening_py/discord_presence.py:169-172 | no current state, and last_request_at is twice the wait time in the past |
| DiscordPresence.PresenceLoop.Step | currently_listening_py/currently_listening_py/discord_presence.py:183-213 | applies Decide: a skip changes nothing; an update stores the payload, records the request time and logs one update; a clear stores None, records the time and logs one clear; the remembered state and the RPC log move exactly as Apply moves them, so Tracks and RepeatedPayloadIsQuiet hold of the loop |
| DiscordPresence.RunKeepsTracking | currently_listening_py/currently_listening_py/discord_presence.py:193-213 | over any items, current_state is None or a playing payload with a song, the last RPC call matches it, and RPC calls are only appended |
| DiscordPresence.PresenceMatchesState | currently_listening_py/currently_listening_py/discord_presence.py:169-213 | from the loop's start, the last RPC call always agrees with current_state |
| DiscordPresence.RepeatedPayloadIsQuiet | currently_listening_py/currently_listening_py/discord_presence.py:193-196 | the remembered playing payload, pushed again any number of times, makes no RPC call and changes nothing |

## Left out

- Concurrency is left out: goroutines, `sync.RWMutex`, the ten-second `time.Sleep` loop, asyncio tasks and locks. Each transition is one sequential step. The set and clear handlers read their guard before taking the lock (`server/main.go:155`, `:205`). That race between guard and write is not captured; the model treats guard and write as one step.
- Wall-clock reads (`time.Now().Unix()`, `datetime.now()`, `time.time()`) are parameters. The `rate_limit` waits of the presence loop are float-time sleeps and are not modelled; only `last_request_at` is.
- Transport is left out: melody sessions and `Broadcast`, HTTP routing, the method and password check of `authdPost`, `requests.post`, FastAPI/uvicorn, `websockets.connect` and its reconnect and poll loop (`get_currently_playing`), and pypresence. Broadcasts and replies are returned values. Posts, reports and RPC calls are ghost logs.
- JSON encoding and decoding, and their error paths, are left out: the envelope is a datatype. This covers the 500 replies for an undecodable body and for a failed `json.Marshal`, and the error text sent when the snapshot cannot be marshalled. Marshalling this fixed schema does not fail.
- Base64 decoding of the image (`server/main.go:254-264`) is left out; the image endpoint's two 404 guards are modelled.
- ListeningServer.ImageDesc: Go's `len` and `imgDesc[0:10]` (`server/main.go:179-180`) count bytes, while the model counts characters. The image text is taken to be ASCII base64, where the two agree. For non-ASCII text the Go reply quotes fewer characters, and can cut a character in half.
- The texts of the set and clear replies and of the rejection are left out; the data they format is kept.
- Go's `int64` arithmetic is unbounded here; `now - lastUpdated` cannot overflow for real clock values.
- `int(start_time.timestamp())` truncates a float. Media start times are whole seconds here.
- The cover-art cache is left out: `get_compressed_cover_art`, `cache_compressed_cover_art`, PIL and platformdirs. The cover text a media would get is a function parameter. The existence check of `get_cover_art` is a predicate parameter.
- Code outside the repository arrives as inputs: mpv_history_daemon's `_read_event_stream`, my_feed's `_media_is_allowed` and `_has_metadata`, the `SocketData` superclass's own `nevent` and `store_file_metadata`, and the `pause` property read over mpv's socket.
- MpvGate.ReportedPlaying: the `assert isinstance(is_paused, bool)` failure is not modelled, because mpv's `pause` property is a boolean.
- The command-line entry points are left out: `server/main.go:271-304`, `currently_listening_py/__main__.py`, `setup.py`, and the print loop in `client_examples/python.py`.
