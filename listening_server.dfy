/** The "currently listening" server: one shared fact (the song being played,
    the producer's latest timestamp, the server time of the last write and a
    playing flag) changed by /set-listening, /clear-listening and a periodic
    staleness reaper, and read by websocket subscribers. Each transition is
    one sequential step; its broadcast is returned instead of sent. */
module ListeningServer {
  import opened Wrappers

  /** The body of a /set-listening request (the shared SetListening type). */
  datatype Song = Song(artist: string, album: string, title: string, base64Image: string, startedAt: int)

  /** The `data` of a "currently-listening" message: {song, playing}. */
  datatype ListeningData = ListeningData(song: Option<Song>, playing: bool)

  /** The websocket envelope {msg_type, data}; `data` is null for "pong". */
  datatype Envelope = Envelope(msgType: string, data: Option<ListeningData>)

  /** The four variables the handlers and the reaper share. */
  datatype State = State(song: Option<Song>, timestamp: Option<int>, lastUpdated: int, playing: bool)

  /** What the POST handlers answer: the 400 rejection with both timestamps,
      or acceptance with the snapshot to broadcast and the text of the 200 reply. */
  datatype Outcome =
    | Rejected(given: int, latest: int)
    | Accepted(broadcast: Envelope, reply: Reply)

  /** The 200 reply: the set reply quotes the song and at most ten characters of its image. */
  datatype Reply = SetReply(artist: string, album: string, title: string, imageDesc: string) | ClearReply

  /** A transition's new state and what it answers. */
  datatype Step = Step(next: State, outcome: Outcome)

  /** What the image endpoint serves: a 404 with its reason, or the stored base64 text. */
  datatype ImageResponse = NotFound(reason: string) | ImageData(base64: string)

  /** The state at process start: no song, no timestamp, never updated, not playing. */
  const Initial := State(None, None, 0, false)

  /** The invariant the three transitions keep: a song is stored exactly when
      playing, and then the known timestamp is that song's start time. */
  predicate Consistent(s: State) {
    && (s.playing <==> s.song.Some?)
    && (s.song.Some? ==> s.timestamp == Some(s.song.value.startedAt))
  }

  /** currentlyListeningJSON: the envelope that is broadcast and sent on poll. */
  function Snapshot(s: State): Envelope {
    Envelope("currently-listening", Some(ListeningData(s.song, s.playing)))
  }

  /** The image description quoted by the set reply. */
  function ImageDesc(image: string): (d: string)
    ensures |d| == if |image| < 10 then |image| else 10
    ensures d <= image
  {
    if |image| > 10 then image[0..10] else image
  }

  /** The ordering guard of /set-listening: only applies while a song is stored. */
  predicate SetIsStale(s: State, startedAt: int) {
    s.song.Some? && s.timestamp.Some? && startedAt < s.timestamp.value
  }

  /** The ordering guard of /clear-listening: applies whenever a timestamp is known. */
  predicate ClearIsStale(s: State, endedAt: int) {
    s.timestamp.Some? && endedAt < s.timestamp.value
  }

  /** isStale: the reaper clears a playing song nobody refreshed for more than `staleAfter` seconds. */
  predicate IsStale(s: State, now: int, staleAfter: int) {
    s.song.Some? && s.playing && s.lastUpdated != 0 && now - s.lastUpdated > staleAfter
  }

  /** /set-listening after authentication and decoding. */
  function SetStep(s: State, cur: Song, now: int): (t: Step)
    ensures t.outcome.Rejected? <==> SetIsStale(s, cur.startedAt)
    ensures t.outcome.Rejected? ==> t.next == s && t.outcome == Rejected(cur.startedAt, s.timestamp.value)
    ensures t.outcome.Accepted? ==>
      && t.next.song == Some(cur) && t.next.timestamp == Some(cur.startedAt)
      && t.next.lastUpdated == now && t.next.playing
      && t.outcome.broadcast == Snapshot(t.next)
      && t.outcome.broadcast == Envelope("currently-listening", Some(ListeningData(Some(cur), true)))
      && t.outcome.reply == SetReply(cur.artist, cur.album, cur.title, ImageDesc(cur.base64Image))
    ensures Consistent(s) ==> Consistent(t.next)
  {
    if SetIsStale(s, cur.startedAt) then
      Step(s, Rejected(cur.startedAt, s.timestamp.value))
    else
      var next := State(Some(cur), Some(cur.startedAt), now, true);
      Step(next, Accepted(Snapshot(next), SetReply(cur.artist, cur.album, cur.title, ImageDesc(cur.base64Image))))
  }

  /** /clear-listening after authentication and decoding. */
  function ClearStep(s: State, endedAt: int, now: int): (t: Step)
    ensures t.outcome.Rejected? <==> ClearIsStale(s, endedAt)
    ensures t.outcome.Rejected? ==> t.next == s && t.outcome == Rejected(endedAt, s.timestamp.value)
    ensures t.outcome.Accepted? ==>
      && t.next.song == None && t.next.timestamp == Some(endedAt)
      && t.next.lastUpdated == now && !t.next.playing
      && t.outcome.broadcast == Snapshot(t.next)
      && t.outcome.broadcast == Envelope("currently-listening", Some(ListeningData(None, false)))
      && t.outcome.reply == ClearReply
    ensures Consistent(s) ==> Consistent(t.next)
  {
    if ClearIsStale(s, endedAt) then
      Step(s, Rejected(endedAt, s.timestamp.value))
    else
      var next := State(None, Some(endedAt), now, false);
      Step(next, Accepted(Snapshot(next), ClearReply))
  }

  /** One tick of the reaper goroutine, at wall-clock second `now`. */
  function Reaped(s: State, now: int, staleAfter: int): (next: State)
    ensures IsStale(s, now, staleAfter) ==> next == State(None, None, 0, false)
    ensures !IsStale(s, now, staleAfter) ==> next == s
    ensures Consistent(s) ==> Consistent(next)
  {
    if IsStale(s, now, staleAfter) then State(None, None, 0, false) else s
  }

  /** The websocket message handler: replies to "currently-listening" and
      "ping", ignores anything else, and never changes the state. */
  function Dispatch(s: State, msg: string): (reply: Option<Envelope>)
    ensures msg == "currently-listening" ==>
      reply.Some? && reply.value.msgType == "currently-listening"
      && reply.value.data == Some(ListeningData(s.song, s.playing))
    ensures msg == "ping" ==> reply == Some(Envelope("pong", None))
    ensures msg != "currently-listening" && msg != "ping" ==> reply == None
  {
    match msg
    case "currently-listening" => Some(Snapshot(s))
    case "ping" => Some(Envelope("pong", None))
    case _ => None
  }

  /** The guards of /currently-listening-image/ (decoding the base64 is not modelled). */
  function Image(s: State): (r: ImageResponse)
    ensures r.NotFound? <==> s.song.None? || s.song.value.base64Image == ""
    ensures r.ImageData? ==> r.base64 == s.song.value.base64Image && |r.base64| > 0
    ensures s.song.None? ==> r == NotFound("no currently listening song")
  {
    if s.song.None? then NotFound("no currently listening song")
    else if s.song.value.base64Image == "" then NotFound("no image for currently listening song")
    else ImageData(s.song.value.base64Image)
  }

  /** The server: the four captured variables of `server`, updated in place. */
  class Server {
    var song: Option<Song>
    var timestamp: Option<int>
    var lastUpdated: int
    var playing: bool

    function Current(): State
      reads this
    {
      State(song, timestamp, lastUpdated, playing)
    }

    ghost predicate Valid()
      reads this
    {
      Consistent(Current())
    }

    constructor ()
      ensures Current() == Initial && Valid()
    {
      song, timestamp, lastUpdated, playing := None, None, 0, false;
    }

    /** /set-listening: reject an older start time while a song is stored, else store the song. */
    method Set(cur: Song, now: int) returns (out: Outcome)
      requires Valid()
      modifies this
      ensures Valid()
      ensures Current() == SetStep(old(Current()), cur, now).next
      ensures out == SetStep(old(Current()), cur, now).outcome
    {
      if song.Some? && timestamp.Some? && cur.startedAt < timestamp.value {
        return Rejected(cur.startedAt, timestamp.value);
      }
      song := Some(cur);
      timestamp := Some(cur.startedAt);
      lastUpdated := now;
      playing := true;
      out := Accepted(Snapshot(Current()), SetReply(cur.artist, cur.album, cur.title, ImageDesc(cur.base64Image)));
    }

    /** /clear-listening: reject an older end time whenever a timestamp is known, else clear. */
    method Clear(endedAt: int, now: int) returns (out: Outcome)
      requires Valid()
      modifies this
      ensures Valid()
      ensures Current() == ClearStep(old(Current()), endedAt, now).next
      ensures out == ClearStep(old(Current()), endedAt, now).outcome
    {
      if timestamp.Some? && endedAt < timestamp.value {
        return Rejected(endedAt, timestamp.value);
      }
      song := None;
      timestamp := Some(endedAt);
      lastUpdated := now;
      playing := false;
      out := Accepted(Snapshot(Current()), ClearReply);
    }

    /** The body of the reaper loop; the cleared snapshot is returned for broadcast. */
    method Reap(now: int, staleAfter: int) returns (broadcast: Option<Envelope>)
      requires Valid()
      modifies this
      ensures Valid()
      ensures Current() == Reaped(old(Current()), now, staleAfter)
      ensures broadcast.Some? <==> IsStale(old(Current()), now, staleAfter)
      ensures broadcast.Some? ==> broadcast.value == Snapshot(Initial)
    {
      broadcast := None;
      if song.Some? && playing && lastUpdated != 0 {
        if now - lastUpdated > staleAfter {
          song := None;
          timestamp := None;
          playing := false;
          lastUpdated := 0;
          broadcast := Some(Snapshot(Current()));
        }
      }
    }

    /** The websocket message handler, on the current state. */
    function HandleMessage(msg: string): (reply: Option<Envelope>)
      reads this
      ensures msg == "currently-listening" ==>
        reply == Some(Envelope("currently-listening", Some(ListeningData(song, playing))))
      ensures msg == "ping" ==> reply == Some(Envelope("pong", None))
      ensures msg != "currently-listening" && msg != "ping" ==> reply == None
    {
      Dispatch(Current(), msg)
    }
  }

  /** One request or reaper tick, with the wall-clock second it happened at. */
  datatype Event =
    | SetEvent(cur: Song, now: int)
    | ClearEvent(endedAt: int, now: int)
    | ReapTick(now: int, staleAfter: int)

  function Apply(s: State, e: Event): State {
    match e
    case SetEvent(cur, now) => SetStep(s, cur, now).next
    case ClearEvent(endedAt, now) => ClearStep(s, endedAt, now).next
    case ReapTick(now, staleAfter) => Reaped(s, now, staleAfter)
  }

  /** The state after handling `events` one at a time, in order. */
  function Run(s: State, events: seq<Event>): State
    decreases |events|
  {
    if events == [] then s else Run(Apply(s, events[0]), events[1..])
  }

  /** Every state reachable from the initial one is consistent. */
  lemma {:induction false} RunKeepsConsistent(s: State, events: seq<Event>)
    requires Consistent(s)
    ensures Consistent(Run(s, events))
    decreases |events|
  {
    if events != [] {
      RunKeepsConsistent(Apply(s, events[0]), events[1..]);
    }
  }

  lemma ReachableConsistent(events: seq<Event>)
    ensures Consistent(Run(Initial, events))
  {
    RunKeepsConsistent(Initial, events);
  }

  /** While only sets arrive and a song is stored, the stored timestamp never decreases
      and a song stays stored. */
  lemma {:induction false} SetsNeverRewind(s: State, events: seq<Event>)
    requires Consistent(s) && s.song.Some?
    requires forall i :: 0 <= i < |events| ==> events[i].SetEvent?
    ensures Run(s, events).song.Some? && Run(s, events).timestamp.Some?
    ensures s.timestamp.value <= Run(s, events).timestamp.value
    decreases |events|
  {
    if events != [] {
      var s' := Apply(s, events[0]);
      SetsNeverRewind(s', events[1..]);
    }
  }

  /** While only clears arrive, a known timestamp never decreases. */
  lemma {:induction false} ClearsNeverRewind(s: State, events: seq<Event>)
    requires s.timestamp.Some?
    requires forall i :: 0 <= i < |events| ==> events[i].ClearEvent?
    ensures Run(s, events).timestamp.Some?
    ensures s.timestamp.value <= Run(s, events).timestamp.value
    decreases |events|
  {
    if events != [] {
      ClearsNeverRewind(Apply(s, events[0]), events[1..]);
    }
  }

  /** The set guard is strict: a set with the stored timestamp is accepted. */
  lemma EqualTimestampAccepted(s: State, cur: Song, now: int)
    requires Consistent(s) && s.song.Some? && cur.startedAt == s.song.value.startedAt
    ensures SetStep(s, cur, now).outcome.Accepted?
  {
  }

  /** After an accepted clear no song is stored, so the next set is accepted
      whatever its start time. */
  lemma SetAfterClearAccepted(s: State, endedAt: int, now: int, cur: Song, later: int)
    requires ClearStep(s, endedAt, now).outcome.Accepted?
    ensures SetStep(ClearStep(s, endedAt, now).next, cur, later).outcome.Accepted?
  {
  }

  /** After the reaper fires no timestamp is known, so both a set and a clear
      are accepted whatever their timestamps. */
  lemma SetAndClearAfterReapAccepted(s: State, now: int, staleAfter: int, cur: Song, endedAt: int, later: int)
    requires IsStale(s, now, staleAfter)
    ensures SetStep(Reaped(s, now, staleAfter), cur, later).outcome.Accepted?
    ensures ClearStep(Reaped(s, now, staleAfter), endedAt, later).outcome.Accepted?
  {
  }

  /** Once the reaper has fired, no later tick fires again or changes anything. */
  lemma ReapTwiceIsReapOnce(s: State, now: int, staleAfter: int, later: int, window: int)
    requires IsStale(s, now, staleAfter)
    ensures !IsStale(Reaped(s, now, staleAfter), later, window)
    ensures Reaped(Reaped(s, now, staleAfter), later, window) == Reaped(s, now, staleAfter)
  {
  }

  /** Two sets in either order: once the first is accepted, the stored timestamp
      ends as the larger start time (on a tie, the second song is kept). */
  lemma TwoSetsKeepTheNewer(s: State, a: Song, b: Song, t1: int, t2: int)
    requires SetStep(s, a, t1).outcome.Accepted?
    ensures Run(s, [SetEvent(a, t1), SetEvent(b, t2)]).timestamp
      == Some(if a.startedAt <= b.startedAt then b.startedAt else a.startedAt)
  {
    var events := [SetEvent(a, t1), SetEvent(b, t2)];
    var s1 := SetStep(s, a, t1).next;
    assert events[1..] == [SetEvent(b, t2)];
    assert Run(s, events) == Run(s1, [SetEvent(b, t2)]);
    assert Run(s1, [SetEvent(b, t2)]) == Run(SetStep(s1, b, t2).next, []);
  }

  /** Unlike a strict ordering rule, the code lets the timestamp go backwards:
      a set older than an accepted clear is accepted, because the set guard
      only applies while a song is stored. */
  lemma ClearThenOlderSetRewinds(song: Song)
    requires song.startedAt == 50
    ensures Run(Initial, [ClearEvent(200, 1000), SetEvent(song, 1001)]).timestamp == Some(50)
  {
    var events := [ClearEvent(200, 1000), SetEvent(song, 1001)];
    var s1 := ClearStep(Initial, 200, 1000).next;
    assert events[1..] == [SetEvent(song, 1001)];
    assert Run(Initial, events) == Run(s1, [SetEvent(song, 1001)]);
    assert Run(s1, [SetEvent(song, 1001)]) == Run(SetStep(s1, song, 1001).next, []);
  }
}
