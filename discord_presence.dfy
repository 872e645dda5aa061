/** The Discord presence client: it queues every snapshot the server pushes,
    takes only the latest one when the rate limit allows a request, and
    updates or clears the Discord status accordingly. RPC calls are appended
    to a log instead of being made. */
module DiscordPresence {
  import opened Wrappers
  import Latest

  datatype Song = Song(title: string, artist: string, album: Option<string>)

  /** The `data` of a "currently-listening" message. */
  datatype SongPayload = SongPayload(song: Option<Song>, playing: bool)

  datatype Payload = Payload(msgType: string, data: SongPayload)

  /** Python truthiness of an optional string: present and non-empty. */
  predicate Truthy(s: Option<string>) {
    s.Some? && s.value != ""
  }

  /** The part of `describe` before the album: "title - artist", or the artist alone. */
  function Heading(song: Song): string {
    if song.title != "" then song.title + " - " + song.artist else song.artist
  }

  /** Song.describe. */
  function Describe(song: Song): (d: string)
    ensures song.title != "" ==> song.title + " - " + song.artist <= d
    ensures song.title == "" ==> song.artist <= d
    ensures Truthy(song.album) ==> d == Heading(song) + " (" + song.album.value + ")"
    ensures !Truthy(song.album) ==> d == Heading(song)
  {
    var desc := Heading(song);
    if Truthy(song.album) then desc + " (" + song.album.value + ")" else desc
  }

  /** A missing album and an empty album describe the same, so two different
      payloads can yield the same presence text. */
  lemma EmptyAlbumDescribedAsMissing(title: string, artist: string)
    ensures Describe(Song(title, artist, Some(""))) == Describe(Song(title, artist, None))
  {
  }

  /** A queued payload with the time it was put on the queue. */
  datatype QueueItem = QueueItem(enqueuedAt: int, payload: Payload)

  function EnqueuedAt(item: QueueItem): int { item.enqueuedAt }

  /** What __anext__ returns: SENTINEL, or a payload. */
  datatype Next = Sentinel | Item(payload: Payload)

  /** The queued item that __anext__ returns: the latest enqueue time, and
      the first enqueued among items with that time. */
  predicate IsLatestQueued(queued: seq<QueueItem>, j: int) {
    && 0 <= j < |queued|
    && (forall i :: 0 <= i < |queued| ==> queued[i].enqueuedAt <= queued[j].enqueuedAt)
    && (forall i :: 0 <= i < j ==> queued[i].enqueuedAt < queued[j].enqueuedAt)
  }

  /** Taking the last maximal element of the queue read back to front picks
      the first maximal element of the queue. */
  lemma LatestOfDrained(queued: seq<QueueItem>, drained: seq<QueueItem>)
    requires |drained| == |queued| > 0
    requires forall i :: 0 <= i < |drained| ==> drained[i] == queued[|queued| - 1 - i]
    ensures IsLatestQueued(queued, |queued| - 1 - Latest.LastMaxIndex(drained, EnqueuedAt))
  {
    var k := Latest.LastMaxIndex(drained, EnqueuedAt);
    var j := |queued| - 1 - k;
    forall i | 0 <= i < |queued|
      ensures queued[i].enqueuedAt <= queued[j].enqueuedAt
    {
      assert queued[i] == drained[|queued| - 1 - i];
    }
    forall i | 0 <= i < j
      ensures queued[i].enqueuedAt < queued[j].enqueuedAt
    {
      assert queued[i] == drained[|queued| - 1 - i];
    }
  }

  /** SocketWithPoll's queue: an asyncio.LifoQueue, oldest item first. */
  class SocketWithPoll {
    var items: seq<QueueItem>

    constructor ()
      ensures items == []
    {
      items := [];
    }

    /** yield_iterator_to_queue, for one received payload. */
    method Put(now: int, payload: Payload)
      modifies this
      ensures items == old(items) + [QueueItem(now, payload)]
    {
      items := items + [QueueItem(now, payload)];
    }

    /** __anext__: SENTINEL on an empty queue; otherwise drain the queue and
        return the payload with the latest enqueue time. The LIFO queue hands
        out the newest item first, so after the stable sort the winner among
        equal times is the one enqueued first. */
    method Next() returns (r: Next)
      modifies this
      ensures old(items) == [] ==> r == Sentinel && items == []
      ensures old(items) != [] ==>
        (items == [] && r.Item? &&
         exists j :: IsLatestQueued(old(items), j) && r.payload == old(items)[j].payload)
    {
      if items == [] {
        return Sentinel;
      }
      ghost var queued := items;
      var drained: seq<QueueItem> := [];
      while items != []
        invariant |items| <= |queued| && items == queued[..|items|]
        invariant |drained| == |queued| - |items|
        invariant forall i :: 0 <= i < |drained| ==> drained[i] == queued[|queued| - 1 - i]
        decreases |items|
      {
        drained := drained + [items[|items| - 1]];
        items := items[..|items| - 1];
      }
      var k := Latest.LastMaxIndex(drained, EnqueuedAt);
      r := Item(drained[k].payload);
      LatestOfDrained(queued, drained);
      assert queued[|queued| - 1 - k] == drained[k];
    }
  }

  /** One RPC call to Discord. */
  datatype Rpc = UpdatePresence(state: string) | ClearPresence

  /** What one loop iteration decides for a payload: nothing, an update, or a clear. */
  datatype Decision = Skip | Update(state: string) | Clear

  /** The decision step of set_discord_presence_loop for one item from the queue. */
  function Decide(current: Option<SongPayload>, next: Next): (d: Decision)
    ensures next.Sentinel? ==> d == Skip
    ensures next.Item? && next.payload.data.playing && next.payload.data.song.Some? ==>
      (d == Skip <==> current == Some(next.payload.data))
    ensures d.Update? ==> next.Item? && next.payload.data.song.Some? && d.state == Describe(next.payload.data.song.value)
    ensures d == Clear <==> next.Item? && !(next.payload.data.playing && next.payload.data.song.Some?)
  {
    match next
    case Sentinel => Skip
    case Item(p) =>
      if p.data.playing && p.data.song.Some? then
        if current == Some(p.data) then Skip else Update(Describe(p.data.song.value))
      else Clear
  }

  /** The loop's own state: current_state and last_request_at, with the RPC calls made. */
  class PresenceLoop {
    var currentState: Option<SongPayload>
    var lastRequestAt: int
    ghost var rpc: seq<Rpc>

    constructor (now: int, waitTime: int)
      ensures currentState == None && lastRequestAt == now - waitTime * 2 && rpc == []
    {
      currentState := None;
      lastRequestAt := now - waitTime * 2;
      rpc := [];
    }

    /** The body of the `while True` loop for the item `next`, at second `now`
        (the waits of rate_limit are not modelled). */
    method Step(next: Next, now: int)
      modifies this
      ensures var d := Decide(old(currentState), next);
        match d
        case Skip => currentState == old(currentState) && lastRequestAt == old(lastRequestAt) && rpc == old(rpc)
        case Update(state) =>
          currentState == Some(next.payload.data) && lastRequestAt == now && rpc == old(rpc) + [UpdatePresence(state)]
        case Clear => currentState == None && lastRequestAt == now && rpc == old(rpc) + [ClearPresence]
      ensures Presence(currentState, rpc) == Apply(old(Presence(currentState, rpc)), next)
    {
      if next.Sentinel? {
        return;
      }
      var state := next.payload;
      if state.data.playing && state.data.song.Some? {
        if currentState == Some(state.data) {
          return;
        }
        currentState := Some(state.data);
        rpc := rpc + [UpdatePresence(Describe(state.data.song.value))];
        lastRequestAt := now;
      } else {
        currentState := None;
        rpc := rpc + [ClearPresence];
        lastRequestAt := now;
      }
    }
  }

  /** The loop state as a value, for reasoning about runs of iterations. */
  datatype Presence = Presence(current: Option<SongPayload>, rpc: seq<Rpc>)

  function Apply(p: Presence, next: Next): Presence {
    match Decide(p.current, next)
    case Skip => p
    case Update(state) => Presence(Some(next.payload.data), p.rpc + [UpdatePresence(state)])
    case Clear => Presence(None, p.rpc + [ClearPresence])
  }

  function Run(p: Presence, nexts: seq<Next>): Presence
    decreases |nexts|
  {
    if nexts == [] then p else Run(Apply(p, nexts[0]), nexts[1..])
  }

  /** current_state is only ever None or a playing payload with a song, and
      it always matches the last RPC call: the song described by the last
      update, or nothing after a clear. */
  predicate Tracks(p: Presence) {
    && (p.current.Some? ==> p.current.value.playing && p.current.value.song.Some?)
    && (p.rpc == [] ==> p.current == None)
    && (p.rpc != [] && p.rpc[|p.rpc| - 1] == ClearPresence ==> p.current == None)
    && (p.rpc != [] && p.rpc[|p.rpc| - 1].UpdatePresence? ==>
          p.current.Some? && p.rpc[|p.rpc| - 1].state == Describe(p.current.value.song.value))
  }

  lemma {:induction false} RunKeepsTracking(p: Presence, nexts: seq<Next>)
    requires Tracks(p)
    ensures Tracks(Run(p, nexts))
    ensures p.rpc <= Run(p, nexts).rpc
    decreases |nexts|
  {
    if nexts != [] {
      RunKeepsTracking(Apply(p, nexts[0]), nexts[1..]);
    }
  }

  /** From the loop's start, the presence shown is always the description of
      the remembered song, or nothing when no song is remembered. */
  lemma PresenceMatchesState(nexts: seq<Next>)
    ensures Tracks(Run(Presence(None, []), nexts))
  {
    RunKeepsTracking(Presence(None, []), nexts);
  }

  /** The same playing payload pushed again, however often, makes no further RPC call. */
  lemma {:induction false} RepeatedPayloadIsQuiet(p: Presence, payload: Payload, n: nat)
    requires payload.data.playing && payload.data.song.Some?
    requires p.current == Some(payload.data)
    ensures Run(p, seq(n, _ => Item(payload))) == p
    decreases n
  {
    if n > 0 {
      var nexts := seq(n, _ => Item(payload));
      assert nexts[1..] == seq(n - 1, _ => Item(payload));
      RepeatedPayloadIsQuiet(p, payload, n - 1);
    }
  }
}
