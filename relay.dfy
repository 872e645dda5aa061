/** The local relay between mpv and the remote server: it turns mpv event
    reports into SetListening / ClearListening bodies, remembers what it last
    forwarded, and posts upstream only when that changes. Posts are appended
    to a log instead of being sent. */
module Relay {
  import opened Wrappers
  import Latest

  datatype SetListening = SetListening(title: string, artist: string, album: string, startedAt: int, base64Image: string)
  datatype ClearListening = ClearListening(endedAt: int)

  /** The `SetListening | ClearListening` body of update_currently_listening. */
  datatype Body = SetBody(song: SetListening) | ClearBody(stop: ClearListening)

  /** One request to the remote server: its path and JSON body. */
  datatype Post = Post(path: string, body: Body)

  /** The two fields of SocketDataManager that update_currently_listening changes. */
  datatype RelayState = RelayState(current: Option<SetListening>, isPlaying: bool)

  /** What one update does: the new state and the post it makes, if any. */
  datatype Update = Update(next: RelayState, post: Option<Post>)

  /** The state after construction. */
  const Initial := RelayState(None, false)

  /** The manager's invariant: playing exactly when a song is remembered. */
  predicate Consistent(s: RelayState) {
    s.isPlaying <==> s.current.Some?
  }

  /** update_currently_listening(body, is_playing). */
  function UpdateStep(s: RelayState, body: Body, isPlaying: bool): (u: Update)
    ensures body.ClearBody? ==>
      (u.post.Some? <==> !isPlaying && s.isPlaying)
    ensures body.ClearBody? && u.post.Some? ==>
      u.next == RelayState(None, false) && u.post.value == Post("clear-listening", body)
    ensures body.SetBody? ==>
      (u.post.Some? <==> isPlaying && s.current != Some(body.song))
    ensures body.SetBody? && u.post.Some? ==>
      u.next == RelayState(Some(body.song), true) && u.post.value == Post("set-listening", body)
    ensures u.post.None? ==> u.next == s
    ensures Consistent(s) ==> Consistent(u.next)
  {
    match body
    case ClearBody(_) =>
      if !isPlaying && s.isPlaying then Update(RelayState(None, false), Some(Post("clear-listening", body)))
      else Update(s, None)
    case SetBody(b) =>
      if isPlaying && s.current != Some(b) then Update(RelayState(Some(b), true), Some(Post("set-listening", body)))
      else Update(s, None)
  }

  /** Repeating a set that was just forwarded posts nothing and changes nothing. */
  lemma RepeatedSetIsIdempotent(s: RelayState, b: SetListening)
    ensures var u := UpdateStep(s, SetBody(b), true);
      UpdateStep(u.next, SetBody(b), true) == Update(u.next, None)
  {
  }

  /** Two clears in a row post at most once. */
  lemma RepeatedClearPostsOnce(s: RelayState, c1: ClearListening, c2: ClearListening, p1: bool, p2: bool)
    ensures var u := UpdateStep(s, ClearBody(c1), p1);
      u.post.Some? ==> UpdateStep(u.next, ClearBody(c2), p2).post.None?
  {
  }

  /** One call of update_currently_listening. */
  datatype Call = Call(body: Body, isPlaying: bool)

  /** The state after a sequence of calls, and the posts they made in order. */
  function Replay(s: RelayState, calls: seq<Call>): (RelayState, seq<Post>)
    decreases |calls|
  {
    if calls == [] then (s, [])
    else
      var u := UpdateStep(s, calls[0].body, calls[0].isPlaying);
      var (s', posts) := Replay(u.next, calls[1..]);
      (s', (if u.post.Some? then [u.post.value] else []) + posts)
  }

  /** The stored state agrees with the last post made (or with the initial
      state when nothing was posted yet). */
  predicate AgreesWithLastPost(s: RelayState, last: Option<Post>) {
    match last
    case None => s == Initial
    case Some(p) =>
      if p.body.SetBody? then s == RelayState(Some(p.body.song), true) else s == Initial
  }

  /** No two consecutive posts are both clears, and no set is posted twice in a row. */
  predicate NoRedundantPosts(posts: seq<Post>) {
    forall i :: 0 <= i < |posts| - 1 ==>
      (posts[i].body.ClearBody? ==> posts[i + 1].body.SetBody?) &&
      (posts[i].body.SetBody? ==> posts[i + 1] != posts[i])
  }

  /** The redundancy filter: after any calls that follow a post `last`
      (or none), the next post is never a second clear nor the same set. */
  lemma {:induction false} ReplayPostsNoRedundancy(s: RelayState, last: Option<Post>, calls: seq<Call>)
    requires AgreesWithLastPost(s, last)
    ensures var posts := Replay(s, calls).1;
      && (last.Some? && posts != [] ==> NoRedundantPosts([last.value] + posts))
      && NoRedundantPosts(posts)
    decreases |calls|
  {
    if calls != [] {
      var u := UpdateStep(s, calls[0].body, calls[0].isPlaying);
      var rest := Replay(u.next, calls[1..]).1;
      if u.post.Some? {
        ReplayPostsNoRedundancy(u.next, u.post, calls[1..]);
        var posts := [u.post.value] + rest;
        if last.Some? {
          var all := [last.value] + posts;
          forall i | 0 <= i < |all| - 1
            ensures (all[i].body.ClearBody? ==> all[i + 1].body.SetBody?) && (all[i].body.SetBody? ==> all[i + 1] != all[i])
          {
            if i > 0 {
              assert all[i] == posts[i - 1] && all[i + 1] == posts[i];
            }
          }
        }
        forall i | 0 <= i < |posts| - 1
          ensures (posts[i].body.ClearBody? ==> posts[i + 1].body.SetBody?) && (posts[i].body.SetBody? ==> posts[i + 1] != posts[i])
        {
          if i > 0 {
            assert posts[i] == rest[i - 1] && posts[i + 1] == rest[i];
          }
        }
      } else {
        ReplayPostsNoRedundancy(u.next, last, calls[1..]);
        assert Replay(s, calls).1 == rest;
      }
    }
  }

  /** From construction, the relay never forwards two clears in a row nor the same set twice in a row. */
  lemma RelayNeverRepeats(calls: seq<Call>)
    ensures NoRedundantPosts(Replay(Initial, calls).1)
  {
    ReplayPostsNoRedundancy(Initial, None, calls);
  }

  /** One media item read from mpv's event stream: its file and start time (seconds). */
  datatype Media = Media(path: string, startTime: int)

  /** The (title, album, artist) metadata of a song. */
  datatype Metadata = Metadata(title: string, album: string, artist: string)

  function StartTime(m: Media): int { m.startTime }

  /** The media process_currently_listening acts on: the last one after a
      stable sort by start time. */
  function LatestMedia(data: seq<Media>): (m: Media)
    requires |data| > 0
    ensures m in data
    ensures forall i :: 0 <= i < |data| ==> data[i].startTime <= m.startTime
    ensures exists k ::
      && 0 <= k < |data| && data[k] == m
      && forall i :: k < i < |data| ==> data[i].startTime < m.startTime
  {
    var k := Latest.LastMaxIndex(data, StartTime);
    assert forall i :: k < i < |data| ==> StartTime(data[i]) < StartTime(data[k]);
    data[k]
  }

  /** The body process_currently_listening hands to update_currently_listening,
      if any. Which media are allowed, their metadata and their cached cover
      are decided by code outside this model and arrive as functions. */
  function BuildBody(data: seq<Media>, isPlaying: bool, cacheImages: bool,
                     allowed: Media -> bool, metadata: Media -> Option<Metadata>,
                     cover: Media -> Option<string>): (r: Option<Body>)
    ensures data == [] ==> r == None
    ensures r.Some? <==> data != [] && allowed(LatestMedia(data)) && metadata(LatestMedia(data)).Some?
    ensures r.Some? ==> (r.value.SetBody? <==> isPlaying)
    ensures r.Some? && r.value.SetBody? ==>
      var md := metadata(LatestMedia(data)).value;
      && r.value.song.startedAt == LatestMedia(data).startTime
      && r.value.song.title == md.title && r.value.song.album == md.album && r.value.song.artist == md.artist
      && r.value.song.base64Image == (if cacheImages then cover(LatestMedia(data)).GetOr("") else "")
    ensures r.Some? && r.value.ClearBody? ==> r.value.stop.endedAt == LatestMedia(data).startTime
    ensures r.Some? ==> forall m :: m in data ==> m.startTime <= BodyTime(r.value)
  {
    if data == [] then None
    else
      var current := LatestMedia(data);
      if !allowed(current) then None
      else match metadata(current)
        case None => None
        case Some(md) =>
          var coverArt := if cacheImages && isPlaying then cover(current) else Some("");
          if isPlaying then
            Some(SetBody(SetListening(md.title, md.artist, md.album, current.startTime, coverArt.GetOr(""))))
          else
            Some(ClearBody(ClearListening(current.startTime)))
  }

  /** The timestamp a body carries: started_at or ended_at. */
  function BodyTime(b: Body): int {
    match b
    case SetBody(s) => s.startedAt
    case ClearBody(c) => c.endedAt
  }

  /** The paths of cover images tried, in order. */
  const Covers: seq<string> := ["cover.jpg", "cover.png", "Folder.jpg", "Folder.png", "thumb.jpg"]

  /** Index of the last '/' in `p`, or -1. */
  function LastSlash(p: string): (i: int)
    ensures -1 <= i < |p|
    ensures i >= 0 ==> p[i] == '/'
    ensures forall j :: i < j < |p| ==> p[j] != '/'
  {
    if p == [] then -1
    else if p[|p| - 1] == '/' then |p| - 1
    else LastSlash(p[..|p| - 1])
  }

  predicate AllSlashes(s: string) {
    forall i :: 0 <= i < |s| ==> s[i] == '/'
  }

  /** `s` without its trailing '/' characters. */
  function StripTrailingSlashes(s: string): (r: string)
    ensures r <= s
    ensures r == [] || r[|r| - 1] != '/'
    ensures AllSlashes(s[|r|..])
  {
    if s != [] && s[|s| - 1] == '/' then StripTrailingSlashes(s[..|s| - 1]) else s
  }

  /** os.path.dirname on POSIX: everything before the last '/', without
      trailing slashes unless it is made only of slashes. */
  function DirName(p: string): (d: string)
    ensures d <= p
    ensures LastSlash(p) == -1 ==> d == ""
  {
    var head := p[..LastSlash(p) + 1];
    if head != [] && !AllSlashes(head) then StripTrailingSlashes(head) else head
  }

  /** When the path has a '/', dirname keeps a non-empty prefix of the text
      up to and including the last '/': all of it when that text is only
      slashes, and otherwise that text without its trailing slashes. */
  lemma DirNameShape(p: string)
    requires LastSlash(p) >= 0
    ensures var h := LastSlash(p) + 1; var d := DirName(p);
      && d != [] && d <= p[..h] && AllSlashes(p[|d|..h])
      && (AllSlashes(p[..h]) ==> d == p[..h])
      && (!AllSlashes(p[..h]) ==> d[|d| - 1] != '/')
  {
    var h := LastSlash(p) + 1;
    var head := p[..h];
    var d := DirName(p);
    if AllSlashes(head) {
      assert d == head;
      assert p[|d|..h] == [];
    } else {
      assert d == StripTrailingSlashes(head);
      assert head[|d|..] == p[|d|..h];
    }
  }

  /** dirname keeps the directory of a file path, keeps a root of slashes,
      and gives "" for a bare file name. */
  lemma DirNameExamples()
    ensures DirName("a/b") == "a"
    ensures DirName("a//b") == "a"
    ensures DirName("/b") == "/"
    ensures DirName("b") == ""
  {
    assert LastSlash("a/b") == 1 by { assert LastSlash("a/b"[..2]) == 1; }
    assert "a/b"[..2] == "a/" && !AllSlashes("a/") && StripTrailingSlashes("a/") == "a" by {
      assert "a/"[0] != '/' && "a/"[..1] == "a";
    }
    assert LastSlash("a//b") == 2 by { assert LastSlash("a//b"[..3]) == 2; }
    assert "a//b"[..3] == "a//";
    assert !AllSlashes("a//") && StripTrailingSlashes("a//") == "a" by {
      assert "a//"[0] != '/';
      assert "a//"[..2] == "a/" && "a/"[..1] == "a";
    }
    assert LastSlash("/b") == 0 by { assert LastSlash("/b"[..1]) == 0; }
    assert LastSlash("b") == -1 by { assert "b"[..0] == []; }
  }

  /** os.path.join(dir, name) for a relative `name`. */
  function Join(dir: string, name: string): (p: string)
    ensures dir <= p && |name| <= |p| && p[|p| - |name|..] == name
    ensures |p| == |dir| + |name| + (if dir == [] || dir[|dir| - 1] == '/' then 0 else 1)
    ensures |p| > |dir| + |name| ==> p[|dir|] == '/'
  {
    if dir == [] || dir[|dir| - 1] == '/' then dir + name else dir + "/" + name
  }

  /** The index of the first path that exists. */
  function FirstExisting(paths: seq<string>, pathExists: string -> bool): (r: Option<nat>)
    ensures r.Some? ==> r.value < |paths| && pathExists(paths[r.value])
    ensures r.Some? ==> forall j :: 0 <= j < r.value ==> !pathExists(paths[j])
    ensures r.None? <==> forall j :: 0 <= j < |paths| ==> !pathExists(paths[j])
  {
    if paths == [] then None
    else if pathExists(paths[0]) then Some(0)
    else match FirstExisting(paths[1..], pathExists)
      case None => None
      case Some(k) => Some(k + 1)
  }

  /** Where the i-th cover would be for `media`: next to the media file. */
  function CoverPath(media: Media, i: nat): string
    requires i < |Covers|
  {
    Join(DirName(media.path), Covers[i])
  }

  /** The candidate cover paths for `media`, in COVERS order. */
  function CoverPaths(media: Media): (paths: seq<string>)
    ensures |paths| == |Covers|
    ensures forall i :: 0 <= i < |Covers| ==> paths[i] == CoverPath(media, i)
  {
    seq(|Covers|, i requires 0 <= i < |Covers| => CoverPath(media, i))
  }

  /** get_cover_art: the first of Covers present next to the media file, if any. */
  function CoverArt(media: Media, pathExists: string -> bool): (r: Option<string>)
    ensures r.Some? ==>
      exists i :: 0 <= i < |Covers| && r.value == CoverPath(media, i) && pathExists(r.value) &&
        forall j :: 0 <= j < i ==> !pathExists(CoverPath(media, j))
    ensures r.None? <==> forall i :: 0 <= i < |Covers| ==> !pathExists(CoverPath(media, i))
  {
    var paths := CoverPaths(media);
    match FirstExisting(paths, pathExists)
    case None => None
    case Some(i) => Some(paths[i])
  }

  /** SocketDataManager, with the posts it made to the remote server as a log. */
  class SocketDataManager {
    var currentlyListening: Option<SetListening>
    var isPlaying: bool
    const cacheImages: bool
    ghost var posts: seq<Post>

    function Current(): RelayState
      reads this
    {
      RelayState(currentlyListening, isPlaying)
    }

    ghost predicate Valid()
      reads this
    {
      Consistent(Current())
    }

    constructor (cacheImages: bool)
      ensures Valid() && Current() == Initial && posts == [] && this.cacheImages == cacheImages
    {
      currentlyListening := None;
      isPlaying := false;
      this.cacheImages := cacheImages;
      posts := [];
    }

    /** update_currently_listening. */
    method UpdateCurrentlyListening(body: Body, playing: bool)
      requires Valid()
      modifies this
      ensures Valid()
      ensures var u := UpdateStep(old(Current()), body, playing);
        Current() == u.next && posts == old(posts) + (if u.post.Some? then [u.post.value] else [])
    {
      match body
      case ClearBody(_) =>
        if !playing && isPlaying {
          currentlyListening := None;
          isPlaying := false;
          posts := posts + [Post("clear-listening", body)];
        }
      case SetBody(b) =>
        if playing && currentlyListening != Some(b) {
          currentlyListening := Some(b);
          isPlaying := true;
          posts := posts + [Post("set-listening", body)];
        }
    }

    /** process_currently_listening, on the media already read from the event stream. */
    method ProcessCurrentlyListening(data: seq<Media>, playing: bool,
                                     allowed: Media -> bool, metadata: Media -> Option<Metadata>,
                                     cover: Media -> Option<string>)
      requires Valid()
      modifies this
      ensures Valid()
      ensures match BuildBody(data, playing, cacheImages, allowed, metadata, cover)
        case None => Current() == old(Current()) && posts == old(posts)
        case Some(b) =>
          var u := UpdateStep(old(Current()), b, playing);
          Current() == u.next && posts == old(posts) + (if u.post.Some? then [u.post.value] else [])
    {
      var body := BuildBody(data, playing, cacheImages, allowed, metadata, cover);
      if body.Some? {
        UpdateCurrentlyListening(body.value, playing);
      }
    }
  }
}
