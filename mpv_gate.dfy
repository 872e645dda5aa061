/** The mpv-side reporter: a SocketData subclass that, once the file's
    metadata has been stored, reports playback changes to the local relay.
    Each report is logged as the `is_playing` value it carries. */
module MpvGate {

  /** The events that trigger a report while mpv keeps running. */
  const SendEvents: set<string> := {"eof", "paused", "resumed"}

  /** The event sent when mpv quits. */
  const FinalWrite := "final-write"

  /** Reading mpv's `pause` property: its value, or one of the connection
      errors that mean mpv is gone. */
  datatype PauseRead = Paused(paused: bool) | ConnectionLost

  /** _send_data's `is_playing`: `not is_paused`, where a final report or a
      lost connection counts as paused. */
  function ReportedPlaying(isFinal: bool, pause: PauseRead): (playing: bool)
    ensures playing <==> !isFinal && pause == Paused(false)
  {
    var isPaused := if isFinal then true else match pause
      case Paused(p) => p
      case ConnectionLost => true;
    !isPaused
  }

  /** The reports nevent makes for one event: none before the start, one for
      an event of SendEvents or for "final-write", none otherwise. */
  function EventReports(started: bool, name: string, pause: PauseRead): (reports: seq<bool>)
    ensures |reports| <= 1
    ensures reports != [] <==> started && (name in SendEvents || name == FinalWrite)
    ensures name == FinalWrite && reports != [] ==> reports == [false]
    ensures name in SendEvents && reports != [] ==> reports == [!pause.ConnectionLost? && !pause.paused]
  {
    if !started then []
    else
      (if name in SendEvents then [ReportedPlaying(false, pause)] else [])
      + (if name == FinalWrite then [ReportedPlaying(true, pause)] else [])
  }

  /** What the reporter remembers (`_started`) and the reports it made. */
  datatype Gate = Gate(started: bool, reports: seq<bool>)

  /** A call from the daemon: an mpv event, or store_file_metadata. Each
      carries what reading `pause` would give at that moment. */
  datatype Call = Event(name: string, pause: PauseRead) | MetadataStored(pause: PauseRead)

  function Apply(g: Gate, c: Call): Gate {
    match c
    case Event(name, pause) => Gate(g.started, g.reports + EventReports(g.started, name, pause))
    case MetadataStored(pause) => Gate(true, g.reports + [ReportedPlaying(false, pause)])
  }

  function Run(g: Gate, calls: seq<Call>): Gate
    decreases |calls|
  {
    if calls == [] then g else Run(Apply(g, calls[0]), calls[1..])
  }

  /** `_started` never goes back to false, and reports are only appended. */
  lemma {:induction false} StartedIsSticky(g: Gate, calls: seq<Call>)
    ensures g.started ==> Run(g, calls).started
    ensures g.reports <= Run(g, calls).reports
    decreases |calls|
  {
    if calls != [] {
      StartedIsSticky(Apply(g, calls[0]), calls[1..]);
    }
  }

  /** Until store_file_metadata runs, no event produces a report. */
  lemma {:induction false} SilentUntilStarted(g: Gate, calls: seq<Call>)
    requires !g.started
    requires forall i :: 0 <= i < |calls| ==> calls[i].Event?
    ensures Run(g, calls) == g
    decreases |calls|
  {
    if calls != [] {
      assert Apply(g, calls[0]) == g;
      SilentUntilStarted(g, calls[1..]);
    }
  }

  /** Once started, each call makes at most one report, so a run of n calls adds at most n. */
  lemma {:induction false} AtMostOneReportPerCall(g: Gate, calls: seq<Call>)
    ensures |Run(g, calls).reports| <= |g.reports| + |calls|
    decreases |calls|
  {
    if calls != [] {
      AtMostOneReportPerCall(Apply(g, calls[0]), calls[1..]);
    }
  }

  /** SocketDataServer, with its reports to the relay as a log. */
  class SocketDataServer {
    var started: bool
    ghost var reports: seq<bool>

    constructor ()
      ensures !started && reports == []
    {
      started := false;
      reports := [];
    }

    /** _send_data: reads `pause` unless final, and reports `not is_paused`. */
    method SendData(isFinal: bool, pause: PauseRead)
      modifies this
      ensures started == old(started)
      ensures reports == old(reports) + [ReportedPlaying(isFinal, pause)]
    {
      var isPaused: bool;
      if !isFinal {
        match pause
        case Paused(p) => isPaused := p;
        case ConnectionLost => isPaused := true;
      } else {
        isPaused := true;
      }
      reports := reports + [!isPaused];
    }

    /** nevent (after the superclass has recorded the event). */
    method NEvent(name: string, pause: PauseRead)
      modifies this
      ensures Gate(started, reports) == Apply(old(Gate(started, reports)), Event(name, pause))
    {
      if !started {
        return;
      }
      if name in SendEvents {
        SendData(false, pause);
      }
      if name == FinalWrite {
        SendData(true, pause);
      }
    }

    /** store_file_metadata (after the superclass has stored the metadata). */
    method StoreFileMetadata(pause: PauseRead)
      modifies this
      ensures Gate(started, reports) == Apply(old(Gate(started, reports)), MetadataStored(pause))
    {
      started := true;
      SendData(false, pause);
    }
  }
}
