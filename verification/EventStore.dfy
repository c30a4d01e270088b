/**
 The append-only store: the tables `streams`, `events` and `stream_events`, the append and read
 procedures on them, and the operator's contiguity check.  Every table is a function of one
 abstract log, the `$all` sequence.
 */
module EventStore {
  import opened Wrappers
  import AggregateProtocol

  type EventId = string

  datatype NewEvent = NewEvent(id: EventId, data: string)

  /** One event with its origin stream and its version there. */
  datatype Recorded = Recorded(id: EventId, stream: string, version: nat, data: string)

  /** Primary key of `stream_events`. */
  datatype Slot = Slot(stream: string, version: nat)

  datatype Link = Link(id: EventId, originalStream: string, originalVersion: nat)

  datatype Error =
    | InvalidParameter
    | ReservedStream
    | WrongExpectedVersion
    | StreamAlreadyExists
    | StreamNotFound
    | DuplicateEvent

  datatype Result<+T> = Ok(value: T) | Err(error: Error)

  const ALL := "$all"

  type Log = seq<Recorded>

  // ---------------------------------------------------------------- the abstract log

  /** The events of stream `s` among the first `n` of the log, in log order. */
  function StreamAt(log: Log, n: nat, s: string): Log
    requires n <= |log|
  {
    if n == 0 then []
    else if log[n - 1].stream == s then StreamAt(log, n - 1, s) + [log[n - 1]]
    else StreamAt(log, n - 1, s)
  }

  function StreamOf(log: Log, s: string): Log { StreamAt(log, |log|, s) }

  /** The rows of one batch, numbered one after the other from `base`. */
  function Batch(stream: string, base: nat, events: seq<NewEvent>): Log {
    seq(|events|, i requires 0 <= i < |events| => Recorded(events[i].id, stream, base + i + 1, events[i].data))
  }

  /** The log after the events of one append. */
  function Extended(log: Log, stream: string, events: seq<NewEvent>): Log {
    log + Batch(stream, |StreamOf(log, stream)|, events)
  }

  /** No id is known already, and none comes twice in the batch. */
  predicate Fresh(known: set<EventId>, events: seq<NewEvent>) {
    && (forall i | 0 <= i < |events| :: events[i].id !in known)
    && (forall i, j | 0 <= i < j < |events| :: events[i].id != events[j].id)
  }

  /** The version check of `append_to_stream` against a stream with `head` events. */
  function VersionError(expected: AggregateProtocol.Expected, head: nat): Option<Error> {
    if AggregateProtocol.Accepts(expected, head) then None
    else match expected
      case NoStream => Some(StreamAlreadyExists)
      case StreamExists => Some(StreamNotFound)
      case _ => Some(WrongExpectedVersion)
  }

  /** `append_to_stream`: all events or none. */
  function AppendSpec(log: Log, stream: string, expected: AggregateProtocol.Expected, events: seq<NewEvent>): Result<Log> {
    if stream == ALL then Err(ReservedStream)
    else if events == [] then Err(InvalidParameter)
    else match VersionError(expected, |StreamOf(log, stream)|)
      case Some(e) => Err(e)
      case None => if Fresh(EventsAt(log, |log|).Keys, events) then Ok(Extended(log, stream, events)) else Err(DuplicateEvent)
  }

  /** How many of `head` rows a read from version `lo` may return. */
  function Count(head: nat, lo: nat, qty: nat): nat {
    if head < lo then 0 else if lo + qty <= head + 1 then qty else head + 1 - lo
  }

  /** At most `qty` rows from version `from` on; versions begin at 1. */
  function Slice(rows: Log, from: nat, qty: nat): Log {
    var lo := if from == 0 then 1 else from;
    if Count(|rows|, lo, qty) == 0 then [] else rows[lo - 1..lo - 1 + Count(|rows|, lo, qty)]
  }

  /** Versions are gapless per stream, `$all` is nobody's origin, and no id repeats. */
  ghost predicate NumberedAt(log: Log, i: nat)
    requires i < |log|
  {
    var e := log[i];
    e.stream != ALL && e.version == |StreamAt(log, i, e.stream)| + 1 && e.id !in EventsAt(log, i)
  }

  ghost predicate WellNumbered(log: Log) {
    forall i: nat | i < |log| :: NumberedAt(log, i)
  }

  // ---------------------------------------------------------------- the tables as functions of the log

  function VersionsAt(log: Log, n: nat): map<string, nat>
    requires n <= |log|
  {
    if n == 0 then map[ALL := 0] else VersionsAt(log, n - 1)[log[n - 1].stream := log[n - 1].version][ALL := n]
  }

  function EventsAt(log: Log, n: nat): map<EventId, string>
    requires n <= |log|
  {
    if n == 0 then map[] else EventsAt(log, n - 1)[log[n - 1].id := log[n - 1].data]
  }

  function LinksAt(log: Log, n: nat): map<Slot, Link>
    requires n <= |log|
  {
    if n == 0 then map[]
    else
      var e := log[n - 1];
      var link := Link(e.id, e.stream, e.version);
      LinksAt(log, n - 1)[Slot(e.stream, e.version) := link][Slot(ALL, n) := link]
  }

  /** The three tables hold exactly what `log` says. */
  ghost predicate Tables(log: Log, versions: map<string, nat>, events: map<EventId, string>, links: map<Slot, Link>) {
    && WellNumbered(log)
    && versions == VersionsAt(log, |log|) && events == EventsAt(log, |log|) && links == LinksAt(log, |log|)
  }

  lemma {:induction false} VersionsCount(log: Log, n: nat, s: string)
    requires WellNumbered(log) && n <= |log|
    ensures var versions := VersionsAt(log, n);
      && ALL in versions && versions[ALL] == n
      && (s != ALL ==> (s in versions <==> StreamAt(log, n, s) != []))
      && (s != ALL && s in versions ==> versions[s] == |StreamAt(log, n, s)|)
  {
    if n > 0 {
      VersionsCount(log, n - 1, s);
      assert NumberedAt(log, n - 1);
    }
  }

  /** Slot `(s, v)` holds the `v`-th event of stream `s`, and slot `($all, n)` the `n`-th event of the log. */
  lemma {:induction false} LinksAreStreams(log: Log, n: nat, s: string, v: nat)
    requires WellNumbered(log) && n <= |log|
    ensures var rows := if s == ALL then log[..n] else StreamAt(log, n, s);
      && (Slot(s, v) in LinksAt(log, n) <==> 1 <= v <= |rows|)
      && (Slot(s, v) in LinksAt(log, n) ==> var e := rows[v - 1]; LinksAt(log, n)[Slot(s, v)] == Link(e.id, e.stream, e.version))
  {
    if n > 0 {
      LinksAreStreams(log, n - 1, s, v);
      assert NumberedAt(log, n - 1);
    }
  }

  lemma {:induction false} StreamVersions(log: Log, n: nat, s: string, v: nat) returns (i: nat)
    requires WellNumbered(log) && n <= |log| && 1 <= v <= |StreamAt(log, n, s)|
    ensures i < n && log[i] == StreamAt(log, n, s)[v - 1] && log[i].stream == s && log[i].version == v
  {
    if v <= |StreamAt(log, n - 1, s)| {
      i := StreamVersions(log, n - 1, s, v);
    } else {
      assert NumberedAt(log, n - 1);
      i := n - 1;
    }
  }

  /** What the functions say of the first `n` events does not depend on the rest. */
  lemma {:induction false} Prefix(log: Log, e: Recorded, n: nat, s: string)
    requires n <= |log|
    ensures StreamAt(log + [e], n, s) == StreamAt(log, n, s) && VersionsAt(log + [e], n) == VersionsAt(log, n)
    ensures EventsAt(log + [e], n) == EventsAt(log, n) && LinksAt(log + [e], n) == LinksAt(log, n)
  {
    if n > 0 {
      Prefix(log, e, n - 1, s);
    }
  }

  lemma Push(log: Log, e: Recorded, versions: map<string, nat>, events: map<EventId, string>, links: map<Slot, Link>)
    requires Tables(log, versions, events, links)
    requires e.stream != ALL && e.version == |StreamOf(log, e.stream)| + 1 && e.id !in events
    ensures var link := Link(e.id, e.stream, e.version);
      Tables(log + [e], versions[e.stream := e.version][ALL := |log| + 1], events[e.id := e.data],
             links[Slot(e.stream, e.version) := link][Slot(ALL, |log| + 1) := link])
  {
    var all := log + [e];
    Prefix(log, e, |log|, e.stream);
    forall i: nat | i < |all| ensures NumberedAt(all, i) {
      if i < |log| {
        assert NumberedAt(log, i);
        Prefix(log, e, i, log[i].stream);
      }
    }
  }

  /** Every other stream reads as before; this one gains exactly the batch, at its end. */
  lemma {:induction false} AppendAddsBatch(log: Log, stream: string, rows: Log, s: string)
    requires forall i | 0 <= i < |rows| :: rows[i].stream == stream
    ensures StreamOf(log + rows, s) == if s == stream then StreamOf(log, s) + rows else StreamOf(log, s)
  {
    if rows == [] {
      assert log + rows == log;
    } else {
      var last := |rows| - 1;
      AppendAddsBatch(log, stream, rows[..last], s);
      Prefix(log + rows[..last], rows[last], |log| + last, s);
      assert log + rows == log + rows[..last] + [rows[last]];
    }
  }

  lemma {:induction false} EventData(log: Log, n: nat, i: nat)
    requires WellNumbered(log) && i < n <= |log|
    ensures log[i].id in EventsAt(log, n) && EventsAt(log, n)[log[i].id] == log[i].data
  {
    assert NumberedAt(log, n - 1);
    if i < n - 1 {
      EventData(log, n - 1, i);
    }
  }

  // ---------------------------------------------------------------- the store

  /** One returned row of `append_to_stream`. */
  datatype AppendedRow = AppendedRow(id: EventId, streamVersion: nat, eventNumber: nat)

  function AppendedRows(batch: seq<NewEvent>, base: nat, first: nat): seq<AppendedRow> {
    seq(|batch|, i requires 0 <= i < |batch| => AppendedRow(batch[i].id, base + i + 1, first + i + 1))
  }

  /** The row names its event: where it stands in `$all`, and where in its stream. */
  predicate PointsAt(log: Log, row: AppendedRow, stream: string, e: NewEvent) {
    && row.id == e.id && 1 <= row.eventNumber <= |log| && 1 <= row.streamVersion <= |StreamOf(log, stream)|
    && log[row.eventNumber - 1] == StreamOf(log, stream)[row.streamVersion - 1] == Recorded(e.id, stream, row.streamVersion, e.data)
  }

  /** The rows an accepted append returns: one for each event of the batch, in batch order, up to the end of the log. */
  ghost predicate RowsOf(before: Log, log: Log, rows: seq<AppendedRow>, stream: string, batch: seq<NewEvent>) {
    && before <= log && |log| == |before| + |batch| && |rows| == |batch|
    && (forall i | 0 <= i < |batch| :: PointsAt(log, rows[i], stream, batch[i]))
    && (forall i | 0 < i < |batch| :: rows[i].eventNumber == rows[i - 1].eventNumber + 1)
    && (batch != [] ==> rows[|batch| - 1].eventNumber == |log|)
  }

  lemma RowsPoint(log: Log, stream: string, batch: seq<NewEvent>)
    ensures RowsOf(log, Extended(log, stream, batch), AppendedRows(batch, |StreamOf(log, stream)|, |log|), stream, batch)
  {
    AppendAddsBatch(log, stream, Batch(stream, |StreamOf(log, stream)|, batch), stream);
  }

  // ---------------------------------------------------------------- which appends land

  /** An append under `expected` lands unless its expectation, the batch or an id is wrong; the error says which. */
  lemma AppendLandsIff(log: Log, stream: string, expected: AggregateProtocol.Expected, batch: seq<NewEvent>)
    requires stream != ALL && batch != []
    ensures var rows := StreamOf(log, stream);
      var right := match expected
        case AnyVersion => true
        case NoStream => rows == []
        case StreamExists => rows != []
        case Exact(version) => |rows| == version;
      var known := forall i, j | 0 <= i < |batch| && 0 <= j < |log| :: batch[i].id != log[j].id;
      var apart := forall i, j | 0 <= i < j < |batch| :: batch[i].id != batch[j].id;
      && (AppendSpec(log, stream, expected, batch).Ok? <==> right && known && apart)
      && (AppendSpec(log, stream, expected, batch) == Err(DuplicateEvent) <==> right && !(known && apart))
  {
    IdsAt(log, |log|);
  }

  /** The ids of the events table are the ids of the log. */
  lemma {:induction false} IdsAt(log: Log, n: nat)
    requires n <= |log|
    ensures forall i | 0 <= i < n :: log[i].id in EventsAt(log, n)
    ensures forall id | id in EventsAt(log, n) :: exists i :: 0 <= i < n && log[i].id == id
  {
    if n > 0 {
      IdsAt(log, n - 1);
      forall id | id in EventsAt(log, n) ensures exists i :: 0 <= i < n && log[i].id == id {
        if id == log[n - 1].id {
          assert 0 <= n - 1 < n;
        } else {
          assert id in EventsAt(log, n - 1);
          var i :| 0 <= i < n - 1 && log[i].id == id;
          assert 0 <= i < n;
        }
      }
    }
  }

  /**
   After an append to a stream that was at `version`, a second writer who expected the same
   version, or no stream, is refused with the error of its expectation; one who expects the new version is not.
   */
  lemma SecondWriterLoses(log: Log, stream: string, batch: seq<NewEvent>, other: seq<NewEvent>)
    requires WellNumbered(log) && stream != ALL && batch != [] && other != []
    requires Fresh(EventsAt(log, |log|).Keys, batch + other)
    ensures var version, all := |StreamOf(log, stream)|, Extended(log, stream, batch);
      && AppendSpec(log, stream, AggregateProtocol.Exact(version), batch) == Ok(all)
      && AppendSpec(all, stream, AggregateProtocol.Exact(version), other) == Err(WrongExpectedVersion)
      && AppendSpec(all, stream, AggregateProtocol.NoStream, other) == Err(StreamAlreadyExists)
      && AppendSpec(all, stream, AggregateProtocol.Exact(version + |batch|), other).Ok?
      && AppendSpec(all, stream, AggregateProtocol.StreamExists, other).Ok?
      && (version == 0 ==> AppendSpec(log, stream, AggregateProtocol.StreamExists, other) == Err(StreamNotFound))
  {
    FreshParts(EventsAt(log, |log|).Keys, batch, other);
    StillFresh(log, stream, batch, other);
  }

  lemma StillFresh(log: Log, stream: string, batch: seq<NewEvent>, other: seq<NewEvent>)
    requires Fresh(EventsAt(log, |log|).Keys, other)
    requires forall i, j | 0 <= i < |batch| && 0 <= j < |other| :: batch[i].id != other[j].id
    ensures var all := Extended(log, stream, batch);
      Fresh(EventsAt(all, |all|).Keys, other) && |StreamOf(all, stream)| == |StreamOf(log, stream)| + |batch|
  {
    var rows := Batch(stream, |StreamOf(log, stream)|, batch);
    var all := log + rows;
    AppendAddsBatch(log, stream, rows, stream);
    IdsAt(log, |log|);
    IdsAt(all, |all|);
    forall i, j | 0 <= i < |all| && 0 <= j < |other| ensures all[i].id != other[j].id {
      if i >= |log| {
        assert all[i].id == batch[i - |log|].id;
      }
    }
  }

  lemma FreshParts(known: set<EventId>, a: seq<NewEvent>, b: seq<NewEvent>)
    requires Fresh(known, a + b)
    ensures Fresh(known, a) && Fresh(known, b) && forall i, j | 0 <= i < |a| && 0 <= j < |b| :: a[i].id != b[j].id
  {
    var all := a + b;
    forall i | 0 <= i < |a| ensures a[i] == all[i] {
    }
    forall j | 0 <= j < |b| ensures b[j] == all[|a| + j] {
    }
  }

  // ---------------------------------------------------------------- reads in pages

  /** A page holds the row of version `v` if and only if `v` is one of the `qty` versions from its first one on. */
  lemma SliceHas(rows: Log, from: nat, qty: nat, k: nat)
    ensures var first := if from == 0 then 1 else from;
      var page := Slice(rows, from, qty);
      && (k < |page| <==> k < qty && first + k <= |rows|)
      && (k < |page| ==> page[k] == rows[first + k - 1])
  {
  }

  lemma OneRow(rows: Log, version: nat)
    requires 1 <= version <= |rows|
    ensures Slice(rows, version, 1) == [rows[version - 1]]
  {
  }

  lemma OnePage(rows: Log, from: nat, qty: nat)
    requires from >= 1 && qty > 0
    ensures Slice(rows, from, qty) + Rest(rows, from + qty) == Rest(rows, from)
  {
  }

  /** The rows from version `from` on. */
  function Rest(rows: Log, from: nat): Log
    requires from >= 1
  {
    if from <= |rows| then rows[from - 1..] else []
  }

  /** Pages of any sizes read one after the other from the beginning are the whole stream. */
  lemma {:induction false} PagesAreStream(rows: Log, from: nat, sizes: seq<nat>)
    requires 1 <= from && (forall i | 0 <= i < |sizes| :: sizes[i] > 0) && |sizes| + from > |rows|
    ensures Pages(rows, from, sizes) == Rest(rows, from)
    decreases |sizes|
  {
    if sizes != [] {
      OnePage(rows, from, sizes[0]);
      assert Pages(rows, from, sizes) == Slice(rows, from, sizes[0]) + Pages(rows, from + sizes[0], sizes[1..]);
      PagesAreStream(rows, from + sizes[0], sizes[1..]);
    }
  }

  function Pages(rows: Log, from: nat, sizes: seq<nat>): Log
    decreases |sizes|
  {
    if sizes == [] then [] else Slice(rows, from, sizes[0]) + Pages(rows, from + sizes[0], sizes[1..])
  }

  function BatchIds(batch: seq<NewEvent>, n: nat): set<EventId>
    requires n <= |batch|
  {
    set j | 0 <= j < n :: batch[j].id
  }

  /** The unique constraint on event ids, over the rows there are and the rows of the batch so far. */
  method CheckIds(known: map<EventId, string>, batch: seq<NewEvent>) returns (ok: bool)
    ensures ok == Fresh(known.Keys, batch)
  {
    var seen: set<EventId> := {};
    for i := 0 to |batch|
      invariant seen == BatchIds(batch, i)
      invariant forall j | 0 <= j < i :: batch[j].id !in known
      invariant forall j, k | 0 <= j < k < i :: batch[j].id != batch[k].id
    {
      if batch[i].id in known || batch[i].id in seen {
        return false;
      }
      seen := seen + {batch[i].id};
    }
    return true;
  }

  /** The log with the first `n` events of a batch, built one by one. */
  ghost function Partial(log: Log, stream: string, events: seq<NewEvent>, n: nat): Log
    requires n <= |events|
  {
    if n == 0 then log
    else
      var before, e := Partial(log, stream, events, n - 1), events[n - 1];
      before + [Recorded(e.id, stream, |StreamOf(log, stream)| + n, e.data)]
  }

  lemma {:induction false} PartialIsPrefix(log: Log, stream: string, events: seq<NewEvent>, n: nat)
    requires n <= |events|
    ensures var all := Partial(log, stream, events, n);
      && all == log + Batch(stream, |StreamOf(log, stream)|, events)[..n]
      && |all| == |log| + n && |StreamOf(all, stream)| == |StreamOf(log, stream)| + n
  {
    if n > 0 {
      PartialIsPrefix(log, stream, events, n - 1);
    }
    AppendAddsBatch(log, stream, Batch(stream, |StreamOf(log, stream)|, events)[..n], stream);
  }

  /** One event row and its two link rows. */
  method InsertOne(versions: map<string, nat>, events: map<EventId, string>, links: map<Slot, Link>, ghost log: Log,
                   e: NewEvent, stream: string, version: nat, number: nat)
    returns (versions': map<string, nat>, events': map<EventId, string>, links': map<Slot, Link>)
    requires Tables(log, versions, events, links) && stream != ALL && e.id !in events
    requires version == |StreamOf(log, stream)| + 1 && number == |log| + 1
    ensures Tables(log + [Recorded(e.id, stream, version, e.data)], versions', events', links')
    ensures events'.Keys == events.Keys + {e.id}
  {
    Push(log, Recorded(e.id, stream, version, e.data), versions, events, links);
    var link := Link(e.id, stream, version);
    versions' := versions[stream := version][ALL := number];
    events' := events[e.id := e.data];
    links' := links[Slot(stream, version) := link][Slot(ALL, number) := link];
  }

  /** Inserts event and link rows one by one. */
  method InsertRows(versions: map<string, nat>, events: map<EventId, string>, links: map<Slot, Link>, ghost log: Log,
                    stream: string, base: nat, first: nat, batch: seq<NewEvent>)
    returns (versions': map<string, nat>, events': map<EventId, string>, links': map<Slot, Link>)
    requires Tables(log, versions, events, links) && stream != ALL && Fresh(events.Keys, batch)
    requires base == |StreamOf(log, stream)| && first == |log|
    ensures Tables(Extended(log, stream, batch), versions', events', links')
  {
    versions', events', links' := versions, events, links;
    for i := 0 to |batch|
      invariant Tables(Partial(log, stream, batch, i), versions', events', links')
      invariant forall j | i <= j < |batch| :: batch[j].id !in events'
    {
      PartialIsPrefix(log, stream, batch, i);
      versions', events', links' :=
        InsertOne(versions', events', links', Partial(log, stream, batch, i), batch[i], stream, base + i + 1, first + i + 1);
    }
    PartialIsPrefix(log, stream, batch, |batch|);
    assert Batch(stream, base, batch)[..|batch|] == Batch(stream, base, batch);
  }

  class Store {
    var versions: map<string, nat>
    var events: map<EventId, string>
    var links: map<Slot, Link>
    ghost var log: Log

    ghost predicate Valid()
      reads this
    {
      Tables(log, versions, events, links)
    }

    constructor ()
      ensures Valid() && log == []
    {
      versions, events, links := map[ALL := 0], map[], map[];
      log := [];
    }

    /** The rows of an append that may land go into the tables. */
    method Insert(stream: string, base: nat, first: nat, batch: seq<NewEvent>)
      requires Valid() && stream != ALL && Fresh(events.Keys, batch)
      requires base == |StreamOf(log, stream)| && first == |log|
      modifies this
      ensures Valid() && log == Extended(old(log), stream, batch)
    {
      var versions', events', links' := InsertRows(versions, events, links, log, stream, base, first, batch);
      versions, events, links := versions', events', links';
      log := Extended(log, stream, batch);
    }

    /** Where the stream and the log end before an append. */
    method Ends(stream: string) returns (base: nat, first: nat)
      requires Valid() && stream != ALL
      ensures base == |StreamOf(log, stream)| && first == |log|
    {
      VersionsCount(log, |log|, stream);
      base := if stream in versions then versions[stream] else 0;
      first := versions[ALL];
    }

    /** `append_to_stream`: one transaction, so an error leaves every table as it was. */
    method AppendToStream(stream: string, expected: AggregateProtocol.Expected, batch: seq<NewEvent>)
      returns (r: Result<seq<AppendedRow>>)
      requires Valid()
      modifies this
      ensures Valid()
      ensures match AppendSpec(old(log), stream, expected, batch)
        case Err(e) => r == Err(e) && log == old(log)
        case Ok(all) =>
          && log == all && r == Ok(AppendedRows(batch, |StreamOf(old(log), stream)|, |old(log)|))
          && RowsOf(old(log), log, r.value, stream, batch)
      ensures r.Ok? ==> forall i | 0 <= i < |batch| :: ReadsBack(r.value[i], stream)
    {
      if stream == ALL {
        return Err(ReservedStream);
      }
      if batch == [] {
        return Err(InvalidParameter);
      }
      var base, first := Ends(stream);
      var error := VersionError(expected, base);
      if error.Some? {
        return Err(error.value);
      }
      var ok := CheckIds(events, batch);
      if !ok {
        return Err(DuplicateEvent);
      }
      RowsPoint(log, stream, batch);
      Insert(stream, base, first, batch);
      RowsRead(stream, AppendedRows(batch, base, first), batch);
      return Ok(AppendedRows(batch, base, first));
    }

    /** The row `read_stream` and `read_all` build for one slot. */
    function RowAt(slot: Slot): Recorded
      requires slot in links && links[slot].id in events
      reads this
    {
      var link := links[slot];
      Recorded(link.id, link.originalStream, link.originalVersion, events[link.id])
    }

    /** Rows of one stream, or of `$all`, in slot order from version `from` on. */
    function Rows(s: string, from: nat, qty: nat): (rows: Log)
      requires Valid() && s in versions
      reads this
      ensures rows == Slice(if s == ALL then log else StreamOf(log, s), from, qty)
    {
      VersionsCount(log, |log|, s);
      var lo := if from == 0 then 1 else from;
      Collect(s, lo, Count(versions[s], lo, qty))
    }

    function Collect(s: string, lo: nat, count: nat): (rows: Log)
      requires Valid() && lo >= 1 && (count > 0 ==> lo + count <= |if s == ALL then log else StreamOf(log, s)| + 1)
      reads this
      ensures count > 0 ==> rows == (if s == ALL then log else StreamOf(log, s))[lo - 1..lo - 1 + count]
      ensures count == 0 ==> rows == []
    {
      if count == 0 then []
      else
        SlotHoldsRow(s, lo + count - 1);
        Collect(s, lo, count - 1) + [RowAt(Slot(s, lo + count - 1))]
    }

    predicate SlotHolds(s: string, v: nat)
      reads this
    {
      Slot(s, v) in links && links[Slot(s, v)].id in events
    }

    lemma SlotHoldsRow(s: string, v: nat)
      requires Valid() && 1 <= v <= |if s == ALL then log else StreamOf(log, s)|
      ensures SlotHolds(s, v) && RowAt(Slot(s, v)) == (if s == ALL then log else StreamOf(log, s))[v - 1]
    {
      assert log[..|log|] == log;
      LinksAreStreams(log, |log|, s, v);
      var i := v - 1;
      if s != ALL {
        i := StreamVersions(log, |log|, s, v);
      }
      EventData(log, |log|, i);
    }

    /** `read_stream`. */
    function ReadStream(s: string, from: int, qty: int): (r: Result<Log>)
      requires Valid()
      reads this
      ensures s == ALL ==> r == Err(ReservedStream)
      ensures s != ALL && (from < 0 || qty <= 0) ==> r == Err(InvalidParameter)
      ensures s != ALL && from >= 0 && qty > 0 ==>
        r == if StreamOf(log, s) == [] then Err(StreamNotFound) else Ok(Slice(StreamOf(log, s), from, qty))
    {
      VersionsCount(log, |log|, s);
      if s == ALL then Err(ReservedStream)
      else if from < 0 || qty <= 0 then Err(InvalidParameter)
      else if s !in versions then Err(StreamNotFound)
      else Ok(Rows(s, from, qty))
    }

    /** `read_all`: never fails on an empty store. */
    function ReadAll(from: int, qty: int): (r: Result<Log>)
      requires Valid()
      reads this
      ensures r == if from < 0 || qty <= 0 then Err(InvalidParameter) else Ok(Slice(log, from, qty))
    {
      VersionsCount(log, |log|, ALL);
      if from < 0 || qty <= 0 then Err(InvalidParameter) else Ok(Rows(ALL, from, qty))
    }

    /** Reading one row at the place a returned row gives, of the stream or of `$all`, returns the event. */
    ghost predicate ReadsBack(row: AppendedRow, stream: string)
      requires Valid()
      reads this
    {
      && 1 <= row.eventNumber <= |log|
      && ReadStream(stream, row.streamVersion, 1) == Ok([log[row.eventNumber - 1]])
      && ReadAll(row.eventNumber, 1) == Ok([log[row.eventNumber - 1]])
    }

    lemma RowsRead(stream: string, rows: seq<AppendedRow>, batch: seq<NewEvent>)
      requires Valid() && stream != ALL && |rows| == |batch|
      requires forall i | 0 <= i < |batch| :: PointsAt(log, rows[i], stream, batch[i])
      ensures forall i | 0 <= i < |batch| :: ReadsBack(rows[i], stream)
    {
      forall i | 0 <= i < |batch| ensures ReadsBack(rows[i], stream) {
        OneRow(StreamOf(log, stream), rows[i].streamVersion);
        OneRow(log, rows[i].eventNumber);
      }
    }
  }

  /** What a read of one page from a loaded version returns is the page the load protocol folds. */
  lemma ReadIsPage(rows: Log, version: nat)
    ensures Slice(rows, version + 1, AggregateProtocol.LOAD_PAGE_SIZE) == AggregateProtocol.Page(rows, version)
  {
  }

  // ---------------------------------------------------------------- contiguity of $all

  /** The verdict of the health check from `count(*)`, `max` and `min` of the `$all` versions (0 when there are none). */
  predicate AllContiguous(count: nat, max: nat, min: nat) {
    count == max && (count == 0 || min == 1)
  }

  function UpTo(n: nat): set<nat> {
    if n == 0 then {} else UpTo(n - 1) + {n}
  }

  ghost predicate Extremes(versions: set<nat>, max: nat, min: nat) {
    if versions == {} then max == 0 && min == 0
    else max in versions && min in versions && forall v | v in versions :: min <= v <= max
  }

  lemma {:induction false} UpToHas(n: nat)
    ensures |UpTo(n)| == n && forall v: nat :: v in UpTo(n) <==> 1 <= v <= n
  {
    if n > 0 {
      UpToHas(n - 1);
    }
  }

  lemma {:induction false} SubsetOfSameSize(a: set<nat>, b: set<nat>)
    requires a <= b && |a| == |b|
    ensures a == b
  {
    assert |b - a| == |b| - |a|;
    assert b == a + (b - a);
  }

  /** The check passes if and only if the versions are exactly 1..N, whatever rows an operator has deleted or added. */
  lemma ContiguousExactly(versions: set<nat>, max: nat, min: nat)
    requires 0 !in versions && Extremes(versions, max, min)
    ensures AllContiguous(|versions|, max, min) <==> versions == UpTo(max)
  {
    UpToHas(max);
    assert versions <= UpTo(max);
    if |versions| == max {
      SubsetOfSameSize(versions, UpTo(max));
    }
    if versions == UpTo(max) && versions != {} {
      assert 1 in versions;
    }
  }

  function AllVersions(links: map<Slot, Link>): set<nat> {
    set slot | slot in links && slot.stream == ALL :: slot.version
  }

  /** The `$all` versions of every store that appends produced are 1..N. */
  lemma AppendsAreContiguous(log: Log, versions: set<nat>)
    requires WellNumbered(log) && versions == AllVersions(LinksAt(log, |log|))
    ensures versions == UpTo(|log|)
  {
    UpToHas(|log|);
    forall v | v in versions ensures v in UpTo(|log|) {
      LinksAreStreams(log, |log|, ALL, v);
    }
    forall v | v in UpTo(|log|) ensures v in versions {
      LinksAreStreams(log, |log|, ALL, v);
      assert Slot(ALL, v) in LinksAt(log, |log|);
    }
  }

  /** So the check passes on them. */
  lemma EveryStoreIsContiguous(log: Log, versions: set<nat>, max: nat, min: nat)
    requires WellNumbered(log) && versions == AllVersions(LinksAt(log, |log|)) && Extremes(versions, max, min)
    ensures max == |log| && AllContiguous(|versions|, max, min)
  {
    AppendsAreContiguous(log, versions);
    UpToHas(|log|);
    if log != [] {
      assert |log| in versions;
    }
    ContiguousExactly(versions, max, min);
  }
}
