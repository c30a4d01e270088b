/**
 Routing a single live stream.  Each read asks for stream versions above the cursor and moves the
 cursor to the global event number of the last event it got; on `$all` the two numbers are the
 same, on another stream they need not be.  The stream grows while it is polled, so a read ends
 at a full batch or wherever the stream ends at that moment.
 */
module StreamCursor {
  import EventStore

  /**
   A subscription on a stream: `source[v - 1]` is the global number of the event with stream
   version `v`, and `start` is the cursor the subscription begins with.
   */
  datatype Feed = Feed(source: seq<nat>, batch: nat, start: nat)

  /** A stream is part of `$all`, so no event's global number is below its stream version. */
  ghost predicate Sound(f: Feed) {
    f.batch > 0 && forall v: nat :: NotBelow(f, v)
  }

  /** The event with stream version `v` has global number `v`. */
  predicate AgreesAt(f: Feed, v: nat)
    requires 0 < v <= |f.source|
  {
    f.source[v - 1] == v
  }

  ghost predicate NotBelow(f: Feed, v: nat) {
    0 < v <= |f.source| ==> f.source[v - 1] >= v
  }

  /** `heads[i]` is how many of the events the `i`-th read can see. */
  ghost predicate Schedule(f: Feed, heads: seq<nat>) {
    && (forall i | 0 <= i < |heads| :: heads[i] <= |f.source|)
    && (forall i, j | 0 <= i < j < |heads| :: heads[i] <= heads[j])
  }

  /** The last version a read gets; the cursor itself when it gets nothing. */
  function ReadEnd(f: Feed, cursor: nat, head: nat): nat {
    if cursor >= head then cursor else if cursor + f.batch < head then cursor + f.batch else head
  }

  /** So a read returns as many rows as the store's read of one batch from the version after the cursor. */
  lemma ReadIsSlice(f: Feed, rows: EventStore.Log, cursor: nat)
    ensures cursor + |EventStore.Slice(rows, cursor + 1, f.batch)| == ReadEnd(f, cursor, |rows|)
  {
  }

  /** The cursor after the first `n` reads. */
  function CursorAfter(f: Feed, heads: seq<nat>, n: nat): nat
    requires n <= |heads|
  {
    if n == 0 then f.start
    else
      var cursor := CursorAfter(f, heads, n - 1);
      var end := ReadEnd(f, cursor, heads[n - 1]);
      if cursor < end <= |f.source| then f.source[end - 1] else cursor
  }

  /** Read number `i` returns version `v`. */
  predicate Reads(f: Feed, heads: seq<nat>, i: nat, v: nat)
    requires i < |heads|
  {
    CursorAfter(f, heads, i) < v <= ReadEnd(f, CursorAfter(f, heads, i), heads[i])
  }

  ghost predicate WasRead(f: Feed, heads: seq<nat>, n: nat, v: nat)
    requires n <= |heads|
  {
    exists i: nat :: i < n && Reads(f, heads, i, v)
  }

  /** Every event the cursor has passed was read, and so routed. */
  ghost predicate NothingSkipped(f: Feed, heads: seq<nat>, n: nat)
    requires n <= |heads|
  {
    forall v: nat | f.start < v <= |f.source| && v <= CursorAfter(f, heads, n) :: WasRead(f, heads, n, v)
  }

  /** If read `i` returns events and does not end the stream, its last event's two numbers agree. */
  ghost predicate EndAgrees(f: Feed, heads: seq<nat>, i: nat)
    requires i < |heads|
  {
    var cursor := CursorAfter(f, heads, i);
    var end := ReadEnd(f, cursor, heads[i]);
    cursor < end < |f.source| ==> AgreesAt(f, end)
  }

  lemma CursorMoves(f: Feed, heads: seq<nat>, n: nat)
    requires Sound(f) && Schedule(f, heads) && n < |heads|
    ensures CursorAfter(f, heads, n) <= ReadEnd(f, CursorAfter(f, heads, n), heads[n]) <= CursorAfter(f, heads, n + 1)
  {
    assert NotBelow(f, ReadEnd(f, CursorAfter(f, heads, n), heads[n]));
  }

  /** The cursor never moves back, and no read returns a version at or below it. */
  lemma {:induction false} CursorCovers(f: Feed, heads: seq<nat>, i: nat, n: nat)
    requires Sound(f) && Schedule(f, heads) && i < n <= |heads|
    ensures ReadEnd(f, CursorAfter(f, heads, i), heads[i]) <= CursorAfter(f, heads, n)
    decreases n
  {
    CursorMoves(f, heads, n - 1);
    if i < n - 1 {
      CursorCovers(f, heads, i, n - 1);
    }
  }

  /** No version is read twice. */
  lemma ReadsAreDisjoint(f: Feed, heads: seq<nat>, i: nat, j: nat, v: nat)
    requires Sound(f) && Schedule(f, heads) && i < j < |heads| && Reads(f, heads, i, v)
    ensures !Reads(f, heads, j, v)
  {
    CursorCovers(f, heads, i, j);
  }

  /** An event the cursor has passed unread is never read, whatever is appended and polled later. */
  lemma {:induction false} AheadCursorReadsNothing(f: Feed, heads: seq<nat>, n: nat, m: nat, v: nat)
    requires Sound(f) && Schedule(f, heads) && n <= m <= |heads|
    requires v <= CursorAfter(f, heads, n) && !WasRead(f, heads, n, v)
    ensures v <= CursorAfter(f, heads, m) && !WasRead(f, heads, m, v)
    decreases m
  {
    if n < m {
      AheadCursorReadsNothing(f, heads, n, m - 1, v);
      CursorMoves(f, heads, m - 1);
    }
  }

  /** One more read keeps the promise if and only if its end agrees. */
  lemma OneMoreRead(f: Feed, heads: seq<nat>, n: nat)
    requires Sound(f) && Schedule(f, heads) && n < |heads|
    ensures NothingSkipped(f, heads, n + 1) <==> NothingSkipped(f, heads, n) && EndAgrees(f, heads, n)
  {
    CursorMoves(f, heads, n);
    if NothingSkipped(f, heads, n + 1) {
      forall v: nat | f.start < v <= |f.source| && v <= CursorAfter(f, heads, n) ensures WasRead(f, heads, n, v) {
        assert WasRead(f, heads, n + 1, v);
      }
      MustAgree(f, heads, n);
    }
    if NothingSkipped(f, heads, n) && EndAgrees(f, heads, n) {
      var m := n + 1;
      forall v: nat | f.start < v <= |f.source| && v <= CursorAfter(f, heads, m) ensures WasRead(f, heads, m, v) {
        if v <= CursorAfter(f, heads, n) {
          assert WasRead(f, heads, n, v);
        } else {
          assert Reads(f, heads, n, v);
        }
      }
    }
  }

  /** A read whose end does not agree passes the next version. */
  lemma MustAgree(f: Feed, heads: seq<nat>, n: nat)
    requires Sound(f) && Schedule(f, heads) && n < |heads| && NothingSkipped(f, heads, n + 1)
    ensures EndAgrees(f, heads, n)
  {
    var cursor := CursorAfter(f, heads, n);
    var end := ReadEnd(f, cursor, heads[n]);
    CursorMoves(f, heads, n);
    assert NotBelow(f, end);
    if cursor < end < |f.source| && !AgreesAt(f, end) {
      StartBelow(f, heads, n);
      assert WasRead(f, heads, n + 1, end + 1);
      var i: nat :| i < n + 1 && Reads(f, heads, i, end + 1);
      if i < n {
        CursorCovers(f, heads, i, n);
      }
      assert false;
    }
  }

  lemma {:induction false} StartBelow(f: Feed, heads: seq<nat>, n: nat)
    requires Sound(f) && Schedule(f, heads) && n <= |heads|
    ensures f.start <= CursorAfter(f, heads, n)
  {
    if n > 0 {
      StartBelow(f, heads, n - 1);
      CursorMoves(f, heads, n - 1);
    }
  }

  /**
   Under any schedule of reads of a growing stream, everything the cursor has passed was routed
   if and only if every non-empty read that does not end the stream ends at an event whose global
   number is its stream version.
   */
  lemma {:induction false} RoutedCompletelyIff(f: Feed, heads: seq<nat>, n: nat)
    requires Sound(f) && Schedule(f, heads) && n <= |heads|
    ensures NothingSkipped(f, heads, n) <==> forall i | 0 <= i < n :: EndAgrees(f, heads, i)
  {
    if n > 0 {
      RoutedCompletelyIff(f, heads, n - 1);
      OneMoreRead(f, heads, n - 1);
    }
  }

  /** Every version above the start and below the last has the same global number. */
  ghost predicate NumbersAgree(f: Feed) {
    forall v: nat | f.start < v < |f.source| :: AgreesAt(f, v)
  }

  ghost predicate NeverSkips(f: Feed) {
    forall heads: seq<nat> | Schedule(f, heads) :: NothingSkipped(f, heads, |heads|)
  }

  /** No schedule skips anything if and only if the two numberings agree on all but the last event. */
  lemma NeverSkipsIff(f: Feed)
    requires Sound(f)
    ensures NeverSkips(f) <==> NumbersAgree(f)
  {
    if NumbersAgree(f) {
      forall heads: seq<nat> | Schedule(f, heads) ensures NothingSkipped(f, heads, |heads|) {
        forall i | 0 <= i < |heads| ensures EndAgrees(f, heads, i) {
          StartBelow(f, heads, i);
          CursorMoves(f, heads, i);
        }
        RoutedCompletelyIff(f, heads, |heads|);
      }
    } else {
      var v: nat :| f.start < v < |f.source| && !AgreesAt(f, v);
      v := FirstDisagreement(f, v);
      PolledAfterEachAppend(f, v);
    }
  }

  lemma {:induction false} FirstDisagreement(f: Feed, v: nat) returns (u: nat)
    requires f.start < v < |f.source| && !AgreesAt(f, v)
    ensures f.start < u < |f.source| && !AgreesAt(f, u)
    ensures forall i: nat | f.start < i < u :: AgreesAt(f, i)
  {
    if i: nat :| f.start < i < v && !AgreesAt(f, i) {
      u := FirstDisagreement(f, i);
    } else {
      u := v;
    }
  }

  /** The schedule of a router that polls after every append. */
  function EachAppend(f: Feed, v: nat): seq<nat>
    requires f.start <= v
  {
    seq(v - f.start, i requires 0 <= i < v - f.start => f.start + i + 1)
  }

  lemma PolledAfterEachAppend(f: Feed, v: nat)
    requires Sound(f) && f.start < v < |f.source| && !AgreesAt(f, v)
    requires forall i: nat | f.start < i < v :: AgreesAt(f, i)
    ensures Schedule(f, EachAppend(f, v)) && !NothingSkipped(f, EachAppend(f, v), |EachAppend(f, v)|)
  {
    var heads := EachAppend(f, v);
    OneByOne(f, v, v - f.start - 1);
    assert !EndAgrees(f, heads, v - f.start - 1);
    RoutedCompletelyIff(f, heads, |heads|);
  }

  lemma {:induction false} OneByOne(f: Feed, v: nat, n: nat)
    requires Sound(f) && f.start < v < |f.source| && n < v - f.start
    requires forall i: nat | f.start < i < v :: AgreesAt(f, i)
    ensures CursorAfter(f, EachAppend(f, v), n) == f.start + n
  {
    if n > 0 {
      OneByOne(f, v, n - 1);
      assert AgreesAt(f, f.start + n);
    }
  }

  /** On `$all` nothing is ever skipped, and the cursor stays inside the log. */
  lemma {:induction false} AllIsRouted(f: Feed, heads: seq<nat>, n: nat)
    requires Sound(f) && Schedule(f, heads) && n <= |heads| && f.start <= |f.source|
    requires forall v: nat | 0 < v <= |f.source| :: AgreesAt(f, v)
    ensures NothingSkipped(f, heads, n) && CursorAfter(f, heads, n) <= |f.source|
  {
    if n > 0 {
      AllIsRouted(f, heads, n - 1);
      OneMoreRead(f, heads, n - 1);
      var cursor := CursorAfter(f, heads, n - 1);
      var end := ReadEnd(f, cursor, heads[n - 1]);
      assert cursor < end ==> AgreesAt(f, end);
    }
  }

  /** A standing stream of three events read in batches of two: the third is never routed. */
  lemma InterleavedStreamSkips(heads: seq<nat>, m: nat)
    requires Schedule(Feed([1, 4, 6], 2, 0), heads) && 2 <= m <= |heads| && heads[..2] == [3, 3]
    ensures !WasRead(Feed([1, 4, 6], 2, 0), heads, m, 3)
  {
    var f := Feed([1, 4, 6], 2, 0);
    assert heads[0] == heads[..2][0] && heads[1] == heads[..2][1];
    forall v: nat ensures NotBelow(f, v) {
      if v == 1 {} else if v == 2 {} else if v == 3 {}
    }
    assert CursorAfter(f, heads, 0) == 0 && CursorAfter(f, heads, 1) == 4;
    AheadCursorReadsNothing(f, heads, 1, m, 3);
  }

  /**
   A live stream polled after each of its three appends, with batches larger than the stream: the
   third event is never routed, though every read empties the stream.
   */
  lemma LiveStreamSkips(heads: seq<nat>, m: nat)
    requires Schedule(Feed([1, 3, 5], 100, 0), heads) && 3 <= m <= |heads| && heads[..3] == [1, 2, 3]
    ensures forall i | 0 <= i < 3 :: ReadEnd(Feed([1, 3, 5], 100, 0), CursorAfter(Feed([1, 3, 5], 100, 0), heads, i), heads[i]) == heads[i]
    ensures !WasRead(Feed([1, 3, 5], 100, 0), heads, m, 3)
  {
    var f := Feed([1, 3, 5], 100, 0);
    assert heads[0] == heads[..3][0] && heads[1] == heads[..3][1] && heads[2] == heads[..3][2];
    forall v: nat ensures NotBelow(f, v) {
      if v == 1 {} else if v == 2 {} else if v == 3 {}
    }
    assert CursorAfter(f, heads, 0) == 0 && CursorAfter(f, heads, 1) == 1 && CursorAfter(f, heads, 2) == 3;
    AheadCursorReadsNothing(f, heads, 2, m, 3);
  }
}
