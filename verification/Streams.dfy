/**
Reading a stream while it is being written. Rows are appended at consecutive
offsets; the reader polls from its offset, and gives up once the producer looks
inactive, after one more read.
*/
module Streams {
  datatype Entry = Val(value: string) | Sentinel

  datatype Status = Pending | Enqueued | Delayed | Terminal | Missing

  // What the reader's queries find, instant by instant: the committed rows and
  // the producer's status. Any interleaving with writers is some such world.
  datatype World = World(stream: nat -> seq<Entry>, status: nat -> Status)

  // Rows are only ever appended.
  ghost predicate Appends(w: World) {
    forall i: nat, j: nat | i <= j :: w.stream(i) <= w.stream(j)
  }

  predicate LooksInactive(status: Status) {
    status != Pending && status != Enqueued
  }

  // How the channel was closed.
  datatype End =
    | Closed            // the stream's own end was read
    | Inactive          // the producer looked inactive
    | Drained           // snapshot: everything there was read
    | Cancelled
    | Failed

  // cancelAt: the pass in which the reader's context is cancelled; through: how
  // many values of that pass still get through.
  datatype Options = Options(snapshot: bool, cancelAt: nat, through: nat)

  // The rows from offset on, up to the sentinel if there is one.
  function Values(rows: seq<Entry>, offset: nat): seq<string>
    decreases |rows| - offset
  {
    if offset >= |rows| || rows[offset].Sentinel? then [] else [rows[offset].value] + Values(rows, offset + 1)
  }

  lemma {:induction false} ValuesAre(rows: seq<Entry>, offset: nat)
    ensures var vs := Values(rows, offset);
            && (vs == [] || offset + |vs| <= |rows|)
            && (forall k | 0 <= k < |vs| :: offset + k < |rows| && rows[offset + k] == Val(vs[k]))
            && (offset + |vs| < |rows| ==> rows[offset + |vs|].Sentinel?)
    decreases |rows| - offset
  {
    if offset < |rows| && !rows[offset].Sentinel? {
      ValuesAre(rows, offset + 1);
      var vs := Values(rows, offset);
      forall k | 0 <= k < |vs| ensures offset + k < |rows| && rows[offset + k] == Val(vs[k]) {
        if k > 0 {
          assert vs[k] == Values(rows, offset + 1)[k - 1];
          assert rows[offset + 1 + (k - 1)] == Val(Values(rows, offset + 1)[k - 1]);
        }
      }
    }
  }

  // The reader from pass i on: pass i reads rows at instant 2i and, if it found
  // none, the status at instant 2i + 1. final: the last status read was inactive.
  function Read(w: World, o: Options, i: nat, offset: nat, final: bool): (seq<string>, End)
    decreases o.cancelAt - i
  {
    var rows := w.stream(2 * i);
    var vs := Values(rows, offset);
    var next := offset + |vs|;
    if i >= o.cancelAt then (if o.through < |vs| then vs[..o.through] else vs, Cancelled)
    else if next < |rows| then (vs, Closed)
    else if o.snapshot then (vs, Drained)
    else if final then (vs, Inactive)
    else if vs != [] then
      var rest := Read(w, o, i + 1, next, false);
      (vs + rest.0, rest.1)
    else if w.status(2 * i + 1) == Missing then ([], Failed)
    else Read(w, o, i + 1, next, LooksInactive(w.status(2 * i + 1)))
  }

  // out is what rows hold from offset on: in order, nothing skipped or repeated.
  ghost predicate Segment(rows: seq<Entry>, offset: nat, out: seq<string>) {
    forall k | 0 <= k < |out| :: offset + k < |rows| && rows[offset + k] == Val(out[k])
  }

  lemma SegmentGrows(rows: seq<Entry>, more: seq<Entry>, offset: nat, out: seq<string>)
    requires Segment(rows, offset, out) && rows <= more
    ensures Segment(more, offset, out)
  {
  }

  lemma SegmentsJoin(rows: seq<Entry>, offset: nat, a: seq<string>, b: seq<string>)
    requires Segment(rows, offset, a) && Segment(rows, offset + |a|, b)
    ensures Segment(rows, offset, a + b)
  {
    forall k | 0 <= k < |a + b| ensures offset + k < |rows| && rows[offset + k] == Val((a + b)[k]) {
      if k < |a| {
        assert (a + b)[k] == a[k];
      } else {
        var n := k - |a|;
        assert (a + b)[k] == b[n] && (offset + |a|) + n == offset + k;
      }
    }
  }

  // Whatever the interleaving, the reader emits the stream from its offset on, in
  // offset order, with no gap and no repeat.
  lemma {:induction false} EmitsInOrder(w: World, o: Options, i: nat, offset: nat, final: bool)
    requires Appends(w) && i <= o.cancelAt
    ensures Segment(w.stream(2 * o.cancelAt), offset, Read(w, o, i, offset, final).0)
    decreases o.cancelAt - i
  {
    var rows := w.stream(2 * i);
    var vs := Values(rows, offset);
    ValuesAre(rows, offset);
    SegmentGrows(rows, w.stream(2 * o.cancelAt), offset, vs);
    if i < o.cancelAt && offset + |vs| >= |rows| && !o.snapshot && !final {
      if vs != [] {
        EmitsInOrder(w, o, i + 1, offset + |vs|, false);
        SegmentsJoin(w.stream(2 * o.cancelAt), offset, vs, Read(w, o, i + 1, offset + |vs|, false).0);
      } else if w.status(2 * i + 1) != Missing {
        EmitsInOrder(w, o, i + 1, offset, LooksInactive(w.status(2 * i + 1)));
      }
    }
  }

  // The producer has ended, or has suspended itself.
  predicate SeemsOver(status: Status) {
    status == Terminal || status == Delayed
  }

  // At instant 2j + 1 the producer looked inactive, and out holds everything
  // committed by then.
  ghost predicate SawAll(w: World, offset: nat, out: seq<string>, j: nat) {
    SeemsOver(w.status(2 * j + 1)) && offset + |out| >= |w.stream(2 * j + 1)|
  }

  // When it closes because the producer looked inactive, it has emitted every
  // value committed before that status was read.
  lemma {:induction false} InactiveReaderSawAll(w: World, o: Options, i: nat, offset: nat, final: bool) returns (j: nat)
    requires Appends(w) && Read(w, o, i, offset, final).1 == Inactive
    requires final ==> i > 0 && SeemsOver(w.status(2 * i - 1))
    ensures SawAll(w, offset, Read(w, o, i, offset, final).0, j)
    decreases o.cancelAt - i
  {
    var rows := w.stream(2 * i);
    var vs := Values(rows, offset);
    if final {
      j := i - 1;
      assert w.stream(2 * j + 1) <= rows;
    } else if vs != [] {
      j := InactiveReaderSawAll(w, o, i + 1, offset + |vs|, false);
    } else {
      j := InactiveReaderSawAll(w, o, i + 1, offset, LooksInactive(w.status(2 * i + 1)));
    }
  }

  // A closed stream was read to its sentinel.
  lemma {:induction false} ClosedReaderSawEnd(w: World, o: Options, i: nat, offset: nat, final: bool)
    requires Appends(w) && i <= o.cancelAt && Read(w, o, i, offset, final).1 == Closed
    ensures var rows := w.stream(2 * o.cancelAt);
            var end := offset + |Read(w, o, i, offset, final).0|;
            end < |rows| && rows[end].Sentinel?
    decreases o.cancelAt - i
  {
    var rows := w.stream(2 * i);
    var vs := Values(rows, offset);
    ValuesAre(rows, offset);
    if offset + |vs| < |rows| {
      assert rows <= w.stream(2 * o.cancelAt);
    } else if vs != [] {
      ClosedReaderSawEnd(w, o, i + 1, offset + |vs|, false);
    } else {
      ClosedReaderSawEnd(w, o, i + 1, offset, LooksInactive(w.status(2 * i + 1)));
    }
  }

  // A snapshot reader that drained the stream emitted everything there when it read.
  lemma DrainedReaderSawAll(w: World, o: Options, offset: nat)
    requires Read(w, o, 0, offset, false).1 == Drained
    ensures o.snapshot && offset + |Read(w, o, 0, offset, false).0| >= |w.stream(0)|
    ensures Segment(w.stream(0), offset, Read(w, o, 0, offset, false).0)
  {
    OnlySnapshotsDrain(w, o, 0, offset, false);
    ValuesAre(w.stream(0), offset);
  }

  lemma {:induction false} OnlySnapshotsDrain(w: World, o: Options, i: nat, offset: nat, final: bool)
    requires Read(w, o, i, offset, final).1 == Drained
    ensures o.snapshot
    decreases o.cancelAt - i
  {
    var vs := Values(w.stream(2 * i), offset);
    if !o.snapshot {
      if vs != [] {
        OnlySnapshotsDrain(w, o, i + 1, offset + |vs|, false);
      } else {
        OnlySnapshotsDrain(w, o, i + 1, offset, LooksInactive(w.status(2 * i + 1)));
      }
    }
  }

  // No sentinel at or after offset.
  ghost predicate Unended(rows: seq<Entry>, offset: nat) {
    forall k | offset <= k < |rows| :: rows[k].Val?
  }

  // A reader ends as cancelled only in the pass it was cancelled in, having emitted all
  // that was there in the pass before, and found no end in it; as failed only if the
  // workflow was missing.
  lemma {:induction false} CancelledReaderWasWaiting(w: World, o: Options, i: nat, offset: nat, final: bool)
    requires Appends(w) && i < o.cancelAt && Read(w, o, i, offset, final).1 == Cancelled
    ensures !o.snapshot && Unended(w.stream(2 * (o.cancelAt - 1)), offset)
    ensures offset + |Read(w, o, i, offset, final).0| >= |w.stream(2 * (o.cancelAt - 1))|
    decreases o.cancelAt - i
  {
    var rows := w.stream(2 * i);
    var vs := Values(rows, offset);
    ValuesAre(rows, offset);
    var next := if vs == [] then LooksInactive(w.status(2 * i + 1)) else false;
    if i + 1 < o.cancelAt {
      CancelledReaderWasWaiting(w, o, i + 1, offset + |vs|, next);
      var last := w.stream(2 * (o.cancelAt - 1));
      assert rows <= last;
      forall k | offset <= k < |last| ensures last[k].Val? {
        if k < offset + |vs| {
          assert rows[offset + (k - offset)] == Val(vs[k - offset]);
        }
      }
    } else {
      forall k | offset <= k < |rows| ensures rows[k].Val? {
        assert rows[offset + (k - offset)] == Val(vs[k - offset]);
      }
    }
  }

  lemma {:induction false} FailedReaderMissed(w: World, o: Options, i: nat, offset: nat, final: bool) returns (j: nat)
    requires Read(w, o, i, offset, final).1 == Failed
    ensures i <= j < o.cancelAt && w.status(2 * j + 1) == Missing
    decreases o.cancelAt - i
  {
    var vs := Values(w.stream(2 * i), offset);
    j := i;
    if vs != [] {
      j := FailedReaderMissed(w, o, i + 1, offset + |vs|, false);
    } else if w.status(2 * i + 1) != Missing {
      j := FailedReaderMissed(w, o, i + 1, offset, LooksInactive(w.status(2 * i + 1)));
    }
  }

  // The reader gave up after a status at instant 2n - 1, and its output ends where
  // the rows of its next read, at instant 2n, end.
  ghost predicate EndsWithRead(w: World, offset: nat, out: seq<string>, n: nat) {
    && n > 0 && SeemsOver(w.status(2 * n - 1))
    && offset + |out| == if |w.stream(2 * n)| > offset then |w.stream(2 * n)| else offset
  }

  lemma {:induction false} InactiveReaderEnds(w: World, o: Options, i: nat, offset: nat, final: bool) returns (n: nat)
    requires Appends(w) && Read(w, o, i, offset, final).1 == Inactive
    requires final ==> i > 0 && SeemsOver(w.status(2 * i - 1))
    ensures n >= i && EndsWithRead(w, offset, Read(w, o, i, offset, final).0, n)
    decreases o.cancelAt - i
  {
    var rows := w.stream(2 * i);
    var vs := Values(rows, offset);
    ValuesAre(rows, offset);
    if final {
      n := i;
    } else if vs != [] {
      n := InactiveReaderEnds(w, o, i + 1, offset + |vs|, false);
      assert rows <= w.stream(2 * n);
    } else {
      n := InactiveReaderEnds(w, o, i + 1, offset, LooksInactive(w.status(2 * i + 1)));
    }
  }

  // A reader that gave up misses rows that are there at some instant k exactly when
  // the producer it took for inactive committed them after that last read.
  lemma InactiveReaderMissesIff(w: World, o: Options, offset: nat, k: nat) returns (n: nat)
    requires Appends(w) && Read(w, o, 0, offset, false).1 == Inactive
    ensures EndsWithRead(w, offset, Read(w, o, 0, offset, false).0, n)
    ensures offset + |Read(w, o, 0, offset, false).0| < |w.stream(k)| <==>
            |w.stream(2 * n)| < |w.stream(k)| && offset < |w.stream(k)|
  {
    n := InactiveReaderEnds(w, o, 0, offset, false);
  }

  // A stream that nobody writes to any more and that was not closed is read to its end
  // in two passes or three, and the reader ends there.
  lemma QuietReaderEnds(rows: seq<Entry>, status: Status, o: Options, offset: nat)
    requires Unended(rows, offset) && SeemsOver(status) && !o.snapshot && o.cancelAt >= 3
    ensures Read(World(i => rows, i => status), o, 0, offset, false) == (Values(rows, offset), Inactive)
    ensures offset <= |rows| ==> offset + |Values(rows, offset)| == |rows|
  {
    var w := World(i => rows, i => status);
    var vs := Values(rows, offset);
    var next := offset + |vs|;
    ValuesAre(rows, offset);
    assert next >= |rows| && Values(rows, next) == [];
    assert Read(w, o, 2, next, true) == ([], Inactive);
    assert Read(w, o, 1, next, true) == ([], Inactive);
    assert Read(w, o, 1, next, false) == ([], Inactive);
    assert vs + [] == vs;
  }

  // A suspended (DELAYED) producer looks inactive too, and may write again.
  lemma SuspendedProducerIsCutOff(value: string) returns (w: World, o: Options, k: nat)
    ensures Appends(w) && w.status(1) == Delayed
    ensures Read(w, o, 0, 0, false) == ([], Inactive) && w.stream(k) == [Val(value)]
  {
    w := World(i => if i < 3 then [] else [Val(value)], i => Delayed);
    o, k := Options(false, 2, 0), 3;
    assert Read(w, o, 1, 0, true) == ([], Inactive);
  }

  // One pass: cut when the context is cancelled, after through values.
  method SendEntries(rows: seq<Entry>, offset: nat, cut: bool, through: nat) returns (sent: seq<string>)
    ensures var vs := Values(rows, offset); sent == if cut && through < |vs| then vs[..through] else vs
  {
    sent := [];
    ghost var vs := Values(rows, offset);
    ValuesAre(rows, offset);
    var at := offset;
    while at < |rows| && !rows[at].Sentinel? && (!cut || |sent| < through)
      invariant |sent| <= |vs| && at == offset + |sent| && sent == vs[..|sent|]
      invariant cut ==> |sent| <= through
      invariant offset + |vs| < |rows| ==> rows[offset + |vs|].Sentinel?
      decreases |rows| - at
    {
      if |sent| < |vs| {
        assert rows[offset + |sent|] == Val(vs[|sent|]);
      }
      sent := sent + [rows[at].value];
      at := at + 1;
    }
    if |sent| < |vs| {
      assert rows[offset + |sent|] == Val(vs[|sent|]);
    }
  }

  // Read with what has been sent so far.
  function ReadOn(w: World, o: Options, i: nat, offset: nat, final: bool, out: seq<string>): (seq<string>, End)
    decreases o.cancelAt - i
  {
    var rows := w.stream(2 * i);
    var vs := Values(rows, offset);
    var sent := out + vs;
    if i >= o.cancelAt then (if o.through < |vs| then out + vs[..o.through] else sent, Cancelled)
    else if offset + |vs| < |rows| then (sent, Closed)
    else if o.snapshot then (sent, Drained)
    else if final then (sent, Inactive)
    else if vs != [] then ReadOn(w, o, i + 1, offset + |vs|, false, sent)
    else if w.status(2 * i + 1) == Missing then (sent, Failed)
    else ReadOn(w, o, i + 1, offset + |vs|, LooksInactive(w.status(2 * i + 1)), sent)
  }

  lemma {:induction false} ReadOnIsRead(w: World, o: Options, i: nat, offset: nat, final: bool, out: seq<string>)
    ensures var r := Read(w, o, i, offset, final); ReadOn(w, o, i, offset, final, out) == (out + r.0, r.1)
    decreases o.cancelAt - i
  {
    var rows := w.stream(2 * i);
    var vs := Values(rows, offset);
    if i < o.cancelAt && offset + |vs| >= |rows| && !o.snapshot && !final {
      if vs != [] {
        ReadOnIsRead(w, o, i + 1, offset + |vs|, false, out + vs);
        assert out + (vs + Read(w, o, i + 1, offset + |vs|, false).0)
               == (out + vs) + Read(w, o, i + 1, offset + |vs|, false).0;
      } else {
        assert out + vs == out;
        if w.status(2 * i + 1) != Missing {
          ReadOnIsRead(w, o, i + 1, offset, LooksInactive(w.status(2 * i + 1)), out);
        }
      }
    }
  }

  // The reader's loop over its own offset and flags.
  method Poll(w: World, o: Options, from: nat) returns (out: seq<string>, end: End)
    ensures (out, end) == ReadOn(w, o, 0, from, false, [])
  {
    var offset: nat, i: nat, finalRead := from, 0, false;
    out := [];
    while true
      invariant i <= o.cancelAt
      invariant ReadOn(w, o, i, offset, finalRead, out) == ReadOn(w, o, 0, from, false, [])
      decreases o.cancelAt - i
    {
      var rows := w.stream(2 * i);
      var sent := SendEntries(rows, offset, i == o.cancelAt, o.through);
      out, offset := out + sent, offset + |sent|;
      if i == o.cancelAt {
        return out, Cancelled;
      }
      if offset < |rows| {
        return out, Closed;
      }
      if o.snapshot {
        return out, Drained;
      }
      if finalRead {
        return out, Inactive;
      }
      if sent == [] {
        var status := w.status(2 * i + 1);
        if status == Missing {
          return out, Failed;
        }
        finalRead := LooksInactive(status);
      }
      i := i + 1;
    }
  }

  lemma ReadIsSound(w: World, o: Options, from: nat)
    ensures var r := Read(w, o, 0, from, false);
            Appends(w) ==>
              && Segment(w.stream(2 * o.cancelAt), from, r.0)
              && (r.1 == Inactive ==> exists j: nat :: SawAll(w, from, r.0, j))
              && (r.1 == Closed ==>
                    from + |r.0| < |w.stream(2 * o.cancelAt)| && w.stream(2 * o.cancelAt)[from + |r.0|].Sentinel?)
              && (r.1 == Drained ==> o.snapshot && from + |r.0| >= |w.stream(0)|)
              && (r.1 == Cancelled && o.cancelAt > 0 ==>
                    && !o.snapshot && Unended(w.stream(2 * (o.cancelAt - 1)), from)
                    && from + |r.0| >= |w.stream(2 * (o.cancelAt - 1))|)
              && (r.1 == Failed ==> exists j: nat :: j < o.cancelAt && w.status(2 * j + 1) == Missing)
  {
    if Appends(w) {
      EmitsInOrder(w, o, 0, from, false);
      if Read(w, o, 0, from, false).1 == Inactive {
        var j := InactiveReaderSawAll(w, o, 0, from, false);
      }
      if Read(w, o, 0, from, false).1 == Closed {
        ClosedReaderSawEnd(w, o, 0, from, false);
      }
      if Read(w, o, 0, from, false).1 == Drained {
        DrainedReaderSawAll(w, o, from);
      }
      if Read(w, o, 0, from, false).1 == Cancelled && o.cancelAt > 0 {
        CancelledReaderWasWaiting(w, o, 0, from, false);
      }
      if Read(w, o, 0, from, false).1 == Failed {
        var j := FailedReaderMissed(w, o, 0, from, false);
      }
    }
  }

  method ReadStream(w: World, o: Options, from: nat) returns (out: seq<string>, end: End)
    ensures Appends(w) ==> Segment(w.stream(2 * o.cancelAt), from, out)
    ensures Appends(w) && end == Inactive ==> exists j: nat :: SawAll(w, from, out, j)
    ensures Appends(w) && end == Closed ==>
              from + |out| < |w.stream(2 * o.cancelAt)| && w.stream(2 * o.cancelAt)[from + |out|].Sentinel?
    ensures Appends(w) && end == Drained ==> o.snapshot && from + |out| >= |w.stream(0)|
    ensures Appends(w) && end == Cancelled && o.cancelAt > 0 ==>
              && !o.snapshot && Unended(w.stream(2 * (o.cancelAt - 1)), from)
              && from + |out| >= |w.stream(2 * (o.cancelAt - 1))|
    ensures Appends(w) && end == Failed ==> exists j: nat :: j < o.cancelAt && w.status(2 * j + 1) == Missing
  {
    out, end := Poll(w, o, from);
    ReadOnIsRead(w, o, 0, from, false, []);
    assert [] + Read(w, o, 0, from, false).0 == Read(w, o, 0, from, false).0;
    ReadIsSound(w, o, from);
  }
}
