/** The server side of the resumable event tail: surfacing journal entries as deltas, cutting
    a journal range into frames, and one subscriber's bounded queue as a step relation. The
    entry with sequence number `n` is `journal[n - 1]`, so the range `(a, b]` is
    `journal[a..b]`. */
module EventStream {
  import opened Lists

  type Id = string

  datatype Entry =
    | Committed(mote: Id, resultRef: string, ndClass: int)
    | Failed(mote: Id, reason: nat)
    | Repudiated(target: Id, targetSeq: nat)
    | EffectStaged(mote: Id)
    | RunRegistered(run: Id, recipe: Id, ts: nat)
    | Unsurfaced

  /** A streamed delta: its sequence number, the run it is attributed to on the global
      channel, and the fact it carries. */
  datatype Delta = Delta(at: nat, run: Option<Id>, fact: Entry)

  datatype Frame = Frame(deltas: seq<Delta>, nextSeq: nat, boundary: bool)

  type Journal = seq<Entry>

  const MAX_FRAME_DELTAS: nat := 4096
  const SUBSCRIBER_QUEUE: nat := 256

  // ------------------------------------------------------------------ surfacing

  /** The global channel also narrates run registrations. */
  predicate Surfaces(global: bool, e: Entry) {
    !e.Unsurfaced? && (e.RunRegistered? ==> global)
  }

  /** The run in force after reading `(a, b]`, starting from `run`. */
  function Watermark(j: Journal, a: nat, b: nat, run: Option<Id>): Option<Id>
    requires a <= b <= |j|
  {
    if a == b then run
    else if j[b - 1].RunRegistered? then Some(j[b - 1].run)
    else Watermark(j, a, b - 1, run)
  }

  /** The deltas of `(a, b]`, attributed by carrying a watermark from `run`. */
  function Stamped(global: bool, j: Journal, a: nat, b: nat, run: Option<Id>): seq<Delta>
    requires a <= b <= |j|
  {
    if a == b then []
    else
      var before := Stamped(global, j, a, b - 1, run);
      if !Surfaces(global, j[b - 1]) then before
      else before + [Delta(b, if global then Watermark(j, a, b, run) else None, j[b - 1])]
  }

  /** The latest registration at or before position `n`. */
  function Attribution(j: Journal, n: nat): Option<Id>
    requires n <= |j|
  {
    Watermark(j, 0, n, None)
  }

  /** What a reader of `(a, b]` must see. */
  function Surfaced(global: bool, j: Journal, a: nat, b: nat): seq<Delta>
    requires a <= b <= |j|
  {
    Stamped(global, j, a, b, Attribution(j, a))
  }

  lemma {:induction false} WatermarkSplit(j: Journal, a: nat, b: nat, c: nat, run: Option<Id>)
    requires a <= b <= c <= |j|
    ensures Watermark(j, a, c, run) == Watermark(j, b, c, Watermark(j, a, b, run))
  {
    if b < c { WatermarkSplit(j, a, b, c - 1, run); }
  }

  lemma {:induction false} StampedSplit(global: bool, j: Journal, a: nat, b: nat, c: nat, run: Option<Id>)
    requires a <= b <= c <= |j|
    ensures Stamped(global, j, a, c, run) ==
      Stamped(global, j, a, b, run) + Stamped(global, j, b, c, Watermark(j, a, b, run))
  {
    if b < c {
      StampedSplit(global, j, a, b, c - 1, run);
      WatermarkSplit(j, a, b, c, run);
    }
  }

  /** Reading a range in two parts is reading it whole. */
  lemma SurfacedSplit(global: bool, j: Journal, a: nat, b: nat, c: nat)
    requires a <= b <= c <= |j|
    ensures Surfaced(global, j, a, c) == Surfaced(global, j, a, b) + Surfaced(global, j, b, c)
  {
    StampedSplit(global, j, a, b, c, Attribution(j, a));
    WatermarkSplit(j, 0, a, b, None);
  }

  lemma {:induction false} WatermarkGrows(j: Journal, more: Journal, a: nat, b: nat, run: Option<Id>)
    requires a <= b <= |j|
    ensures Watermark(j + more, a, b, run) == Watermark(j, a, b, run)
  {
    if a < b { WatermarkGrows(j, more, a, b - 1, run); }
  }

  lemma {:induction false} StampedGrows(global: bool, j: Journal, more: Journal, a: nat, b: nat, run: Option<Id>)
    requires a <= b <= |j|
    ensures Stamped(global, j + more, a, b, run) == Stamped(global, j, a, b, run)
  {
    if a < b {
      StampedGrows(global, j, more, a, b - 1, run);
      WatermarkGrows(j, more, a, b, run);
    }
  }

  /** Appending never changes what an old range surfaces. */
  lemma SurfacedGrows(global: bool, j: Journal, more: Journal, a: nat, b: nat)
    requires a <= b <= |j|
    ensures Surfaced(global, j + more, a, b) == Surfaced(global, j, a, b)
  {
    WatermarkGrows(j, more, 0, a, None);
    StampedGrows(global, j, more, a, b, Attribution(j, a));
  }

  /** The delta of entry `n`, attributed to the latest registration at or before it. */
  function DeltaAt(global: bool, j: Journal, n: nat): Delta
    requires 0 < n <= |j|
  {
    Delta(n, if global then Attribution(j, n) else None, j[n - 1])
  }

  lemma SurfacedStep(global: bool, j: Journal, a: nat, b: nat)
    requires a < b <= |j|
    ensures Surfaced(global, j, a, b) == Surfaced(global, j, a, b - 1) +
      (if Surfaces(global, j[b - 1]) then [DeltaAt(global, j, b)] else [])
  {
    WatermarkSplit(j, 0, a, b, None);
  }

  /** The surfaced deltas are exactly those of the surfacing entries of the range, each once,
      in journal order. */
  lemma {:induction false} SurfacedExact(global: bool, j: Journal, a: nat, b: nat)
    requires a <= b <= |j|
    ensures var ds := Surfaced(global, j, a, b);
      && (forall i, k :: 0 <= i < k < |ds| ==> ds[i].at < ds[k].at)
      && (forall d :: d in ds ==> a < d.at <= b && Surfaces(global, j[d.at - 1]) && d == DeltaAt(global, j, d.at))
      && (forall n: nat :: a < n <= b && Surfaces(global, j[n - 1]) ==> DeltaAt(global, j, n) in ds)
  {
    if a < b {
      SurfacedExact(global, j, a, b - 1);
      SurfacedStep(global, j, a, b);
      var before := Surfaced(global, j, a, b - 1);
      assert forall i :: 0 <= i < |before| ==> before[i] in before;
    }
  }

  /** `journal[k]` is the latest registration among the first `n` entries. */
  ghost predicate LatestRegistration(j: Journal, n: nat, k: nat)
    requires n <= |j|
  {
    k < n && j[k].RunRegistered? && forall i :: k < i < n ==> !j[i].RunRegistered?
  }

  /** A position is attributed to the run of the latest registration at or before it. */
  lemma {:induction false} AttributionMeaning(j: Journal, n: nat)
    requires n <= |j|
    ensures Attribution(j, n) == None <==> forall i :: 0 <= i < n ==> !j[i].RunRegistered?
    ensures Attribution(j, n).Some? ==> exists k: nat :: LatestRegistration(j, n, k) && j[k].run == Attribution(j, n).value
  {
    if n > 0 {
      if j[n - 1].RunRegistered? {
        assert LatestRegistration(j, n, n - 1);
      } else {
        AttributionMeaning(j, n - 1);
        if Attribution(j, n).Some? {
          var k: nat :| LatestRegistration(j, n - 1, k) && j[k].run == Attribution(j, n).value;
          assert LatestRegistration(j, n, k);
        }
      }
    }
  }

  /** Which entries are streamed: commits, failures, repudiations and staged effects on both
      channels, registrations on the global one only, anything else on neither. A delta carries
      its entry's number and fact. */
  lemma StreamedKinds(global: bool, j: Journal, a: nat, b: nat, n: nat)
    requires a < n <= b <= |j|
    ensures var e, d, ds := j[n - 1], DeltaAt(global, j, n), Surfaced(global, j, a, b);
      && (e.Committed? || e.Failed? || e.Repudiated? || e.EffectStaged? ==> d in ds)
      && (e.RunRegistered? ==> (d in ds <==> global))
      && (e.Unsurfaced? ==> forall x :: x in ds ==> x.at != n)
      && d.at == n && d.fact == e && (!global ==> d.run == None)
  {
    SurfacedExact(global, j, a, b);
  }

  // ------------------------------------------------------------------ framing

  /** `frames` cut `(from, …]` into consecutive ranges, attributed by a watermark that starts
      at `run`. */
  ghost predicate Cuts(global: bool, j: Journal, from: nat, run: Option<Id>, frames: seq<Frame>)
    requires from <= |j|
    decreases |frames|
  {
    frames == [] ||
    (from <= frames[0].nextSeq <= |j|
     && frames[0].deltas == Stamped(global, j, from, frames[0].nextSeq, run)
     && Cuts(global, j, frames[0].nextSeq, Watermark(j, from, frames[0].nextSeq, run), frames[1..]))
  }

  function EndOf(from: nat, frames: seq<Frame>): nat {
    if frames == [] then from else frames[|frames| - 1].nextSeq
  }

  /** The frames of `(from, head]`: consecutive, bounded in size, and flagged as having
      reached the head exactly on the last one. */
  ghost predicate Framing(global: bool, j: Journal, from: nat, run: Option<Id>, head: nat, frames: seq<Frame>)
    requires from <= head <= |j|
  {
    && frames != [] && Cuts(global, j, from, run, frames) && EndOf(from, frames) == head
    && (forall i :: 0 <= i < |frames| ==> |frames[i].deltas| <= MAX_FRAME_DELTAS)
    && (forall i :: 0 <= i < |frames| ==> (frames[i].boundary <==> i == |frames| - 1))
  }

  lemma {:induction false} CutsPush(global: bool, j: Journal, from: nat, run: Option<Id>, frames: seq<Frame>, f: Frame)
    requires from <= |j| && Cuts(global, j, from, run, frames)
    ensures from <= EndOf(from, frames) <= |j|
    ensures var end := EndOf(from, frames);
      end <= f.nextSeq <= |j| && f.deltas == Stamped(global, j, end, f.nextSeq, Watermark(j, from, end, run))
      ==> Cuts(global, j, from, run, frames + [f])
    decreases |frames|
  {
    if frames != [] {
      var mid := frames[0].nextSeq;
      var rest := frames[1..];
      CutsPush(global, j, mid, Watermark(j, from, mid, run), rest, f);
      assert EndOf(mid, rest) == EndOf(from, frames);
      WatermarkSplit(j, from, mid, EndOf(from, frames), run);
      assert (frames + [f])[1..] == rest + [f];
    }
  }

  /** Where the first `k` deltas of a range end, the rest of the range begins. */
  lemma {:induction false} CutAfter(global: bool, j: Journal, a: nat, b: nat, run: Option<Id>, k: nat)
    requires a <= b <= |j| && 0 < k <= |Stamped(global, j, a, b, run)|
    ensures var ds := Stamped(global, j, a, b, run);
      var m := ds[k - 1].at;
      && a < m <= b && Stamped(global, j, a, m, run) == ds[..k]
      && Stamped(global, j, m, b, Watermark(j, a, m, run)) == ds[k..]
  {
    var ds := Stamped(global, j, a, b, run);
    var shorter := Stamped(global, j, a, b - 1, run);
    if k <= |shorter| {
      CutAfter(global, j, a, b - 1, run, k);
      var m := ds[k - 1].at;
      StampedSplit(global, j, a, m, b, run);
    } else {
      assert ds[..k] == ds;
    }
  }

  /** `frames_for_range` and `global_frames_for_range`: collect the surfaced deltas carrying
      the run watermark, cut them into chunks, and let the last frame reach the head. A
      cursor beyond the head gets one empty frame at the head. */
  method FramesForRange(global: bool, j: Journal, since: nat, run: Option<Id>, head: nat)
    returns (frames: seq<Frame>, run': Option<Id>)
    requires head <= |j|
    ensures since <= head ==> Framing(global, j, since, run, head, frames) && run' == Watermark(j, since, head, run)
    ensures since > head ==> frames == [Frame([], head, true)] && run' == run
    ensures forall i :: 0 <= i < |frames| ==> |frames[i].deltas| <= 4096
  {
    var deltas: seq<Delta> := [];
    run' := run;
    if since <= head {
      for n := since to head
        invariant run' == Watermark(j, since, n, run) && deltas == Stamped(global, j, since, n, run)
      {
        if j[n].RunRegistered? { run' := Some(j[n].run); }
        if Surfaces(global, j[n]) { deltas := deltas + [Delta(n + 1, if global then run' else None, j[n])]; }
      }
    }
    if deltas == [] {
      frames := [Frame([], head, true)];
      return;
    }
    frames := Chunks(global, j, since, run, head, deltas);
  }

  /** `deltas.chunks(MAX_FRAME_DELTAS)`, with the last frame moved to the head. */
  method Chunks(global: bool, j: Journal, since: nat, run: Option<Id>, head: nat, deltas: seq<Delta>)
    returns (frames: seq<Frame>)
    requires since <= head <= |j| && deltas == Stamped(global, j, since, head, run) && deltas != []
    ensures Framing(global, j, since, run, head, frames)
  {
    frames := [];
    var i := 0;
    while |deltas| - i > MAX_FRAME_DELTAS
      invariant 0 <= i < |deltas| && Cuts(global, j, since, run, frames)
      invariant since <= EndOf(since, frames) <= head
      invariant Stamped(global, j, EndOf(since, frames), head, Watermark(j, since, EndOf(since, frames), run)) == deltas[i..]
      invariant forall k :: 0 <= k < |frames| ==> |frames[k].deltas| <= MAX_FRAME_DELTAS && !frames[k].boundary
    {
      var chunk := deltas[i..i + MAX_FRAME_DELTAS];
      ghost var at := EndOf(since, frames);
      ghost var mark := Watermark(j, since, at, run);
      CutAfter(global, j, at, head, mark, MAX_FRAME_DELTAS);
      var last := chunk[|chunk| - 1].at;
      assert deltas[i..][..MAX_FRAME_DELTAS] == chunk && deltas[i..][MAX_FRAME_DELTAS..] == deltas[i + MAX_FRAME_DELTAS..];
      CutsPush(global, j, since, run, frames, Frame(chunk, last, false));
      WatermarkSplit(j, since, at, last, run);
      frames := frames + [Frame(chunk, last, false)];
      i := i + MAX_FRAME_DELTAS;
    }
    CutsPush(global, j, since, run, frames, Frame(deltas[i..], head, true));
    frames := frames + [Frame(deltas[i..], head, true)];
  }

  /** `seed_global_cursor`: one pass over the prefix finds the run in force. */
  method SeedRun(j: Journal, since: nat) returns (run: Option<Id>)
    requires since <= |j|
    ensures run == Attribution(j, since)
  {
    run := None;
    for n := 0 to since
      invariant run == Attribution(j, n)
    {
      if j[n].RunRegistered? { run := Some(j[n].run); }
    }
  }

  // ------------------------------------------------------------------ one subscription

  datatype Code = ResourceExhausted | DeadlineExceeded | Canceled | OtherCode

  datatype Item = Sent(frame: Frame) | Broken(code: Code)

  /** The follower: waiting or sending `out`, about to report an error, or gone. While a range
      is being sent the watermark is still that of the range's start; `after` is adopted once
      the whole range is out. */
  datatype Server =
    | Following(cursor: nat, run: Option<Id>, caughtUp: bool, out: seq<Frame>, after: Option<Id>)
    | Failing(code: Code)
    | Gone

  datatype Wire = Wire(journal: Journal, server: Server, queue: seq<Item>)

  /** What can happen on the server side of an open subscription. */
  datatype Move = Append(entry: Entry) | Wake(frames: seq<Frame>, after: Option<Id>) | Push | Overflow | ReadError | Report | Shutdown

  /** A fresh subscription. The seed pass reads the entries there are, so a cursor beyond the
      head starts with the attribution in force at the head. */
  function Subscribed(j: Journal, since: nat): Wire {
    Wire(j, Following(since, Attribution(j, if since <= |j| then since else |j|), false, [], None), [])
  }

  /** What `FramesForRange` gives for the range from a cursor to the head. */
  ghost predicate Ranges(global: bool, j: Journal, since: nat, run: Option<Id>, frames: seq<Frame>, after: Option<Id>) {
    if since <= |j| then Framing(global, j, since, run, |j|, frames) && after == Watermark(j, since, |j|, run)
    else frames == [Frame([], |j|, true)] && after == run
  }

  /** One server step. `Wake` builds frames from the follower's own cursor and watermark. */
  ghost predicate Steps(global: bool, w: Wire, m: Move, w': Wire) {
    match m
    case Append(e) => w' == w.(journal := w.journal + [e])
    case Wake(frames, after) =>
      && w.server.Following? && w.server.out == []
      && (w.server.caughtUp ==> |w.journal| > w.server.cursor)
      && Ranges(global, w.journal, w.server.cursor, w.server.run, frames, after)
      && w' == w.(server := w.server.(caughtUp := true, out := frames, after := after))
    case Push =>
      && w.server.Following? && w.server.out != [] && |w.queue| < SUBSCRIBER_QUEUE
      && var s, f, rest := w.server, w.server.out[0], w.server.out[1..];
         w' == w.(queue := w.queue + [Sent(f)],
                  server := s.(cursor := f.nextSeq, out := rest, run := if rest == [] then s.after else s.run))
    case Overflow =>
      w.server.Following? && w.server.out != [] && |w.queue| >= SUBSCRIBER_QUEUE && w' == w.(server := Failing(ResourceExhausted))
    case ReadError => w.server.Following? && w.server.out == [] && w' == w.(server := Failing(OtherCode))
    case Report =>
      w.server.Failing? && |w.queue| < SUBSCRIBER_QUEUE && w' == w.(queue := w.queue + [Broken(w.server.code)], server := Gone)
    case Shutdown => w.server.Following? && w' == w.(server := Gone)
  }

  /** The frames waiting in the queue; an error can only be last. */
  function FramesIn(q: seq<Item>): seq<Frame> {
    if q == [] then []
    else if q[0].Sent? then [q[0].frame] + FramesIn(q[1..])
    else []
  }

  ghost predicate ErrorLast(q: seq<Item>) {
    forall i :: 0 <= i < |q| - 1 ==> q[i].Sent?
  }

  /** Every frame from the head of the queue to the follower's unsent ones covers the range
      after the previous one, starting where the client stands. */
  ghost predicate InStep(global: bool, w: Wire, at: nat) {
    && at <= |w.journal| && |w.queue| <= SUBSCRIBER_QUEUE && ErrorLast(w.queue)
    && (!w.server.Gone? ==> forall i :: 0 <= i < |w.queue| ==> w.queue[i].Sent?)
    && Cuts(global, w.journal, at, Attribution(w.journal, at), FramesIn(w.queue))
    && (w.server.Following? ==>
          && w.server.cursor == EndOf(at, FramesIn(w.queue)) <= |w.journal|
          && (w.server.out == [] ==> w.server.run == Attribution(w.journal, w.server.cursor))
          && (w.server.out != [] ==>
                && Cuts(global, w.journal, w.server.cursor, Attribution(w.journal, w.server.cursor), w.server.out)
                && EndOf(w.server.cursor, w.server.out) <= |w.journal|
                && w.server.after == Attribution(w.journal, EndOf(w.server.cursor, w.server.out))))
  }

  lemma {:induction false} CutsGrow(global: bool, j: Journal, more: Journal, from: nat, run: Option<Id>, frames: seq<Frame>)
    requires from <= |j| && Cuts(global, j, from, run, frames)
    ensures Cuts(global, j + more, from, run, frames)
    decreases |frames|
  {
    if frames != [] {
      var mid := frames[0].nextSeq;
      StampedGrows(global, j, more, from, mid, run);
      WatermarkGrows(j, more, from, mid, run);
      CutsGrow(global, j, more, mid, Watermark(j, from, mid, run), frames[1..]);
    }
  }

  lemma {:induction false} FramesInPush(q: seq<Item>, f: Frame)
    requires forall i :: 0 <= i < |q| ==> q[i].Sent?
    ensures FramesIn(q + [Sent(f)]) == FramesIn(q) + [f]
    ensures |FramesIn(q)| == |q|
  {
    if q != [] {
      FramesInPush(q[1..], f);
      assert (q + [Sent(f)])[1..] == q[1..] + [Sent(f)];
    }
  }

  lemma {:induction false} FramesInError(q: seq<Item>, c: Code)
    requires forall i :: 0 <= i < |q| ==> q[i].Sent?
    ensures FramesIn(q + [Broken(c)]) == FramesIn(q)
  {
    if q != [] {
      FramesInError(q[1..], c);
      assert (q + [Broken(c)])[1..] == q[1..] + [Broken(c)];
    }
  }

  lemma SubscribedInStep(global: bool, j: Journal, since: nat)
    requires since <= |j|
    ensures InStep(global, Subscribed(j, since), since)
  {
  }

  /** Every server step keeps the queue in step with the client's position. */
  lemma StepKeepsInStep(global: bool, w: Wire, m: Move, w': Wire, at: nat)
    requires InStep(global, w, at) && Steps(global, w, m, w')
    ensures InStep(global, w', at) && w.journal <= w'.journal
  {
    match m
    case Append(e) => AppendKeeps(global, w, e, at);
    case Wake(frames, after) =>
      CutsPush(global, w.journal, w.server.cursor, w.server.run, frames, frames[0]);
      WatermarkSplit(w.journal, 0, w.server.cursor, |w.journal|, None);
    case Push => PushKeeps(global, w, w', at);
    case Overflow =>
    case ReadError =>
    case Report => FramesInError(w.queue, w.server.code);
    case Shutdown =>
  }

  lemma AppendKeeps(global: bool, w: Wire, e: Entry, at: nat)
    requires InStep(global, w, at)
    ensures InStep(global, w.(journal := w.journal + [e]), at)
  {
    var j := w.journal;
    WatermarkGrows(j, [e], 0, at, None);
    CutsGrow(global, j, [e], at, Attribution(j, at), FramesIn(w.queue));
    if w.server.Following? {
      WatermarkGrows(j, [e], 0, w.server.cursor, None);
      if w.server.out != [] {
        CutsGrow(global, j, [e], w.server.cursor, Attribution(j, w.server.cursor), w.server.out);
        WatermarkGrows(j, [e], 0, EndOf(w.server.cursor, w.server.out), None);
      }
    }
  }

  lemma PushKeeps(global: bool, w: Wire, w': Wire, at: nat)
    requires InStep(global, w, at) && Steps(global, w, Push, w')
    ensures InStep(global, w', at)
  {
    var j, s, f := w.journal, w.server, w.server.out[0];
    FramesInPush(w.queue, f);
    CutsPush(global, j, at, Attribution(j, at), FramesIn(w.queue), f);
    WatermarkSplit(j, 0, at, s.cursor, None);
    WatermarkSplit(j, 0, s.cursor, f.nextSeq, None);
    assert EndOf(f.nextSeq, s.out[1..]) == EndOf(s.cursor, s.out);
  }

  /** Taking a frame off the queue moves the client's position to the frame's cursor, and the
      frame holds exactly what lies between. */
  lemma TakeKeepsInStep(global: bool, w: Wire, at: nat)
    requires InStep(global, w, at) && w.queue != [] && w.queue[0].Sent?
    ensures var f := w.queue[0].frame;
      && at <= f.nextSeq <= |w.journal| && f.deltas == Surfaced(global, w.journal, at, f.nextSeq)
      && InStep(global, w.(queue := w.queue[1..]), f.nextSeq)
  {
    var f, q := w.queue[0].frame, w.queue[1..];
    assert FramesIn(w.queue)[1..] == FramesIn(q);
    WatermarkSplit(w.journal, 0, at, f.nextSeq, None);
    assert EndOf(f.nextSeq, FramesIn(q)) == EndOf(at, FramesIn(w.queue));
    forall i | 0 <= i < |q| - 1 ensures q[i].Sent? {
      assert q[i] == w.queue[i + 1];
    }
  }
}
