/** The client's resumable tail over that server: `streamDeltas` (per run) and
    `streamAllDeltas` (global) as they interleave with journal appends, the follower, queue
    overflow, dropped connections and re-subscription. */
module EventTail {
  import opened Lists
  import opened EventStream

  datatype Status = Live | DoneAtBoundary | DoneAtEnd | Threw(code: Code)

  /** A frame being consumed: the deltas not yet handed to the caller. */
  datatype Busy = Busy(rest: seq<Delta>, nextSeq: nat, boundary: bool)

  /** The generator's state. `goal` records the journal length when the current subscription
      was opened. */
  datatype Tail = Tail(since: nat, follow: bool, cursor: nat, yielded: seq<Delta>, busy: Option<Busy>,
                       attached: bool, goal: nat, status: Status)

  datatype State = State(wire: Wire, tail: Tail)

  datatype Event = Server(move: Move) | Attach | Receive | YieldNext | EndFrame | Ended | Dropped(code: Code)

  function Start(j: Journal, since: nat, follow: bool): State {
    State(Wire(j, Gone, []), Tail(since, follow, since, [], None, false, 0, Live))
  }

  /** The `catch` clause: a catch-up drop is resumed when following, anything else is thrown. */
  function Caught(t: Tail, code: Code): Tail {
    t.(attached := false, status := if t.follow && code == ResourceExhausted then Live else Threw(code))
  }

  function Detached(w: Wire): Wire {
    Wire(w.journal, Gone, [])
  }

  /** One step of the whole system. */
  ghost predicate Next(global: bool, s: State, e: Event, s': State) {
    var w, t := s.wire, s.tail;
    match e
    case Server(m) => Steps(global, w, m, s'.wire) && s'.tail == t
    case Attach =>
      && t.status == Live && !t.attached && t.busy == None
      && s' == State(Subscribed(w.journal, t.cursor), t.(attached := true, goal := |w.journal|))
    case Receive =>
      && t.status == Live && t.attached && t.busy == None && w.queue != []
      && s' == (match w.queue[0]
                case Sent(f) => State(w.(queue := w.queue[1..]), t.(busy := Some(Busy(f.deltas, f.nextSeq, f.boundary))))
                case Broken(code) => State(Detached(w), Caught(t, code)))
    case YieldNext =>
      && t.status == Live && t.busy.Some? && t.busy.value.rest != []
      && s' == State(w, t.(yielded := t.yielded + [t.busy.value.rest[0]],
                           busy := Some(t.busy.value.(rest := t.busy.value.rest[1..]))))
    case EndFrame =>
      && t.status == Live && t.busy.Some? && t.busy.value.rest == []
      && var stop := !t.follow && t.busy.value.boundary;
         s' == State(if stop then Detached(w) else w,
                     t.(cursor := t.busy.value.nextSeq, busy := None, attached := t.attached && !stop,
                        status := if stop then DoneAtBoundary else Live))
    case Ended =>
      && t.status == Live && t.attached && t.busy == None && w.queue == [] && w.server.Gone?
      && s' == State(Detached(w), t.(attached := false, status := if t.follow then Live else DoneAtEnd))
    case Dropped(code) =>
      && t.status == Live && t.attached && t.busy == None
      && s' == State(Detached(w), Caught(t, code))
  }

  ghost predicate Leads(global: bool, s: State, s': State) {
    exists e :: Next(global, s, e, s')
  }

  /** A run: each state follows from the one before by some step. */
  ghost predicate Run(global: bool, run: seq<State>) {
    && run != [] && run[0] == Start(run[0].wire.journal, run[0].tail.since, run[0].tail.follow)
    && forall i :: 0 <= i < |run| - 1 ==> Leads(global, run[i], run[i + 1])
  }

  /** The run resumes from a position the journal had reached. */
  ghost predicate WithinJournal(run: seq<State>) {
    run != [] && run[0].tail.since <= |run[0].wire.journal|
  }

  // ------------------------------------------------------------------ the invariant

  /** How far the client has taken responsibility. */
  function Position(t: Tail): nat {
    if t.busy.Some? then t.busy.value.nextSeq else t.cursor
  }

  function Owed(t: Tail): seq<Delta> {
    if t.busy.Some? then t.busy.value.rest else []
  }

  /** Boundary frames under way reach at least `goal`. */
  ghost predicate BoundariesReach(w: Wire, t: Tail) {
    && t.goal <= |w.journal|
    && (forall i :: 0 <= i < |w.queue| && w.queue[i].Sent? && w.queue[i].frame.boundary ==> w.queue[i].frame.nextSeq >= t.goal)
    && (w.server.Following? ==> forall i :: 0 <= i < |w.server.out| && w.server.out[i].boundary ==> w.server.out[i].nextSeq >= t.goal)
  }

  ghost predicate Inv(global: bool, s: State) {
    var w, t := s.wire, s.tail;
    && t.since <= t.cursor <= Position(t) <= |w.journal|
    && t.yielded + Owed(t) == Surfaced(global, w.journal, t.since, Position(t))
    && (t.attached ==> InStep(global, w, Position(t)) && BoundariesReach(w, t))
    && (t.attached && t.busy.Some? && t.busy.value.boundary ==> t.busy.value.nextSeq >= t.goal)
    && (t.busy.Some? ==> t.attached)
    && (t.status != Live ==> t.busy == None)
    && (t.status == DoneAtBoundary ==> t.cursor >= t.goal)
  }

  lemma ServerKeeps(global: bool, s: State, m: Move, s': State)
    requires Inv(global, s) && Next(global, s, Server(m), s')
    ensures Inv(global, s')
  {
    var w, t := s.wire, s.tail;
    if t.attached {
      StepKeepsInStep(global, w, m, s'.wire, Position(t));
    }
    if m.Append? {
      SurfacedGrows(global, w.journal, [m.entry], t.since, Position(t));
    }
  }

  lemma ReceiveKeeps(global: bool, s: State, s': State)
    requires Inv(global, s) && Next(global, s, Receive, s')
    ensures Inv(global, s')
  {
    var w, t := s.wire, s.tail;
    if w.queue[0].Sent? {
      var f := w.queue[0].frame;
      TakeKeepsInStep(global, w, t.cursor);
      SurfacedSplit(global, w.journal, t.since, t.cursor, f.nextSeq);
      assert t.yielded + [] == t.yielded;
      var q := w.queue[1..];
      forall i | 0 <= i < |q| && q[i].Sent? && q[i].frame.boundary ensures q[i].frame.nextSeq >= t.goal {
        assert q[i] == w.queue[i + 1];
      }
    }
  }

  lemma YieldKeeps(global: bool, s: State, s': State)
    requires Inv(global, s) && Next(global, s, YieldNext, s')
    ensures Inv(global, s')
  {
    var t := s.tail;
    var rest := t.busy.value.rest;
    assert t.yielded + rest == (t.yielded + [rest[0]]) + rest[1..];
  }

  /** Every step keeps the invariant. */
  lemma NextKeeps(global: bool, s: State, e: Event, s': State)
    requires Inv(global, s) && Next(global, s, e, s')
    ensures Inv(global, s') && s.wire.journal <= s'.wire.journal
    ensures s'.tail.since == s.tail.since && s.tail.yielded <= s'.tail.yielded
  {
    match e
    case Server(m) => ServerKeeps(global, s, m, s');
    case Attach => SubscribedInStep(global, s.wire.journal, s.tail.cursor);
    case Receive => ReceiveKeeps(global, s, s');
    case YieldNext => YieldKeeps(global, s, s');
    case EndFrame =>
    case Ended =>
    case Dropped(_) =>
  }

  lemma LeadsKeeps(global: bool, s: State, s': State)
    requires Inv(global, s) && Leads(global, s, s')
    ensures Inv(global, s')
  {
    var e :| Next(global, s, e, s');
    NextKeeps(global, s, e, s');
  }

  lemma {:induction false} RunKeeps(global: bool, run: seq<State>, i: nat)
    requires Run(global, run) && WithinJournal(run) && i < |run|
    ensures Inv(global, run[i])
  {
    if i > 0 {
      RunKeeps(global, run, i - 1);
      assert Leads(global, run[i - 1], run[i - 1 + 1]);
      LeadsKeeps(global, run[i - 1], run[i]);
    }
  }

  // ------------------------------------------------------------------ the theorems

  /** The deltas handed out are a prefix of the journal's deltas after `since`; between frames
      they are exactly those up to the cursor: none lost, repeated, reordered or
      misattributed. */
  ghost predicate Exact(global: bool, s: State) {
    var w, t := s.wire, s.tail;
    && t.since <= t.cursor <= |w.journal|
    && t.yielded <= Surfaced(global, w.journal, t.since, |w.journal|)
    && (t.busy == None ==> t.yielded == Surfaced(global, w.journal, t.since, t.cursor))
  }

  /** At every moment of every run, with any number of drops and re-subscriptions. */
  lemma ExactlyOnce(global: bool, run: seq<State>, i: nat)
    requires Run(global, run) && WithinJournal(run) && i < |run|
    ensures Exact(global, run[i])
  {
    RunKeeps(global, run, i);
    var w, t := run[i].wire, run[i].tail;
    SurfacedSplit(global, w.journal, t.since, Position(t), |w.journal|);
    assert t.yielded + [] == t.yielded;
    assert t.yielded <= t.yielded + Owed(t);
  }

  /** In every run, between frames, every commit, failure, repudiation and staged effect from
      `since` up to the cursor has been handed out, on the global channel every registration
      too. */
  lemma NoneLost(global: bool, run: seq<State>, i: nat, n: nat)
    requires Run(global, run) && WithinJournal(run) && i < |run| && run[i].tail.busy == None
    requires run[i].tail.since < n <= run[i].tail.cursor
    ensures n <= |run[i].wire.journal|
    ensures var j, d := run[i].wire.journal, DeltaAt(global, run[i].wire.journal, n);
      j[n - 1].Committed? || j[n - 1].Failed? || j[n - 1].Repudiated? || j[n - 1].EffectStaged? || (global && j[n - 1].RunRegistered?)
      ==> d in run[i].tail.yielded
  {
    ExactlyOnce(global, run, i);
    StreamedKinds(global, run[i].wire.journal, run[i].tail.since, run[i].tail.cursor, n);
  }

  // ------------------------------------------------------------------ resuming anywhere

  /** Exactness of the deltas alone: each is the journal's delta of its number, numbers lie
      above `since` and rise, and none is skipped. */
  ghost predicate Faithful(global: bool, j: Journal, since: nat, ds: seq<Delta>) {
    && (forall i, k :: 0 <= i < k < |ds| ==> ds[i].at < ds[k].at)
    && (forall d :: d in ds ==> since < d.at <= |j| && Surfaces(global, j[d.at - 1]) && d == DeltaAt(global, j, d.at))
    && (forall d, n: nat :: d in ds && since < n < d.at && Surfaces(global, j[n - 1]) ==> DeltaAt(global, j, n) in ds)
  }

  /** A prefix of what a range surfaces is faithful. */
  lemma PrefixFaithful(global: bool, j: Journal, since: nat, b: nat, ds: seq<Delta>)
    requires since <= b <= |j| && ds <= Surfaced(global, j, since, b)
    ensures Faithful(global, j, since, ds)
  {
    var all := Surfaced(global, j, since, b);
    SurfacedExact(global, j, since, b);
    assert forall i :: 0 <= i < |ds| ==> ds[i] == all[i] && ds[i] in all;
    forall d, n: nat | d in ds && since < n < d.at && Surfaces(global, j[n - 1]) ensures DeltaAt(global, j, n) in ds {
      var k :| 0 <= k < |ds| && ds[k] == d;
      var i :| 0 <= i < |all| && all[i] == DeltaAt(global, j, n);
      assert i < k;
      assert ds[i] == all[i];
    }
  }

  lemma RunExtends(global: bool, run: seq<State>, s: State)
    requires Run(global, run) && Leads(global, run[|run| - 1], s)
    ensures Run(global, run + [s])
  {
    var more := run + [s];
    forall i | 0 <= i < |more| - 1 ensures Leads(global, more[i], more[i + 1]) {
      if i < |run| - 1 { assert more[i + 1] == run[i + 1] && Leads(global, run[i], run[i + 1]); }
    }
  }

  /** Extend a run by one step. */
  lemma Then(global: bool, run: seq<State>, e: Event, s: State) returns (more: seq<State>)
    requires Run(global, run) && Next(global, run[|run| - 1], e, s)
    ensures Run(global, more) && more[0] == run[0] && more[|more| - 1] == s
  {
    more := run + [s];
    RunExtends(global, run, s);
  }

  /** Entries can be appended at any moment. */
  lemma {:induction false} ThenAppend(global: bool, run: seq<State>, entries: seq<Entry>) returns (more: seq<State>)
    requires Run(global, run)
    ensures Run(global, more) && more[0] == run[0]
    ensures var s := run[|run| - 1];
      more[|more| - 1] == State(s.wire.(journal := s.wire.journal + entries), s.tail)
    decreases |entries|
  {
    var s := run[|run| - 1];
    if entries == [] {
      assert s.wire.journal + entries == s.wire.journal;
      more := run;
    } else {
      var w := s.wire.(journal := s.wire.journal + [entries[0]]);
      more := Then(global, run, Server(Append(entries[0])), State(w, s.tail));
      assert w.journal + entries[1..] == s.wire.journal + entries;
      more := ThenAppend(global, more, entries[1..]);
    }
  }

  /** The client waits on a drained connection whose follower stands at `at`. */
  ghost predicate Idle(s: State, at: nat) {
    && s.tail.status == Live && s.tail.attached && s.tail.busy == None && s.wire.queue == []
    && s.wire.server.Following? && s.wire.server.out == [] && s.wire.server.cursor == at
  }

  /** One commit beyond an idle follower's cursor is delivered, attributed by its watermark. */
  lemma ThenDeliver(global: bool, run: seq<State>, at: nat) returns (more: seq<State>)
    requires Run(global, run) && Idle(run[|run| - 1], at)
    requires |run[|run| - 1].wire.journal| == at + 1 && run[|run| - 1].wire.journal[at].Committed?
    ensures Run(global, more) && more[0] == run[0]
    ensures var s, s' := run[|run| - 1], more[|more| - 1];
      && s'.wire.journal == s.wire.journal && s'.tail.since == s.tail.since
      && s'.tail.yielded == s.tail.yielded + [Delta(at + 1, if global then s.wire.server.run else None, s.wire.journal[at])]
  {
    var s := run[|run| - 1];
    var w, t := s.wire, s.tail;
    var d := Delta(at + 1, if global then w.server.run else None, w.journal[at]);
    var f := Frame([d], at + 1, true);
    OneFrame(global, w.journal, at, w.server.run);
    var w1 := w.(server := w.server.(caughtUp := true, out := [f], after := w.server.run));
    more := Then(global, run, Server(Wake([f], w.server.run)), State(w1, t));
    var w2 := w1.(server := w1.server.(cursor := at + 1, out := []), queue := [Sent(f)]);
    assert [f][1..] == [] && [] + [Sent(f)] == [Sent(f)];
    more := Then(global, more, Server(Push), State(w2, t));
    var t3 := t.(busy := Some(Busy([d], at + 1, true)));
    assert [Sent(f)][1..] == [];
    more := Then(global, more, Receive, State(w2.(queue := []), t3));
    assert [d][1..] == [];
    more := Then(global, more, YieldNext, State(w2.(queue := []), t3.(yielded := t.yielded + [d], busy := Some(Busy([], at + 1, true)))));
  }

  lemma OneFrame(global: bool, j: Journal, at: nat, run: Option<Id>)
    requires |j| == at + 1 && j[at].Committed?
    ensures Ranges(global, j, at, run, [Frame([Delta(at + 1, if global then run else None, j[at])], at + 1, true)], run)
  {
    var d := Delta(at + 1, if global then run else None, j[at]);
    assert Stamped(global, j, at, at, run) == [] && Watermark(j, at, at, run) == run;
    assert Stamped(global, j, at, at + 1, run) == [d];
    var frames := [Frame([d], at + 1, true)];
    assert frames[1..] == [] && Cuts(global, j, at, run, frames);
    assert |frames[0].deltas| == 1 <= MAX_FRAME_DELTAS;
  }

  /** A subscription from beyond the head is sent one empty frame at the head, which moves the
      cursor back; a following tail then waits there. */
  lemma CursorRewinds(global: bool, j: Journal, since: nat, follow: bool) returns (run: seq<State>)
    requires since > |j|
    ensures Run(global, run) && run[0] == Start(j, since, follow)
    ensures var s := run[|run| - 1];
      && s.wire.journal == j && s.tail.cursor == |j| && s.tail.since == since && s.tail.yielded == []
      && (follow ==> Idle(s, |j|))
  {
    var f := Frame([], |j|, true);
    var s0 := Start(j, since, follow);
    var t1 := s0.tail.(attached := true, goal := |j|);
    var w1 := Subscribed(j, since);
    var mark := w1.server.run;
    run := Then(global, [s0], Attach, State(w1, t1));
    var w2 := w1.(server := Following(since, mark, true, [f], mark));
    run := Then(global, run, Server(Wake([f], mark)), State(w2, t1));
    var w3 := Wire(j, Following(|j|, mark, true, [], mark), [Sent(f)]);
    assert [f][1..] == [] && [] + [Sent(f)] == [Sent(f)];
    run := Then(global, run, Server(Push), State(w3, t1));
    var t4 := t1.(busy := Some(Busy([], |j|, true)));
    assert [Sent(f)][1..] == [];
    run := Then(global, run, Receive, State(w3.(queue := []), t4));
    var w5 := if follow then w3.(queue := []) else Detached(w3);
    run := Then(global, run, EndFrame,
      State(w5, t4.(cursor := |j|, busy := None, attached := follow, status := if follow then Live else DoneAtBoundary)));
  }

  const COMMIT := Committed("m", "r", 0)

  /** A following tail that starts beyond the head is handed a delta at or below `since`. */
  lemma FollowRepeats(global: bool, j: Journal, since: nat) returns (run: seq<State>)
    requires since > |j|
    ensures Run(global, run) && run[0] == Start(j, since, true)
    ensures exists d :: d in run[|run| - 1].tail.yielded && d.at <= since
  {
    run := CursorRewinds(global, j, since, true);
    run := ThenAppend(global, run, [COMMIT]);
    run := ThenDeliver(global, run, |j|);
    var ds := run[|run| - 1].tail.yielded;
    assert ds[|ds| - 1] in ds && ds[|ds| - 1].at == |j| + 1;
  }

  /** A global tail that starts beyond the head is seeded there, misses the registrations
      before `since`, and attributes a later delta to the wrong run. */
  lemma SeedGoesStale(j: Journal, since: nat, follow: bool) returns (run: seq<State>)
    requires since > |j|
    ensures Run(true, run) && run[0] == Start(j, since, follow)
    ensures var s := run[|run| - 1];
      |s.wire.journal| == since + 1 && exists d :: d in s.tail.yielded && d.at == since + 1 && d != DeltaAt(true, s.wire.journal, since + 1)
  {
    var s0 := Start(j, since, follow);
    var seed := Attribution(j, |j|);
    var other := if seed == Some("a") then "b" else "a";
    var entries := seq(since - |j|, _ => RunRegistered(other, "", 0)) + [COMMIT];
    run := Then(true, [s0], Attach, State(Subscribed(j, since), s0.tail.(attached := true, goal := |j|)));
    run := ThenAppend(true, run, entries);
    var j' := j + entries;
    assert j'[since] == COMMIT && j'[since - 1] == RunRegistered(other, "", 0);
    run := ThenDeliver(true, run, since);
    assert Attribution(j', since + 1) == Attribution(j', since) == Some(other);
    var ds := run[|run| - 1].tail.yielded;
    assert ds[|ds| - 1] in ds && ds[|ds| - 1].at == since + 1;
  }

  /** Within the journal, at every moment. */
  lemma RunFaithful(global: bool, run: seq<State>, i: nat)
    requires Run(global, run) && WithinJournal(run) && i < |run|
    ensures Faithful(global, run[i].wire.journal, run[0].tail.since, run[i].tail.yielded)
  {
    ExactlyOnce(global, run, i);
    SinceStays(global, run, i);
    PrefixFaithful(global, run[i].wire.journal, run[i].tail.since, |run[i].wire.journal|, run[i].tail.yielded);
  }

  lemma {:induction false} SinceStays(global: bool, run: seq<State>, i: nat)
    requires Run(global, run) && i < |run|
    ensures run[i].tail.since == run[0].tail.since && run[i].tail.follow == run[0].tail.follow
  {
    if i > 0 {
      SinceStays(global, run, i - 1);
      assert Leads(global, run[i - 1], run[i - 1 + 1]);
    }
  }

  // The channel of one run carries no attribution, so the follower's watermark can be replaced
  // by any other: every step has a matching step.

  lemma {:induction false} LocalStamped(j: Journal, a: nat, b: nat, run: Option<Id>, other: Option<Id>)
    requires a <= b <= |j|
    ensures Stamped(false, j, a, b, run) == Stamped(false, j, a, b, other)
  {
    if a < b { LocalStamped(j, a, b - 1, run, other); }
  }

  lemma {:induction false} LocalCuts(j: Journal, from: nat, run: Option<Id>, other: Option<Id>, frames: seq<Frame>)
    requires from <= |j| && Cuts(false, j, from, run, frames)
    ensures Cuts(false, j, from, other, frames)
    decreases |frames|
  {
    if frames != [] {
      var mid := frames[0].nextSeq;
      LocalStamped(j, from, mid, run, other);
      LocalCuts(j, mid, Watermark(j, from, mid, run), Watermark(j, from, mid, other), frames[1..]);
    }
  }

  function Marked(w: Wire, run: Option<Id>, after: Option<Id>): Wire {
    if w.server.Following? then w.(server := w.server.(run := run, after := after)) else w
  }

  lemma ServerMarked(w: Wire, m: Move, w': Wire, run: Option<Id>, after: Option<Id>)
    returns (m': Move, run': Option<Id>, after': Option<Id>)
    requires Steps(false, w, m, w')
    ensures Steps(false, Marked(w, run, after), m', Marked(w', run', after'))
  {
    m', run', after' := m, run, after;
    match m
    case Wake(frames, _) =>
      var j, from := w.journal, w.server.cursor;
      if from <= |j| {
        LocalCuts(j, from, w.server.run, run, frames);
        after' := Watermark(j, from, |j|, run);
      } else {
        after' := run;
      }
      m' := Wake(frames, after');
    case Push =>
      if w.server.out[1..] == [] { run' := after; }
    case _ =>
  }

  /** The invariant up to the watermark. */
  ghost predicate LocalInv(s: State) {
    exists run, after :: Inv(false, State(Marked(s.wire, run, after), s.tail))
  }

  lemma LocalKeeps(s: State, e: Event, s': State)
    requires LocalInv(s) && Next(false, s, e, s')
    ensures LocalInv(s')
  {
    var run, after :| Inv(false, State(Marked(s.wire, run, after), s.tail));
    var m := State(Marked(s.wire, run, after), s.tail);
    if e.Server? {
      var move, run', after' := ServerMarked(s.wire, e.move, s'.wire, run, after);
      NextKeeps(false, m, Server(move), State(Marked(s'.wire, run', after'), s'.tail));
    } else if e.Attach? {
      NextKeeps(false, m, e, s');
      var server := s'.wire.server;
      assert Marked(s'.wire, server.run, server.after) == s'.wire;
    } else {
      NextKeeps(false, m, e, State(Marked(s'.wire, run, after), s'.tail));
    }
  }

  /** What reaches the client first is an error or an empty boundary frame, or the follower has
      not looked at the journal yet. */
  ghost predicate Quiet(w: Wire, since: nat) {
    if w.queue != [] then w.queue[0].Broken? || (w.queue[0].frame.deltas == [] && w.queue[0].frame.boundary)
    else w.server.Following? ==>
      if w.server.out == [] then w.server.cursor == since
      else w.server.out[0].deltas == [] && w.server.out[0].boundary
  }

  /** A snapshot that has not met the range after `since`: nothing was handed out, and nothing
      will be unless the journal gets there before the follower looks. */
  ghost predicate Ahead(s: State) {
    var w, t := s.wire, s.tail;
    && t.yielded == [] && !t.follow
    && (t.status == Live ==>
          if !t.attached then t.busy == None && t.cursor == t.since && w.server.Gone? && w.queue == []
          else if t.busy == None then t.cursor == t.since && t.goal <= |w.journal| && Quiet(w, t.since)
          else t.busy.value.rest == [] && t.busy.value.boundary)
  }

  /** An unread follower whose cursor the journal has reached is in step. */
  lemma ReachedIsInv(s: State)
    requires Ahead(s) && s.tail.busy == None && Idle(s, s.tail.since) && s.tail.since <= |s.wire.journal|
    ensures LocalInv(s)
  {
    var j, since := s.wire.journal, s.tail.since;
    var m := Marked(s.wire, Attribution(j, since), None);
    assert InStep(false, m, since);
    assert Inv(false, State(m, s.tail));
  }

  lemma AheadKeeps(s: State, e: Event, s': State)
    requires Ahead(s) && Next(false, s, e, s')
    ensures Ahead(s') || LocalInv(s')
  {
    var t := s.tail;
    if e.Server? && e.move.Wake? && t.status == Live && t.attached && t.busy == None && s.wire.queue == [] && t.since <= |s.wire.journal| {
      ReachedIsInv(s);
      LocalKeeps(s, e, s');
    }
  }

  lemma {:induction false} SnapshotRun(run: seq<State>, i: nat)
    requires Run(false, run) && !run[0].tail.follow && i < |run|
    ensures Ahead(run[i]) || LocalInv(run[i])
  {
    if i > 0 {
      SnapshotRun(run, i - 1);
      assert Leads(false, run[i - 1], run[i - 1 + 1]);
      var e :| Next(false, run[i - 1], e, run[i]);
      if LocalInv(run[i - 1]) {
        LocalKeeps(run[i - 1], e, run[i]);
      } else {
        AheadKeeps(run[i - 1], e, run[i]);
      }
    }
  }

  /** A snapshot of one run is faithful wherever it starts. */
  lemma SnapshotFaithful(run: seq<State>, i: nat)
    requires Run(false, run) && !run[0].tail.follow && i < |run|
    ensures Faithful(false, run[i].wire.journal, run[0].tail.since, run[i].tail.yielded)
  {
    SinceStays(false, run, i);
    SnapshotRun(run, i);
    var w, t := run[i].wire, run[i].tail;
    if LocalInv(run[i]) {
      var mark, after :| Inv(false, State(Marked(w, mark, after), t));
      assert t.yielded <= t.yielded + Owed(t);
      PrefixFaithful(false, w.journal, t.since, Position(t), t.yielded);
    }
  }

  /** The deltas handed out are faithful in every run exactly when the tail starts within the
      journal, or is a snapshot of one run. */
  lemma ResumeExactIff(global: bool, j: Journal, since: nat, follow: bool)
    ensures (forall run: seq<State>, i :: Run(global, run) && run[0] == Start(j, since, follow) && 0 <= i < |run| ==>
               Faithful(global, run[i].wire.journal, since, run[i].tail.yielded))
       <==> since <= |j| || (!follow && !global)
  {
    if since <= |j| || (!follow && !global) {
      forall run: seq<State>, i | Run(global, run) && run[0] == Start(j, since, follow) && 0 <= i < |run|
        ensures Faithful(global, run[i].wire.journal, since, run[i].tail.yielded)
      {
        if since <= |j| {
          RunFaithful(global, run, i);
        } else {
          SnapshotFaithful(run, i);
        }
      }
    } else if follow {
      var run := FollowRepeats(global, j, since);
      assert !Faithful(global, run[|run| - 1].wire.journal, since, run[|run| - 1].tail.yielded);
    } else {
      var run := SeedGoesStale(j, since, follow);
      assert !Faithful(global, run[|run| - 1].wire.journal, since, run[|run| - 1].tail.yielded);
    }
  }

  /** No delta is handed out twice: their sequence numbers strictly increase. */
  lemma NeverTwice(global: bool, run: seq<State>, i: nat, a: nat, b: nat)
    requires Run(global, run) && WithinJournal(run) && i < |run| && a < b < |run[i].tail.yielded|
    ensures run[i].tail.since < run[i].tail.yielded[a].at < run[i].tail.yielded[b].at
  {
    ExactlyOnce(global, run, i);
    var w, t := run[i].wire, run[i].tail;
    var all := Surfaced(global, w.journal, t.since, |w.journal|);
    SurfacedExact(global, w.journal, t.since, |w.journal|);
    assert t.yielded[a] == all[a] && t.yielded[b] == all[b] && all[a] in all;
  }

  /** A snapshot that stops at a boundary has handed out everything that was in the journal
      when it subscribed. */
  lemma SnapshotComplete(global: bool, run: seq<State>, i: nat, n: nat)
    requires Run(global, run) && WithinJournal(run) && i < |run| && run[i].tail.status == DoneAtBoundary
    requires run[i].tail.since < n <= run[i].tail.goal <= |run[i].wire.journal| && Surfaces(global, run[i].wire.journal[n - 1])
    ensures DeltaAt(global, run[i].wire.journal, n) in run[i].tail.yielded
  {
    RunKeeps(global, run, i);
    ExactlyOnce(global, run, i);
    SurfacedExact(global, run[i].wire.journal, run[i].tail.since, run[i].tail.cursor);
  }

  /** A snapshot subscribes once: after its subscription ends, by a boundary, by the end of the
      stream or by an error, it is over. */
  lemma {:induction false} SnapshotSubscribesOnce(global: bool, run: seq<State>, i: nat, k: nat)
    requires Run(global, run) && !run[0].tail.follow && i <= k < |run| && run[i].tail.attached
    ensures run[k].tail.attached || run[k].tail.status != Live
    ensures run[k].tail.status != Live ==> !run[k].tail.attached
  {
    SinceStays(global, run, k);
    if i < k {
      SnapshotSubscribesOnce(global, run, i, k - 1);
      SinceStays(global, run, k - 1);
      assert Leads(global, run[k - 1], run[k - 1 + 1]);
    } else {
      AttachedIsLive(global, run, k);
    }
  }

  lemma {:induction false} AttachedIsLive(global: bool, run: seq<State>, k: nat)
    requires Run(global, run) && k < |run|
    ensures run[k].tail.attached ==> run[k].tail.status == Live
  {
    if k > 0 {
      AttachedIsLive(global, run, k - 1);
      assert Leads(global, run[k - 1], run[k - 1 + 1]);
    }
  }

  /** A following tail is live, or was thrown by something other than a catch-up drop. */
  ghost predicate StaysLive(t: Tail) {
    && (t.busy.Some? ==> t.attached)
    && (t.follow ==> t.status == Live || (t.status.Threw? && t.status.code != ResourceExhausted))
  }

  lemma NextStaysLive(global: bool, s: State, e: Event, s': State)
    requires StaysLive(s.tail) && Next(global, s, e, s')
    ensures StaysLive(s'.tail) && s'.tail.follow == s.tail.follow
  {
  }

  lemma {:induction false} RunStaysLive(global: bool, run: seq<State>, i: nat)
    requires Run(global, run) && i < |run|
    ensures StaysLive(run[i].tail) && run[i].tail.follow == run[0].tail.follow
  {
    if i > 0 {
      RunStaysLive(global, run, i - 1);
      assert Leads(global, run[i - 1], run[i - 1 + 1]);
      var e :| Next(global, run[i - 1], e, run[i]);
      NextStaysLive(global, run[i - 1], e, run[i]);
    }
  }

  /** The state after subscribing again. */
  function Reattached(s: State): State {
    State(Subscribed(s.wire.journal, s.tail.cursor), s.tail.(attached := true, goal := |s.wire.journal|))
  }

  /** In every run, a following tail never ends and is never thrown by a catch-up drop,
      whether the drop comes from the connection or through the queue. Whenever it has lost its
      subscription it can go on: subscribing again at its cursor continues the run with what was
      yielded, and the new subscription starts exactly where the yielded deltas end. */
  lemma CatchUpResumes(global: bool, run: seq<State>)
    requires Run(global, run) && run[0].tail.follow
    ensures var t := run[|run| - 1].tail;
      && t.status != DoneAtBoundary && t.status != DoneAtEnd && t.status != Threw(ResourceExhausted)
      && (t.status == Live && !t.attached ==>
            var s := Reattached(run[|run| - 1]);
            && Run(global, run + [s]) && s.tail.yielded == t.yielded && s.tail.cursor == t.cursor
            && (WithinJournal(run) ==>
                  && t.since <= t.cursor <= |s.wire.journal| && InStep(global, s.wire, t.cursor)
                  && t.yielded == Surfaced(global, s.wire.journal, t.since, t.cursor)))
  {
    var last := run[|run| - 1];
    RunStaysLive(global, run, |run| - 1);
    if last.tail.status == Live && !last.tail.attached {
      assert Next(global, last, Attach, Reattached(last));
      RunExtends(global, run, Reattached(last));
      if WithinJournal(run) {
        ExactlyOnce(global, run, |run| - 1);
        SubscribedInStep(global, last.wire.journal, last.tail.cursor);
      }
    }
  }
}
