/** `eventsResult`: waiting for one Mote over the same stream. The verdict is that of the
    first committed or failed delta for the Mote in journal order, whatever the framing, the
    drops and the re-subscriptions. */
module WaitEvents {
  import opened Lists
  import opened EventStream

  datatype Verdict = CommittedWith(resultRef: Option<string>) | FailedRun

  datatype Outcome = Waiting | Settled(verdict: Verdict) | TimedOut | Threw(code: Code)

  datatype Waiter = Waiter(terminal: Id, cursor: nat, attached: bool, outcome: Outcome)

  datatype State = State(wire: Wire, waiter: Waiter)

  datatype Event = Server(move: Move) | Attach | Receive | Ended | Dropped(code: Code) | Deadline

  /** What one delta decides about the Mote. An empty result reference counts as absent. */
  function Decides(terminal: Id, d: Delta): Option<Verdict> {
    match d.fact
    case Committed(mote, ref, _) => if mote == terminal then Some(CommittedWith(if ref == "" then None else Some(ref))) else None
    case Failed(mote, _) => if mote == terminal then Some(FailedRun) else None
    case _ => None
  }

  /** The first decision in a list of deltas. */
  function FirstVerdict(terminal: Id, ds: seq<Delta>): Option<Verdict> {
    if ds == [] then None
    else match Decides(terminal, ds[0])
      case Some(v) => Some(v)
      case None => FirstVerdict(terminal, ds[1..])
  }

  /** An entry that decides the wait: a commit or a failure of the Mote. */
  predicate Decisive(terminal: Id, e: Entry) {
    (e.Committed? || e.Failed?) && e.mote == terminal
  }

  /** The answer a deciding entry gives: failed for a failure; for a commit, committed with its
      own result reference, absent when empty. */
  predicate AnswerIs(e: Entry, v: Verdict) {
    if e.Failed? then v == FailedRun
    else e.Committed? && v == CommittedWith(if e.resultRef == "" then None else Some(e.resultRef))
  }

  ghost predicate DecidesFirst(terminal: Id, ds: seq<Delta>, i: nat) {
    i < |ds| && Decisive(terminal, ds[i].fact) && forall k :: 0 <= k < i ==> !Decisive(terminal, ds[k].fact)
  }

  /** The verdict of a list of deltas is the answer of the first deciding one. */
  lemma {:induction false} FirstVerdictMeaning(terminal: Id, ds: seq<Delta>)
    ensures FirstVerdict(terminal, ds) == None <==> forall i :: 0 <= i < |ds| ==> !Decisive(terminal, ds[i].fact)
    ensures FirstVerdict(terminal, ds).Some? ==>
      exists i: nat :: DecidesFirst(terminal, ds, i) && AnswerIs(ds[i].fact, FirstVerdict(terminal, ds).value)
  {
    if ds != [] {
      if Decisive(terminal, ds[0].fact) {
        assert DecidesFirst(terminal, ds, 0);
      } else {
        var rest := ds[1..];
        FirstVerdictMeaning(terminal, rest);
        assert forall i :: 0 <= i < |rest| ==> rest[i] == ds[i + 1];
        if FirstVerdict(terminal, rest) == None {
          forall i | 0 <= i < |ds| ensures !Decisive(terminal, ds[i].fact) {
            if i > 0 { assert ds[i] == rest[i - 1]; }
          }
        } else {
          var i: nat :| DecidesFirst(terminal, rest, i) && AnswerIs(rest[i].fact, FirstVerdict(terminal, rest).value);
          forall k | 0 <= k < i + 1 ensures !Decisive(terminal, ds[k].fact) {
            if k > 0 { assert ds[k] == rest[k - 1]; }
          }
          assert DecidesFirst(terminal, ds, i + 1);
        }
      }
    }
  }

  /** The scan of one frame. */
  method ScanFrame(terminal: Id, deltas: seq<Delta>) returns (v: Option<Verdict>)
    ensures v == FirstVerdict(terminal, deltas)
    ensures v == None <==> forall i :: 0 <= i < |deltas| ==> !Decisive(terminal, deltas[i].fact)
    ensures v.Some? ==> exists i: nat :: DecidesFirst(terminal, deltas, i) && AnswerIs(deltas[i].fact, v.value)
  {
    FirstVerdictMeaning(terminal, deltas);
    assert deltas[0..] == deltas;
    for i := 0 to |deltas|
      invariant FirstVerdict(terminal, deltas) == FirstVerdict(terminal, deltas[i..])
    {
      assert deltas[i..][1..] == deltas[i + 1..];
      var d := Decides(terminal, deltas[i]);
      if d.Some? { return d; }
    }
    return None;
  }

  lemma {:induction false} FirstVerdictConcat(terminal: Id, a: seq<Delta>, b: seq<Delta>)
    ensures FirstVerdict(terminal, a + b) ==
      if FirstVerdict(terminal, a).Some? then FirstVerdict(terminal, a) else FirstVerdict(terminal, b)
  {
    if a == [] {
      assert a + b == b;
    } else {
      FirstVerdictConcat(terminal, a[1..], b);
      assert (a + b)[1..] == a[1..] + b;
    }
  }

  /** The verdict the journal holds for the Mote, if any. */
  function JournalVerdict(terminal: Id, j: Journal): Option<Verdict> {
    FirstVerdict(terminal, Surfaced(false, j, 0, |j|))
  }

  ghost predicate Init(s: State) {
    s == State(Wire(s.wire.journal, Gone, []), Waiter(s.waiter.terminal, 0, false, Waiting))
  }

  function Detached(w: Wire): Wire {
    Wire(w.journal, Gone, [])
  }

  function Caught(t: Waiter, code: Code): Waiter {
    t.(attached := false,
       outcome := if code == ResourceExhausted then Waiting
                  else if code == DeadlineExceeded || code == Canceled then TimedOut
                  else Threw(code))
  }

  ghost predicate Next(s: State, e: Event, s': State) {
    var w, t := s.wire, s.waiter;
    match e
    case Server(m) => Steps(false, w, m, s'.wire) && s'.waiter == t
    case Attach =>
      && t.outcome == Waiting && !t.attached
      && s' == State(Subscribed(w.journal, t.cursor), t.(attached := true))
    case Receive =>
      && t.outcome == Waiting && t.attached && w.queue != []
      && s' == (match w.queue[0]
                case Broken(code) => State(Detached(w), Caught(t, code))
                case Sent(f) =>
                  match FirstVerdict(t.terminal, f.deltas)
                  case Some(v) => State(Detached(w), t.(attached := false, outcome := Settled(v)))
                  case None => State(w.(queue := w.queue[1..]), t.(cursor := f.nextSeq)))
    case Ended =>
      && t.outcome == Waiting && t.attached && w.queue == [] && w.server.Gone?
      && s' == State(Detached(w), t.(attached := false))
    case Dropped(code) =>
      && t.outcome == Waiting && t.attached
      && s' == State(Detached(w), Caught(t, code))
    case Deadline =>
      && t.outcome == Waiting && !t.attached
      && s' == State(w, t.(outcome := TimedOut))
  }

  ghost predicate Leads(s: State, s': State) {
    exists e :: Next(s, e, s')
  }

  ghost predicate Run(run: seq<State>) {
    run != [] && Init(run[0]) && forall i :: 0 <= i < |run| - 1 ==> Leads(run[i], run[i + 1])
  }

  /** Nothing before the cursor decides; a settled outcome is the journal's first decision. */
  ghost predicate Inv(s: State) {
    var w, t := s.wire, s.waiter;
    && t.cursor <= |w.journal|
    && FirstVerdict(t.terminal, Surfaced(false, w.journal, 0, t.cursor)) == None
    && (t.attached ==> InStep(false, w, t.cursor))
    && (t.outcome.Settled? ==> JournalVerdict(t.terminal, w.journal) == Some(t.outcome.verdict))
  }

  lemma AppendKeeps(s: State, e: Entry)
    requires Inv(s)
    ensures var j := s.wire.journal + [e];
      && FirstVerdict(s.waiter.terminal, Surfaced(false, j, 0, s.waiter.cursor)) == None
      && (s.waiter.outcome.Settled? ==> JournalVerdict(s.waiter.terminal, j) == Some(s.waiter.outcome.verdict))
  {
    var j, t := s.wire.journal, s.waiter;
    SurfacedGrows(false, j, [e], 0, t.cursor);
    SurfacedGrows(false, j, [e], 0, |j|);
    SurfacedSplit(false, j + [e], 0, |j|, |j| + 1);
    FirstVerdictConcat(t.terminal, Surfaced(false, j, 0, |j|), Surfaced(false, j + [e], |j|, |j| + 1));
  }

  lemma ReceiveKeeps(s: State, s': State)
    requires Inv(s) && Next(s, Receive, s')
    ensures Inv(s')
  {
    var w, t := s.wire, s.waiter;
    if w.queue[0].Sent? {
      var f, j := w.queue[0].frame, w.journal;
      TakeKeepsInStep(false, w, t.cursor);
      SurfacedSplit(false, j, 0, t.cursor, f.nextSeq);
      FirstVerdictConcat(t.terminal, Surfaced(false, j, 0, t.cursor), f.deltas);
      SurfacedSplit(false, j, 0, f.nextSeq, |j|);
      FirstVerdictConcat(t.terminal, Surfaced(false, j, 0, f.nextSeq), Surfaced(false, j, f.nextSeq, |j|));
    }
  }

  lemma NextKeeps(s: State, e: Event, s': State)
    requires Inv(s) && Next(s, e, s')
    ensures Inv(s') && s'.waiter.terminal == s.waiter.terminal && s.wire.journal <= s'.wire.journal
  {
    match e
    case Server(m) =>
      if s.waiter.attached { StepKeepsInStep(false, s.wire, m, s'.wire, s.waiter.cursor); }
      if m.Append? { AppendKeeps(s, m.entry); }
    case Attach => SubscribedInStep(false, s.wire.journal, s.waiter.cursor);
    case Receive => ReceiveKeeps(s, s');
    case Ended =>
    case Dropped(_) =>
    case Deadline =>
  }

  lemma LeadsKeeps(s: State, s': State)
    requires Inv(s) && Leads(s, s')
    ensures Inv(s') && s'.waiter.terminal == s.waiter.terminal
  {
    var e :| Next(s, e, s');
    NextKeeps(s, e, s');
  }

  lemma {:induction false} RunKeeps(run: seq<State>, i: nat)
    requires Run(run) && i < |run|
    ensures Inv(run[i]) && run[i].waiter.terminal == run[0].waiter.terminal
  {
    if i > 0 {
      RunKeeps(run, i - 1);
      assert Leads(run[i - 1], run[i - 1 + 1]);
      LeadsKeeps(run[i - 1], run[i]);
    }
  }

  /** `journal[p]` is the first entry that decides the wait. */
  ghost predicate FirstDecision(terminal: Id, j: Journal, p: nat) {
    p < |j| && Decisive(terminal, j[p]) && forall k :: 0 <= k < p ==> !Decisive(terminal, j[k])
  }

  /** The verdict of a journal prefix, over its entries. */
  lemma PrefixVerdict(terminal: Id, j: Journal, b: nat)
    requires b <= |j|
    ensures var v := FirstVerdict(terminal, Surfaced(false, j, 0, b));
      && (v == None ==> forall p :: 0 <= p < b ==> !Decisive(terminal, j[p]))
      && (v.Some? ==> exists p: nat :: FirstDecision(terminal, j, p) && AnswerIs(j[p], v.value))
  {
    var ds := Surfaced(false, j, 0, b);
    FirstVerdictMeaning(terminal, ds);
    var v := FirstVerdict(terminal, ds);
    if v == None {
      Undecided(terminal, j, b, |ds|, b);
    } else {
      var i: nat :| DecidesFirst(terminal, ds, i) && AnswerIs(ds[i].fact, v.value);
      FirstEntry(terminal, j, b, i);
    }
  }

  lemma FirstEntry(terminal: Id, j: Journal, b: nat, i: nat)
    requires b <= |j| && DecidesFirst(terminal, Surfaced(false, j, 0, b), i)
    ensures var d := Surfaced(false, j, 0, b)[i];
      0 < d.at <= b && d.fact == j[d.at - 1] && FirstDecision(terminal, j, d.at - 1)
  {
    var ds := Surfaced(false, j, 0, b);
    SurfacedExact(false, j, 0, b);
    assert ds[i] in ds;
    Undecided(terminal, j, b, i, ds[i].at - 1);
  }

  /** If the first `i` deltas decide nothing, neither do the entries before the next one. */
  lemma Undecided(terminal: Id, j: Journal, b: nat, i: nat, end: nat)
    requires b <= |j| && i <= |Surfaced(false, j, 0, b)| && end <= b
    requires forall k :: 0 <= k < i ==> !Decisive(terminal, Surfaced(false, j, 0, b)[k].fact)
    requires i < |Surfaced(false, j, 0, b)| ==> end < Surfaced(false, j, 0, b)[i].at
    ensures forall p :: 0 <= p < end ==> !Decisive(terminal, j[p])
  {
    var ds := Surfaced(false, j, 0, b);
    SurfacedExact(false, j, 0, b);
    forall p | 0 <= p < end ensures !Decisive(terminal, j[p]) {
      var n := p + 1;
      if Surfaces(false, j[n - 1]) {
        assert DeltaAt(false, j, n) in ds;
        var m :| 0 <= m < |ds| && ds[m] == DeltaAt(false, j, n);
        assert m < i;
      }
    }
  }

  /** In every run, an answer is that of the journal's first commit or failure of the Mote;
      while the wait goes on, no entry up to the cursor is one, so it can only time out or
      throw. */
  lemma VerdictIsFirst(run: seq<State>, i: nat)
    requires Run(run) && i < |run|
    ensures var j, t := run[i].wire.journal, run[i].waiter;
      && t.cursor <= |j|
      && (t.outcome.Settled? ==> exists p: nat :: FirstDecision(t.terminal, j, p) && AnswerIs(j[p], t.outcome.verdict))
      && (t.outcome == Waiting ==> forall p :: 0 <= p < t.cursor ==> !Decisive(t.terminal, j[p]))
  {
    RunKeeps(run, i);
    var j, t := run[i].wire.journal, run[i].waiter;
    PrefixVerdict(t.terminal, j, t.cursor);
    PrefixVerdict(t.terminal, j, |j|);
  }

  /** A wait throws only on a code that is neither a catch-up drop, which it survives, nor a
      deadline or a cancellation, which time it out. */
  lemma {:induction false} ThrowsOnlyOther(run: seq<State>, i: nat)
    requires Run(run) && i < |run|
    ensures run[i].waiter.outcome.Threw? ==> run[i].waiter.outcome.code == OtherCode
  {
    if i > 0 {
      ThrowsOnlyOther(run, i - 1);
      assert Leads(run[i - 1], run[i - 1 + 1]);
    }
  }

  /** Two waits for one Mote over journals one of which extends the other cannot disagree. */
  lemma VerdictsAgree(run: seq<State>, i: nat, run': seq<State>, k: nat)
    requires Run(run) && i < |run| && Run(run') && k < |run'|
    requires run[i].waiter.terminal == run'[k].waiter.terminal && run[i].wire.journal <= run'[k].wire.journal
    requires run[i].waiter.outcome.Settled? && run'[k].waiter.outcome.Settled?
    ensures run[i].waiter.outcome == run'[k].waiter.outcome
  {
    RunKeeps(run, i);
    RunKeeps(run', k);
    var terminal, j, j' := run[i].waiter.terminal, run[i].wire.journal, run'[k].wire.journal;
    assert j' == j + j'[|j|..];
    SurfacedGrows(false, j, j'[|j|..], 0, |j|);
    SurfacedSplit(false, j', 0, |j|, |j'|);
    FirstVerdictConcat(terminal, Surfaced(false, j', 0, |j|), Surfaced(false, j', |j|, |j'|));
  }
}
