/** `JsonlAuditSink` under concurrency: any number of threads call `record`, each drawing a
    number from an atomic counter, serializing outside the lock, appending under the lock,
    and counting the event as dropped on failure. An append is all-or-nothing. */
module AuditSink {
  import opened Lists

  const U64: nat := 0x1_0000_0000_0000_0000

  type Thread = nat
  type Text = string

  /** A numbered line: the ticket it was drawn with and its bytes without the newline. */
  datatype Line = Line(ticket: nat, body: Text)

  /** Where a thread stands inside `record`. */
  datatype Phase =
    | Idle
    | Numbered(ticket: nat)
    | Ready(line: Line)
    | FailedWith(ticket: nat)

  /** `drawn` counts all `fetch_add`s; the 64-bit counter holds it modulo 2^64. `lines` and
      `lost` are the numbers whose record call has ended. `file` is the bytes appended. */
  datatype Sink = Sink(drawn: nat, counter: nat, dropped: nat, threads: map<Thread, Phase>,
                       lines: seq<Line>, lost: seq<nat>, file: Text)

  datatype Event =
    | Draw(t: Thread)
    | Serialize(t: Thread, body: Text)
    | SerializeFails(t: Thread)
    | Append(t: Thread)
    | AppendFails(t: Thread)
    | CountDrop(t: Thread)

  function Start(threads: set<Thread>): Sink {
    Sink(0, 0, 0, map t | t in threads :: Idle, [], [], "")
  }

  function At(s: Sink, t: Thread): Option<Phase> {
    if t in s.threads then Some(s.threads[t]) else None
  }

  function Move(s: Sink, t: Thread, p: Phase): Sink {
    s.(threads := s.threads[t := p])
  }

  /** One atomic step of one thread. */
  ghost predicate Next(s: Sink, e: Event, s': Sink) {
    match e
    case Draw(t) =>
      At(s, t) == Some(Idle) &&
      s' == Move(s, t, Numbered(s.drawn)).(drawn := s.drawn + 1, counter := (s.counter + 1) % U64)
    case Serialize(t, body) =>
      t in s.threads && s.threads[t].Numbered? && '\n' !in body && s' == Move(s, t, Ready(Line(s.threads[t].ticket, body)))
    case SerializeFails(t) =>
      t in s.threads && s.threads[t].Numbered? && s' == Move(s, t, FailedWith(s.threads[t].ticket))
    case Append(t) =>
      t in s.threads && s.threads[t].Ready? &&
      s' == Move(s, t, Idle).(lines := s.lines + [s.threads[t].line], file := s.file + s.threads[t].line.body + "\n")
    case AppendFails(t) =>
      t in s.threads && s.threads[t].Ready? && s' == Move(s, t, FailedWith(s.threads[t].line.ticket))
    case CountDrop(t) =>
      t in s.threads && s.threads[t].FailedWith? &&
      s' == Move(s, t, Idle).(dropped := (s.dropped + 1) % U64, lost := s.lost + [s.threads[t].ticket])
  }

  ghost predicate Leads(s: Sink, s': Sink) {
    exists e :: Next(s, e, s')
  }

  ghost predicate Run(run: seq<Sink>) {
    run != [] && run[0] == Start(run[0].threads.Keys) && forall i :: 0 <= i < |run| - 1 ==> Leads(run[i], run[i + 1])
  }

  // ------------------------------------------------------------------ accounting

  function TicketOf(p: Phase): Option<nat> {
    match p
    case Idle => None
    case Numbered(n) => Some(n)
    case Ready(l) => Some(l.ticket)
    case FailedWith(n) => Some(n)
  }

  function Tickets(lines: seq<Line>): (r: seq<nat>)
    ensures |r| == |lines| && forall i :: 0 <= i < |lines| ==> r[i] == lines[i].ticket
  {
    seq(|lines|, i requires 0 <= i < |lines| => lines[i].ticket)
  }

  /** The threads inside `record`. */
  function InFlight(s: Sink): set<Thread> {
    set t | t in s.threads && TicketOf(s.threads[t]).Some?
  }

  /** The bytes of a list of lines, each ended by a newline. */
  function Flatten(lines: seq<Line>): Text {
    if lines == [] then "" else Flatten(lines[..|lines| - 1]) + lines[|lines| - 1].body + "\n"
  }

  /** Who holds number `n`: a written line, a counted drop, or a thread in flight. */
  ghost predicate Held(s: Sink, n: nat) {
    || n in Tickets(s.lines)
    || n in s.lost
    || exists t :: t in s.threads && TicketOf(s.threads[t]) == Some(n)
  }

  function Number(s: Sink, t: Thread): Option<nat> {
    if t in s.threads then TicketOf(s.threads[t]) else None
  }

  /** Every number drawn so far is held exactly once. */
  ghost predicate Accounted(s: Sink) {
    && |s.lines| + |s.lost| + |InFlight(s)| == s.drawn
    && Distinct(Tickets(s.lines)) && Distinct(s.lost)
    && (forall n :: n in s.lost ==> n < s.drawn && n !in Tickets(s.lines))
    && (forall n :: n in Tickets(s.lines) ==> n < s.drawn)
    && (forall t :: t in InFlight(s) ==>
          Number(s, t).value < s.drawn && Number(s, t).value !in Tickets(s.lines) && Number(s, t).value !in s.lost)
    && (forall t, u :: t in InFlight(s) && u in InFlight(s) && Number(s, t) == Number(s, u) ==> t == u)
    && (forall n: nat :: n < s.drawn ==> Held(s, n))
  }

  /** The file is the written lines, none of which holds a newline. */
  ghost predicate Clean(s: Sink) {
    && s.file == Flatten(s.lines) && (forall l :: l in s.lines ==> '\n' !in l.body)
    && (forall t :: t in s.threads && s.threads[t].Ready? ==> '\n' !in s.threads[t].line.body)
  }

  ghost predicate Inv(s: Sink) {
    && s.counter == s.drawn % U64 && s.dropped == |s.lost| % U64
    && Accounted(s) && Clean(s)
  }

  lemma StartInv(threads: set<Thread>)
    ensures Inv(Start(threads))
  {
    assert InFlight(Start(threads)) == {};
  }

  lemma HeldElsewhere(s: Sink, s': Sink, t: Thread, n: nat)
    requires Held(s, n) && Number(s, t) != Some(n)
    requires forall k :: k in Tickets(s.lines) ==> k in Tickets(s'.lines)
    requires forall k :: k in s.lost ==> k in s'.lost
    requires forall u :: u in s.threads && u != t ==> u in s'.threads && s'.threads[u] == s.threads[u]
    ensures Held(s', n)
  {
    if n !in Tickets(s.lines) && n !in s.lost {
      var u :| u in s.threads && TicketOf(s.threads[u]) == Some(n);
      assert u in s'.threads && TicketOf(s'.threads[u]) == Some(n);
    }
  }

  lemma DrawAccounted(s: Sink, t: Thread, s': Sink)
    requires Inv(s) && Next(s, Draw(t), s')
    ensures Accounted(s')
  {
    assert InFlight(s') == InFlight(s) + {t};
    assert t !in InFlight(s);
    forall u | u in InFlight(s) ensures Number(s', u) == Number(s, u) {
    }
    forall n: nat | n < s'.drawn ensures Held(s', n) {
      if n < s.drawn {
        HeldElsewhere(s, s', t, n);
      } else {
        assert t in s'.threads && TicketOf(s'.threads[t]) == Some(n);
      }
    }
  }

  lemma WrapStep(n: nat)
    ensures (n % U64 + 1) % U64 == (n + 1) % U64
  {
  }

  lemma DrawKeeps(s: Sink, t: Thread, s': Sink)
    requires Inv(s) && Next(s, Draw(t), s')
    ensures Inv(s')
  {
    DrawAccounted(s, t, s');
    WrapStep(s.drawn);
    assert Clean(s');
  }

  /** Changing phase without giving up the number. */
  lemma PhaseKeeps(s: Sink, t: Thread, p: Phase)
    requires Inv(s) && t in s.threads && TicketOf(p) == TicketOf(s.threads[t])
    requires p.Ready? ==> '\n' !in p.line.body
    ensures Inv(Move(s, t, p))
  {
    var s' := Move(s, t, p);
    assert InFlight(s') == InFlight(s);
    forall u ensures Number(s', u) == Number(s, u) {
    }
    forall n: nat | n < s.drawn ensures Held(s', n) {
      assert Held(s, n);
      if n !in Tickets(s.lines) && n !in s.lost {
        var u :| u in s.threads && TicketOf(s.threads[u]) == Some(n);
        assert u in s'.threads && TicketOf(s'.threads[u]) == Some(n);
      }
    }
  }

  lemma TicketsPush(lines: seq<Line>, l: Line)
    ensures Tickets(lines + [l]) == Tickets(lines) + [l.ticket]
  {
  }

  lemma AppendKeeps(s: Sink, t: Thread, s': Sink)
    requires Inv(s) && Next(s, Append(t), s')
    ensures Inv(s')
  {
    var l := s.threads[t].line;
    assert InFlight(s') == InFlight(s) - {t} && t in InFlight(s) && Number(s, t) == Some(l.ticket);
    TicketsPush(s.lines, l);
    assert s'.lines[..|s'.lines| - 1] == s.lines;
    forall u | u in InFlight(s') ensures Number(s', u) == Number(s, u) {
    }
    forall n: nat | n < s.drawn ensures Held(s', n) {
      if n != l.ticket {
        HeldElsewhere(s, s', t, n);
      }
    }
  }

  lemma DistinctPush(xs: seq<nat>, x: nat)
    requires Distinct(xs) && x !in xs
    ensures Distinct(xs + [x]) && forall y :: y in xs + [x] <==> y in xs || y == x
  {
  }

  lemma CountAccounted(s: Sink, t: Thread, s': Sink)
    requires Inv(s) && Next(s, CountDrop(t), s')
    ensures Accounted(s')
  {
    var k := s.threads[t].ticket;
    assert InFlight(s') == InFlight(s) - {t} && t in InFlight(s) && Number(s, t) == Some(k);
    DistinctPush(s.lost, k);
    forall u | u in InFlight(s') ensures Number(s', u) == Number(s, u) {
    }
    forall n: nat | n < s.drawn ensures Held(s', n) {
      if n != k {
        HeldElsewhere(s, s', t, n);
      }
    }
  }

  lemma CountKeeps(s: Sink, t: Thread, s': Sink)
    requires Inv(s) && Next(s, CountDrop(t), s')
    ensures Inv(s')
  {
    CountAccounted(s, t, s');
    WrapStep(|s.lost|);
    assert Clean(s');
  }

  /** Every step of every thread keeps the accounts. */
  lemma NextKeeps(s: Sink, e: Event, s': Sink)
    requires Inv(s) && Next(s, e, s')
    ensures Inv(s') && s'.threads.Keys == s.threads.Keys
  {
    match e
    case Draw(t) => DrawKeeps(s, t, s');
    case Serialize(t, body) => PhaseKeeps(s, t, Ready(Line(s.threads[t].ticket, body)));
    case SerializeFails(t) => PhaseKeeps(s, t, FailedWith(s.threads[t].ticket));
    case Append(t) => AppendKeeps(s, t, s');
    case AppendFails(t) => PhaseKeeps(s, t, FailedWith(s.threads[t].line.ticket));
    case CountDrop(t) => CountKeeps(s, t, s');
  }

  lemma LeadsKeeps(s: Sink, s': Sink)
    requires Inv(s) && Leads(s, s')
    ensures Inv(s')
  {
    var e :| Next(s, e, s');
    NextKeeps(s, e, s');
  }

  lemma {:induction false} RunKeeps(run: seq<Sink>, i: nat)
    requires Run(run) && i < |run|
    ensures Inv(run[i])
  {
    if i == 0 {
      StartInv(run[0].threads.Keys);
    } else {
      RunKeeps(run, i - 1);
      assert Leads(run[i - 1], run[i - 1 + 1]);
      LeadsKeeps(run[i - 1], run[i]);
    }
  }

  // ------------------------------------------------------------------ theorems

  /** At every moment of every interleaving, each number drawn is a written line, a drop or a
      call in progress, and the three together are the number of draws. */
  lemma Conservation(run: seq<Sink>, i: nat, n: nat)
    requires Run(run) && i < |run|
    ensures var s := run[i];
      && |s.lines| + |s.lost| + |InFlight(s)| == s.drawn
      && s.counter == s.drawn % U64 && s.dropped == |s.lost| % U64
      && (Held(s, n) <==> n < s.drawn) && (n in Tickets(s.lines) ==> n !in s.lost)
  {
    RunKeeps(run, i);
    var s := run[i];
    if Held(s, n) && n !in Tickets(s.lines) && n !in s.lost {
      var t :| t in s.threads && TicketOf(s.threads[t]) == Some(n);
      assert t in InFlight(s) && Number(s, t) == Some(n);
    }
  }

  /** With no call in progress and nothing dropped, the numbers in the file are exactly
      0 … N-1, each once. */
  lemma QuiescentGapFree(run: seq<Sink>, i: nat)
    requires Run(run) && i < |run| && InFlight(run[i]) == {} && run[i].lost == []
    ensures var s := run[i];
      && |s.lines| == s.drawn && Distinct(Tickets(s.lines))
      && forall n: nat :: n in Tickets(s.lines) <==> n < s.drawn
  {
    RunKeeps(run, i);
    var s := run[i];
    forall n: nat | n < s.drawn ensures n in Tickets(s.lines) {
      assert Held(s, n);
      assert forall t :: t in s.threads ==> t !in InFlight(s);
    }
  }

  /** The `seq` a line carries on the wire. */
  function WireSeq(l: Line): nat {
    l.ticket % U64
  }

  /** Two lines share a wire `seq` exactly when a whole number of counter cycles lies between
      their draws; up to 2^64 draws all are different. */
  lemma WireSeqUnique(run: seq<Sink>, i: nat, a: nat, b: nat)
    requires Run(run) && i < |run| && a < b < |run[i].lines|
    ensures run[i].lines[a].ticket != run[i].lines[b].ticket
    ensures run[i].drawn <= U64 ==> WireSeq(run[i].lines[a]) != WireSeq(run[i].lines[b])
    ensures WireSeq(run[i].lines[a]) == WireSeq(run[i].lines[b]) <==>
      (run[i].lines[a].ticket - run[i].lines[b].ticket) % U64 == 0
  {
    RunKeeps(run, i);
    var s := run[i];
    var ts := Tickets(s.lines);
    assert ts[a] in ts && ts[b] in ts && ts[a] != ts[b];
    SameRemainder(ts[a], ts[b]);
  }

  lemma SameRemainder(x: nat, y: nat)
    ensures x % U64 == y % U64 <==> (x - y) % U64 == 0
  {
    var q, r := x / U64, x % U64;
    var q', r' := y / U64, y % U64;
    assert x - y == (q - q') * U64 + (r - r');
    if r == r' {
      assert x - y == (q - q') * U64;
    }
    if (x - y) % U64 == 0 {
      var k := (x - y) / U64;
      assert x - y == k * U64;
      assert r - r' == (k - q + q') * U64;
    }
  }

  // ------------------------------------------------------------------ lines never interleave

  function Bodies(lines: seq<Line>): (r: seq<Text>)
    ensures |r| == |lines| && forall i :: 0 <= i < |lines| ==> r[i] == lines[i].body
  {
    seq(|lines|, i requires 0 <= i < |lines| => lines[i].body)
  }

  /** A reader that splits at newlines: the complete lines, given the text of the current one. */
  function ReadLines(text: Text, current: Text): seq<Text> {
    if text == "" then []
    else if text[0] == '\n' then [current] + ReadLines(text[1..], "")
    else ReadLines(text[1..], current + [text[0]])
  }

  lemma {:induction false} ReadOneLine(body: Text, rest: Text, current: Text)
    requires '\n' !in body
    ensures ReadLines(body + "\n" + rest, current) == [current + body] + ReadLines(rest, "")
  {
    var text := body + "\n" + rest;
    if body == "" {
      assert text[1..] == rest && current + body == current;
    } else {
      ReadOneLine(body[1..], rest, current + [body[0]]);
      assert text[1..] == body[1..] + "\n" + rest;
      assert (current + [body[0]]) + body[1..] == current + body;
    }
  }

  lemma {:induction false} ReadBack(lines: seq<Line>, rest: Text)
    requires forall l :: l in lines ==> '\n' !in l.body
    ensures ReadLines(Flatten(lines) + rest, "") == Bodies(lines) + ReadLines(rest, "")
  {
    if lines == [] {
      assert Flatten(lines) + rest == rest;
    } else {
      var init, l := lines[..|lines| - 1], lines[|lines| - 1];
      var more := l.body + "\n" + rest;
      assert Flatten(lines) + rest == Flatten(init) + more;
      ReadBack(init, more);
      ReadOneLine(l.body, rest, "");
      assert "" + l.body == l.body;
      assert Bodies(lines) == Bodies(init) + [l.body];
    }
  }

  /** Reading the file line by line returns exactly the appended lines, whole and in append
      order, in every interleaving. */
  lemma LinesStayWhole(run: seq<Sink>, i: nat)
    requires Run(run) && i < |run|
    ensures ReadLines(run[i].file, "") == Bodies(run[i].lines)
  {
    RunKeeps(run, i);
    ReadBack(run[i].lines, "");
    assert Flatten(run[i].lines) + "" == run[i].file;
  }
}
