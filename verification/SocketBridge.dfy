/** `socketMessages`: an event-emitter socket bridged to an async iterator through a queue, a
    `done` flag, an error slot and one wake slot. Callbacks run between the consumer's steps;
    a resolved promise resumes the consumer at some later step. */
module SocketBridge {
  type Message = string

  /** A value passed to the error callback. JavaScript code may pass `null`. */
  datatype Thrown = Null | Something(text: string)

  /** Where the generator stands: about to run its loop body, suspended on the promise,
      resolved but not yet resumed, or finished. */
  datatype Consumer = Running | Suspended | Resolved | Returned | Raised(text: string)

  datatype State = State(
    queue: seq<Message>, wake: bool, isDone: bool, err: Thrown, consumer: Consumer,
    yielded: seq<Message>, arrived: seq<Message>, closed: bool)

  datatype Event = OnMessage(m: Message) | OnClose | OnError(e: Thrown) | Step

  function Start(): State {
    State([], false, false, Null, Running, [], [], false)
  }

  /** `bump`: resolve the waiting promise, if there is one, and clear the slot. */
  function Bump(s: State): State {
    if s.wake then s.(wake := false, consumer := if s.consumer == Suspended then Resolved else s.consumer) else s
  }

  /** How the generator ends once the loop is left. */
  function Ending(err: Thrown): Consumer {
    match err case Null => Returned case Something(t) => Raised(t)
  }

  /** The consumer's next step: yield the front of the queue, finish, or suspend. */
  function Advance(s: State): State {
    match s.consumer
    case Running =>
      if s.queue != [] then s.(yielded := s.yielded + [s.queue[0]], queue := s.queue[1..])
      else if s.isDone then
        s.(closed := true, consumer := Ending(s.err))
      else s.(wake := true, consumer := Suspended)
    case Resolved => s.(consumer := Running)
    case _ => s
  }

  function Next(s: State, e: Event): State {
    match e
    case OnMessage(m) => Bump(s.(queue := s.queue + [m], arrived := s.arrived + [m]))
    case OnClose => Bump(s.(isDone := true))
    case OnError(x) => Bump(s.(err := x, isDone := true))
    case Step => Advance(s)
  }

  /** The state after a history of events, oldest first. */
  function After(events: seq<Event>): State {
    if events == [] then Start() else Next(After(events[..|events| - 1]), events[|events| - 1])
  }

  predicate Finished(s: State) {
    s.consumer.Returned? || s.consumer.Raised?
  }

  ghost predicate Inv(s: State) {
    && s.yielded + s.queue == s.arrived
    && (s.wake <==> s.consumer == Suspended)
    && (s.consumer == Suspended ==> s.queue == [] && !s.isDone)
    && (Finished(s) ==> s.isDone)
    && (s.closed <==> Finished(s))
  }

  lemma NextKeeps(s: State, e: Event)
    requires Inv(s)
    ensures Inv(Next(s, e))
  {
    match e
    case OnMessage(m) => assert s.yielded + (s.queue + [m]) == s.yielded + s.queue + [m];
    case OnClose =>
    case OnError(_) =>
    case Step =>
      if s.consumer == Running && s.queue != [] {
        assert s.yielded + s.queue == (s.yielded + [s.queue[0]]) + s.queue[1..];
      }
  }

  lemma {:induction false} AfterKeeps(events: seq<Event>)
    ensures Inv(After(events))
  {
    if events != [] {
      AfterKeeps(events[..|events| - 1]);
      NextKeeps(After(events[..|events| - 1]), events[|events| - 1]);
    }
  }

  /** What has arrived, read off the history. */
  function Arrivals(events: seq<Event>): seq<Message> {
    if events == [] then []
    else
      var before, e := Arrivals(events[..|events| - 1]), events[|events| - 1];
      if e.OnMessage? then before + [e.m] else before
  }

  lemma {:induction false} ArrivedIsHistory(events: seq<Event>)
    ensures After(events).arrived == Arrivals(events)
  {
    if events != [] { ArrivedIsHistory(events[..|events| - 1]); }
  }

  /** In every interleaving the messages handed out are, in arrival order and once each, a
      prefix of those that arrived; the rest is queued. */
  lemma InOrderOnce(events: seq<Event>)
    ensures After(events).yielded + After(events).queue == Arrivals(events)
  {
    AfterKeeps(events);
    ArrivedIsHistory(events);
  }

  /** No lost wakeup: a consumer that waits on its promise has a live wake slot and nothing
      to do, so the next callback of any kind resolves it. */
  lemma NoLostWakeup(events: seq<Event>, e: Event)
    requires After(events).consumer == Suspended && e != Step
    ensures var s := After(events); s.wake && s.queue == [] && !s.isDone
    ensures Next(After(events), e).consumer == Resolved
  {
    AfterKeeps(events);
  }

  // ------------------------------------------------------------------ ending

  /** The socket is done exactly when it was closed or reported an error. */
  lemma {:induction false} DoneIsHistory(events: seq<Event>)
    ensures After(events).isDone <==> exists i :: 0 <= i < |events| && (events[i].OnClose? || events[i].OnError?)
  {
    if events != [] {
      var n := |events| - 1;
      DoneIsHistory(events[..n]);
      if After(events[..n]).isDone {
        var i :| 0 <= i < n && (events[..n][i].OnClose? || events[..n][i].OnError?);
        assert events[i] == events[..n][i];
      } else {
        assert forall i :: 0 <= i < n ==> events[i] == events[..n][i];
      }
    }
  }

  function Steps(s: State, n: nat): State
    decreases n
  {
    if n == 0 then s else Steps(Advance(s), n - 1)
  }

  lemma {:induction false} Drains(s: State, n: nat)
    requires Inv(s) && s.isDone && s.consumer == Running
    ensures var f := Steps(s, |s.queue| + 1);
      f.yielded == s.yielded + s.queue && f.queue == [] && f.closed && f.consumer == Ending(s.err)
    ensures n <= |s.queue| ==> Steps(s, n).consumer == Running && Steps(s, n).yielded == s.yielded + s.queue[..n]
    decreases |s.queue|
  {
    if s.queue == [] {
      assert Steps(s, 1) == Steps(Advance(s), 0);
      assert s.yielded + s.queue == s.yielded;
    } else {
      var s1 := Advance(s);
      NextKeeps(s, Step);
      assert s1.yielded + s1.queue == s.yielded + s.queue;
      if 0 < n <= |s.queue| {
        Drains(s1, n - 1);
        assert s1.yielded + s1.queue[..n - 1] == s.yielded + s.queue[..n];
      } else {
        Drains(s1, 0);
      }
    }
    assert s.yielded + s.queue[..0] == s.yielded;
  }

  /** The errors reported before the consumer ended, newest last. */
  function LastError(events: seq<Event>): Thrown {
    if events == [] then Null
    else
      var e := events[|events| - 1];
      if e.OnError? then e.e else LastError(events[..|events| - 1])
  }

  lemma {:induction false} ErrIsLastError(events: seq<Event>)
    ensures After(events).err == LastError(events)
  {
    if events != [] { ErrIsLastError(events[..|events| - 1]); }
  }

  /** In every history, once the socket is done a consumer that has not ended needs no further
      callback, whether it runs or was resolved and not yet resumed: left to itself it hands
      out everything that arrived, in order, does not end before, and then ends, once, as the
      last reported error says. */
  lemma DrainsThenEnds(events: seq<Event>, n: nat)
    requires After(events).isDone && !Finished(After(events))
    ensures var s := After(events);
      var steps := |s.queue| + 1 + if s.consumer == Resolved then 1 else 0;
      var f := Steps(s, steps);
      && f.yielded == Arrivals(events) && f.queue == [] && f.closed && f.consumer == Ending(LastError(events))
      && (n < steps ==> !Finished(Steps(s, n)))
  {
    var s := After(events);
    AfterKeeps(events);
    InOrderOnce(events);
    ErrIsLastError(events);
    if s.consumer == Resolved {
      NextKeeps(s, Step);
      Drains(Advance(s), if n > 0 then n - 1 else 0);
    } else {
      Drains(s, n);
    }
  }

  /** A consumer that is about to end raises exactly when the last value reported to the error
      callback is not `null`. */
  lemma EndsByRaising(events: seq<Event>)
    requires After(events).consumer == Running && After(events).queue == [] && After(events).isDone
    ensures Advance(After(events)).consumer.Raised? <==> LastError(events) != Null
    ensures Advance(After(events)).consumer.Returned? <==> LastError(events) == Null
  {
    ErrIsLastError(events);
  }

  /** An ended consumer stays ended, and its socket has been closed. */
  lemma EndsForGood(events: seq<Event>, e: Event)
    requires Finished(After(events))
    ensures Next(After(events), e).consumer == After(events).consumer && Next(After(events), e).closed
    ensures Next(After(events), e).yielded == After(events).yielded
  {
    AfterKeeps(events);
  }
}
