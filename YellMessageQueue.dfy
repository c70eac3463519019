/** The outbound yell queue: a FIFO of (channel, text) entries drained by one
    consumer loop that respects a single cooldown deadline.

    The consumer's behaviour is given twice, once as pure transitions over
    `QueueState` (`Iterate`, `Apply`, `Run`), about which the multi-step
    properties are proved, and once as the `YellMessageQueue` class whose
    methods are proved to perform exactly those transitions. Time is an
    explicit input: `now` is the clock reading at the top of an iteration and
    `at` the reading taken inside the failure callback. */
module YellQueue {
  import opened Common

  type ChannelId = string

  datatype QueuedMessage = QueuedMessage(channel: ChannelId, message: string)

  /** How Discord answered one `sendMessage(...).queue(...)` call. */
  datatype SendOutcome =
    | Success
    | RateLimited(retryAfter: int)     // a RateLimitedException reached the failure callback
    | Other(text: Option<string>)      // any other failure, with its (possibly null) message
    | Threw                            // sendMessage threw before anything was queued

  /** The fallback rate-limit detector looks for this text in a failure's message. */
  const RATE_LIMIT_TEXT: string := "rate limit"
  /** Cooldown applied when only the fallback detector fired. */
  const FALLBACK_COOLDOWN_MS: int := 5000
  /** Pause after every send that was handed to Discord. */
  const SEND_PACING_MS: int := 1000
  /** Pause when the queue was found empty. */
  const EMPTY_POLL_MS: int := 100
  /** `new LinkedBlockingQueue<>()` is bounded by Integer.MAX_VALUE; `offer`
      on a full queue drops the element. */
  const QUEUE_CAPACITY: int := INT_MAX

  datatype QueueState = QueueState(queue: seq<QueuedMessage>, running: bool, rateLimitUntil: int)

  /** What one pass of the consumer loop did. */
  datatype Iteration =
    | Exited                           // `running` was false: the loop ends
    | CooledDown(sleepMs: int)         // inside the cooldown: slept until the deadline
    | Idled                            // nothing to send: slept EMPTY_POLL_MS
    | Issued(m: QueuedMessage, paced: bool)  // polled `m` and handed it to Discord

  /** BlockingQueue.offer. */
  function Offer(q: seq<QueuedMessage>, m: QueuedMessage): seq<QueuedMessage> {
    if |q| < QUEUE_CAPACITY then q + [m] else q
  }

  /** A failure the fallback detector treats as a rate limit. */
  predicate MentionsRateLimit(text: Option<string>) {
    text.Some? && Contains(text.value, RATE_LIMIT_TEXT)
  }

  /** Whether an outcome puts the message back at the tail. */
  predicate Requeues(outcome: SendOutcome) {
    outcome.RateLimited? || (outcome.Other? && MentionsRateLimit(outcome.text))
  }

  /** The send callbacks for message `m`, run at clock reading `at`. */
  function AfterSend(s: QueueState, m: QueuedMessage, outcome: SendOutcome, at: int): QueueState {
    match outcome
    case RateLimited(retryAfter) =>
      s.(rateLimitUntil := at + retryAfter, queue := Offer(s.queue, m))
    case Other(text) =>
      if MentionsRateLimit(text)
      then s.(rateLimitUntil := at + FALLBACK_COOLDOWN_MS, queue := Offer(s.queue, m))
      else s
    case _ => s
  }

  /** One pass of `processMessages`' loop body. */
  function Iterate(s: QueueState, now: int, outcome: SendOutcome, at: int): (QueueState, Iteration) {
    if !s.running then (s, Exited)
    else if now < s.rateLimitUntil then (s, CooledDown(s.rateLimitUntil - now))
    else if |s.queue| == 0 then (s, Idled)
    else
      var m := s.queue[0];
      (AfterSend(s.(queue := s.queue[1..]), m, outcome, at), Issued(m, !outcome.Threw?))
  }

  /** Everything that can happen to the queue, in the order it happens. */
  datatype Event =
    | Enqueue(m: QueuedMessage)
    | ClearAll
    | StartProcessor
    | StopProcessor
    | Step(now: int, outcome: SendOutcome, at: int)

  function Apply(s: QueueState, e: Event): (QueueState, Iteration) {
    match e
    case Enqueue(m) => (s.(queue := Offer(s.queue, m)), Idled)
    case ClearAll => (s.(queue := []), Idled)
    case StartProcessor => (s.(running := true), Idled)
    case StopProcessor => (s.(running := false), Idled)
    case Step(now, outcome, at) => Iterate(s, now, outcome, at)
  }

  function SentBy(it: Iteration): seq<QueuedMessage> {
    if it.Issued? then [it.m] else []
  }

  /** The state after `events`, and the messages handed to Discord, in order. */
  function Run(s: QueueState, events: seq<Event>): (QueueState, seq<QueuedMessage>)
    decreases |events|
  {
    if |events| == 0 then (s, [])
    else
      var prev := Run(s, events[..|events| - 1]);
      var next := Apply(prev.0, events[|events| - 1]);
      (next.0, prev.1 + SentBy(next.1))
  }

  /** The messages of the Enqueue events, in order. */
  function Enqueued(events: seq<Event>): seq<QueuedMessage>
    decreases |events|
  {
    if |events| == 0 then []
    else
      var e := events[|events| - 1];
      Enqueued(events[..|events| - 1]) + (if e.Enqueue? then [e.m] else [])
  }

  // -----------------------------------------------------------------------
  // Properties of single iterations
  // -----------------------------------------------------------------------

  /** A pass inside the cooldown sleeps exactly until the deadline and
      changes nothing. */
  lemma CooldownStep(s: QueueState, now: int, outcome: SendOutcome, at: int)
    requires s.running && now < s.rateLimitUntil
    ensures Iterate(s, now, outcome, at) == (s, CooledDown(s.rateLimitUntil - now))
    ensures Iterate(s, now, outcome, at).1.sleepMs > 0
  {
  }

  /** A pass over an empty queue changes nothing. */
  lemma EmptyQueueStep(s: QueueState, now: int, outcome: SendOutcome, at: int)
    requires s.running && s.rateLimitUntil <= now && s.queue == []
    ensures Iterate(s, now, outcome, at) == (s, Idled)
  {
  }

  /** A RateLimitedException moves the deadline to `at + retryAfter` and puts
      the message behind everything already waiting. */
  lemma RateLimitedRequeues(s: QueueState, now: int, retryAfter: int, at: int)
    requires s.running && s.rateLimitUntil <= now && 0 < |s.queue| <= QUEUE_CAPACITY
    ensures Iterate(s, now, RateLimited(retryAfter), at).0
         == s.(queue := s.queue[1..] + [s.queue[0]], rateLimitUntil := at + retryAfter)
  {
  }

  /** The fallback detector re-queues with a fixed five-second cooldown. */
  lemma FallbackRateLimitRequeues(s: QueueState, now: int, text: string, at: int)
    requires s.running && s.rateLimitUntil <= now && 0 < |s.queue| <= QUEUE_CAPACITY
    requires Contains(text, RATE_LIMIT_TEXT)
    ensures Iterate(s, now, Other(Some(text)), at).0
         == s.(queue := s.queue[1..] + [s.queue[0]], rateLimitUntil := at + FALLBACK_COOLDOWN_MS)
  {
  }

  /** Any other outcome removes the head for good and leaves the deadline;
      only a synchronous throw skips the pacing pause. */
  lemma OtherOutcomesDrop(s: QueueState, now: int, outcome: SendOutcome, at: int)
    requires s.running && s.rateLimitUntil <= now && |s.queue| > 0
    requires !Requeues(outcome)
    ensures Iterate(s, now, outcome, at) == (s.(queue := s.queue[1..]), Issued(s.queue[0], !outcome.Threw?))
  {
  }

  // -----------------------------------------------------------------------
  // Properties of runs
  // -----------------------------------------------------------------------

  /** No event grows the queue by more than one. */
  lemma {:induction false} RunGrowth(s: QueueState, events: seq<Event>)
    ensures |Run(s, events).0.queue| <= |s.queue| + |events|
    decreases |events|
  {
    if |events| > 0 {
      RunGrowth(s, events[..|events| - 1]);
    }
  }

  /** One event of a FIFO run: what was sent followed by what waits grows
      by the enqueued message, if any, and is otherwise unchanged. */
  lemma FifoStep(q: QueueState, sent: seq<QueuedMessage>, e: Event)
    requires !e.ClearAll? && (e.Step? ==> !Requeues(e.outcome))
    requires |q.queue| < QUEUE_CAPACITY
    ensures var next := Apply(q, e);
      sent + SentBy(next.1) + next.0.queue == sent + q.queue + (if e.Enqueue? then [e.m] else [])
  {
    match e
    case Enqueue(m) =>
      assert sent + (q.queue + [m]) == (sent + q.queue) + [m];
    case Step(now, outcome, at) =>
      var it := Iterate(q, now, outcome, at);
      if it.1.Issued? {
        assert it.0.queue == q.queue[1..];
        assert q.queue == [q.queue[0]] + q.queue[1..];
        assert sent + [q.queue[0]] + q.queue[1..] == sent + q.queue;
      }
    case StartProcessor =>
    case StopProcessor =>
  }

  /** FIFO: when nothing is cleared and no send is re-queued, the messages
      handed to Discord followed by those still waiting are exactly the
      initial queue followed by everything enqueued, in order. In
      particular messages are sent in the order they were enqueued. */
  lemma {:induction false} Fifo(s: QueueState, events: seq<Event>)
    requires forall i | 0 <= i < |events| :: !events[i].ClearAll?
    requires forall i | 0 <= i < |events| :: events[i].Step? ==> !Requeues(events[i].outcome)
    requires |s.queue| + |events| <= QUEUE_CAPACITY
    ensures Run(s, events).1 + Run(s, events).0.queue == s.queue + Enqueued(events)
    decreases |events|
  {
    if |events| > 0 {
      var init := events[..|events| - 1];
      var e := events[|events| - 1];
      Fifo(s, init);
      RunGrowth(s, init);
      var prev := Run(s, init);
      FifoStep(prev.0, prev.1, e);
      var added := if e.Enqueue? then [e.m] else [];
      assert Enqueued(events) == Enqueued(init) + added;
      assert s.queue + Enqueued(init) + added == s.queue + (Enqueued(init) + added);
    }
  }

  /** While every pass of the loop reads a clock before the deadline, nothing
      is sent and the deadline stays where it was, whatever is enqueued,
      cleared, started or stopped meanwhile. */
  lemma {:induction false} CooldownHoldsBack(s: QueueState, events: seq<Event>)
    requires forall i | 0 <= i < |events| :: events[i].Step? ==> events[i].now < s.rateLimitUntil
    ensures Run(s, events).1 == []
    ensures Run(s, events).0.rateLimitUntil == s.rateLimitUntil
    decreases |events|
  {
    if |events| > 0 {
      var init := events[..|events| - 1];
      CooldownHoldsBack(s, init);
    }
  }

  /** Stopping the processor ends every later pass until it is started again. */
  lemma {:induction false} StoppedSendsNothing(s: QueueState, events: seq<Event>)
    requires !s.running
    requires forall i | 0 <= i < |events| :: !events[i].StartProcessor?
    ensures Run(s, events).1 == []
    ensures !Run(s, events).0.running
    ensures Run(s, events).0.rateLimitUntil == s.rateLimitUntil
    decreases |events|
  {
    if |events| > 0 {
      StoppedSendsNothing(s, events[..|events| - 1]);
    }
  }

  function Steps(ticks: seq<(int, SendOutcome, int)>): (events: seq<Event>)
    ensures |events| == |ticks|
    ensures forall i | 0 <= i < |ticks| :: events[i] == Step(ticks[i].0, ticks[i].1, ticks[i].2)
  {
    seq(|ticks|, i requires 0 <= i < |ticks| => Step(ticks[i].0, ticks[i].1, ticks[i].2))
  }

  // -----------------------------------------------------------------------
  // The queue object
  // -----------------------------------------------------------------------

  class YellMessageQueue {
    var messageQueue: seq<QueuedMessage>
    var running: bool
    var rateLimitUntil: int
    /** How many processor threads `start` has created. */
    var processorThreadsStarted: nat

    function State(): QueueState
      reads this
    {
      QueueState(messageQueue, running, rateLimitUntil)
    }

    constructor ()
      ensures messageQueue == [] && !running && rateLimitUntil == 0
      ensures processorThreadsStarted == 0
    {
      messageQueue := [];
      running := false;
      rateLimitUntil := 0;
      processorThreadsStarted := 0;
    }

    /** A second `start` while running creates no second thread. */
    method Start()
      modifies this`running, this`processorThreadsStarted
      ensures running
      ensures old(running) ==> processorThreadsStarted == old(processorThreadsStarted)
      ensures !old(running) ==> processorThreadsStarted == old(processorThreadsStarted) + 1
      ensures State() == Apply(old(State()), StartProcessor).0
    {
      if running {
        return;
      }
      running := true;
      processorThreadsStarted := processorThreadsStarted + 1;
    }

    method Stop()
      modifies this`running
      ensures !running
      ensures State() == Apply(old(State()), StopProcessor).0
    {
      running := false;
    }

    method QueueMessage(channel: ChannelId, message: string)
      modifies this`messageQueue
      ensures |old(messageQueue)| < QUEUE_CAPACITY ==>
        messageQueue == old(messageQueue) + [QueuedMessage(channel, message)]
      ensures State() == Apply(old(State()), Enqueue(QueuedMessage(channel, message))).0
    {
      messageQueue := Offer(messageQueue, QueuedMessage(channel, message));
    }

    method ClearMessages() returns (clearedCount: int)
      modifies this`messageQueue
      ensures clearedCount == |old(messageQueue)| && messageQueue == []
      ensures State() == Apply(old(State()), ClearAll).0
    {
      clearedCount := |messageQueue|;
      messageQueue := [];
    }

    method GetQueueSize() returns (size: int)
      ensures size == |messageQueue|
    {
      size := |messageQueue|;
    }

    /** One pass of the consumer loop; the failure callback is folded into
        the pass, reading the clock as `at`. */
    method ProcessOnce(now: int, outcome: SendOutcome, at: int) returns (it: Iteration)
      modifies this`messageQueue, this`rateLimitUntil
      ensures (State(), it) == Iterate(old(State()), now, outcome, at)
    {
      if !running {
        return Exited;
      }
      if now < rateLimitUntil {
        return CooledDown(rateLimitUntil - now);
      }
      if |messageQueue| == 0 {
        return Idled;
      }
      var m := messageQueue[0];
      messageQueue := messageQueue[1..];
      match outcome {
        case RateLimited(retryAfter) =>
          rateLimitUntil := at + retryAfter;
          messageQueue := Offer(messageQueue, m);
        case Other(text) =>
          if MentionsRateLimit(text) {
            rateLimitUntil := at + FALLBACK_COOLDOWN_MS;
            messageQueue := Offer(messageQueue, m);
          }
        case _ =>
      }
      return Issued(m, !outcome.Threw?);
    }

    /** `processMessages`: passes of the loop, one per clock reading, while
        `running` holds; returns the messages handed to Discord. */
    method ProcessMessages(ticks: seq<(int, SendOutcome, int)>) returns (sent: seq<QueuedMessage>)
      modifies this`messageQueue, this`rateLimitUntil
      ensures (State(), sent) == Run(old(State()), Steps(ticks))
    {
      sent := [];
      var i := 0;
      while i < |ticks| && running
        invariant 0 <= i <= |ticks|
        invariant (State(), sent) == Run(old(State()), Steps(ticks[..i]))
      {
        var it := ProcessOnce(ticks[i].0, ticks[i].1, ticks[i].2);
        assert Steps(ticks[..i + 1])[..i] == Steps(ticks[..i]);
        sent := sent + SentBy(it);
        i := i + 1;
      }
      if i < |ticks| {
        StoppedRestIsExit(old(State()), ticks, i);
      }
      assert ticks[..|ticks|] == ticks;
    }
  }

  /** Once the loop has seen `running` false, the remaining passes all exit. */
  lemma {:induction false} StoppedRestIsExit(s: QueueState, ticks: seq<(int, SendOutcome, int)>, i: nat)
    requires i <= |ticks| && !Run(s, Steps(ticks[..i])).0.running
    ensures Run(s, Steps(ticks)) == Run(s, Steps(ticks[..i]))
    decreases |ticks| - i
  {
    if i < |ticks| {
      var evs := Steps(ticks[..i + 1]);
      assert evs[..i] == Steps(ticks[..i]);
      var prev := Run(s, Steps(ticks[..i]));
      assert Apply(prev.0, evs[i]) == (prev.0, Exited);
      assert prev.1 + SentBy(Exited) == prev.1;
      assert Run(s, evs) == prev;
      StoppedRestIsExit(s, ticks, i + 1);
    } else {
      assert ticks[..i] == ticks;
    }
  }
}
