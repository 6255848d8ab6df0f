/**
 * The agent control loop (agent/automata.go): encode the input, render the
 * context, call the model, decode the reply, fold Feedback into the state,
 * count the epoch, commit the exchange unless retrying, ask the reasoner
 * and dispatch on the phase it returns.
 *
 * `Step` and `Run` specify the loop one round trip at a time; the method
 * `Prompt` runs it over a stream memory and a clock and is proved to agree
 * with `Run`. The loop is unbounded in the source: here it is explored up
 * to `fuel` round trips, after which the outcome is `Unfinished`.
 */
module Automata {
  import opened Thinker
  import opened Memory
  import opened Reasoners

  /**
   * `thinker.Memory` as the loop uses it: the window `Context` renders over
   * the exchanges memory holds, and whether `Commit` keeps an exchange.
   */
  datatype Mem = Mem(context: (seq<Exchange>, Prompt) -> seq<Message>, keeps: bool)

  /** `memory.NewStream(stratum)`: keeps every commit and renders the whole log. */
  function StreamMemory(stratum: string): Mem {
    Mem((log, p) => Window(stratum, log, p), true)
  }

  /** `memory.NewVoid(stratum)`: keeps nothing and renders the prompt alone. */
  function VoidMemory(stratum: string): Mem {
    Mem((log, p) => Void(stratum).Context(p), false)
  }

  /**
   * The collaborators of an automata. The transport receives the number of
   * calls made so far and the rendered window, so a scripted sequence of
   * replies is one instance.
   */
  datatype Config<!A, !B> = Config(
    encoder: A -> Result<Prompt>,
    transport: (nat, seq<Message>) -> Result<Reply>,
    decoder: Reply -> Decoded<B>,
    reasoner: Reasoner<B>,
    memory: Mem)

  /**
   * The loop's variables between round trips: the phase, epoch and feedback
   * of the state, the current prompt, the exchanges memory held when the
   * window was last rendered (`seen`), the exchanges it holds now, and the
   * number of transport calls made.
   */
  datatype Loop = Loop(phase: Phase, epoch: int, feedback: Option<Feedback>, prompt: Prompt,
                       seen: seq<Exchange>, log: seq<Exchange>, calls: nat)

  datatype Final<B> = Final(outcome: Outcome<B>, log: seq<Exchange>, calls: nat)

  datatype Next<B> = Continue(next: Loop) | Stop(final: Final<B>)

  function NextLog<B>(n: Next<B>): seq<Exchange> {
    match n
    case Continue(l) => l.log
    case Stop(f) => f.log
  }

  function NextCalls<B>(n: Next<B>): nat {
    match n
    case Continue(l) => l.calls
    case Stop(f) => f.calls
  }

  /** The window the loop sends: the context rendered for the prompt when it was set. */
  function WindowOf(m: Mem, l: Loop): seq<Message> {
    m.context(l.seen, l.prompt)
  }

  /** `memory.Commit`: a stream keeps the exchange, the void memory drops it. */
  function Committed(m: Mem, log: seq<Exchange>, e: Exchange): seq<Exchange> {
    if m.keeps then log + [e] else log
  }

  /** A decode error that is not Feedback-shaped ends the loop. */
  predicate Fatal<B>(d: Decoded<B>) {
    d.err.Some? && !d.err.value.FeedbackError?
  }

  /**
   * The state the reasoner sees after a decode: the epoch counted up, the
   * decoded reply and confidence, and the feedback replaced by a Feedback
   * decode error (kept from earlier otherwise).
   */
  function Observed<B>(l: Loop, d: Decoded<B>): State<B> {
    State(l.phase, l.epoch + 1, d.value, d.confidence,
      if d.err.Some? && d.err.value.FeedbackError? then Some(d.err.value.feedback) else l.feedback)
  }

  /** The loop state right after a successful encode. */
  function Start(m: Mem, p: Prompt, log: seq<Exchange>): Loop {
    Loop(Ask, 0, None, p, log, log, 0)
  }

  /** What memory holds after a round trip: the exchange is committed unless retrying. */
  function AfterCommit(m: Mem, l: Loop, reply: Reply): seq<Exchange> {
    if l.phase != Retry then Committed(m, l.log, Exchange(l.prompt, reply)) else l.log
  }

  /** The switch on the reasoner's phase, once memory holds `log`. */
  function Verdict<B>(m: Mem, l: Loop, log: seq<Exchange>, st: State<B>, d: Deduction): Next<B> {
    var n := l.calls + 1;
    if d.err.Some? then Stop(Final(Failed(d.err.value), log, n))
    else
      match d.phase
      case Ask => Continue(Loop(Ask, 0, None, d.prompt, log, log, n))
      case Return => Stop(Final(Returned(st.reply), log, n))
      case Retry => Continue(Loop(Retry, st.epoch, st.feedback, l.prompt, l.seen, log, n))
      case Refine => Continue(Loop(Refine, st.epoch, st.feedback, d.prompt, log, log, n))
      case Abort => Stop(Final(Failed(Aborted(None)), log, n))
      case Unrecognised(_) => Stop(Final(Failed(Aborted(None)), log, n))
  }

  /** The commit of a round trip, then the switch on the reasoner's phase. */
  function Dispatch<B>(m: Mem, l: Loop, reply: Reply, st: State<B>, d: Deduction): Next<B> {
    Verdict(m, l, AfterCommit(m, l, reply), st, d)
  }

  /** One iteration of the loop. */
  function Step<A, B>(c: Config<A, B>, l: Loop): Next<B> {
    var sent := c.transport(l.calls, WindowOf(c.memory, l));
    if sent.Err? then Stop(Final(Failed(LlmFailed(sent.error)), l.log, l.calls + 1))
    else
      var d := c.decoder(sent.value);
      if Fatal(d) then Stop(Final(Failed(d.err.value), l.log, l.calls + 1))
      else
        var st := Observed(l, d);
        Dispatch(c.memory, l, sent.value, st, c.reasoner(st))
  }

  /** At most `fuel` iterations of the loop from `l`. */
  function Run<A, B>(c: Config<A, B>, l: Loop, fuel: nat): Final<B>
    decreases fuel
  {
    if fuel == 0 then Final(Unfinished, l.log, l.calls)
    else
      match Step(c, l)
      case Stop(f) => f
      case Continue(l') => Run(c, l', fuel - 1)
  }

  /** `Automata.Prompt(input)` over a memory holding `log`. */
  function PromptSpec<A, B>(c: Config<A, B>, input: A, log: seq<Exchange>, fuel: nat): Final<B> {
    match c.encoder(input)
    case Err(e) => Final(Failed(e), log, 0)
    case Ok(p) => Run(c, Start(c.memory, p, log), fuel)
  }

  // ---------------------------------------------------------------------
  // One round trip

  /** An encoder failure is returned as it is, before any transport call. */
  lemma EncoderFailureIsReturned<A, B>(c: Config<A, B>, input: A, log: seq<Exchange>, fuel: nat)
    requires c.encoder(input).Err?
    ensures PromptSpec(c, input, log, fuel) == Final(Failed(c.encoder(input).error), log, 0)
  {
  }

  /** A transport failure ends the loop wrapped as an LLM failure, with nothing committed. */
  lemma TransportFailureIsWrapped<A, B>(c: Config<A, B>, l: Loop)
    requires c.transport(l.calls, WindowOf(c.memory, l)).Err?
    ensures Step(c, l) == Stop(Final(Failed(LlmFailed(c.transport(l.calls, WindowOf(c.memory, l)).error)), l.log, l.calls + 1))
  {
  }

  /**
   * A decode error that is not Feedback ends the loop unchanged and
   * uncommitted; otherwise the reasoner is consulted with the epoch one
   * higher, the same phase and the decoded reply, and a Feedback error
   * becomes the state's feedback.
   */
  lemma DecodeOutcome<A, B>(c: Config<A, B>, l: Loop)
    requires c.transport(l.calls, WindowOf(c.memory, l)).Ok?
    ensures var reply := c.transport(l.calls, WindowOf(c.memory, l)).value;
      var d := c.decoder(reply);
      var st := Observed(l, d);
      && (Fatal(d) ==> Step(c, l) == Stop(Final(Failed(d.err.value), l.log, l.calls + 1)))
      && (!Fatal(d) ==> Step(c, l) == Dispatch(c.memory, l, reply, st, c.reasoner(st)))
      && st.phase == l.phase && st.epoch == l.epoch + 1
      && st.reply == d.value && st.confidence == d.confidence
      && (d.err.Some? && !Fatal(d) ==> st.feedback == Some(d.err.value.feedback))
      && (d.err.None? ==> st.feedback == l.feedback)
  {
  }

  /**
   * A stream memory gains the exchange of the current prompt and the reply
   * exactly when the phase is not RETRY; the void memory never gains anything.
   */
  lemma CommitUnlessRetry<B>(m: Mem, l: Loop, reply: Reply, st: State<B>, d: Deduction)
    ensures var log := NextLog(Dispatch(m, l, reply, st, d));
      && (m.keeps ==> (log == l.log + [Exchange(l.prompt, reply)] <==> l.phase != Retry))
      && (m.keeps && l.phase == Retry ==> log == l.log)
      && (!m.keeps ==> log == l.log)
  {
    VerdictKeepsLog(m, l, AfterCommit(m, l, reply), st, d);
    var log := NextLog(Dispatch(m, l, reply, st, d));
    if m.keeps && l.phase == Retry {
      assert |log| != |l.log + [Exchange(l.prompt, reply)]|;
    }
  }

  /**
   * A reasoner error is returned as it is; RETURN yields the decoded reply;
   * ABORT and any phase outside the five abort.
   */
  lemma VerdictEnds<B>(m: Mem, l: Loop, log: seq<Exchange>, st: State<B>, d: Deduction)
    requires d.err.Some? || d.phase in {Return, Abort} || d.phase.Unrecognised?
    ensures var n := Verdict(m, l, log, st, d);
      && (d.err.Some? ==> n == Stop(Final(Failed(d.err.value), log, l.calls + 1)))
      && (d.err.None? && d.phase == Return ==> n == Stop(Final(Returned(st.reply), log, l.calls + 1)))
      && (d.err.None? && d.phase != Return ==> n == Stop(Final(Failed(Aborted(None)), log, l.calls + 1)))
  {
  }

  /**
   * ASK starts a fresh sub-goal: epoch 0, no feedback, the new request and
   * a window rendered for it from what memory now holds.
   */
  lemma AskResets<B>(m: Mem, l: Loop, log: seq<Exchange>, st: State<B>, d: Deduction)
    requires d.err.None? && d.phase == Ask
    ensures var n := Verdict(m, l, log, st, d);
      n == Continue(Loop(Ask, 0, None, d.prompt, log, log, l.calls + 1))
      && WindowOf(m, n.next) == m.context(log, d.prompt)
  {
  }

  /** RETRY keeps the phase it set, the epoch, the feedback, the prompt and resends the same window. */
  lemma RetryResends<B>(m: Mem, l: Loop, log: seq<Exchange>, st: State<B>, d: Deduction)
    requires d.err.None? && d.phase == Retry
    ensures var n := Verdict(m, l, log, st, d);
      n.Continue? && n.next.phase == Retry && n.next.epoch == st.epoch && n.next.feedback == st.feedback
      && n.next.prompt == l.prompt && WindowOf(m, n.next) == WindowOf(m, l)
  {
  }

  /** REFINE keeps the epoch and the feedback and renders the refined request. */
  lemma RefineKeeps<B>(m: Mem, l: Loop, log: seq<Exchange>, st: State<B>, d: Deduction)
    requires d.err.None? && d.phase == Refine
    ensures var n := Verdict(m, l, log, st, d);
      n.Continue? && n.next.phase == Refine && n.next.epoch == st.epoch && n.next.feedback == st.feedback
      && n.next.prompt == d.prompt && WindowOf(m, n.next) == m.context(log, d.prompt)
  {
  }

  /**
   * Over a stream memory, the request set by ASK or REFINE is sent after
   * every exchange held before the round trip, then the exchange just
   * committed, in commit order.
   */
  lemma StreamShowsLastExchange<B>(s: string, l: Loop, reply: Reply, st: State<B>, d: Deduction)
    requires d.err.None? && (d.phase == Ask || d.phase == Refine) && l.phase != Retry
    ensures var n := Dispatch(StreamMemory(s), l, reply, st, d);
      var w := WindowOf(StreamMemory(s), n.next);
      var k := Offset(s) + 2 * |l.log|;
      && n.Continue?
      && |w| == k + 3
      && w[..k] == Window(s, l.log, d.prompt)[..k]
      && w[k] == PromptMsg(l.prompt) && w[k + 1] == ReplyMsg(reply)
      && w[k + 2] == PromptMsg(d.prompt)
  {
    var m := StreamMemory(s);
    var log := AfterCommit(m, l, reply);
    assert log == l.log + [Exchange(l.prompt, reply)];
    if d.phase == Ask {
      AskResets(m, l, log, st, d);
    } else {
      RefineKeeps(m, l, log, st, d);
    }
    WindowExtends(s, l.log, [Exchange(l.prompt, reply)], d.prompt, d.prompt);
  }

  /**
   * After an ASK the next round trip starts the count again: whatever came
   * before, the reasoner then sees epoch 1, phase ASK and only the feedback
   * of that round's own decode.
   */
  lemma AskStartsFresh<A, B>(c: Config<A, B>, l: Loop, d: Decoded<B>)
    requires Step(c, l).Continue? && Step(c, l).next.phase == Ask
    ensures var st := Observed(Step(c, l).next, d);
      && st.epoch == 1 && st.phase == Ask
      && (d.err.None? ==> st.feedback == None)
  {
  }

  // ---------------------------------------------------------------------
  // The whole loop

  /** Whatever the reasoner decides, memory holds what the round trip committed. */
  lemma VerdictKeepsLog<B>(m: Mem, l: Loop, log: seq<Exchange>, st: State<B>, d: Deduction)
    ensures NextLog(Verdict(m, l, log, st, d)) == log
    ensures NextCalls(Verdict(m, l, log, st, d)) == l.calls + 1
  {
    if d.err.None? {
      match d.phase
      case Ask =>
      case Return =>
      case Retry =>
      case Refine =>
      case Abort =>
      case Unrecognised(_) =>
    }
  }

  lemma StepExtendsLog<A, B>(c: Config<A, B>, l: Loop)
    ensures l.log <= NextLog(Step(c, l)) && |NextLog(Step(c, l))| <= |l.log| + 1
    ensures !c.memory.keeps ==> NextLog(Step(c, l)) == l.log
    ensures NextCalls(Step(c, l)) == l.calls + 1
  {
    var sent := c.transport(l.calls, WindowOf(c.memory, l));
    if sent.Ok? && !Fatal(c.decoder(sent.value)) {
      var st := Observed(l, c.decoder(sent.value));
      VerdictKeepsLog(c.memory, l, AfterCommit(c.memory, l, sent.value), st, c.reasoner(st));
    }
  }

  /**
   * Memory only grows: every exchange held when the loop starts is still
   * held, in the same place, when it ends; the loop commits at most one
   * exchange per transport call and makes at most `fuel` calls.
   */
  lemma {:induction false} RunExtendsLog<A, B>(c: Config<A, B>, l: Loop, fuel: nat)
    ensures var f := Run(c, l, fuel);
      && l.log <= f.log
      && l.calls <= f.calls <= l.calls + fuel
      && |f.log| <= |l.log| + (f.calls - l.calls)
      && (!c.memory.keeps ==> f.log == l.log)
    decreases fuel
  {
    if fuel > 0 {
      var n := Step(c, l);
      StepExtendsLog(c, l);
      RunStep(c, l, fuel, n);
      if n.Continue? {
        RunExtendsLog(c, n.next, fuel - 1);
      }
    }
  }

  /**
   * With the epoch decorator and an inner reasoner that never opens a new
   * sub-goal, a round that continues stays below the budget.
   */
  lemma StepStaysInBudget<A, B>(c: Config<A, B>, max: int, inner: Reasoner<B>, l: Loop)
    requires forall st: State<B> :: c.reasoner(st) == EpochDeduct(max, inner, st)
    requires forall st: State<B> :: inner(st).phase != Ask
    requires Step(c, l).Continue?
    ensures Step(c, l).next.epoch == l.epoch + 1 < max
  {
    var sent := c.transport(l.calls, WindowOf(c.memory, l));
    var st := Observed(l, c.decoder(sent.value));
    assert c.reasoner(st) == EpochDeduct(max, inner, st);
  }

  /**
   * Under the epoch decorator, whatever the inner reasoner, a round that
   * continues either opens a new sub-goal (ASK at epoch 0) or counts the
   * epoch up and stays below the budget.
   */
  lemma EpochStepResetsOrCounts<A, B>(c: Config<A, B>, max: int, inner: Reasoner<B>, l: Loop)
    requires forall st: State<B> :: c.reasoner(st) == EpochDeduct(max, inner, st)
    requires Step(c, l).Continue?
    ensures var n := Step(c, l).next;
      || (n.phase == Ask && n.epoch == 0)
      || (n.phase != Ask && n.epoch == l.epoch + 1 < max)
  {
    var sent := c.transport(l.calls, WindowOf(c.memory, l));
    var st := Observed(l, c.decoder(sent.value));
    assert c.reasoner(st) == EpochDeduct(max, inner, st);
  }

  /**
   * The round trips of one sub-goal: the loop from `l` up to the first
   * round that asks anew (`Continue` with that round's state), the end of
   * the loop (`Stop`), or the end of the fuel (`Continue` where it halted).
   */
  function SubGoal<A, B>(c: Config<A, B>, l: Loop, fuel: nat): Next<B>
    decreases fuel
  {
    if fuel == 0 then Continue(l)
    else
      match Step(c, l)
      case Stop(f) => Stop(f)
      case Continue(l') => if l'.phase == Ask then Continue(l') else SubGoal(c, l', fuel - 1)
  }

  /**
   * Under `Epoch(max, inner)`, whatever the inner reasoner (the command
   * reasoners and the worker ask), one sub-goal started at epoch `e` below
   * the budget takes at most `max - e` round trips.
   */
  lemma {:induction false} SubGoalWithinBudget<A, B>(c: Config<A, B>, max: int, inner: Reasoner<B>, l: Loop, fuel: nat)
    requires forall st: State<B> :: c.reasoner(st) == EpochDeduct(max, inner, st)
    requires 0 <= l.epoch < max
    ensures l.calls <= NextCalls(SubGoal(c, l, fuel)) <= l.calls + (max - l.epoch)
    decreases fuel
  {
    if fuel > 0 {
      var n := Step(c, l);
      StepExtendsLog(c, l);
      if n.Continue? && n.next.phase != Ask {
        EpochStepResetsOrCounts(c, max, inner, l);
        SubGoalWithinBudget(c, max, inner, n.next, fuel - 1);
      }
    }
  }

  /**
   * One sub-goal never takes more than `max` round trips: from epoch `e`
   * below the budget, a loop whose inner reasoner never asks makes at most
   * `max - e` transport calls.
   */
  lemma {:induction false} EpochBoundsRoundTrips<A, B>(c: Config<A, B>, max: int, inner: Reasoner<B>, l: Loop, fuel: nat)
    requires forall st: State<B> :: c.reasoner(st) == EpochDeduct(max, inner, st)
    requires forall st: State<B> :: inner(st).phase != Ask
    requires 0 <= l.epoch < max
    ensures Run(c, l, fuel).calls <= l.calls + (max - l.epoch)
    decreases fuel
  {
    if fuel > 0 {
      var n := Step(c, l);
      StepExtendsLog(c, l);
      RunStep(c, l, fuel, n);
      if n.Continue? {
        StepStaysInBudget(c, max, inner, l);
        EpochBoundsRoundTrips(c, max, inner, n.next, fuel - 1);
      }
    }
  }

  /** One more iteration of the loop, unfolded. */
  lemma RunStep<A, B>(c: Config<A, B>, l: Loop, fuel: nat, n: Next<B>)
    requires fuel > 0 && n == Step(c, l)
    ensures n.Stop? ==> Run(c, l, fuel) == n.final
    ensures n.Continue? ==> Run(c, l, fuel) == Run(c, n.next, fuel - 1)
  {
  }

  /** A whole `Prompt` under `Epoch(max, inner)` with a non-asking inner reasoner makes at most `max` calls. */
  lemma PromptWithinBudget<A, B>(c: Config<A, B>, max: int, inner: Reasoner<B>, input: A, log: seq<Exchange>, fuel: nat)
    requires forall st: State<B> :: c.reasoner(st) == EpochDeduct(max, inner, st)
    requires forall st: State<B> :: inner(st).phase != Ask
    requires max >= 1
    ensures PromptSpec(c, input, log, fuel).calls <= max
  {
    if c.encoder(input).Ok? {
      EpochBoundsRoundTrips(c, max, inner, Start(c.memory, c.encoder(input).value, log), fuel);
    }
  }

  /**
   * With the void reasoner a prompt takes exactly one round trip: it ends
   * with the transport's error wrapped, the decoder's hard error, or the
   * decoded reply (a Feedback decode error included).
   */
  lemma VoidTakesOneRoundTrip<A, B>(c: Config<A, B>, l: Loop, fuel: nat)
    requires forall st: State<B> :: c.reasoner(st) == VoidDeduct(st)
    requires fuel >= 1
    ensures var f := Run(c, l, fuel);
      var sent := c.transport(l.calls, WindowOf(c.memory, l));
      && f.calls == l.calls + 1
      && (sent.Err? ==> f.outcome == Failed(LlmFailed(sent.error)))
      && (sent.Ok? && Fatal(c.decoder(sent.value)) ==> f.outcome == Failed(c.decoder(sent.value).err.value))
      && (sent.Ok? && !Fatal(c.decoder(sent.value)) ==> f.outcome == Returned(c.decoder(sent.value).value))
  {
    var sent := c.transport(l.calls, WindowOf(c.memory, l));
    if sent.Ok? && !Fatal(c.decoder(sent.value)) {
      var st := Observed(l, c.decoder(sent.value));
      assert c.reasoner(st) == Done(Return);
    }
  }

  /**
   * The budget bounds one sub-goal, not the whole prompt: under
   * `Epoch(4, CmdSeq)`, replies that keep running a tool other than
   * "return" without feedback never end the loop, however many round trips
   * are explored, since each tool result asks anew and resets the epoch.
   */
  lemma {:induction false} ToolLoopNeverHitsBudget<A>(c: Config<A, CmdOut>, l: Loop, fuel: nat)
    requires forall st: State<CmdOut> :: c.reasoner(st) == EpochDeduct(4, CmdSeqDeduct, st)
    requires forall n: nat, w: seq<Message> :: c.transport(n, w).Ok?
    requires forall r: Reply :: c.decoder(r).err.None? && c.decoder(r).value.cmd != "" && c.decoder(r).value.cmd != ReturnCmd
    requires l.epoch == 0 && l.feedback.None?
    ensures Run(c, l, fuel).outcome == Unfinished
    decreases fuel
  {
    if fuel > 0 {
      var sent := c.transport(l.calls, WindowOf(c.memory, l));
      var d := c.decoder(sent.value);
      var st := Observed(l, d);
      assert c.reasoner(st) == EpochDeduct(4, CmdSeqDeduct, st) == CmdSeqDeduct(st);
      assert Step(c, l).Continue? && Step(c, l).next.epoch == 0;
      ToolLoopNeverHitsBudget(c, Step(c, l).next, fuel - 1);
    }
  }

  // ---------------------------------------------------------------------
  // The loop over a stream memory and a clock

  /**
   * The stream memory holds `log` (for an automata built with it), and every
   * id it holds was read from the clock before.
   */
  ghost predicate Holds(m: Mem, stream: Stream, clock: Clock, log: seq<Exchange>)
    reads stream, clock
  {
    && stream.Valid()
    && (forall id :: id in stream.heap ==> id < clock.now)
    && (m.keeps ==> stream.Log() == log)
    && Renders(m, stream.stratum)
  }

  /** `m` is the stream memory over `stratum`, or the void memory over it. */
  ghost predicate Renders(m: Mem, stratum: string) {
    if m.keeps then forall log, p :: m.context(log, p) == Window(stratum, log, p)
    else forall log, p :: m.context(log, p) == Void(stratum).Context(p)
  }

  /** `memory.Context(prompt)`: a stream restamps and renders, the void memory only renders. */
  method Recall(m: Mem, stream: Stream, clock: Clock, ghost log: seq<Exchange>, p: Prompt) returns (window: seq<Message>)
    modifies stream, clock
    requires Holds(m, stream, clock, log)
    ensures Holds(m, stream, clock, log)
    ensures window == m.context(log, p)
  {
    if m.keeps {
      window := stream.Context(p, clock);
    } else {
      window := Void(stream.stratum).Context(p);
    }
  }

  /**
   * One iteration of the loop in `Automata.Prompt`, sending `window`; on
   * continuing, `next` is the window the following iteration sends.
   */
  method Round<A, B>(c: Config<A, B>, stream: Stream, clock: Clock, l: Loop, window: seq<Message>)
    returns (n: Next<B>, next: seq<Message>)
    modifies stream, clock
    requires Holds(c.memory, stream, clock, l.log)
    requires window == WindowOf(c.memory, l)
    ensures Holds(c.memory, stream, clock, NextLog(n))
    ensures n == Step(c, l)
    ensures n.Continue? ==> next == WindowOf(c.memory, n.next)
  {
    next := window;
    var sent := c.transport(l.calls, window);
    if sent.Err? {
      TransportFailureIsWrapped(c, l);
      return Stop(Final(Failed(LlmFailed(sent.error)), l.log, l.calls + 1)), next;
    }
    var reply := sent.value;
    var d := c.decoder(reply);
    DecodeOutcome(c, l);
    var feedback := l.feedback;
    if d.err.Some? {
      match d.err.value {
        case FeedbackError(fb) =>
          feedback := Some(fb);
        case _ =>
          return Stop(Final(Failed(d.err.value), l.log, l.calls + 1)), next;
      }
    }
    var epoch := l.epoch + 1;
    var log := l.log;
    if l.phase != Retry {
      var o := NewObservation(clock, l.prompt, reply);
      if c.memory.keeps {
        stream.Commit(o);
      }
      log := Committed(c.memory, log, Exchange(l.prompt, reply));
    }
    var st := State(l.phase, epoch, d.value, d.confidence, feedback);
    assert st == Observed(l, d);
    var verdict := c.reasoner(st);
    assert log == AfterCommit(c.memory, l, reply);
    n, next := Decide(c.memory, stream, clock, l, window, log, st, verdict);
    VerdictKeepsLog(c.memory, l, log, st, verdict);
  }

  /** The switch of `Automata.Prompt` on the reasoner's verdict, once the round trip is committed. */
  method Decide<B>(m: Mem, stream: Stream, clock: Clock, l: Loop, window: seq<Message>, log: seq<Exchange>,
                   st: State<B>, d: Deduction)
    returns (n: Next<B>, next: seq<Message>)
    modifies stream, clock
    requires Holds(m, stream, clock, log)
    requires window == WindowOf(m, l)
    ensures Holds(m, stream, clock, log)
    ensures n == Verdict(m, l, log, st, d)
    ensures n.Continue? ==> next == WindowOf(m, n.next)
  {
    n, next := Verdict(m, l, log, st, d), window;
    if d.err.None? && (d.phase == Ask || d.phase == Refine) {
      // both re-render memory for the new request
      if d.phase == Ask {
        AskResets(m, l, log, st, d);
      } else {
        RefineKeeps(m, l, log, st, d);
      }
      next := Recall(m, stream, clock, log, d.prompt);
    } else if d.err.None? && d.phase == Retry {
      RetryResends(m, l, log, st, d);
    }
  }

  /**
   * `Automata.Prompt(input)`, exploring at most `fuel` round trips: the
   * outcome, the exchanges committed and the calls made are those of
   * `PromptSpec`, and the stream ends up holding the final log.
   */
  method Prompt<A, B>(c: Config<A, B>, stream: Stream, clock: Clock, input: A, fuel: nat) returns (f: Final<B>)
    modifies stream, clock
    requires stream.Valid() && Holds(c.memory, stream, clock, stream.Log())
    ensures f == PromptSpec(c, input, old(stream.Log()), fuel)
    ensures Holds(c.memory, stream, clock, f.log)
  {
    var log0 := stream.Log();
    var prompt := c.encoder(input);
    if prompt.Err? {
      return Final(Failed(prompt.error), log0, 0);
    }
    var window := Recall(c.memory, stream, clock, log0, prompt.value);
    f := Drive(c, stream, clock, Start(c.memory, prompt.value, log0), window, fuel);
  }

  /** The loop of `Automata.Prompt` from `l`, sending `window` first, for at most `fuel` round trips. */
  method Drive<A, B>(c: Config<A, B>, stream: Stream, clock: Clock, l: Loop, window: seq<Message>, fuel: nat)
    returns (f: Final<B>)
    modifies stream, clock
    requires Holds(c.memory, stream, clock, l.log)
    requires window == WindowOf(c.memory, l)
    ensures f == Run(c, l, fuel)
    ensures Holds(c.memory, stream, clock, f.log)
  {
    var cur, sending, left := l, window, fuel;
    while left > 0
      invariant Holds(c.memory, stream, clock, cur.log)
      invariant sending == WindowOf(c.memory, cur)
      invariant Run(c, cur, left) == Run(c, l, fuel)
    {
      var done;
      done, cur, sending := Advance(c, stream, clock, cur, sending, left);
      if done.Some? {
        return done.value;
      }
      left := left - 1;
    }
    f := Final(Unfinished, cur.log, cur.calls);
  }

  /** One pass of the loop in `Drive`: the run ends with `done`, or goes on from `next`. */
  method Advance<A, B>(c: Config<A, B>, stream: Stream, clock: Clock, l: Loop, window: seq<Message>, fuel: nat)
    returns (done: Option<Final<B>>, next: Loop, sending: seq<Message>)
    modifies stream, clock
    requires fuel > 0
    requires Holds(c.memory, stream, clock, l.log)
    requires window == WindowOf(c.memory, l)
    ensures done.Some? ==> Run(c, l, fuel) == done.value && Holds(c.memory, stream, clock, done.value.log)
    ensures done.None? ==> Run(c, l, fuel) == Run(c, next, fuel - 1) && Holds(c.memory, stream, clock, next.log)
    ensures done.None? ==> sending == WindowOf(c.memory, next)
  {
    var n;
    n, sending := Round(c, stream, clock, l, window);
    RunStep(c, l, fuel, n);
    match n {
      case Stop(f) =>
        return Some(f), l, sending;
      case Continue(nx) =>
        return None, nx, sending;
    }
  }
}
