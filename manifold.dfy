/**
 * The stage-driven loop (agent/manifold.go): the conversation starts as the
 * encoded prompt and only ever grows; text replies are decoded (Feedback
 * goes back to the model), tool invocations go to the registry, whose
 * answer goes back to the model, until a value or an error comes out.
 *
 * `Step` and `Run` specify the loop one round trip at a time; the method
 * `Prompt` runs it with the native registry and is proved to agree with
 * `Run`. The loop is unbounded in the source: here it is explored up to
 * `fuel` round trips, after which the outcome is `Unfinished`.
 */
module Manifold {
  import opened Thinker
  import Tools

  /**
   * The collaborators of a manifold. The transport receives the number of
   * calls made so far, the conversation and the options; `invoke` is the
   * registry's `Invoke`.
   */
  datatype Config<!A, !B> = Config(
    encoder: A -> Result<Prompt>,
    transport: (nat, seq<Message>, seq<Opt>) -> Result<Reply>,
    decoder: Reply -> Decoded<B>,
    invoke: Reply -> Tools.Invoked)

  /** How a round trip ends: the loop goes on with a longer conversation, or stops. */
  datatype Next<B> = Continue(memory: seq<Message>) | Stop(outcome: Outcome<B>)

  /** How `Prompt` ends, with the conversation as it was last sent and the calls made. */
  datatype Final<B> = Final(outcome: Outcome<B>, memory: seq<Message>, calls: nat)

  /** The prompt that hands a Feedback decode error back to the model. */
  function FeedbackPrompt(fb: Feedback): Prompt {
    EmptyPrompt.With(FeedbackPart(fb))
  }

  /**
   * A text reply (LLM_RETURN or LLM_INCOMPLETE): the decoded value, or the
   * reply and the feedback appended, or any other decode error as it is.
   */
  function Settle<B>(d: Decoded<B>, memory: seq<Message>, reply: Reply): Next<B> {
    match d.err
    case None => Stop(Returned(d.value))
    case Some(e) =>
      if e.FeedbackError? then Continue(memory + [ReplyMsg(reply), PromptMsg(FeedbackPrompt(e.feedback))])
      else Stop(Failed(e))
  }

  /**
   * A tool invocation (LLM_INVOKE): a registry error wrapped as a command
   * error; RETURN decodes the answer alone (its error wrapped likewise);
   * ABORT aborts; any other phase appends the reply and the answer.
   */
  function Route<A, B>(c: Config<A, B>, memory: seq<Message>, reply: Reply): Next<B> {
    var inv := c.invoke(reply);
    if inv.err.Some? then Stop(Failed(CmdFailed(inv.err.value)))
    else
      match inv.phase
      case Return =>
        var d := c.decoder(Reply(Unset, [Embedded(inv.message)]));
        if d.err.Some? then Stop(Failed(CmdFailed(d.err.value))) else Stop(Returned(d.value))
      case Abort => Stop(Failed(Aborted(None)))
      case _ => Continue(memory + [ReplyMsg(reply), inv.message])
  }

  /** One iteration of the loop, dispatching on the reply's stage. */
  function Step<A, B>(c: Config<A, B>, opts: seq<Opt>, memory: seq<Message>, calls: nat): Next<B> {
    var sent := c.transport(calls, memory, opts);
    if sent.Err? then Stop(Failed(LlmFailed(sent.error)))
    else
      match sent.value.stage
      case LlmReturn => Settle(c.decoder(sent.value), memory, sent.value)
      case LlmIncomplete => Settle(c.decoder(sent.value), memory, sent.value)
      case LlmInvoke => Route(c, memory, sent.value)
      case _ => Stop(Failed(Aborted(None)))
  }

  /** At most `fuel` iterations of the loop over `memory`, `calls` transport calls made so far. */
  function Run<A, B>(c: Config<A, B>, opts: seq<Opt>, memory: seq<Message>, calls: nat, fuel: nat): Final<B>
    decreases fuel
  {
    if fuel == 0 then Final(Unfinished, memory, calls)
    else
      match Step(c, opts, memory, calls)
      case Stop(o) => Final(o, memory, calls + 1)
      case Continue(m) => Run(c, opts, m, calls + 1, fuel - 1)
  }

  /** `Manifold.Prompt(input, opts...)` with a registry advertising `tools`. */
  function PromptSpec<A, B>(c: Config<A, B>, input: A, opts: seq<Opt>, tools: seq<Descriptor>, fuel: nat): Final<B> {
    match c.encoder(input)
    case Err(e) => Final(Failed(CodecFailed(e)), [], 0)
    case Ok(p) => Run(c, opts + [ToolsOpt(tools)], [PromptMsg(p)], 0, fuel)
  }

  // ---------------------------------------------------------------------
  // One round trip

  /** An encoder failure is returned wrapped as a codec error, before any transport call. */
  lemma EncoderFailureIsWrapped<A, B>(c: Config<A, B>, input: A, opts: seq<Opt>, tools: seq<Descriptor>, fuel: nat)
    requires c.encoder(input).Err?
    ensures PromptSpec(c, input, opts, tools, fuel) == Final(Failed(CodecFailed(c.encoder(input).error)), [], 0)
  {
  }

  /**
   * Otherwise the conversation starts as exactly the prompt, and every call
   * carries the caller's options followed by the registry's tools.
   */
  lemma StartsWithPrompt<A, B>(c: Config<A, B>, input: A, opts: seq<Opt>, tools: seq<Descriptor>, fuel: nat)
    requires c.encoder(input).Ok?
    ensures PromptSpec(c, input, opts, tools, fuel) == Run(c, opts + [ToolsOpt(tools)], [PromptMsg(c.encoder(input).value)], 0, fuel)
    ensures |PromptSpec(c, input, opts, tools, fuel).memory| >= 1
    ensures PromptSpec(c, input, opts, tools, fuel).memory[0] == PromptMsg(c.encoder(input).value)
  {
    var p := c.encoder(input).value;
    RunAppendOnly(c, opts + [ToolsOpt(tools)], [PromptMsg(p)], 0, fuel);
  }

  /** A transport failure ends the loop wrapped as an LLM failure. */
  lemma TransportFailureIsWrapped<A, B>(c: Config<A, B>, opts: seq<Opt>, memory: seq<Message>, calls: nat)
    requires c.transport(calls, memory, opts).Err?
    ensures Step(c, opts, memory, calls) == Stop(Failed(LlmFailed(c.transport(calls, memory, opts).error)))
  {
  }

  /**
   * A text reply, complete or not, returns its decoded value; a Feedback
   * decode error appends exactly the reply and a prompt carrying the
   * feedback; any other decode error is returned unchanged.
   */
  lemma TextReplyOutcomes<A, B>(c: Config<A, B>, opts: seq<Opt>, memory: seq<Message>, calls: nat)
    requires c.transport(calls, memory, opts).Ok?
    requires c.transport(calls, memory, opts).value.stage in {LlmReturn, LlmIncomplete}
    ensures var reply := c.transport(calls, memory, opts).value;
      var d := c.decoder(reply);
      var n := Step(c, opts, memory, calls);
      && (d.err.None? ==> n == Stop(Returned(d.value)))
      && (d.err.Some? && d.err.value.FeedbackError? ==>
            n == Continue(memory + [ReplyMsg(reply), PromptMsg(Thinker.Prompt([FeedbackPart(d.err.value.feedback)]))]))
      && (d.err.Some? && !d.err.value.FeedbackError? ==> n == Stop(Failed(d.err.value)))
  {
    var d := c.decoder(c.transport(calls, memory, opts).value);
    if d.err.Some? && d.err.value.FeedbackError? {
      assert FeedbackPrompt(d.err.value.feedback).parts == [FeedbackPart(d.err.value.feedback)];
    }
  }

  /**
   * A tool invocation: a registry error is wrapped as a command error;
   * RETURN yields the answer decoded on its own (a decode error wrapped as
   * a command error); ABORT aborts; any other phase appends exactly the
   * reply and the answer.
   */
  lemma InvokeOutcomes<A, B>(c: Config<A, B>, opts: seq<Opt>, memory: seq<Message>, calls: nat)
    requires c.transport(calls, memory, opts).Ok?
    requires c.transport(calls, memory, opts).value.stage == LlmInvoke
    ensures var reply := c.transport(calls, memory, opts).value;
      var inv := c.invoke(reply);
      var d := c.decoder(Reply(Unset, [Embedded(inv.message)]));
      var n := Step(c, opts, memory, calls);
      && (inv.err.Some? ==> n == Stop(Failed(CmdFailed(inv.err.value))))
      && (inv.err.None? && inv.phase == Return && d.err.Some? ==> n == Stop(Failed(CmdFailed(d.err.value))))
      && (inv.err.None? && inv.phase == Return && d.err.None? ==> n == Stop(Returned(d.value)))
      && (inv.err.None? && inv.phase == Abort ==> n == Stop(Failed(Aborted(None))))
      && (inv.err.None? && inv.phase != Return && inv.phase != Abort ==>
            n == Continue(memory + [ReplyMsg(reply), inv.message]))
  {
  }

  /** A reply of any other stage aborts. */
  lemma UnknownStageAborts<A, B>(c: Config<A, B>, opts: seq<Opt>, memory: seq<Message>, calls: nat)
    requires c.transport(calls, memory, opts).Ok?
    requires c.transport(calls, memory, opts).value.stage !in {LlmReturn, LlmIncomplete, LlmInvoke}
    ensures Step(c, opts, memory, calls) == Stop(Failed(Aborted(None)))
  {
  }

  /**
   * With the native registry, a reply whose tool calls all succeed and do
   * not include the return tool goes back to the model with one yield per
   * call; a failing call stops the loop with a command error.
   */
  lemma NativeRegistryRound<A, B>(c: Config<A, B>, reg: map<string, Tools.Tool>, opts: seq<Opt>, memory: seq<Message>, calls: nat)
    requires forall r :: c.invoke(r) == Tools.InvokeSpec(reg, Calls(r))
    requires c.transport(calls, memory, opts).Ok?
    requires c.transport(calls, memory, opts).value.stage == LlmInvoke
    ensures var reply := c.transport(calls, memory, opts).value;
      var tc := Calls(reply);
      var n := Step(c, opts, memory, calls);
      && ((exists i :: 0 <= i < |tc| && Tools.Dispatch(reg, tc[i]).Err?) ==> n.Stop? && n.outcome.Failed? && n.outcome.error.CmdFailed?)
      && ((forall i :: 0 <= i < |tc| ==> Tools.Dispatch(reg, tc[i]).Ok? && !Tools.ReturnCalled(reg, tc[i])) ==>
            n.Continue? && |n.memory| == |memory| + 2 && n.memory[..|memory|] == memory && n.memory[|memory|] == ReplyMsg(reply)
            && n.memory[|memory| + 1].AnswerMsg? && |n.memory[|memory| + 1].answer.items| == |tc|)
  {
    var reply := c.transport(calls, memory, opts).value;
    Tools.InvokeOutcomes(reg, Calls(reply));
    assert c.invoke(reply) == Tools.InvokeSpec(reg, Calls(reply));
  }

  // ---------------------------------------------------------------------
  // The whole loop

  /** Each round trip either stops or appends exactly two messages, the reply first. */
  lemma StepAppendsTwo<A, B>(c: Config<A, B>, opts: seq<Opt>, memory: seq<Message>, calls: nat)
    ensures var n := Step(c, opts, memory, calls);
      n.Continue? ==> (c.transport(calls, memory, opts).Ok?
        && n.memory == memory + [ReplyMsg(c.transport(calls, memory, opts).value), n.memory[|memory| + 1]])
  {
  }

  /**
   * The conversation is append-only: what the loop starts with is a prefix
   * of what it ends with, and it grows by exactly two messages in each
   * round trip that does not end the loop.
   */
  lemma {:induction false} RunAppendOnly<A, B>(c: Config<A, B>, opts: seq<Opt>, memory: seq<Message>, calls: nat, fuel: nat)
    ensures var f := Run(c, opts, memory, calls, fuel);
      && memory <= f.memory
      && calls <= f.calls <= calls + fuel
      && (f.outcome.Unfinished? ==> |f.memory| == |memory| + 2 * (f.calls - calls))
      && (!f.outcome.Unfinished? ==> f.calls > calls && |f.memory| == |memory| + 2 * (f.calls - calls - 1))
    decreases fuel
  {
    if fuel > 0 {
      StepAppendsTwo(c, opts, memory, calls);
      match Step(c, opts, memory, calls)
      case Stop(o) =>
      case Continue(m) =>
        RunAppendOnly(c, opts, m, calls + 1, fuel - 1);
    }
  }

  // ---------------------------------------------------------------------
  // The loop with the native registry

  /**
   * `Manifold.Prompt(input, opts...)` with the native registry, exploring at
   * most `fuel` round trips: the outcome, the conversation and the calls
   * made are those of `PromptSpec`.
   */
  method Prompt<A, B>(c: Config<A, B>, registry: Tools.Registry, input: A, opts: seq<Opt>, fuel: nat) returns (f: Final<B>)
    requires registry.Valid()
    requires forall r :: c.invoke(r) == Tools.InvokeSpec(registry.registry, Calls(r))
    ensures f == PromptSpec(c, input, opts, registry.Context(), fuel)
  {
    var prompt := c.encoder(input);
    if prompt.Err? {
      return Final(Failed(CodecFailed(prompt.error)), [], 0);
    }
    var options := opts + [ToolsOpt(registry.Context())];
    var memory := [PromptMsg(prompt.value)];
    var calls, left := 0, fuel;
    while left > 0
      invariant Run(c, options, memory, calls, left) == PromptSpec(c, input, opts, registry.Context(), fuel)
    {
      var sent := c.transport(calls, memory, options);
      if sent.Err? {
        return Final(Failed(LlmFailed(sent.error)), memory, calls + 1);
      }
      var reply := sent.value;
      var grown: seq<Message>;
      match reply.stage {
        case LlmReturn =>
          var done, m := Settled(c.decoder(reply), memory, reply);
          if done.Some? {
            return Final(done.value, memory, calls + 1);
          }
          grown := m;
        case LlmIncomplete =>
          var done, m := Settled(c.decoder(reply), memory, reply);
          if done.Some? {
            return Final(done.value, memory, calls + 1);
          }
          grown := m;
        case LlmInvoke =>
          var inv := registry.Invoke(reply);
          assert inv == c.invoke(reply);
          // A registry error, and the ABORT that the native registry only
          // reports together with one, both end the loop here.
          if inv.err.Some? || inv.phase == Abort {
            return Final(Failed(if inv.err.Some? then CmdFailed(inv.err.value) else Aborted(None)), memory, calls + 1);
          }
          if inv.phase == Return {
            var d := c.decoder(Reply(Unset, [Embedded(inv.message)]));
            if d.err.Some? {
              return Final(Failed(CmdFailed(d.err.value)), memory, calls + 1);
            }
            return Final(Returned(d.value), memory, calls + 1);
          }
          grown := memory + [ReplyMsg(reply), inv.message];
        case _ =>
          return Final(Failed(Aborted(None)), memory, calls + 1);
      }
      memory, calls, left := grown, calls + 1, left - 1;
    }
    f := Final(Unfinished, memory, calls);
  }

  /**
   * The text-reply branch of `Manifold.Prompt`: the outcome when the loop
   * ends there, otherwise the conversation it goes on with.
   */
  method Settled<B>(d: Decoded<B>, memory: seq<Message>, reply: Reply) returns (done: Option<Outcome<B>>, grown: seq<Message>)
    ensures done.Some? <==> Settle(d, memory, reply).Stop?
    ensures done.Some? ==> done.value == Settle(d, memory, reply).outcome
    ensures done.None? ==> grown == Settle(d, memory, reply).memory
  {
    grown := memory;
    if d.err.None? {
      return Some(Returned(d.value)), grown;
    }
    var e := d.err.value;
    if !e.FeedbackError? {
      return Some(Failed(e)), grown;
    }
    var p := EmptyPrompt.With(FeedbackPart(e.feedback));
    grown := memory + [ReplyMsg(reply), PromptMsg(p)];
    done := None;
  }
}
