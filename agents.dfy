/**
 * The ready-made agents built on the automata: `Jsonify` (agent/jsonify.go)
 * asks for a JSON list of strings and checks it with a validator; `Worker`
 * (agent/worker.go) drives a command workflow over a soft-command registry.
 */
module Agents {
  import opened Thinker
  import opened Memory
  import opened Reasoners
  import opened Automata
  import SoftCmd

  // ---------------------------------------------------------------------
  // Jsonify

  /** The rules `jsonify.Strings.Harden` adds (its note is the same as the soft-command rules'). */
  const JsonRules := Rules(SoftCmd.RulesNote, [
    "The output should be JSON list of strings.",
    "Do not generate unknowns, reply [] if you do not know the answer."])

  /** The stratum of the jsonify agent's stream memory, with the source's indentation. */
  const JsonStratum := "\n\t\t\tYou are automomous agent who perform required tasks, providing results in JSON.\n\t\t"

  const RefineRequest := "Refine the previous request using the feedback below."

  /**
   * `jsonify.Strings.Decode`: a regular expression and `encoding/json`, so a
   * parameter here; on failure it returns Feedback for the model.
   */
  type JsonParser = Reply -> Result<seq<string>>

  /** The application's validator of the decoded list: `None` accepts it. */
  type Validator = seq<string> -> Option<Error>

  /** `Jsonify.encode`: the inner encoding, hardened with the JSON rules only when it succeeds. */
  function JsonEncode<A>(encoder: A -> Result<Prompt>, input: A): (r: Result<Prompt>)
    ensures encoder(input).Err? ==> r == encoder(input)
    ensures encoder(input).Ok? ==> r.Ok? && r.value.parts == encoder(input).value.parts + [JsonRules]
  {
    match encoder(input)
    case Err(e) => Err(e)
    case Ok(p) => Ok(p.With(JsonRules))
  }

  /**
   * `Jsonify.decode`: the confidence ladder. A parse failure has confidence
   * 0.0, a rejected list 0.1 and an accepted one 1.0; only an accepted list
   * is handed on, every failure comes with the nil (empty) list.
   */
  function JsonDecode(parse: JsonParser, validator: Validator, reply: Reply): (d: Decoded<seq<string>>)
    ensures d.confidence == 0.0 || d.confidence == 0.1 || d.confidence == 1.0
    ensures d.err.None? <==> parse(reply).Ok? && validator(parse(reply).value).None?
    ensures d.err.None? ==> d.confidence == 1.0 && d.value == parse(reply).value
    ensures d.err.Some? ==> d.value == [] && d.confidence < 1.0
    ensures parse(reply).Err? ==> d == Decoded(0.0, [], Some(parse(reply).error))
    ensures parse(reply).Ok? && validator(parse(reply).value).Some? ==>
      d == Decoded(0.1, [], validator(parse(reply).value))
  {
    match parse(reply)
    case Err(e) => Decoded(0.0, [], Some(e))
    case Ok(strs) =>
      match validator(strs)
      case Some(e) => Decoded(0.1, [], Some(e))
      case None => Decoded(1.0, strs, None)
  }

  /**
   * `Jsonify.deduct`: refine with the feedback while it is actionable,
   * otherwise return; it never asks and never fails.
   */
  function JsonDeduct(st: State<seq<string>>): (d: Deduction)
    ensures d.err.None? && (d.phase == Refine || d.phase == Return)
    ensures d.phase == Refine <==> Actionable(st)
    ensures d.phase == Refine ==> d.prompt == RefinePrompt(RefineRequest, st.feedback.value)
    ensures d.phase == Return ==> d.prompt == EmptyPrompt
  {
    if Actionable(st) then Deduction(Refine, RefinePrompt(RefineRequest, st.feedback.value), None)
    else Done(Return)
  }

  /** `NewJsonify(llm, attempts, encoder, validator)` as an automata configuration. */
  function JsonifyConfig<A>(encoder: A -> Result<Prompt>, transport: (nat, seq<Message>) -> Result<Reply>,
                            parse: JsonParser, validator: Validator, attempts: int): Config<A, seq<string>>
  {
    Config(
      (x: A) => JsonEncode(encoder, x),
      transport,
      (r: Reply) => JsonDecode(parse, validator, r),
      (st: State<seq<string>>) => EpochDeduct(attempts, JsonDeduct, st),
      StreamMemory(JsonStratum))
  }

  /** An inner encoder error reaches the caller unchanged, before any transport call. */
  lemma JsonifyEncoderErrorPassesThrough<A>(encoder: A -> Result<Prompt>, transport: (nat, seq<Message>) -> Result<Reply>,
                                             parse: JsonParser, validator: Validator, attempts: int,
                                             input: A, log: seq<Exchange>, fuel: nat)
    requires encoder(input).Err?
    ensures PromptSpec(JsonifyConfig(encoder, transport, parse, validator, attempts), input, log, fuel)
      == Final(Failed(encoder(input).error), log, 0)
  {
    var c := JsonifyConfig(encoder, transport, parse, validator, attempts);
    assert c.encoder(input) == encoder(input);
    EncoderFailureIsReturned(c, input, log, fuel);
  }

  /**
   * One round trip of the jsonify agent on a reply. A Feedback failure,
   * whether from parsing or from the validator, refines with that feedback
   * while the budget lasts and aborts with the epoch once it is spent; any
   * other failure ends the loop with that error; an accepted list is returned
   * while the budget lasts, and discarded with the epoch once it is spent,
   * because the epoch reasoner checks the budget before it looks at the list.
   */
  lemma JsonifyRound<A>(encoder: A -> Result<Prompt>, transport: (nat, seq<Message>) -> Result<Reply>,
                        parse: JsonParser, validator: Validator, attempts: int, l: Loop)
    requires transport(l.calls, WindowOf(StreamMemory(JsonStratum), l)).Ok?
    ensures var c := JsonifyConfig(encoder, transport, parse, validator, attempts);
      var reply := transport(l.calls, WindowOf(c.memory, l)).value;
      var d := JsonDecode(parse, validator, reply);
      var n := Step(c, l);
      var log := AfterCommit(c.memory, l, reply);
      && (d.err.Some? && d.err.value.FeedbackError? && l.epoch + 1 < attempts ==>
            n == Continue(Loop(Refine, l.epoch + 1, Some(d.err.value.feedback),
                               RefinePrompt(RefineRequest, d.err.value.feedback), log, log, l.calls + 1)))
      && (d.err.Some? && d.err.value.FeedbackError? && l.epoch + 1 >= attempts ==>
            n == Stop(Final(Failed(MaxEpoch(l.epoch + 1)), log, l.calls + 1)))
      && (d.err.Some? && !d.err.value.FeedbackError? ==> n == Stop(Final(Failed(d.err.value), l.log, l.calls + 1)))
      && (d.err.None? && l.epoch + 1 < attempts ==> n == Stop(Final(Returned(d.value), log, l.calls + 1)))
      && (d.err.None? && l.epoch + 1 >= attempts ==> n == Stop(Final(Failed(MaxEpoch(l.epoch + 1)), log, l.calls + 1)))
  {
    var c := JsonifyConfig(encoder, transport, parse, validator, attempts);
    var reply := transport(l.calls, WindowOf(c.memory, l)).value;
    var d := JsonDecode(parse, validator, reply);
    assert c.decoder(reply) == d;
    DecodeOutcome(c, l);
    if !Fatal(d) {
      var st := Observed(l, d);
      assert c.reasoner(st) == EpochDeduct(attempts, JsonDeduct, st);
    }
  }

  /**
   * With a single attempt no list is ever returned: the first reply counts
   * the epoch up to the budget, so even an accepted list is discarded.
   */
  lemma JsonifySingleAttemptNeverReturns<A>(encoder: A -> Result<Prompt>, transport: (nat, seq<Message>) -> Result<Reply>,
                                            parse: JsonParser, validator: Validator, attempts: int,
                                            input: A, log: seq<Exchange>, fuel: nat)
    requires attempts <= 1
    ensures !PromptSpec(JsonifyConfig(encoder, transport, parse, validator, attempts), input, log, fuel).outcome.Returned?
  {
    var c := JsonifyConfig(encoder, transport, parse, validator, attempts);
    if c.encoder(input).Ok? && fuel > 0 {
      var l := Start(c.memory, c.encoder(input).value, log);
      if transport(l.calls, WindowOf(c.memory, l)).Ok? {
        JsonifyRound(encoder, transport, parse, validator, attempts, l);
      }
      RunStep(c, l, fuel, Step(c, l));
    }
  }

  /** A whole jsonify prompt makes at most `attempts` transport calls. */
  lemma JsonifyWithinBudget<A>(encoder: A -> Result<Prompt>, transport: (nat, seq<Message>) -> Result<Reply>,
                               parse: JsonParser, validator: Validator, attempts: int,
                               input: A, log: seq<Exchange>, fuel: nat)
    requires attempts >= 1
    ensures PromptSpec(JsonifyConfig(encoder, transport, parse, validator, attempts), input, log, fuel).calls <= attempts
  {
    var c := JsonifyConfig(encoder, transport, parse, validator, attempts);
    assert forall st: State<seq<string>> :: c.reasoner(st) == EpochDeduct(attempts, JsonDeduct, st);
    PromptWithinBudget(c, attempts, JsonDeduct, input, log, fuel);
  }

  // ---------------------------------------------------------------------
  // Worker

  /** The stratum of the worker's stream memory, with the source's indentation. */
  const WorkerStratum := "\n\t\t\tYou are automomous agent who uses tools to perform required tasks.\n\t\t\tYou are using and remember context from earlier chat history to execute the task.\n\t\t"

  /** The epoch budget the worker is built with. */
  const WorkerAttempts := 4

  const RefinePromptTask := "Refine the previous prompt using the feedback below."

  /** `command.BASH`, the command whose output continues the workflow. */
  const BashName := "bash"

  /** The prompt that hands the command's output back to the model. */
  function CommandReturned(output: string): Prompt {
    EmptyPrompt.With(Task(ContinueTask)).With(Blob("The command has returned:\n", output))
  }

  /**
   * `Worker.deduct`: refine on actionable feedback; return on the return
   * pseudo-command; ask again with the output of a bash command; abort with
   * "unknown state" for any other command, the empty one included.
   */
  function WorkerDeduct(st: State<CmdOut>): (d: Deduction)
    ensures d.phase == Refine <==> Actionable(st)
    ensures d.phase == Return <==> !Actionable(st) && st.reply.cmd == SoftCmd.ReturnName
    ensures d.phase == Ask <==> !Actionable(st) && st.reply.cmd == BashName
    ensures d.phase == Abort <==> !Actionable(st) && st.reply.cmd != SoftCmd.ReturnName && st.reply.cmd != BashName
    ensures d.phase == Refine ==> d == Deduction(Refine, RefinePrompt(RefinePromptTask, st.feedback.value), None)
    ensures d.phase == Return ==> d == Done(Return)
    ensures d.phase == Ask ==> d == Deduction(Ask, CommandReturned(st.reply.output), None)
    ensures d.phase == Abort ==> d == Deduction(Abort, EmptyPrompt, Some(Other("unknown state")))
  {
    if Actionable(st) then Deduction(Refine, RefinePrompt(RefinePromptTask, st.feedback.value), None)
    else if st.reply.cmd == SoftCmd.ReturnName then Done(Return)
    else if st.reply.cmd == BashName then Deduction(Ask, CommandReturned(st.reply.output), None)
    else Deduction(Abort, EmptyPrompt, Some(Other("unknown state")))
  }

  /**
   * The worker decides like the sequence reasoner on feedback, on the return
   * command, on bash and on no command at all; it differs only on any other
   * command, which the sequence reasoner asks about and the worker aborts on.
   */
  lemma WorkerAgainstCmdSeq(st: State<CmdOut>)
    ensures st.reply.cmd == "" || st.reply.cmd == ReturnCmd || st.reply.cmd == BashName || Actionable(st) ==>
      WorkerDeduct(st).phase == CmdSeqDeduct(st).phase
    ensures !Actionable(st) && st.reply.cmd != "" && st.reply.cmd != ReturnCmd && st.reply.cmd != BashName ==>
      WorkerDeduct(st).phase == Abort && CmdSeqDeduct(st).phase == Ask
  {
  }

  /** The worker's reasoner: `Epoch(4, deduct)`. */
  function WorkerReasoner(st: State<CmdOut>): (d: Deduction)
    ensures st.epoch >= WorkerAttempts ==> d.phase == Abort && d.err == Some(MaxEpoch(st.epoch))
    ensures st.epoch < WorkerAttempts ==> d == WorkerDeduct(st)
  {
    EpochDeduct(WorkerAttempts, WorkerDeduct, st)
  }

  /**
   * `agent.Worker`: an encoder and the registry of commands the model may
   * call, which the worker shares with its creator.
   */
  class Worker<A> {
    const encoder: A -> Result<Prompt>
    const registry: SoftCmd.Registry

    /**
     * `NewWorker(llm, encoder, registry)`: registers the return
     * pseudo-command on the given registry, ignoring a conflict, so that the
     * registry afterwards always offers a return command.
     */
    constructor (encoder: A -> Result<Prompt>, registry: SoftCmd.Registry)
      modifies registry
      requires registry.Valid()
      ensures this.encoder == encoder && this.registry == registry && registry.Valid()
      ensures SoftCmd.ReturnName in old(registry.registry) ==> registry.registry == old(registry.registry)
      ensures SoftCmd.ReturnName !in old(registry.registry) ==>
        registry.registry == old(registry.registry)[SoftCmd.ReturnName := SoftCmd.Return()]
      ensures SoftCmd.ReturnName in registry.registry
    {
      var _ := registry.Register(SoftCmd.Return());
      this.encoder := encoder;
      this.registry := registry;
    }

    /**
     * `Worker.encode`: the inner encoding hardened by the registry (its rules
     * and the commands it advertises) only when it succeeds.
     */
    method Encode(input: A) returns (r: Result<Prompt>)
      ensures encoder(input).Err? ==> r == encoder(input)
      ensures encoder(input).Ok? ==> (
        var p := encoder(input).value;
        && r.Ok?
        && |r.value.parts| == |p.parts| + 2 && r.value.parts[..|p.parts|] == p.parts
        && r.value.parts[|p.parts|] == SoftCmd.RulesPart
        && r.value.parts[|p.parts| + 1].ContextBlock?
        && r.value.parts[|p.parts| + 1].note == SoftCmd.RegistryNote
        && SoftCmd.Advertises(registry.registry, r.value.parts[|p.parts| + 1].items))
    {
      r := encoder(input);
      if r.Ok? {
        var p := registry.Harden(r.value);
        r := Ok(p);
      }
    }
  }
}
