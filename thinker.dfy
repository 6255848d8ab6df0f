/**
 * Shared vocabulary of the agent engine: execution phases, the agent state,
 * the error taxonomy (with Feedback as a tagged variant), and the abstract
 * values of the chat library the engine talks through (prompts, replies,
 * messages, tool descriptors).
 */
module Thinker {

  datatype Option<T> = None | Some(value: T)

  /** Outcome of a call into a collaborator that returns `(value, error)`. */
  datatype Result<T> = Ok(value: T) | Err(error: Error)

  /**
   * Execution phase. `Phase` is an `int` in the source, so a reasoner may
   * return a value outside the five named ones: that is `Unrecognised`.
   */
  datatype Phase = Ask | Return | Retry | Refine | Abort | Unrecognised(code: int)

  /** Feedback for the model: a short instruction plus explanatory fragments. */
  datatype Feedback = Feedback(note: string, text: seq<string>)

  /** The error taxonomy; `With(cause)` wrappers become constructor arguments. */
  datatype Error =
    | CodecFailed(cause: Error)          // ErrCodec.With(cause)
    | LlmFailed(cause: Error)            // ErrLLM.With(cause)
    | UnknownState                       // ErrUnknown
    | Aborted(reason: Option<Error>)     // ErrAborted, or ErrAborted.With(reason)
    | MaxEpoch(epoch: int)               // ErrMaxEpoch.With(ErrAbout, epoch)
    | CmdFailed(cause: Error)            // ErrCmd.With(cause)
    | CmdConflict                        // ErrCmdConflict
    | CmdInvalid                         // ErrCmdInvalid
    | FeedbackError(feedback: Feedback)  // thinker.Feedback(note, text...)
    | Other(message: string)             // any error of a collaborator

  /** Sections of a chat prompt, in the order the builder calls add them. */
  datatype Part =
    | Task(text: string)
    | Rules(note: string, items: seq<string>)
    | ContextBlock(note: string, items: seq<string>)
    | FeedbackPart(feedback: Feedback)
    | Blob(note: string, text: string)

  datatype Prompt = Prompt(parts: seq<Part>) {
    function With(p: Part): (r: Prompt)
      ensures r.parts == parts + [p]
    {
      Prompt(parts + [p])
    }
  }

  /** `chatter.Prompt{}` and the nil message: the prompt with no parts. */
  const EmptyPrompt: Prompt := Prompt([])

  /** Stage of a model reply; `Unset` is the zero value of a reply built locally. */
  datatype Stage = LlmReturn | LlmIncomplete | LlmInvoke | Unset | OtherStage(code: int)

  datatype ToolCall = ToolCall(name: string, args: string)

  /** Bytes a tool call yields: passed through raw, or packed as `{"toolOutput": ...}`. */
  datatype Payload = Raw(bytes: string) | Packed(toolOutput: string)

  datatype Yield = Yield(source: string, value: Payload)

  datatype Answer = Answer(items: seq<Yield>)

  datatype Content = Text(text: string) | Invocation(call: ToolCall) | Embedded(message: Message)

  datatype Reply = Reply(stage: Stage, content: seq<Content>)

  /** Elements of a context window or a conversation; `Nil` is Go's nil message. */
  datatype Message =
    | Nil
    | StratumMsg(text: string)
    | PromptMsg(prompt: Prompt)
    | PartMsg(part: Part)
    | ReplyMsg(reply: Reply)
    | YieldMsg(value: Payload)
    | AnswerMsg(answer: Answer)

  /** `Reply.String()`: the reply's text contents, concatenated in order. */
  function ReplyText(r: Reply): string {
    TextOf(r.content)
  }

  function TextOf(cs: seq<Content>): (s: string)
    ensures cs == [] ==> s == ""
  {
    if cs == [] then ""
    else TextOf(cs[..|cs| - 1]) + (match cs[|cs| - 1] case Text(t) => t case _ => "")
  }

  /** A reply built from a single text, as a tool's Run receives it. */
  function TextReply(stage: Stage, s: string): (r: Reply)
    ensures ReplyText(r) == s
  {
    var r := Reply(stage, [Text(s)]);
    assert r.content[..0] == [];
    r
  }

  /** The tool invocations a reply carries, in order. */
  function Calls(r: Reply): seq<ToolCall> {
    CallsOf(r.content)
  }

  function CallsOf(cs: seq<Content>): seq<ToolCall> {
    if cs == [] then []
    else CallsOf(cs[..|cs| - 1]) + (match cs[|cs| - 1] case Invocation(c) => [c] case _ => [])
  }

  /** `feedback.String()`: the note followed by each fragment on its own line. */
  function Rendered(fb: Feedback): string {
    fb.note + Lines(fb.text)
  }

  function Lines(ss: seq<string>): string {
    if ss == [] then "" else Lines(ss[..|ss| - 1]) + "\n" + ss[|ss| - 1]
  }

  /** `prompt.ToSeq()`: each section of the prompt as a message of its own. */
  function ToSeq(p: Prompt): (r: seq<Message>)
    ensures |r| == |p.parts|
    ensures forall i :: 0 <= i < |r| ==> r[i] == PartMsg(p.parts[i])
  {
    seq(|p.parts|, i requires 0 <= i < |p.parts| => PartMsg(p.parts[i]))
  }

  /**
   * How an agent's `Prompt` ends: the value, or the error (the source returns
   * a zero value with it), or `Unfinished` when the round trips explored ran out.
   */
  datatype Outcome<B> = Returned(value: B) | Failed(error: Error) | Unfinished

  /** Agent state passed to a reasoner. */
  datatype State<B> = State(phase: Phase, epoch: int, reply: B, confidence: real, feedback: Option<Feedback>)

  /** What a decoder (or a tool's Run) returns: `(confidence, value, error)`. */
  datatype Decoded<B> = Decoded(confidence: real, value: B, err: Option<Error>)

  /** What a reasoner returns: `(phase, prompt, error)`. */
  datatype Deduction = Deduction(phase: Phase, prompt: Prompt, err: Option<Error>)

  /** Result of a command-style tool: its name and its textual output. */
  datatype CmdOut = CmdOut(cmd: string, output: string)

  /** One request/reply exchange as memory renders it. */
  datatype Exchange = Exchange(query: Prompt, reply: Reply)

  /** An argument of a tool, and the JSON schema a tool is advertised with. */
  datatype Arg = Arg(name: string, kind: string, about: string)

  datatype Schema = Schema(kind: string, properties: map<string, Arg>, required: seq<string>)

  /** `chatter.Cmd`: a tool descriptor advertised to the model. */
  datatype Descriptor = Descriptor(cmd: string, about: string, schema: Schema)

  /** Options of a transport call; the registry's descriptors are one of them. */
  datatype Opt = ToolsOpt(tools: seq<Descriptor>) | OtherOpt(id: nat)

  /**
   * The monotonic id clock (`guid.G(guid.Clock)`): every reading is fresh and
   * larger than all earlier ones.
   */
  class Clock {
    var now: nat

    constructor ()
      ensures now == 0
    {
      now := 0;
    }

    method Tick() returns (t: nat)
      modifies this
      ensures t == old(now) && now == old(now) + 1
    {
      t := now;
      now := now + 1;
    }
  }
}
