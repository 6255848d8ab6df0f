# thinker: the agent control core in Dafny

This project models the decision and control core of `thinker`, a Go
library for building LLM agents, and proves properties of it. The core is:

- the two agent loops. `Automata.Prompt` is a five-phase state machine over
  ASK, RETURN, RETRY, REFINE and ABORT. `Manifold.Prompt` is a loop driven by
  the reply's stage, which routes native tool calls back into the
  conversation;
- the memories that build the context window. The stream memory keeps every
  committed observation; the void memory keeps nothing;
- the reasoners, which are pure decisions from the agent state to a phase,
  a prompt and an error: the epoch budget decorator, the void reasoner, the
  command reasoners of `reasoner/` and `command/softcmd/`, and the `deduct`
  functions of the jsonify and worker agents;
- the two command registries. The soft registry is driven by the `TOOL:`
  text marker. The native registry is driven by tool-call content;
- `<codeblock>` extraction and the `return` pseudo-command.

Modules, one per component:

- `Thinker` (thinker.dfy): the shared types. This covers phases, reply
  stages, prompts and their parts, replies, messages, the error kinds, the
  agent state, decoded values, and the id clock behind `NewObservation`.
- `Strings` (strings.dfy): `strings.Index` and `strings.HasPrefix` over
  strings as sequences of characters. Go counts bytes; see
  `SoftCmd.ArgumentAsWritten` under "Left out".
- `Memory` (memory.dfy): `Stream` is a class with a `heap` map and a
  `commits` sequence. `Void` is a value.
- `Reasoners` (reasoner.dfy): `Epoch`, `Void`, `Cmd`, `CmdSeq` and the
  softcmd `CmdOne`/`CmdSeq`. The softcmd variants decide exactly like
  `reasoner/command.go`, so one definition serves both.
- `CodeBlocks` (codeblock.dfy): `CodeBlock`.
- `SoftCmd` (softcmd.dfy): the soft `Cmd`, `Registry` (Register, Harden,
  Decode) and the `return` pseudo-command.
- `Tools` (tools.dfy): the native `command.Registry` (NewRegistry, Register,
  Context, convert, Invoke) and `command.go`'s `Cmd.IsValid`.
- `Automata` (automata.dfy): the loop of `agent/automata.go`.
  - The specification is `Step`/`Run`/`PromptSpec`, over an abstract memory
    interface `Mem`.
  - The imperative `Prompt` and `Drive` run the loop over a `Memory.Stream`
    object and are proved equal to `PromptSpec`.
- `Agents` (agents.dfy): the jsonify agent as an automata configuration,
  and the worker's registration, encoder and reasoner.
- `Manifold` (manifold.dfy): the loop of `agent/manifold.go`.
  - The specification is `Step`/`Run`/`PromptSpec`.
  - The imperative `Prompt` runs the loop over a `Tools.Registry` object and
    is proved equal to `PromptSpec`.

The LLM transport, the encoder, the decoder and the reasoner are
function-valued fields of a configuration. The transport receives the
number of calls made so far, so that a scripted sequence of replies is one
such function. The unbounded `for {}` loops are explored for at most `fuel`
round trips. A run that exhausts the fuel ends as `Unfinished`.

## Model

| member | source | states |
|---|---|---|
| Memory.Window | memory/stream.go:47-63 | The window has length (1 if the stratum is non-empty, else 0) + 2·commits + 1. It begins with the stratum exactly when the stratum is non-empty and ends with the prompt. In between, each committed exchange appears in commit order, query before reply. |
| Memory.WindowExtends | memory/stream.go:38-63 | Nothing is evicted: after further commits, the window still starts with the same rendering of every earlier exchange. |
| Memory.Stream.constructor | memory/stream.go:29-35 | A new stream has the given stratum, an empty heap, no commits and an empty log. |
| Memory.Stream.Commit | memory/stream.go:38-44 | The id is appended to `commits` and mapped to the observation in `heap`. For a fresh id, the log gains exactly that exchange at its end. |
| Memory.Stream.Context | memory/stream.go:47-63 | The window returned is `Window` of the stratum, the log before the call and the prompt. `commits` and every observation's content are unchanged, and so is the log. Each committed observation is restamped with a fresh access time. |
| Memory.Restamp | memory/stream.go:52-58 | The loop renders the log of the given ids. It restamps each of their access times with a fresh clock value and changes nothing else. |
| Memory.SameContentSameLog | memory/stream.go:53-54 | Restamping access times never changes the log a stream renders. |
| Memory.NewObservation | memory.go:45-51 | An observation gets a fresh id from the clock, with the given query and reply. |
| Memory.Void.Context | memory/void.go:35-41 | With an empty stratum, the window is the prompt's own parts. Otherwise it is exactly [stratum, prompt], the same as a stream with nothing committed. |
| Reasoners.EpochDeduct | reasoner/epoch.go:29-35 | At or past the budget, the result is ABORT with an empty prompt and a max-epoch error carrying the epoch. Below it, the result is exactly the inner reasoner's. |
| Reasoners.EpochIgnoresInnerAtLimit | reasoner/epoch.go:30-32 | At or past the budget, the inner reasoner makes no difference. |
| Reasoners.EpochAbortsIffBudgetSpent | reasoner/epoch.go:30-34 | If the inner reasoner never raises a max-epoch error itself, the decorator raises one if and only if epoch ≥ max. |
| Reasoners.VoidDeduct | reasoner/void.go:23-25 | The result is always RETURN, an empty prompt and no error. |
| Reasoners.VoidIgnoresState | reasoner/void.go:23-25 | The decision does not depend on the state. |
| Reasoners.CmdDeduct | reasoner/command.go:33-47 | REFINE if and only if there is feedback and confidence < 1, with the "Refine the previous operation" prompt. Otherwise RETURN if and only if the command is non-empty, and ABORT with the unknown-state error if and only if it is empty. |
| Reasoners.CmdSeqDeduct | reasoner/command.go:61-89 | REFINE if and only if the feedback is actionable, with the "Refine the previous workflow step" prompt. Otherwise RETURN on "return", ASK on any other non-empty command (with "Continue the workflow execution." and the tool's output), and ABORT with the unknown-state error on the empty command. Each case is if-and-only-if. |
| Reasoners.CommandReasonersErrors | command/softcmd/resoner.go:34-48 | The only error either command reasoner raises is the unknown-state error, and only on an empty command. The sequence reasoner never aborts on a non-empty command. |
| Reasoners.CmdAndCmdSeqAgree | command/softcmd/resoner.go:64-90 | Both reasoners refine in exactly the same states. They decide identically when the command is empty or "return". |
| CodeBlocks.CodeBlock | command/softcmd/codeblock.go:18-35 | Success if and only if both tags occur and the first open tag precedes the first close tag. The result never holds a close tag. On failure, the result is "" and a Feedback error naming the tool. |
| CodeBlocks.BetweenFirstTags | command/softcmd/codeblock.go:22-33 | On success, the result is the text between the end of the first open tag and the start of the first close tag. Neither tag occurs before those positions. |
| CodeBlocks.OpenTagEndsFirst | command/softcmd/codeblock.go:22-33 | The slice is in bounds: an open tag starting before a close tag ends at or before it. |
| CodeBlocks.TagsAreUnambiguous | command/softcmd/codeblock.go:19-20 | Neither tag can overlap itself, and the two differ at their second character. |
| CodeBlocks.CodeBlockRoundTrip | command/softcmd/codeblock.go:18-35 | `x + "<codeblock>" + c + "</codeblock>" + y` yields exactly `c` when `x` holds neither tag and `c` holds no close tag. |
| SoftCmd.IsValidIgnoresSyntax | command/softcmd/registry.go:45-47 | Validity never depends on the syntax. |
| SoftCmd.IsValid | command/softcmd/registry.go:45-47 | Definition: a command is valid when it has a name, a description and a run function. |
| SoftCmd.LineAdvertises | command/softcmd/registry.go:104-108 | A command's advertised line starts with its name, holds its description and ends with `TOOL:` followed by its syntax. |
| SoftCmd.Registry.constructor | command/softcmd/registry.go:69-73 | A new registry is empty. |
| SoftCmd.Registry.Register | command/softcmd/registry.go:76-90 | A taken name gives a conflict; this is checked first. Otherwise an invalid command is refused. The map changes only on success, and then gains exactly name ↦ command. |
| SoftCmd.Registry.Harden | command/softcmd/registry.go:93-111 | The prompt keeps its parts. It gains the fixed rules, then a context block with one line per registered command and no other line. |
| SoftCmd.Registry.Decode | command/softcmd/registry.go:114-139 | The result is one of the outcomes `Decodes` allows. Either the first `TOOL:` is followed by a registered name and the result is that command run on the text after the name, or the result is (0.0, empty output, the no-tool Feedback). This is the corrected argument of the Findings row. When no text precedes the first marker, the result is also one the source's slice allows (`DecodesAsWritten`). |
| SoftCmd.Decodes | command/softcmd/registry.go:114-139 | Definition: the outcomes `Decode` may produce with the corrected argument. With the first marker followed by a registered name, that command runs on the text after the name; any such name may be picked. Otherwise the outcome is the no-tool feedback. |
| SoftCmd.DecodesAsWritten | command/softcmd/registry.go:114-139 | Definition: the same outcomes, with the argument sliced as registry.go:123 slices it. |
| SoftCmd.DecodesAgreeAtStart | command/softcmd/registry.go:119-128 | With no text before the first marker, or no marker at all, the corrected and the as-written decodings allow the same outcomes. |
| SoftCmd.DecodeOffsetCounterexample | command/softcmd/registry.go:123 | With `bash` registered, "ab TOOL:bash ls" runs `bash` on " ls" in the corrected decoding and on "ash ls" as written. |
| SoftCmd.DecodeRoundTrip | command/softcmd/registry.go:114-128 | `x + "TOOL:" + name + arg` decodes to the command run on exactly `arg`, provided `x` has no marker and no other registered name is a prefix of `name + arg`. |
| SoftCmd.NoToolWithoutMarker | command/softcmd/registry.go:116-138 | A reply without a marker decodes to the no-tool Feedback with confidence 0. |
| SoftCmd.Argument | command/softcmd/registry.go:119-123 | The corrected argument: the text after the marker is exactly the name followed by the argument. |
| SoftCmd.ArgumentAsWritten | command/softcmd/registry.go:123 | The argument as the source slices it, counted from the start of the reply. The slice is always in bounds. |
| SoftCmd.ArgumentAsWrittenAgreesAtStart | command/softcmd/registry.go:116-123 | The as-written and corrected arguments agree when the marker opens the reply. |
| SoftCmd.MarkerOffsetCounterexample | command/softcmd/registry.go:116-123 | On "ab TOOL:bash ls", the marker is at 3 and names `bash`. The code hands the tool "ash ls"; the intended argument is " ls". |
| SoftCmd.Return | command/softcmd/pseudo.go:19-32 | The pseudo-command is named "return" and is valid. |
| SoftCmd.ReturnRun | command/softcmd/pseudo.go:24-30 | With a well-formed block, the result is confidence 1.0 and the block as output. Otherwise it is confidence 0.0, empty output and the block Feedback. The confidence is always 0.0 or 1.0. |
| SoftCmd.ReturnRunRoundTrip | command/softcmd/pseudo.go:24-30 | Running the pseudo-command on a wrapped block yields exactly that block with full confidence. |
| SoftCmd.DecodeReturnBlock | command/softcmd/registry.go:114-139 | With only `return` registered, `TOOL:return <codeblock>c</codeblock>…` decodes to `c` with confidence 1.0. |
| Tools.IsValidFields | command.go:40-42 | Validity needs a non-empty name, description and syntax and a run function. The long text and the arguments never affect it. |
| Tools.IsValid | command.go:40-42 | Definition: a command is valid when it has a name, a short description, a syntax and a run function. |
| Tools.ReturnTool | command/return.go:21-41 | The return tool is named "return" and declares one argument, `value`. |
| Tools.PropertiesKeys | command/registry.go:113-116 | The schema's properties hold exactly the declared argument names. |
| Tools.PropertiesLastDeclared | command/registry.go:113-116 | An argument that is not redeclared later is the property under its name. |
| Tools.Convert | command/registry.go:110-134 | The loop builds the descriptor of the tool: its property map and its required list. |
| Tools.DescriptorSchema | command/registry.go:110-134 | The schema is an "object" whose property names are exactly the argument names. Its required list is every argument name in declaration order. |
| Tools.Registry.constructor | command/registry.go:29-36 | A new registry holds exactly the return tool and its descriptor. It is empty if the validity predicate refuses that tool. |
| Tools.Registry.Register | command/registry.go:39-59 | A conflict is checked before validity. On failure, neither the map nor the descriptors change. On success, the map gains the tool and one descriptor is appended at the end, so there is always one descriptor per registered name. |
| Tools.ListedExtends | command/registry.go:56-58 | Adding a new name to the map and appending its descriptor keeps one descriptor per registered tool, in registration order. |
| Tools.Registry.Context | command/registry.go:61 | The advertised descriptors are exactly one per registered tool, each built from that tool. |
| Tools.Dispatch | command/registry.go:66-91 | An unknown name gives the Feedback "the tool … is unknown to the client.". The return tool's bytes pass through unpacked and other tools' output is packed. A Feedback error from a tool becomes packed output; any other error propagates. |
| Tools.Registry.Callback | command/registry.go:66-91 | The callback's result for a call is `Dispatch` of that call. It reports a return exactly when the return tool ran without error. |
| Tools.RunAll | command/registry.go:66-95 | The calls are dispatched in order. The run succeeds if and only if every call succeeds, with one yield per call. Otherwise it stops with the first failing call's error. |
| Tools.FirstReturn | command/registry.go:97-105 | The result is the value of the first yield whose source is "return", and is absent when there is none. |
| Tools.Registry.FindReturn | command/registry.go:97-105 | The scan returns `FirstReturn` of the answer. |
| Tools.InvokeOutcomes | command/registry.go:63-108 | ABORT if and only if some call fails, with no message. RETURN if and only if all calls succeed and the return tool ran, with its yield. ASK otherwise, with one yield per call. |
| Tools.Registry.Invoke | command/registry.go:63-108 | `Invoke` computes exactly `InvokeSpec` of the registry and the reply's calls. |
| Tools.Registry.FailureStops | command/registry.go:66-95 | A failing call after successful ones aborts with that call's error. |
| Tools.InvokeSpec | command/registry.go:63-108 | Definition: the first failing call aborts with its error. If every call succeeds and the return tool ran, the result is RETURN with the return tool's first yield. Otherwise it is ASK with the answer holding every yield. `InvokeOutcomes` characterises it. |
| Automata.EncoderFailureIsReturned | agent/automata.go:66-69 | An encoder error is returned as it is. Memory is untouched and the transport is never called. |
| Automata.TransportFailureIsWrapped | agent/automata.go:73-76 | A transport error ends the loop wrapped as an LLM error, with nothing committed. |
| Automata.DecodeOutcome | agent/automata.go:78-90 | A non-Feedback decode error is returned with nothing committed. Otherwise the reasoner sees the epoch one higher, the same phase, the decoded reply and confidence, and a Feedback decode error as its feedback. |
| Automata.CommitUnlessRetry | agent/automata.go:85-88 | A stream memory gains the exchange of the current prompt and the reply if and only if the phase is not RETRY. The void memory never gains anything. |
| Automata.Verdict | agent/automata.go:90-114 | Definition: the switch on the reasoner's decision. An error stops with it. ASK starts a new state at epoch 0 with the request as its prompt. RETURN stops with the reply. RETRY keeps the prompt and the window. REFINE replaces the prompt. ABORT and any unknown phase stop aborted. `VerdictEnds`, `AskResets`, `RetryResends` and `RefineKeeps` state these cases. |
| Automata.Step | agent/automata.go:73-114 | Definition: one iteration of the loop. It runs the transport and the decode, counts the epoch up, folds in the feedback, commits unless RETRY, then applies `Verdict`. `TransportFailureIsWrapped`, `DecodeOutcome`, `CommitUnlessRetry` and `StepExtendsLog` state its outcomes. `Automata.Round` is proved equal to it. |
| Automata.Run | agent/automata.go:72-115 | Definition: at most `fuel` iterations of `Step`, ending `Unfinished` when the fuel runs out. `RunExtendsLog` bounds it, and `Automata.Drive` is proved equal to it. |
| Automata.PromptSpec | agent/automata.go:57-116 | Definition: an encoder error is returned as it is. Otherwise the result is `Run` from ASK at epoch 0 with the encoded prompt. `Automata.Prompt` is proved equal to it. |
| Automata.VerdictEnds | agent/automata.go:90-93 | A reasoner error is returned as it is. RETURN yields the decoded reply. ABORT yields the aborted error wrapping the reasoner's, and an unknown phase yields it empty. |
| Automata.AskResets | agent/automata.go:96-100 | ASK resets the state to phase ASK, epoch 0 and no feedback. The request becomes the prompt and the window is rendered for it from the memory as it now is. |
| Automata.RetryResends | agent/automata.go:103-105 | RETRY keeps the epoch, the feedback and the prompt, and resends the same window. |
| Automata.RefineKeeps | agent/automata.go:106-109 | REFINE keeps the epoch and the feedback, takes the request as the prompt and re-renders the window. |
| Automata.StreamShowsLastExchange | agent/automata.go:86-109 | Over a stream memory, the request set by ASK or REFINE is sent after every earlier exchange, then the prompt and reply just committed. |
| Automata.AskStartsFresh | agent/automata.go:85-100 | After an ASK, the next round trip shows the reasoner epoch 1, phase ASK, and only that round's own feedback. |
| Automata.VerdictKeepsLog | agent/automata.go:95-114 | No phase changes what memory holds, and each round trip counts exactly one transport call. |
| Automata.StepExtendsLog | agent/automata.go:72-115 | A round trip commits at most one exchange after the held log and counts one call. The void memory never grows. |
| Automata.RunExtendsLog | agent/automata.go:72-115 | The log held at the start is a prefix of the final log. The loop commits at most one exchange per transport call and makes at most `fuel` calls. |
| Automata.StepStaysInBudget | reasoner/epoch.go:30 | Under `Epoch(max, inner)` with an inner reasoner that never asks, a round that continues stays below the budget. |
| Automata.EpochBoundsRoundTrips | agent/automata.go:85 | From epoch `e`, under `Epoch(max, inner)` with a non-asking inner reasoner, the loop makes at most `max - e` transport calls. |
| Automata.EpochStepResetsOrCounts | reasoner/epoch.go:29-35 | Under `Epoch(max, inner)` with any inner reasoner, a round that continues either asks anew at epoch 0 or counts the epoch up and stays below `max`. |
| Automata.SubGoalWithinBudget | reasoner/epoch.go:29-35 | Under `Epoch(max, inner)` with any inner reasoner, asking ones included, one sub-goal makes at most `max - e` transport calls. A sub-goal runs from epoch `e < max` to the next ASK or the end of the loop. |
| Automata.PromptWithinBudget | reasoner/epoch.go:30 | A whole prompt under `Epoch(max, inner)` with a non-asking inner reasoner makes at most `max` transport calls. |
| Automata.VoidTakesOneRoundTrip | reasoner/void.go:24 | With the void reasoner, the loop ends after exactly one transport call: with the wrapped transport error, the decoder's hard error, or the decoded reply. |
| Automata.ToolLoopNeverHitsBudget | agent/automata.go:96-100 | Under `Epoch(4, CmdSeq)`, replies that keep running a non-return tool without feedback never end the loop, whatever the fuel, because each ASK resets the epoch. |
| Automata.RunStep | agent/automata.go:72-115 | One more iteration of the loop, unfolded. |
| Automata.Recall | memory/stream.go:47-63 | `memory.Context` through the memory interface: a stream restamps and renders, and the void memory only renders. Either way the window is the interface's context of the held log and the prompt. |
| Automata.Round | agent/automata.go:73-93 | One iteration over the stream object matches `Step`, and the stream then holds the step's log. |
| Automata.Decide | agent/automata.go:95-114 | The phase switch over the stream object matches `Verdict`. |
| Automata.Prompt | agent/automata.go:57-116 | The outcome, the final log and the number of calls are those of `PromptSpec`, and the stream ends up holding the final log. |
| Automata.Drive | agent/automata.go:72-115 | The loop over the stream object computes `Run`. |
| Agents.JsonEncode | agent/jsonify.go:60-67 | An inner error passes through unchanged. On success, the prompt gains exactly the JSON rules. |
| Agents.JsonDecode | agent/jsonify.go:69-80 | A parse error gives (0.0, nil, error) and a validator error gives (0.1, nil, error). Success gives (1.0, the list, no error) if and only if both accept. The confidence is always 0.0, 0.1 or 1.0. |
| Agents.JsonDeduct | agent/jsonify.go:82-93 | REFINE with the feedback prompt if and only if the feedback is actionable, otherwise RETURN with an empty prompt. It never errors. |
| Agents.JsonifyEncoderErrorPassesThrough | agent/jsonify.go:60-67 | A jsonify prompt whose inner encoder fails returns that error, with no transport call. |
| Agents.JsonifyRound | agent/jsonify.go:69-93 | A Feedback failure, whether a parse or a validator failure, refines while `epoch+1 < attempts` and aborts with the epoch once the budget is spent. Any other failure ends the loop with that error. An accepted list is returned while `epoch+1 < attempts`. Once the budget is spent, an accepted list is discarded and the loop aborts with the epoch, because reasoner/epoch.go:30-31 checks the budget before the list is looked at. |
| Agents.JsonifySingleAttemptNeverReturns | agent/jsonify.go:54 | With `attempts` <= 1, a jsonify prompt never returns a list, whatever the replies: the first reply already spends the budget. |
| Agents.JsonifyWithinBudget | agent/jsonify.go:54 | A jsonify prompt makes at most `attempts` transport calls. |
| Agents.WorkerDeduct | agent/worker.go:60-88 | REFINE if and only if the feedback is actionable. Otherwise RETURN on "return", ASK on "bash" (with the command's output), and ABORT with "unknown state" on any other command, the empty one included. Each case is if-and-only-if. |
| Agents.WorkerAgainstCmdSeq | agent/worker.go:60-88 | The worker decides like the sequence reasoner except on a non-empty command other than "return" or "bash", where it aborts and the sequence reasoner asks. |
| Agents.WorkerReasoner | agent/worker.go:43 | At epoch ≥ 4 the worker aborts with the max-epoch error; below that it decides by `WorkerDeduct`. |
| Agents.Worker.constructor | agent/worker.go:29-49 | Registering the return pseudo-command changes the registry only if "return" was absent. Afterwards the registry always offers "return". |
| Agents.Worker.Encode | agent/worker.go:51-58 | An inner error passes through. On success, the prompt gains the registry's rules and a block advertising every registered command. |
| Manifold.EncoderFailureIsWrapped | agent/manifold.go:40-43 | An encoder error is returned wrapped as a codec error, before any transport call. |
| Manifold.StartsWithPrompt | agent/manifold.go:45-46 | The conversation starts as exactly [prompt]. Every call carries the caller's options followed by the registry's tools. |
| Manifold.TransportFailureIsWrapped | agent/manifold.go:49-52 | A transport error is returned wrapped as an LLM error. |
| Manifold.TextReplyOutcomes | agent/manifold.go:55-82 | For LLM_RETURN or LLM_INCOMPLETE, a successful decode returns the value. A Feedback decode error appends exactly the reply and a feedback prompt. Any other decode error is returned unchanged. |
| Manifold.InvokeOutcomes | agent/manifold.go:83-99 | For LLM_INVOKE, a registry error becomes a command error. RETURN decodes the answer alone, and a decode error becomes a command error. ABORT aborts. Any other phase appends exactly the reply and the answer. |
| Manifold.UnknownStageAborts | agent/manifold.go:100-101 | Any other reply stage aborts. |
| Manifold.NativeRegistryRound | agent/manifold.go:83-99 | With the native registry, a reply whose calls all succeed without the return tool appends the reply and one yield per call. A failing call stops the loop with a command error. |
| Manifold.StepAppendsTwo | agent/manifold.go:65-98 | Each round trip either stops or appends exactly two messages, the reply first. |
| Manifold.RunAppendOnly | agent/manifold.go:48-103 | The conversation is append-only. What the loop starts with is a prefix of what it ends with, and each continuing round trip adds two messages. |
| Manifold.Settle | agent/manifold.go:55-82 | Definition: a text reply returns the decoded value. A Feedback decode error appends the reply and a feedback prompt. Any other decode error is returned. `TextReplyOutcomes` characterises it. |
| Manifold.Route | agent/manifold.go:83-99 | Definition: a registry error is wrapped as a command error. RETURN decodes the answer alone and wraps its error likewise. ABORT aborts. Any other phase appends the reply and the answer. `InvokeOutcomes` characterises it. |
| Manifold.Step | agent/manifold.go:49-102 | Definition: one iteration. A transport error is wrapped. The stage selects `Settle` or `Route`, and any other stage aborts. |
| Manifold.Run | agent/manifold.go:48-103 | Definition: at most `fuel` iterations of `Step`. `RunAppendOnly` states that the conversation only grows. |
| Manifold.PromptSpec | agent/manifold.go:32-104 | Definition: an encoder error is wrapped as a codec error. Otherwise the result is `Run` from [prompt], with the registry's tools appended to the options. `Manifold.Prompt` is proved equal to it. |
| Manifold.Settled | agent/manifold.go:55-82 | The text-reply branch over the conversation slice matches the function `Settle`. |
| Manifold.Prompt | agent/manifold.go:32-104 | Over a native registry object, the outcome, the conversation and the number of calls are those of `PromptSpec`. |

## Left out

- The LLM transport, the encoder and the decoder are abstract function parameters. So are the run functions of tools and the jsonify JSON parser: the regex plus `encoding/json` of `prompt/jsonify/jsonify.go` is a function from a reply to a list or an error.
- The unbounded `for {}` loops are explored for at most `fuel` round trips; a run that exhausts the fuel is `Unfinished`. Nothing is claimed about runs longer than the fuel.
- `Automata.Purge` and `PromptOnce` are not modelled: the stream memory of `memory/stream.go` has no `Purge` in this revision. `Void.Purge` and `Void.Commit` do nothing, and in the model the void memory has no state to change.
- The `ResetQuota` call on the transport has no effect on the loop's logic and is not modelled.
- Locking with `sync.Mutex` is not modelled; everything is sequential.
- Feedback errors are recognised only at the top level: the unwrapping chain of `errors.As` is not modelled.
- Confidence is a `real`. It is only compared with 1.0 and set to literals.
- `ErrAborted.With(nil)` is modelled as the aborted error with no inner error.
- Map iteration order in `Harden` and `Decode` is unspecified. `Harden` is proved to advertise every command whatever the order. `Decode` may pick any registered name that is a prefix of the text after the marker (`SoftCmd.Decodes`).
- SoftCmd.Registry.Decode: runs the command on the corrected argument of the Findings row, not on the slice registry.go:123 takes. The two agree when no text precedes the marker (`SoftCmd.DecodesAgreeAtStart`). The source's outcomes are stated separately as `SoftCmd.DecodesAsWritten`.
- SoftCmd.ArgumentAsWritten: Go's `strings.Index`, `strings.HasPrefix` and `s[i:]` count bytes, while the model counts characters. When non-ASCII text precedes the marker the two differ: on "é TOOL:bash ls" Go hands the tool "ash ls" and the model "sh ls". Go can also cut a multi-byte character in half. `CodeBlocks.CodeBlock` and the corrected `SoftCmd.Argument` slice at indices found in the same string, so they do not depend on the unit.
- Tools.RunAll: the order of the calls, the stop at the first error, one yield per call and a yield's `Source` being the tool's name are assumptions about `chatter`'s `Reply.Invoke`. `chatter` is not part of this model. The RETURN branch of `Tools.InvokeOutcomes` and the meaning of `Tools.FirstReturn` rest on the `Source` assumption.
- Tools.Registry.Register: the conversion failure of `convert` (a `json.Marshal` error, refused as invalid) is not modelled; conversion always succeeds in the model.
- `pack` and `json.Marshal` in `command/registry.go` are not modelled: packed output is a distinct payload holding the bytes.
- `command/return.go`'s run function uses `encoding/json` and is a parameter of `Tools.ReturnTool`.
- The validity predicate of `command/registry.go` is a parameter of `Tools.Registry`. `command.go`'s `Cmd.IsValid` is modelled on its own type (`Tools.Cmd`), because the two `Cmd` shapes in the sources differ.
- The worker agent is modelled over the soft registry (`SoftCmd.Registry`). `agent/worker.go` calls `Harden` on a `command.Registry`, which has no `Harden`, and passes its arguments to `NewAutomata` in an order the signature does not take. `Agents.Worker` models `NewWorker`'s registration, `encode` and `deduct`. The composition of a worker into an automata run is not stated.
- `agent/jsonify.go` and `agent/worker.go` call `memory.NewStream` with a capacity argument that `memory/stream.go` does not take. The stream is modelled with its stratum only.
- The prompt library (`WithTask`, `With`, `ToSeq`, `Reply.String`, `Feedback.String`) is modelled as plain values. A prompt is a sequence of parts, and a reply's text is the concatenation of its text contents. A feedback's text (`Thinker.Rendered`) is given a concrete layout: the note, then each item on its own line after a newline. The exact layout of `chatter.Content`'s `String()` is not part of this model.
- `Epoch(4, CmdSeq)` does not bound a tool loop: every tool result asks anew, and ASK resets the epoch (agent/automata.go:96-100). `Automata.ToolLoopNeverHitsBudget` states this.
- The tool implementations (bash, golang, python), the filesystem helpers, the thin adapters and the examples are not part of this model.

## Findings

| source | as written | input that shows it | evidently intended | confidence | as-written member | corrected member |
|---|---|---|---|---|---|---|
| command/softcmd/registry.go:123 | The argument handed to the tool is `s[5+len(name):]`, counted from the start of the reply rather than from the marker. | "ab TOOL:bash ls": the marker is at 3 and the tool gets "ash ls". | `s[at+5+len(name):]`, which gives " ls". | not executed | SoftCmd.ArgumentAsWritten (SoftCmd.MarkerOffsetCounterexample) | SoftCmd.Argument (SoftCmd.DecodeRoundTrip) |
