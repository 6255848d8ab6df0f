/**
 * Reasoner policies (reasoner/epoch.go, reasoner/void.go,
 * reasoner/command.go and their twins in command/softcmd/resoner.go): pure
 * decisions from the agent state to the next phase, a prompt and an error.
 */
module Reasoners {
  import opened Thinker

  /** `thinker.Reasoner[B]`: a deduction from the agent state. */
  type Reasoner<!B> = State<B> -> Deduction

  /** `chatter.Prompt{}` (or a nil message) with no error. */
  function Done(phase: Phase): Deduction {
    Deduction(phase, EmptyPrompt, None)
  }

  /**
   * `Epoch.Deduct`: abort with the epoch reached once it is at or past the
   * budget, and consult the wrapped reasoner only below it.
   */
  function EpochDeduct<B>(max: int, inner: Reasoner<B>, st: State<B>): (d: Deduction)
    ensures st.epoch >= max ==> d == Deduction(Abort, EmptyPrompt, Some(MaxEpoch(st.epoch)))
    ensures st.epoch < max ==> d == inner(st)
  {
    if st.epoch >= max then Deduction(Abort, EmptyPrompt, Some(MaxEpoch(st.epoch)))
    else inner(st)
  }

  /** At or past the budget, the wrapped reasoner makes no difference to the outcome. */
  lemma EpochIgnoresInnerAtLimit<B>(max: int, f: Reasoner<B>, g: Reasoner<B>, st: State<B>)
    requires st.epoch >= max
    ensures EpochDeduct(max, f, st) == EpochDeduct(max, g, st)
    ensures EpochDeduct(max, f, st).err == Some(MaxEpoch(st.epoch))
  {
  }

  /** The epoch decorator aborts by its own budget exactly when the epoch reached it. */
  lemma EpochAbortsIffBudgetSpent<B>(max: int, inner: Reasoner<B>, st: State<B>)
    requires forall s: State<B> :: inner(s).err != Some(MaxEpoch(s.epoch))
    ensures EpochDeduct(max, inner, st).err == Some(MaxEpoch(st.epoch)) <==> st.epoch >= max
  {
  }

  /** `Void.Deduct`: always return the current reply, whatever the state. */
  function VoidDeduct<B>(st: State<B>): (d: Deduction)
    ensures d.phase == Return && d.prompt == EmptyPrompt && d.err == None
  {
    Done(Return)
  }

  /** The void reasoner's decision does not depend on the state. */
  lemma VoidIgnoresState<B>(a: State<B>, b: State<B>)
    ensures VoidDeduct(a) == VoidDeduct(b)
  {
  }

  /** Feedback the model must act on: there is feedback and the reply is not fully trusted. */
  predicate Actionable<B>(st: State<B>) {
    st.feedback.Some? && st.confidence < 1.0
  }

  /** The prompt a command reasoner refines with: a task and the feedback. */
  function RefinePrompt(task: string, fb: Feedback): Prompt {
    EmptyPrompt.With(Task(task)).With(FeedbackPart(fb))
  }

  const RefineOperation := "Refine the previous operation using the feedback below."
  const RefineStep := "Refine the previous workflow step using the feedback below."
  const ContinueTask := "Continue the workflow execution."

  /** The prompt that hands a tool's output back to the model. */
  function ContinuePrompt(out: CmdOut): Prompt {
    EmptyPrompt.With(Task(ContinueTask)).With(Blob("TOOL:" + out.cmd + " has returned:\n", out.output))
  }

  /** The name of the pseudo-command that ends a workflow. */
  const ReturnCmd := "return"

  /**
   * `Cmd.Deduct` (and softcmd `CmdOne.Deduct`): refine on actionable
   * feedback, return once any command ran, otherwise abort as unknown.
   */
  function CmdDeduct(st: State<CmdOut>): (d: Deduction)
    ensures d.phase == Refine <==> Actionable(st)
    ensures d.phase == Return <==> !Actionable(st) && st.reply.cmd != ""
    ensures d.phase == Abort <==> !Actionable(st) && st.reply.cmd == ""
    ensures d.phase == Refine ==> d == Deduction(Refine, RefinePrompt(RefineOperation, st.feedback.value), None)
    ensures d.phase == Return ==> d == Done(Return)
    ensures d.phase == Abort ==> d == Deduction(Abort, EmptyPrompt, Some(UnknownState))
  {
    if Actionable(st) then Deduction(Refine, RefinePrompt(RefineOperation, st.feedback.value), None)
    else if |st.reply.cmd| != 0 then Done(Return)
    else Deduction(Abort, EmptyPrompt, Some(UnknownState))
  }

  /**
   * `CmdSeq.Deduct` (both variants): refine on actionable feedback, return
   * on the return command, otherwise ask again with the tool's output, or
   * abort as unknown when no command ran.
   */
  function CmdSeqDeduct(st: State<CmdOut>): (d: Deduction)
    ensures d.phase == Refine <==> Actionable(st)
    ensures d.phase == Return <==> !Actionable(st) && st.reply.cmd == ReturnCmd
    ensures d.phase == Ask <==> !Actionable(st) && st.reply.cmd != ReturnCmd && st.reply.cmd != ""
    ensures d.phase == Abort <==> !Actionable(st) && st.reply.cmd == ""
    ensures d.phase == Refine ==> d == Deduction(Refine, RefinePrompt(RefineStep, st.feedback.value), None)
    ensures d.phase == Return ==> d == Done(Return)
    ensures d.phase == Ask ==> d == Deduction(Ask, ContinuePrompt(st.reply), None)
    ensures d.phase == Abort ==> d == Deduction(Abort, EmptyPrompt, Some(UnknownState))
  {
    if Actionable(st) then Deduction(Refine, RefinePrompt(RefineStep, st.feedback.value), None)
    else if st.reply.cmd == ReturnCmd then Done(Return)
    else if |st.reply.cmd| != 0 then Deduction(Ask, ContinuePrompt(st.reply), None)
    else Deduction(Abort, EmptyPrompt, Some(UnknownState))
  }

  /**
   * The sequence reasoner never aborts once a command ran, and the only
   * error either command reasoner reports is the unknown state.
   */
  lemma CommandReasonersErrors(st: State<CmdOut>)
    ensures CmdDeduct(st).err.Some? ==> CmdDeduct(st).err == Some(UnknownState) && st.reply.cmd == ""
    ensures CmdSeqDeduct(st).err.Some? ==> CmdSeqDeduct(st).err == Some(UnknownState) && st.reply.cmd == ""
    ensures st.reply.cmd != "" ==> CmdSeqDeduct(st).phase != Abort
  {
  }

  /** The single-command and sequence reasoners agree except on a non-return command. */
  lemma CmdAndCmdSeqAgree(st: State<CmdOut>)
    ensures !Actionable(st) && (st.reply.cmd == "" || st.reply.cmd == ReturnCmd) ==>
      CmdDeduct(st) == CmdSeqDeduct(st)
    ensures CmdDeduct(st).phase == Refine <==> CmdSeqDeduct(st).phase == Refine
  {
  }
}
