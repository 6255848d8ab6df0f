/**
 * The text-protocol command registry (command/softcmd/registry.go,
 * command/softcmd/pseudo.go): commands advertised in the prompt and invoked
 * by the model writing `TOOL:<name>` followed by the command's argument.
 */
module SoftCmd {
  import opened Thinker
  import opened Strings
  import opened CodeBlocks

  /** `softcmd.Cmd`; a nil `Run` is `None`. */
  datatype Cmd = Cmd(cmd: string, about: string, syntax: string, run: Option<Reply -> Decoded<CmdOut>>)

  /** `Cmd.IsValid`: a name, a description and a run function; the syntax is optional. */
  predicate IsValid(c: Cmd) {
    |c.cmd| != 0 && |c.about| != 0 && c.run.Some?
  }

  /** The syntax never affects validity. */
  lemma IsValidIgnoresSyntax(c: Cmd, syntax: string)
    ensures IsValid(c.(syntax := syntax)) == IsValid(c)
  {
  }

  const Marker := "TOOL:"

  /** The note heading the rules `Harden` adds, as the source spells it (with its indentation). */
  const RulesNote := "Strictly adhere to the following requirements when generating a response.\n\t\t\tDo not deviate, ignore, or modify any aspect of them:"

  const RulesPart := Rules(RulesNote, [
    "When you need to execute a command, output a structured command using the syntax defined by the commands registry.",
    "Implement the sequential workflow, output single command only and wait for result to decide next action.",
    "Do not assume availability of any command.",
    "Do not invent commands that are not explicitly allowed."])

  const RegistryNote := "Allowed commands registry:"

  /** The line advertising one command. */
  function Line(c: Cmd): string {
    c.cmd + ": " + c.about + ", use the syntax to invoke: " + Marker + c.syntax
  }

  /** A command's line starts with its name and holds its description and `TOOL:` with its syntax. */
  lemma {:induction false} LineAdvertises(c: Cmd)
    ensures HasPrefix(Line(c), c.cmd)
    ensures OccursAt(Line(c), c.about, |c.cmd| + 2)
    ensures OccursAt(Line(c), Marker + c.syntax, |Line(c)| - |Marker + c.syntax|)
  {
    var l := Line(c);
    var head := c.cmd + ": " + c.about + ", use the syntax to invoke: ";
    assert l == head + (Marker + c.syntax);
    assert l == c.cmd + ": " + c.about + (", use the syntax to invoke: " + Marker + c.syntax);
    assert l[..|c.cmd|] == c.cmd;
    assert l[|c.cmd| + 2..|c.cmd| + 2 + |c.about|] == c.about;
    assert l[|head|..] == Marker + c.syntax;
  }

  /**
   * `lines` advertises `reg`: one line per registered name, in some order,
   * and nothing else.
   */
  ghost predicate Advertises(reg: map<string, Cmd>, lines: seq<string>) {
    && |lines| == |reg.Keys|
    && (forall name :: name in reg ==> Line(reg[name]) in lines)
    && (forall i :: 0 <= i < |lines| ==> exists name :: name in reg && lines[i] == Line(reg[name]))
  }

  /** The feedback when no registered tool is referenced. */
  const NoToolFeedback := FeedbackError(Feedback(
    "Improve the response based on feedback:",
    ["The output does not contain valid reference to the tool.", "No pattern TOOL:... is found in the output."]))

  const NoTool: Decoded<CmdOut> := Decoded(0.0, CmdOut("", ""), Some(NoToolFeedback))

  /** `name` follows the marker found at `at`. */
  predicate Names(s: string, at: int, name: string) {
    0 <= at && at + |Marker| <= |s| && HasPrefix(s[at + |Marker|..], name)
  }

  /** The argument text: what follows the marker and the name. */
  function Argument(s: string, at: int, name: string): (r: string)
    requires Names(s, at, name)
    ensures s[at + |Marker|..] == name + r
  {
    s[at + |Marker| + |name|..]
  }

  /** The argument text as the source slices it: counted from the start of the reply, not from the marker. */
  function ArgumentAsWritten(s: string, at: int, name: string): (r: string)
    requires Names(s, at, name)
    ensures |Marker| + |name| <= |s| && r == s[|Marker| + |name|..]
  {
    s[|Marker| + |name|..]
  }

  /** The two agree exactly when the marker opens the reply. */
  lemma ArgumentAsWrittenAgreesAtStart(s: string, name: string)
    requires Names(s, 0, name)
    ensures ArgumentAsWritten(s, 0, name) == Argument(s, 0, name)
  {
  }

  /** A reply with text before the marker hands the tool the wrong argument. */
  lemma MarkerOffsetCounterexample()
    ensures var s := "ab TOOL:bash ls";
      Index(s, Marker) == 3 && Names(s, 3, "bash") &&
      ArgumentAsWritten(s, 3, "bash") == "ash ls" && Argument(s, 3, "bash") == " ls"
  {
    var s := "ab TOOL:bash ls";
    SampleMarkerAt3();
    assert s[|Marker| + 4..] == "ash ls";
    assert s[3 + |Marker| + 4..] == " ls";
  }

  /** In the sample reply the first marker follows three characters and names `bash`. */
  lemma SampleMarkerAt3()
    ensures Index("ab TOOL:bash ls", Marker) == 3 && Names("ab TOOL:bash ls", 3, "bash")
  {
    var s := "ab TOOL:bash ls";
    assert s[3..8] == Marker;
    assert IndexFrom(s, Marker, 3) == 3;
    assert s[2..7] != Marker by { assert s[2] != Marker[0]; }
    assert s[1..6] != Marker by { assert s[1] != Marker[0]; }
    assert s[0..5] != Marker by { assert s[0] != Marker[0]; }
    assert s[8..][..4] == "bash";
  }

  /** Every registered command has a run function (registration admits valid commands only). */
  ghost predicate Runnable(reg: map<string, Cmd>) {
    forall name :: name in reg ==> reg[name].run.Some?
  }

  /** What running command `c` on the argument text yields. */
  function RunOn(c: Cmd, arg: string): Decoded<CmdOut>
    requires c.run.Some?
  {
    c.run.value(TextReply(LlmReturn, arg))
  }

  /**
   * The outcomes `Decode` may produce: with the first marker followed by a
   * registered name, that command run on the argument text (any such name,
   * as map iteration order is unspecified); otherwise the no-tool feedback.
   * The argument is the text after the name (`Argument`), or, with
   * `asWritten`, the slice registry.go takes (`ArgumentAsWritten`).
   */
  ghost predicate DecodesBy(reg: map<string, Cmd>, s: string, d: Decoded<CmdOut>, asWritten: bool)
    requires Runnable(reg)
  {
    var at := Index(s, Marker);
    if at == -1 || forall name :: name in reg ==> !Names(s, at, name) then d == NoTool
    else exists name ::
      name in reg && Names(s, at, name) &&
      d == RunOn(reg[name], if asWritten then ArgumentAsWritten(s, at, name) else Argument(s, at, name))
  }

  /** The outcomes of the corrected `Decode`, which the rest of the model uses. */
  ghost predicate Decodes(reg: map<string, Cmd>, s: string, d: Decoded<CmdOut>)
    requires Runnable(reg)
  {
    DecodesBy(reg, s, d, false)
  }

  /** The outcomes of `Decode` as registry.go writes it. */
  ghost predicate DecodesAsWritten(reg: map<string, Cmd>, s: string, d: Decoded<CmdOut>)
    requires Runnable(reg)
  {
    DecodesBy(reg, s, d, true)
  }

  /** With no text before the first marker, or no marker at all, both decodings admit the same outcomes. */
  lemma DecodesAgreeAtStart(reg: map<string, Cmd>, s: string, d: Decoded<CmdOut>)
    requires Runnable(reg) && Index(s, Marker) <= 0
    ensures Decodes(reg, s, d) <==> DecodesAsWritten(reg, s, d)
  {
    if Index(s, Marker) == 0 {
      forall name | Names(s, 0, name)
        ensures ArgumentAsWritten(s, 0, name) == Argument(s, 0, name)
      {
        ArgumentAsWrittenAgreesAtStart(s, name);
      }
    }
  }

  /**
   * With `bash` registered, the reply "ab TOOL:bash ls" runs `bash` on
   * " ls" in the corrected decoding and on "ash ls" as written.
   */
  lemma DecodeOffsetCounterexample(c: Cmd, d: Decoded<CmdOut>)
    requires c.run.Some?
    ensures var reg := map["bash" := c];
      && (Decodes(reg, "ab TOOL:bash ls", d) ==> d == RunOn(c, " ls"))
      && (DecodesAsWritten(reg, "ab TOOL:bash ls", d) ==> d == RunOn(c, "ash ls"))
  {
    MarkerOffsetCounterexample();
    DecodesOne(c, "bash", "ab TOOL:bash ls", d);
  }

  /** With one command registered and named after the first marker, that command runs. */
  lemma DecodesOne(c: Cmd, name: string, s: string, d: Decoded<CmdOut>)
    requires c.run.Some? && Names(s, Index(s, Marker), name)
    ensures Decodes(map[name := c], s, d) ==> d == RunOn(c, Argument(s, Index(s, Marker), name))
    ensures DecodesAsWritten(map[name := c], s, d) ==> d == RunOn(c, ArgumentAsWritten(s, Index(s, Marker), name))
  {
  }

  /**
   * Round trip: a reply whose first marker is followed by a registered name
   * that no other registered name can be confused with runs that command on
   * exactly the text after the name.
   */
  lemma {:induction false} DecodeRoundTrip(reg: map<string, Cmd>, x: string, name: string, arg: string, d: Decoded<CmdOut>)
    requires Runnable(reg) && name in reg && !Contains(x, Marker)
    requires forall other :: other in reg && HasPrefix(name + arg, other) ==> other == name
    requires Decodes(reg, x + Marker + name + arg, d)
    ensures d == RunOn(reg[name], arg)
  {
    var s := x + Marker + name + arg;
    assert s == x + Marker + (name + arg);
    IndexAfter(x, Marker, name + arg);
    var at := |x|;
    assert s[at + |Marker|..] == name + arg;
    assert Names(s, at, name);
    var n :| n in reg && Names(s, at, n) && d == RunOn(reg[n], Argument(s, at, n));
    assert n == name;
    var r := Argument(s, at, name);
    assert name + r == name + arg;
    assert r == (name + r)[|name|..] == (name + arg)[|name|..] == arg;
  }

  /** The reply no registered name follows yields the no-tool feedback. */
  lemma NoToolWithoutMarker(reg: map<string, Cmd>, s: string, d: Decoded<CmdOut>)
    requires Runnable(reg) && !Contains(s, Marker) && Decodes(reg, s, d)
    ensures d == NoTool && d.confidence == 0.0
  {
  }

  /**
   * `softcmd.Registry`: the commands available to the model, by name.
   */
  class Registry {
    var registry: map<string, Cmd>

    /** Every entry is a valid command registered under its own name. */
    ghost predicate Valid()
      reads this
    {
      forall name :: name in registry ==> registry[name].cmd == name && IsValid(registry[name])
    }

    /** `NewRegistry()`: no commands. */
    constructor ()
      ensures registry == map[] && Valid()
    {
      registry := map[];
    }

    /**
     * `Register(cmd)`: a name already taken is a conflict (checked first),
     * an invalid command is refused, and only on success is the command
     * added under its name.
     */
    method Register(c: Cmd) returns (err: Option<Error>)
      modifies this
      requires Valid()
      ensures Valid()
      ensures c.cmd in old(registry) ==> err == Some(CmdConflict) && registry == old(registry)
      ensures c.cmd !in old(registry) && !IsValid(c) ==> err == Some(CmdInvalid) && registry == old(registry)
      ensures c.cmd !in old(registry) && IsValid(c) ==> err == None && registry == old(registry)[c.cmd := c]
    {
      if c.cmd in registry {
        return Some(CmdConflict);
      }
      if !IsValid(c) {
        return Some(CmdInvalid);
      }
      registry := registry[c.cmd := c];
      err := None;
    }

    /**
     * `Harden(prompt)`: the prompt with the fixed rules appended, then the
     * registry block advertising every registered command once.
     */
    method Harden(prompt: Prompt) returns (p: Prompt)
      ensures |p.parts| == |prompt.parts| + 2 && p.parts[..|prompt.parts|] == prompt.parts
      ensures p.parts[|prompt.parts|] == RulesPart
      ensures var block := p.parts[|prompt.parts| + 1];
        block.ContextBlock? && block.note == RegistryNote && Advertises(registry, block.items)
    {
      var lines := [];
      var names := registry.Keys;
      while names != {}
        invariant names <= registry.Keys
        invariant |lines| + |names| == |registry.Keys|
        invariant forall name :: name in registry && name !in names ==> Line(registry[name]) in lines
        invariant forall i :: 0 <= i < |lines| ==>
          exists name :: name in registry && name !in names && lines[i] == Line(registry[name])
        decreases |names|
      {
        var name :| name in names;
        lines := lines + [Line(registry[name])];
        names := names - {name};
      }
      p := prompt.With(RulesPart).With(ContextBlock(RegistryNote, lines));
    }

    /**
     * `Decode(reply)`: find the first marker, run the registered command
     * whose name follows it, or report that no tool is referenced.
     */
    method Decode(reply: Reply) returns (d: Decoded<CmdOut>)
      requires Valid()
      ensures Runnable(registry) && Decodes(registry, ReplyText(reply), d)
      ensures Index(ReplyText(reply), Marker) <= 0 ==> DecodesAsWritten(registry, ReplyText(reply), d)
    {
      var s := ReplyText(reply);
      var at := Index(s, Marker);
      if at > -1 {
        var names := registry.Keys;
        while names != {}
          invariant names <= registry.Keys
          invariant forall name :: name in registry && name !in names ==> !Names(s, at, name)
          decreases |names|
        {
          var name :| name in names;
          if HasPrefix(s[at + |Marker|..], name) {
            d := RunOn(registry[name], Argument(s, at, name));
            if at == 0 {
              DecodesAgreeAtStart(registry, s, d);
            }
            return;
          }
          names := names - {name};
        }
      }
      d := NoTool;
    }
  }

  /** `RETURN`, the name of the pseudo-command that ends a workflow. */
  const ReturnName := "return"

  /**
   * `Return().Run`: the text inside the first code block of the reply, with
   * full confidence, or the code-block feedback with none.
   */
  function ReturnRun(t: Reply): (r: Decoded<CmdOut>)
    ensures r.value.cmd == ReturnName
    ensures r.confidence == 0.0 || r.confidence == 1.0
    ensures r.err.None? <==> WellFormed(ReplyText(t))
    ensures r.err.None? ==> r.confidence == 1.0 && !Contains(r.value.output, CloseTag)
    ensures r.err.Some? ==> r == Decoded(0.0, CmdOut(ReturnName, ""), Some(CodeBlockFeedback(ReturnName)))
  {
    var (code, err) := CodeBlock(ReturnName, ReplyText(t));
    if err.Some? then Decoded(0.0, CmdOut(ReturnName, ""), err)
    else Decoded(1.0, CmdOut(ReturnName, code), None)
  }

  /** `Return()`: the return pseudo-command. */
  function Return(): (c: Cmd)
    ensures c.cmd == ReturnName && IsValid(c)
  {
    Cmd(ReturnName,
      "indicate that workflow is completed, the agent return expected results",
      "return <codeblock>value to return</codeblock>",
      Some(ReturnRun))
  }

  /** The return pseudo-command yields exactly the block it is given. */
  lemma ReturnRunRoundTrip(stage: Stage, x: string, c: string, y: string)
    requires !Contains(x, OpenTag) && !Contains(x, CloseTag) && !Contains(c, CloseTag)
    ensures ReturnRun(TextReply(stage, x + OpenTag + c + CloseTag + y)) == Decoded(1.0, CmdOut(ReturnName, c), None)
  {
    CodeBlockRoundTrip(ReturnName, x, c, y);
  }

  /**
   * The registry's own decode example, in general form: with only the
   * return command registered, `TOOL:return <codeblock>c</codeblock>...`
   * decodes to `c` with full confidence.
   */
  lemma {:induction false} DecodeReturnBlock(c: string, y: string, d: Decoded<CmdOut>)
    requires !Contains(c, CloseTag)
    requires Decodes(map[ReturnName := Return()], Marker + ReturnName + " " + OpenTag + c + CloseTag + y, d)
    ensures d == Decoded(1.0, CmdOut(ReturnName, c), None)
  {
    var reg := map[ReturnName := Return()];
    var arg := " " + OpenTag + c + CloseTag + y;
    Regroup(Marker, ReturnName, " ", OpenTag, c, CloseTag, y);
    NothingInShort("", Marker);
    DecodeRoundTrip(reg, "", ReturnName, arg, d);
    ReturnOnBlock(c, y);
  }

  /** The return command run on a space and a code block yields the block. */
  lemma ReturnOnBlock(c: string, y: string)
    requires !Contains(c, CloseTag)
    ensures RunOn(Return(), " " + OpenTag + c + CloseTag + y) == Decoded(1.0, CmdOut(ReturnName, c), None)
  {
    NothingInShort(" ", OpenTag);
    NothingInShort(" ", CloseTag);
    ReturnRunRoundTrip(LlmReturn, " ", c, y);
  }

  /** Concatenation regrouped after its second part, with an empty part in front. */
  lemma Regroup(a: string, b: string, p: string, q: string, r: string, t: string, u: string)
    ensures a + b + p + q + r + t + u == "" + a + b + (p + q + r + t + u)
  {
  }

  lemma NothingInShort(s: string, t: string)
    requires |s| < |t|
    ensures !Contains(s, t)
  {
  }
}
