/**
 * The native tool-calling registry (command/registry.go) and the command
 * record's validity rule (command.go).
 */
module Tools {
  import opened Thinker

  /** `thinker.Cmd` as command.go declares it; a nil `Run` is `None`. */
  datatype Cmd = Cmd(cmd: string, short: string, syntax: string, long: string, args: seq<string>,
                     run: Option<Reply -> Decoded<CmdOut>>)

  /** `Cmd.IsValid` (command.go): name, short description, syntax and run function are all required. */
  predicate IsValid(c: Cmd) {
    |c.cmd| != 0 && |c.short| != 0 && |c.syntax| != 0 && c.run.Some?
  }

  /** Each required field is needed on its own, and the optional ones never matter. */
  lemma IsValidFields(c: Cmd, long: string, args: seq<string>)
    ensures !IsValid(c.(cmd := "")) && !IsValid(c.(short := "")) && !IsValid(c.(syntax := "")) && !IsValid(c.(run := None))
    ensures IsValid(c.(long := long, args := args)) == IsValid(c)
  {
  }

  /**
   * A tool as command/registry.go uses it: name, description, declared
   * arguments and a run function from the raw JSON arguments to output
   * bytes or an error.
   */
  datatype Tool = Tool(cmd: string, about: string, args: seq<Arg>, run: string -> Result<string>)

  const ReturnName := "return"

  /** `Return()` (command/return.go): its run function parses JSON, so it is a parameter here. */
  function ReturnTool(unmarshal: string -> Result<string>): (t: Tool)
    ensures t.cmd == ReturnName && |t.args| == 1 && t.args[0].name == "value"
  {
    Tool(ReturnName, "indicate that workflow is completed and returns the expected result.",
      [Arg("value", "string", "value to return as the workflow completion")], unmarshal)
  }

  /** The schema's property map: each argument under its name, a later one replacing an earlier namesake. */
  function Properties(args: seq<Arg>): map<string, Arg> {
    if args == [] then map[]
    else Properties(args[..|args| - 1])[args[|args| - 1].name := args[|args| - 1]]
  }

  /** The property map holds exactly the declared argument names. */
  lemma {:induction false} PropertiesKeys(args: seq<Arg>)
    ensures forall name :: name in Properties(args) <==> exists i :: 0 <= i < |args| && args[i].name == name
  {
    if args != [] {
      var prior := args[..|args| - 1];
      var last := args[|args| - 1];
      PropertiesKeys(prior);
      var r := Properties(args);
      assert r == Properties(prior)[last.name := last];
      forall name
        ensures name in r <==> exists i :: 0 <= i < |args| && args[i].name == name
      {
        if name in r && name != last.name {
          var i :| 0 <= i < |prior| && prior[i].name == name;
          assert args[i].name == name;
        }
        if name !in r {
          forall i | 0 <= i < |args|
            ensures args[i].name != name
          {
            if i < |prior| {
              assert prior[i].name == args[i].name;
            }
          }
        }
      }
    }
  }

  /** Each argument not redeclared later is the property under its name. */
  lemma {:induction false} PropertiesLastDeclared(args: seq<Arg>, i: nat)
    requires i < |args| && forall j :: i < j < |args| ==> args[j].name != args[i].name
    ensures args[i].name in Properties(args) && Properties(args)[args[i].name] == args[i]
  {
    var prior := args[..|args| - 1];
    var last := args[|args| - 1];
    assert Properties(args) == Properties(prior)[last.name := last];
    if i < |prior| {
      assert prior[i] == args[i];
      forall j | i < j < |prior|
        ensures prior[j].name != prior[i].name
      {
        assert prior[j] == args[j];
      }
      PropertiesLastDeclared(prior, i);
    }
  }

  /** The schema's required list: every argument name, in declaration order. */
  function ArgNames(args: seq<Arg>): (r: seq<string>)
    ensures |r| == |args| && forall i :: 0 <= i < |args| ==> r[i] == args[i].name
  {
    seq(|args|, i requires 0 <= i < |args| => args[i].name)
  }

  /** The descriptor `convert` builds: an object schema over the tool's arguments. */
  function DescriptorOf(t: Tool): Descriptor {
    Descriptor(t.cmd, t.about, Schema("object", Properties(t.args), ArgNames(t.args)))
  }

  /**
   * `convert(cmd)`: build the property map and the required list in one
   * pass over the arguments.
   */
  method Convert(t: Tool) returns (d: Descriptor)
    ensures d == DescriptorOf(t)
  {
    var properties: map<string, Arg> := map[];
    var required: seq<string> := [];
    for i := 0 to |t.args|
      invariant properties == Properties(t.args[..i])
      invariant required == ArgNames(t.args[..i])
    {
      ConvertStep(t.args, i);
      properties := properties[t.args[i].name := t.args[i]];
      required := required + [t.args[i].name];
    }
    assert t.args[..|t.args|] == t.args;
    d := Descriptor(t.cmd, t.about, Schema("object", properties, required));
  }

  lemma ConvertStep(args: seq<Arg>, i: nat)
    requires i < |args|
    ensures Properties(args[..i + 1]) == Properties(args[..i])[args[i].name := args[i]]
    ensures ArgNames(args[..i + 1]) == ArgNames(args[..i]) + [args[i].name]
  {
    assert args[..i + 1][..i] == args[..i];
  }

  /**
   * The schema `convert` builds is an object whose properties are exactly
   * the argument names and whose required list is every name in order.
   */
  lemma DescriptorSchema(t: Tool)
    ensures var s := DescriptorOf(t).schema;
      && s.kind == "object"
      && s.properties.Keys == (set a | a in t.args :: a.name)
      && s.required == ArgNames(t.args)
  {
    PropertiesKeys(t.args);
    var keys := Properties(t.args).Keys;
    forall name | name in keys
      ensures name in set a | a in t.args :: a.name
    {
      var i :| 0 <= i < |t.args| && t.args[i].name == name;
      assert t.args[i] in t.args;
    }
    forall name | name in set a | a in t.args :: a.name
      ensures name in keys
    {
      var a :| a in t.args && a.name == name;
      var i :| 0 <= i < |t.args| && t.args[i] == a;
    }
  }

  /** What the tool-call callback hands back for one call, or the error that stops the calls. */
  function Dispatch(reg: map<string, Tool>, call: ToolCall): (r: Result<Payload>)
    ensures call.name !in reg ==> r == Err(UnknownTool(call.name))
    ensures call.name in reg && reg[call.name].run(call.args).Ok? ==>
      r == Ok(if call.name == ReturnName then Raw(reg[call.name].run(call.args).value)
              else Packed(reg[call.name].run(call.args).value))
    ensures call.name in reg && reg[call.name].run(call.args).Err? && reg[call.name].run(call.args).error.FeedbackError? ==>
      r == Ok(Packed(Rendered(reg[call.name].run(call.args).error.feedback)))
    ensures call.name in reg && reg[call.name].run(call.args).Err? && !reg[call.name].run(call.args).error.FeedbackError? ==>
      r == Err(reg[call.name].run(call.args).error)
    ensures r.Err? ==> r.error.FeedbackError? ==> call.name !in reg
  {
    if call.name !in reg then Err(UnknownTool(call.name))
    else match reg[call.name].run(call.args)
      case Err(FeedbackError(fb)) => Ok(Packed(Rendered(fb)))
      case Err(e) => Err(e)
      case Ok(b) => Ok(if call.name == ReturnName then Raw(b) else Packed(b))
  }

  /** The feedback for a call to a tool the registry does not know. */
  function UnknownTool(name: string): Error {
    FeedbackError(Feedback("the tool " + name + " is unknown to the client.", []))
  }

  /** A call that sets `hasReturn`: the return tool, run without error. */
  predicate ReturnCalled(reg: map<string, Tool>, call: ToolCall) {
    call.name == ReturnName && call.name in reg && reg[call.name].run(call.args).Ok?
  }

  /**
   * The calls of a reply, dispatched in order: the first error stops them,
   * otherwise each call yields under its tool's name.
   */
  function RunAll(reg: map<string, Tool>, calls: seq<ToolCall>): (r: Result<seq<Yield>>)
    ensures r.Ok? <==> forall i :: 0 <= i < |calls| ==> Dispatch(reg, calls[i]).Ok?
    ensures r.Ok? ==> |r.value| == |calls| && forall i :: 0 <= i < |calls| ==>
      r.value[i] == Yield(calls[i].name, Dispatch(reg, calls[i]).value)
    ensures r.Err? ==> exists i :: 0 <= i < |calls| && Dispatch(reg, calls[i]) == Err(r.error) && (forall j :: 0 <= j < i ==> Dispatch(reg, calls[j]).Ok?)
  {
    if calls == [] then Ok([])
    else
      var prior := calls[..|calls| - 1];
      var last := calls[|calls| - 1];
      assert forall i :: 0 <= i < |prior| ==> prior[i] == calls[i];
      match RunAll(reg, prior)
      case Err(e) => Err(e)
      case Ok(ys) =>
        match Dispatch(reg, last)
        case Err(e) => Err(e)
        case Ok(p) => Ok(ys + [Yield(last.name, p)])
  }

  lemma RunAllStep(reg: map<string, Tool>, calls: seq<ToolCall>, i: nat, ys: seq<Yield>, p: Payload)
    requires i < |calls| && RunAll(reg, calls[..i]) == Ok(ys) && Dispatch(reg, calls[i]) == Ok(p)
    ensures RunAll(reg, calls[..i + 1]) == Ok(ys + [Yield(calls[i].name, p)])
  {
    assert calls[..i + 1][..i] == calls[..i];
  }

  /** Whether the return tool ran among the first `i + 1` calls. */
  lemma ReturnCalledStep(reg: map<string, Tool>, calls: seq<ToolCall>, i: nat)
    requires i < |calls|
    ensures (exists k :: 0 <= k < i + 1 && ReturnCalled(reg, calls[k])) <==>
      (exists k :: 0 <= k < i && ReturnCalled(reg, calls[k])) || ReturnCalled(reg, calls[i])
  {
  }

  /** The first value yielded by the return tool, if any. */
  function FirstReturn(ys: seq<Yield>): (r: Option<Payload>)
    ensures r.Some? <==> exists i :: 0 <= i < |ys| && ys[i].source == ReturnName
    ensures r.Some? ==> exists i :: 0 <= i < |ys| && ys[i].source == ReturnName && r.value == ys[i].value && (forall j :: 0 <= j < i ==> ys[j].source != ReturnName)
  {
    if ys == [] then None
    else if ys[0].source == ReturnName then Some(ys[0].value)
    else
      var r := FirstReturn(ys[1..]);
      assert forall i :: 1 <= i < |ys| ==> ys[1..][i - 1] == ys[i];
      r
  }

  /** What `Invoke` returns: the phase, the message for the conversation and the error. */
  datatype Invoked = Invoked(phase: Phase, message: Message, err: Option<Error>)

  /** The decision `Invoke` makes on a reply's tool calls. */
  function InvokeSpec(reg: map<string, Tool>, calls: seq<ToolCall>): Invoked {
    match RunAll(reg, calls)
    case Err(e) => Invoked(Abort, Nil, Some(e))
    case Ok(ys) =>
      if exists i :: 0 <= i < |calls| && ReturnCalled(reg, calls[i]) then
        Invoked(Return, match FirstReturn(ys) case Some(v) => YieldMsg(v) case None => Nil, None)
      else Invoked(Ask, AnswerMsg(Answer(ys)), None)
  }

  /** Once every call has succeeded, only whether the return tool ran decides. */
  lemma AllSucceeded(reg: map<string, Tool>, calls: seq<ToolCall>, ys: seq<Yield>)
    requires RunAll(reg, calls) == Ok(ys)
    ensures (exists i :: 0 <= i < |calls| && ReturnCalled(reg, calls[i])) ==>
      InvokeSpec(reg, calls) == Invoked(Return, match FirstReturn(ys) case Some(v) => YieldMsg(v) case None => Nil, None)
    ensures (forall i :: 0 <= i < |calls| ==> !ReturnCalled(reg, calls[i])) ==>
      InvokeSpec(reg, calls) == Invoked(Ask, AnswerMsg(Answer(ys)), None)
  {
  }

  /**
   * The three outcomes of `Invoke`: abort exactly when a call fails, return
   * exactly when the return tool ran (always with a yielded value), ask with
   * one yield per call otherwise.
   */
  lemma {:induction false} InvokeOutcomes(reg: map<string, Tool>, calls: seq<ToolCall>)
    ensures var r := InvokeSpec(reg, calls);
      && (r.phase == Abort <==> exists i :: 0 <= i < |calls| && Dispatch(reg, calls[i]).Err?)
      && (r.phase == Abort ==> r.message == Nil && r.err.Some?)
      && (r.phase == Return <==> (forall i :: 0 <= i < |calls| ==> Dispatch(reg, calls[i]).Ok?) &&
                                 exists i :: 0 <= i < |calls| && ReturnCalled(reg, calls[i]))
      && (r.phase == Return ==> r.message.YieldMsg? && r.err.None?)
      && (r.phase == Ask ==> r.err.None? && r.message.AnswerMsg? && |r.message.answer.items| == |calls|)
      && (r.phase == Abort || r.phase == Return || r.phase == Ask)
  {
    var all := RunAll(reg, calls);
    if all.Ok? && exists i :: 0 <= i < |calls| && ReturnCalled(reg, calls[i]) {
      var i :| 0 <= i < |calls| && ReturnCalled(reg, calls[i]);
      assert all.value[i].source == ReturnName;
    }
  }

  /**
   * Every tool is registered under its own name, and the descriptors are
   * those of the registered tools, one per name.
   */
  ghost predicate Listed(registry: map<string, Tool>, cmds: seq<Descriptor>) {
    && (forall name :: name in registry ==> registry[name].cmd == name)
    && |cmds| == |registry.Keys|
    && (forall i :: 0 <= i < |cmds| ==> cmds[i].cmd in registry && cmds[i] == DescriptorOf(registry[cmds[i].cmd]))
    && (forall i, j :: 0 <= i < j < |cmds| ==> cmds[i].cmd != cmds[j].cmd)
  }

  /** Registering a new name and appending its descriptor keeps the listing. */
  lemma ListedExtends(registry: map<string, Tool>, cmds: seq<Descriptor>, t: Tool)
    requires Listed(registry, cmds) && t.cmd !in registry
    ensures Listed(registry[t.cmd := t], cmds + [DescriptorOf(t)])
  {
    ListedExtendsCount(registry, cmds, t);
    ListedExtendsDescriptors(registry, cmds, t);
    ListedExtendsDistinct(registry, cmds, t);
  }

  lemma ListedExtendsCount(registry: map<string, Tool>, cmds: seq<Descriptor>, t: Tool)
    requires Listed(registry, cmds) && t.cmd !in registry
    ensures |cmds + [DescriptorOf(t)]| == |registry[t.cmd := t].Keys|
  {
    assert registry[t.cmd := t].Keys == registry.Keys + {t.cmd};
  }

  lemma ListedExtendsDescriptors(registry: map<string, Tool>, cmds: seq<Descriptor>, t: Tool)
    requires Listed(registry, cmds) && t.cmd !in registry
    ensures var r, c := registry[t.cmd := t], cmds + [DescriptorOf(t)];
      forall i :: 0 <= i < |c| ==> c[i].cmd in r && c[i] == DescriptorOf(r[c[i].cmd])
  {
    var r, c := registry[t.cmd := t], cmds + [DescriptorOf(t)];
    forall i | 0 <= i < |c|
      ensures c[i].cmd in r && c[i] == DescriptorOf(r[c[i].cmd])
    {
      if i < |cmds| {
        assert c[i] == cmds[i];
      }
    }
  }

  lemma ListedExtendsDistinct(registry: map<string, Tool>, cmds: seq<Descriptor>, t: Tool)
    requires Listed(registry, cmds) && t.cmd !in registry
    ensures var c := cmds + [DescriptorOf(t)];
      forall i, j :: 0 <= i < j < |c| ==> c[i].cmd != c[j].cmd
  {
    var c := cmds + [DescriptorOf(t)];
    forall i, j | 0 <= i < j < |c|
      ensures c[i].cmd != c[j].cmd
    {
      assert c[i] == cmds[i];
      if j < |cmds| {
        assert c[j] == cmds[j];
      }
    }
  }

  /**
   * `command.Registry`: the tools by name and their descriptors in
   * registration order. Validity of a tool is the registry's `isValid`.
   */
  class Registry {
    const isValid: Tool -> bool
    var registry: map<string, Tool>
    var cmds: seq<Descriptor>

    /** The registry and its descriptors agree (`Listed`). */
    ghost predicate Valid()
      reads this
    {
      Listed(registry, cmds)
    }

    /**
     * `NewRegistry()`: a registry holding the return tool (when it is
     * valid; the registration error is ignored).
     */
    constructor (isValid: Tool -> bool, unmarshal: string -> Result<string>)
      ensures this.isValid == isValid && Valid()
      ensures isValid(ReturnTool(unmarshal)) ==>
        registry == map[ReturnName := ReturnTool(unmarshal)] && cmds == [DescriptorOf(ReturnTool(unmarshal))]
      ensures !isValid(ReturnTool(unmarshal)) ==> registry == map[] && cmds == []
    {
      this.isValid := isValid;
      registry := map[];
      cmds := [];
      new;
      var _ := Register(ReturnTool(unmarshal));
    }

    /**
     * `Register(cmd)`: a taken name is a conflict (checked first), an
     * invalid tool is refused, and only on success are the tool and its
     * descriptor added, the descriptor at the end.
     */
    method Register(t: Tool) returns (err: Option<Error>)
      modifies this
      requires Valid()
      ensures Valid()
      ensures t.cmd in old(registry) ==> err == Some(CmdConflict) && registry == old(registry) && cmds == old(cmds)
      ensures t.cmd !in old(registry) && !isValid(t) ==>
        err == Some(CmdInvalid) && registry == old(registry) && cmds == old(cmds)
      ensures t.cmd !in old(registry) && isValid(t) ==>
        err == None && registry == old(registry)[t.cmd := t] && cmds == old(cmds) + [DescriptorOf(t)]
    {
      if t.cmd in registry {
        return Some(CmdConflict);
      }
      if !isValid(t) {
        return Some(CmdInvalid);
      }
      var d := Convert(t);
      ListedExtends(registry, cmds, t);
      registry := registry[t.cmd := t];
      cmds := cmds + [d];
      err := None;
    }

    /** `Context()`: the descriptors advertised to the model, one per registered tool. */
    function Context(): (r: seq<Descriptor>)
      reads this
      requires Valid()
      ensures |r| == |registry.Keys|
      ensures forall i :: 0 <= i < |r| ==> r[i].cmd in registry && r[i] == DescriptorOf(registry[r[i].cmd])
    {
      cmds
    }

    /**
     * `Invoke(reply)`: run each tool call of the reply in order, stopping
     * at the first error, then decide abort, return or ask.
     */
    method Invoke(reply: Reply) returns (r: Invoked)
      ensures r == InvokeSpec(registry, Calls(reply))
    {
      var calls := Calls(reply);
      var hasReturn := false;
      var answer: seq<Yield> := [];
      for i := 0 to |calls|
        invariant RunAll(registry, calls[..i]) == Ok(answer)
        invariant hasReturn <==> exists k :: 0 <= k < i && ReturnCalled(registry, calls[k])
      {
        assert calls[..i + 1][..i] == calls[..i];
        var out, returned := Callback(calls[i]);
        if out.Err? {
          FailureStops(calls, i);
          return Invoked(Abort, Nil, Some(out.error));
        }
        ReturnCalledStep(registry, calls, i);
        if returned {
          hasReturn := true;
        }
        RunAllStep(registry, calls, i, answer, out.value);
        answer := answer + [Yield(calls[i].name, out.value)];
      }
      assert calls[..|calls|] == calls;
      AllSucceeded(registry, calls, answer);
      if hasReturn {
        var v := FindReturn(answer);
        return Invoked(Return, match v case Some(p) => YieldMsg(p) case None => Nil, None);
      }
      return Invoked(Ask, AnswerMsg(Answer(answer)), None);
    }

    /**
     * The callback `Invoke` hands to the reply for each tool call: what the
     * call yields or the error that stops the calls, and whether it was a
     * successful call of the return tool.
     */
    method Callback(call: ToolCall) returns (out: Result<Payload>, returned: bool)
      ensures out == Dispatch(registry, call) && returned == ReturnCalled(registry, call)
    {
      returned := false;
      if call.name !in registry {
        return Err(UnknownTool(call.name)), returned;
      }
      match registry[call.name].run(call.args) {
        case Err(e) =>
          if e.FeedbackError? {
            out := Ok(Packed(Rendered(e.feedback)));
          } else {
            out := Err(e);
          }
        case Ok(b) =>
          if call.name == ReturnName {
            returned := true;
            out := Ok(Raw(b));
          } else {
            out := Ok(Packed(b));
          }
      }
    }

    /** The scan of `Invoke` for the return tool's value: the first one yielded. */
    static method FindReturn(answer: seq<Yield>) returns (v: Option<Payload>)
      ensures v == FirstReturn(answer)
    {
      for j := 0 to |answer|
        invariant forall k :: 0 <= k < j ==> answer[k].source != ReturnName
      {
        if answer[j].source == ReturnName {
          return Some(answer[j].value);
        }
      }
      return None;
    }

    /** A failing call after successful ones is the error the calls stop with. */
    lemma FailureStops(calls: seq<ToolCall>, i: nat)
      requires i < |calls| && RunAll(registry, calls[..i]).Ok? && Dispatch(registry, calls[i]).Err?
      ensures InvokeSpec(registry, calls) == Invoked(Abort, Nil, Some(Dispatch(registry, calls[i]).error))
    {
      var all := RunAll(registry, calls);
      assert calls[..i + 1][..i] == calls[..i];
      assert all.Err?;
      var k :| 0 <= k < |calls| && Dispatch(registry, calls[k]) == Err(all.error) &&
        forall j :: 0 <= j < k ==> Dispatch(registry, calls[j]).Ok?;
      forall j | 0 <= j < i
        ensures Dispatch(registry, calls[j]).Ok?
      {
        assert calls[..i][j] == calls[j];
      }
      assert k == i;
    }
  }
}
