/** Small shared datatypes. */
module Wrappers {
  datatype Option<+T> = None | Some(value: T)
}

/**
  Transcript messages, the replay of tool declarations carried by system messages, and the
  declaration of tool loadout changes that precedes every model request.
 */
module Transcript {
  import opened Wrappers

  /** What a model sees of a tool. `spec` is the serialised declaration that `declarationsEqual` compares. */
  datatype Tool = Tool(name: string, spec: string)

  /** An executable tool: its declaration plus the fields that never enter the transcript. */
  datatype AgentTool = AgentTool(declaration: Tool, sequential: bool)

  datatype ToolCall = ToolCall(id: string, name: string, args: string)

  datatype StopReason = Stop | Length | ToolUse | Error | Aborted

  /** Text of a tool result: given by a tool or hook, or one of the texts the agent loop writes itself. */
  datatype Text =
    | Given(text: string)
    | ToolNotFound(tool: string)
    | TruncatedCall(tool: string)
    | OperationAborted
    | ExecutionBlocked
    | NoContent

  datatype Message =
    | System(content: string, added: seq<Tool>, removed: seq<string>)
    | User(content: string)
    | Assistant(content: string, calls: seq<ToolCall>, stop: StopReason, errorMessage: Option<string>)
    | ToolResult(callId: string, toolName: string, text: Text, isError: bool)
    | Custom(role: string, content: string)

  datatype Changes = Changes(added: seq<Tool>, removed: seq<string>)

  const NO_CHANGES := Changes([], [])

  // ---- Ordered tool maps -------------------------------------------------------------
  // A tool map is a sequence in insertion order, as in the source's keyed collections.

  function Lookup(tools: seq<Tool>, name: string): Option<Tool> {
    if tools == [] then None
    else if tools[0].name == name then Some(tools[0])
    else Lookup(tools[1..], name)
  }

  function LookupLast(tools: seq<Tool>, name: string): Option<Tool> {
    if tools == [] then None
    else if tools[|tools| - 1].name == name then Some(tools[|tools| - 1])
    else LookupLast(tools[..|tools| - 1], name)
  }

  function Delete(tools: seq<Tool>, name: string): seq<Tool> {
    if tools == [] then []
    else (if tools[0].name == name then [] else [tools[0]]) + Delete(tools[1..], name)
  }

  function Put(tools: seq<Tool>, tool: Tool): seq<Tool> {
    if tools == [] then [tool]
    else if tools[0].name == tool.name then [tool] + tools[1..]
    else [tools[0]] + Put(tools[1..], tool)
  }

  function DeleteAll(tools: seq<Tool>, names: seq<string>): seq<Tool> {
    if names == [] then tools
    else Delete(DeleteAll(tools, names[..|names| - 1]), names[|names| - 1])
  }

  function PutAll(tools: seq<Tool>, added: seq<Tool>): seq<Tool> {
    if added == [] then tools
    else Put(PutAll(tools, added[..|added| - 1]), added[|added| - 1])
  }

  function Apply(tools: seq<Tool>, changes: Changes): seq<Tool> {
    PutAll(DeleteAll(tools, changes.removed), changes.added)
  }

  ghost predicate DistinctNames(tools: seq<Tool>) {
    forall i, j :: 0 <= i < j < |tools| ==> tools[i].name != tools[j].name
  }

  /** Equal names carry equal declarations. */
  ghost predicate Consistent(tools: seq<Tool>) {
    forall i, j :: 0 <= i < |tools| && 0 <= j < |tools| && tools[i].name == tools[j].name ==> tools[i] == tools[j]
  }

  lemma {:induction false} LookupIsMember(tools: seq<Tool>, name: string)
    ensures Lookup(tools, name).Some? ==>
              exists i :: 0 <= i < |tools| && tools[i] == Lookup(tools, name).value && tools[i].name == name
    ensures Lookup(tools, name).None? ==> forall i :: 0 <= i < |tools| ==> tools[i].name != name
  {
    if tools != [] && tools[0].name != name {
      LookupIsMember(tools[1..], name);
      if Lookup(tools[1..], name).Some? {
        var i :| 0 <= i < |tools[1..]| && tools[1..][i] == Lookup(tools[1..], name).value && tools[1..][i].name == name;
        assert tools[i + 1] == Lookup(tools, name).value;
      } else {
        forall i | 0 <= i < |tools| ensures tools[i].name != name {
          assert i > 0 ==> tools[i] == tools[1..][i - 1];
        }
      }
    }
  }

  lemma {:induction false} LookupLastIsMember(tools: seq<Tool>, name: string)
    ensures LookupLast(tools, name).Some? ==>
              exists i :: 0 <= i < |tools| && tools[i] == LookupLast(tools, name).value && tools[i].name == name
    ensures LookupLast(tools, name).None? ==> forall i :: 0 <= i < |tools| ==> tools[i].name != name
  {
    if tools != [] && tools[|tools| - 1].name != name {
      LookupLastIsMember(tools[..|tools| - 1], name);
    }
  }

  lemma {:induction false} LookupDelete(tools: seq<Tool>, name: string, key: string)
    ensures Lookup(Delete(tools, name), key) == if key == name then None else Lookup(tools, key)
  {
    if tools != [] {
      LookupDelete(tools[1..], name, key);
      if tools[0].name == name {
        assert Delete(tools, name) == Delete(tools[1..], name);
      } else {
        assert Delete(tools, name)[1..] == Delete(tools[1..], name);
      }
    }
  }

  lemma {:induction false} LookupPut(tools: seq<Tool>, tool: Tool, key: string)
    ensures Lookup(Put(tools, tool), key) == if key == tool.name then Some(tool) else Lookup(tools, key)
  {
    if tools != [] {
      if tools[0].name == tool.name {
        assert Put(tools, tool)[1..] == tools[1..];
      } else {
        LookupPut(tools[1..], tool, key);
        assert Put(tools, tool)[1..] == Put(tools[1..], tool);
      }
    }
  }

  lemma {:induction false} LookupDeleteAll(tools: seq<Tool>, names: seq<string>, key: string)
    ensures Lookup(DeleteAll(tools, names), key) == if key in names then None else Lookup(tools, key)
  {
    if names != [] {
      var n := |names| - 1;
      LookupDeleteAll(tools, names[..n], key);
      LookupDelete(DeleteAll(tools, names[..n]), names[n], key);
      assert names == names[..n] + [names[n]];
    }
  }

  lemma {:induction false} LookupPutAll(tools: seq<Tool>, added: seq<Tool>, key: string)
    ensures Lookup(PutAll(tools, added), key)
         == if LookupLast(added, key).Some? then LookupLast(added, key) else Lookup(tools, key)
  {
    if added != [] {
      var n := |added| - 1;
      LookupPutAll(tools, added[..n], key);
      LookupPut(PutAll(tools, added[..n]), added[n], key);
    }
  }

  lemma {:induction false} DeleteKeeps(tools: seq<Tool>, name: string)
    requires DistinctNames(tools)
    ensures DistinctNames(Delete(tools, name))
    ensures forall t :: t in Delete(tools, name) ==> t in tools
  {
    if tools != [] {
      DeleteKeeps(tools[1..], name);
      var rest := Delete(tools[1..], name);
      assert forall t :: t in rest ==> t.name != tools[0].name;
      assert forall t :: t in tools[1..] ==> t in tools;
    }
  }

  lemma {:induction false} PutKeeps(tools: seq<Tool>, tool: Tool)
    requires DistinctNames(tools)
    ensures DistinctNames(Put(tools, tool))
    ensures forall t :: t in Put(tools, tool) ==> t == tool || t in tools
  {
    if tools != [] && tools[0].name != tool.name {
      PutKeeps(tools[1..], tool);
      var rest := Put(tools[1..], tool);
      assert forall t :: t in tools[1..] ==> t.name != tools[0].name;
      assert forall t :: t in rest ==> t.name != tools[0].name;
    }
  }

  lemma {:induction false} ApplyKeepsDistinct(tools: seq<Tool>, changes: Changes)
    requires DistinctNames(tools)
    ensures DistinctNames(Apply(tools, changes))
    decreases |changes.added|, |changes.removed|
  {
    var a, r := changes.added, changes.removed;
    if a != [] {
      ApplyKeepsDistinct(tools, Changes(a[..|a| - 1], r));
      PutKeeps(Apply(tools, Changes(a[..|a| - 1], r)), a[|a| - 1]);
    } else if r != [] {
      ApplyKeepsDistinct(tools, Changes([], r[..|r| - 1]));
      DeleteKeeps(DeleteAll(tools, r[..|r| - 1]), r[|r| - 1]);
    }
  }

  // ---- Replay ------------------------------------------------------------------------

  /** The tools declared after replaying every system message in order. */
  function Replay(messages: seq<Message>): seq<Tool> {
    if messages == [] then []
    else
      var last := messages[|messages| - 1];
      var before := Replay(messages[..|messages| - 1]);
      if last.System? then Apply(before, Changes(last.added, last.removed)) else before
  }

  lemma {:induction false} ReplayIsDistinct(messages: seq<Message>)
    ensures DistinctNames(Replay(messages))
  {
    if messages != [] {
      var n := |messages| - 1;
      ReplayIsDistinct(messages[..n]);
      if messages[n].System? {
        ApplyKeepsDistinct(Replay(messages[..n]), Changes(messages[n].added, messages[n].removed));
      }
    }
  }

  /** Messages that carry no tool fields leave the replayed tools alone. */
  lemma {:induction false} ReplaySkips(before: seq<Message>, after: seq<Message>)
    requires forall i :: 0 <= i < |after| ==> !after[i].System?
    ensures Replay(before + after) == Replay(before)
  {
    if after == [] {
      assert before + after == before;
    } else {
      var n := |after| - 1;
      ReplaySkips(before, after[..n]);
      assert (before + after)[..|before + after| - 1] == before + after[..n];
    }
  }

  /** The loop of `getCurrentTools`. */
  method GetCurrentTools(messages: seq<Message>) returns (tools: seq<Tool>)
    ensures tools == Replay(messages)
  {
    tools := [];
    for i := 0 to |messages|
      invariant tools == Replay(messages[..i])
    {
      var message := messages[i];
      assert messages[..i + 1][..i] == messages[..i];
      if message.System? {
        var before := tools;
        for k := 0 to |message.removed|
          invariant tools == DeleteAll(before, message.removed[..k])
        {
          tools := Delete(tools, message.removed[k]);
          assert message.removed[..k + 1][..k] == message.removed[..k];
        }
        assert message.removed[..|message.removed|] == message.removed;
        var base := tools;
        for k := 0 to |message.added|
          invariant tools == PutAll(base, message.added[..k])
        {
          tools := Put(tools, message.added[k]);
          assert message.added[..k + 1][..k] == message.added[..k];
        }
        assert message.added[..|message.added|] == message.added;
      }
    }
    assert messages[..|messages|] == messages;
  }

  // ---- Tool state changes ------------------------------------------------------------

  function AddedTools(previous: seq<Tool>, current: seq<Tool>): seq<Tool> {
    if current == [] then []
    else
      var n := |current| - 1;
      AddedTools(previous, current[..n])
      + (if LookupLast(previous, current[n].name) == Some(current[n]) then [] else [current[n]])
  }

  function RemovedTools(previous: seq<Tool>, current: seq<Tool>): seq<string> {
    if previous == [] then []
    else
      (if LookupLast(current, previous[0].name) == Some(previous[0]) then [] else [previous[0].name])
      + RemovedTools(previous[1..], current)
  }

  function GetToolStateChanges(previous: seq<Tool>, current: seq<Tool>): Changes {
    Changes(AddedTools(previous, current), RemovedTools(previous, current))
  }

  lemma {:induction false} DistinctLookup(tools: seq<Tool>, name: string)
    requires DistinctNames(tools)
    ensures LookupLast(tools, name) == Lookup(tools, name)
  {
    LookupIsMember(tools, name);
    LookupLastIsMember(tools, name);
  }

  /** The last executable declaration of `name` that differs from the one already declared. */
  function LastOther(current: seq<Tool>, name: string, declared: Option<Tool>): Option<Tool> {
    if current == [] then None
    else
      var last := current[|current| - 1];
      if last.name == name && declared != Some(last) then Some(last)
      else LastOther(current[..|current| - 1], name, declared)
  }

  lemma {:induction false} AddedLookup(previous: seq<Tool>, current: seq<Tool>, name: string)
    ensures LookupLast(AddedTools(previous, current), name) == LastOther(current, name, LookupLast(previous, name))
  {
    if current != [] {
      var n := |current| - 1;
      AddedLookup(previous, current[..n], name);
      var front := AddedTools(previous, current[..n]);
      if LookupLast(previous, current[n].name) == Some(current[n]) {
        assert AddedTools(previous, current) == front;
      } else {
        assert AddedTools(previous, current)[..|front|] == front;
      }
    }
  }

  lemma {:induction false} RemovedMembers(previous: seq<Tool>, current: seq<Tool>, name: string)
    ensures name in RemovedTools(previous, current) <==>
              exists i :: 0 <= i < |previous| && previous[i].name == name
                  && LookupLast(current, name) != Some(previous[i])
  {
    if previous != [] {
      RemovedMembers(previous[1..], current, name);
      assert forall i :: 0 < i < |previous| ==> previous[i] == previous[1..][i - 1];
    }
  }

  lemma {:induction false} LastOtherMeaning(current: seq<Tool>, name: string, declared: Option<Tool>)
    ensures LastOther(current, name, declared).None? <==>
              forall i :: 0 <= i < |current| && current[i].name == name ==> declared == Some(current[i])
    ensures LastOther(current, name, declared).Some? ==>
              var t := LastOther(current, name, declared).value; t in current && t.name == name && declared != Some(t)
  {
    if current != [] {
      LastOtherMeaning(current[..|current| - 1], name, declared);
    }
  }

  /**
    What the delta between a declared state and an executable list leaves declared under `name`:
    the last executable declaration that differs from the old one, else the old one, else nothing.
   */
  lemma DeltaEffect(previous: seq<Tool>, current: seq<Tool>, name: string)
    requires DistinctNames(previous)
    ensures Lookup(Apply(previous, GetToolStateChanges(previous, current)), name)
         == if Lookup(current, name).None? then None
            else if LastOther(current, name, Lookup(previous, name)).Some?
                then LastOther(current, name, Lookup(previous, name))
            else Lookup(previous, name)
  {
    var changes := GetToolStateChanges(previous, current);
    LookupPutAll(DeleteAll(previous, changes.removed), changes.added, name);
    LookupDeleteAll(previous, changes.removed, name);
    AddedLookup(previous, current, name);
    DistinctLookup(previous, name);
    RemovedMembers(previous, current, name);
    LookupIsMember(previous, name);
    LookupIsMember(current, name);
    LookupLastIsMember(current, name);
    LastOtherMeaning(current, name, Lookup(previous, name));
  }

  /** With one declaration per name, applying the computed delta yields exactly the executable tools. */
  lemma DeltaReachesTarget(previous: seq<Tool>, current: seq<Tool>, name: string)
    requires DistinctNames(previous) && Consistent(current)
    ensures Lookup(Apply(previous, GetToolStateChanges(previous, current)), name) == Lookup(current, name)
  {
    DeltaEffect(previous, current, name);
    LastOtherMeaning(current, name, Lookup(previous, name));
    LookupIsMember(current, name);
    LookupIsMember(previous, name);
  }

  // ---- Declaring tool changes --------------------------------------------------------

  /** The index of the last system message, or -1. */
  function LastSystem(messages: seq<Message>): (index: int)
    ensures -1 <= index < |messages|
    ensures index >= 0 ==> messages[index].System?
    ensures forall i :: index < i < |messages| ==> !messages[i].System?
  {
    if messages == [] then -1
    else if messages[|messages| - 1].System? then |messages| - 1
    else LastSystem(messages[..|messages| - 1])
  }

  /** The index of the first message that is not a system message, or the length. */
  function FirstNonSystem(messages: seq<Message>): (index: nat)
    ensures index <= |messages|
    ensures index < |messages| ==> !messages[index].System?
    ensures forall i :: 0 <= i < index ==> messages[i].System?
  {
    if messages == [] || !messages[0].System? then 0 else 1 + FirstNonSystem(messages[1..])
  }

  function WithToolChanges(message: Message, changes: Changes): Message
    requires message.System?
  {
    System(message.content, changes.added, changes.removed)
  }

  function Declarations(tools: seq<AgentTool>): (d: seq<Tool>)
    ensures |d| == |tools|
    ensures forall i :: 0 <= i < |tools| ==> d[i] == tools[i].declaration
  {
    seq(|tools|, i requires 0 <= i < |tools| => tools[i].declaration)
  }

  /** The delta that the next declaration must carry. */
  function PendingChanges(committed: seq<Message>, tools: seq<AgentTool>, pending: seq<Message>): Changes {
    var index := LastSystem(pending);
    var baseline := if index >= 0 then pending[index := WithToolChanges(pending[index], NO_CHANGES)] else pending;
    GetToolStateChanges(Replay(committed + baseline), Declarations(tools))
  }

  function Declared(committed: seq<Message>, tools: seq<AgentTool>, pending: seq<Message>): seq<Message> {
    var index := LastSystem(pending);
    var changes := PendingChanges(committed, tools, pending);
    if index >= 0 then
      if changes == NO_CHANGES && pending[index].added == [] && pending[index].removed == [] then pending
      else pending[index := WithToolChanges(pending[index], changes)]
    else if changes == NO_CHANGES then pending
    else
      var at := FirstNonSystem(pending);
      pending[..at] + [System("", changes.added, changes.removed)] + pending[at..]
  }

  /** `declareToolChanges`: one backward scan for the last system message, then the rewrite. */
  method DeclareToolChanges(committed: seq<Message>, tools: seq<AgentTool>, pendingMessages: seq<Message>)
    returns (declared: seq<Message>)
    ensures declared == Declared(committed, tools, pendingMessages)
  {
    var systemIndex := -1;
    var i := |pendingMessages| - 1;
    while i >= 0
      invariant -1 <= i < |pendingMessages|
      invariant systemIndex == -1
      invariant LastSystem(pendingMessages) == LastSystem(pendingMessages[..i + 1])
    {
      assert pendingMessages[..i + 1][..i] == pendingMessages[..i];
      if pendingMessages[i].System? {
        systemIndex := i;
        break;
      }
      i := i - 1;
    }
    var baseline := pendingMessages;
    if systemIndex >= 0 {
      baseline := pendingMessages[systemIndex := WithToolChanges(pendingMessages[systemIndex], NO_CHANGES)];
    }
    var current := GetCurrentTools(committed + baseline);
    var changes := GetToolStateChanges(current, Declarations(tools));
    var same := |changes.added| == 0 && |changes.removed| == 0;
    if systemIndex >= 0 {
      var pending := pendingMessages[systemIndex];
      if same && |pending.added| == 0 && |pending.removed| == 0 {
        return pendingMessages;
      }
      return baseline[systemIndex := WithToolChanges(pending, changes)];
    }
    if same {
      return pendingMessages;
    }
    var index := FirstNonSystem(pendingMessages);
    return pendingMessages[..index] + [System("", changes.added, changes.removed)] + pendingMessages[index..];
  }

  /** Replaying up to and including the rewritten or inserted declaration applies the computed delta. */
  lemma ReplayEnds(messages: seq<Message>, last: Message)
    requires last.System?
    ensures Replay(messages + [last]) == Apply(Replay(messages), Changes(last.added, last.removed))
  {
    assert (messages + [last])[..|messages|] == messages;
  }

  /** The tools declared before the message that declares the changes: the last pending system message, or a new one. */
  function DeclaredBefore(committed: seq<Message>, pending: seq<Message>): seq<Tool> {
    var index := LastSystem(pending);
    if index >= 0 then Replay(committed + pending[..index]) else Replay(committed)
  }

  lemma DeclaredReplaysDelta(committed: seq<Message>, tools: seq<AgentTool>, pending: seq<Message>)
    ensures var previous := DeclaredBefore(committed, pending);
            && DistinctNames(previous)
            && Replay(committed + Declared(committed, tools, pending))
               == Apply(previous, GetToolStateChanges(previous, Declarations(tools)))
  {
    hide Replay, GetToolStateChanges;
    var index := LastSystem(pending);
    var changes := PendingChanges(committed, tools, pending);
    var declared := Declared(committed, tools, pending);
    if index >= 0 {
      var front := committed + pending[..index];
      var blank := WithToolChanges(pending[index], NO_CHANGES);
      var baseline := pending[index := blank];
      var written := WithToolChanges(pending[index], changes);
      assert declared == pending[index := written];
      assert committed + baseline == (front + [blank]) + pending[index + 1..];
      assert committed + declared == (front + [written]) + pending[index + 1..];
      ReplaySkips(front + [blank], pending[index + 1..]);
      ReplaySkips(front + [written], pending[index + 1..]);
      ReplayEnds(front, blank);
      ReplayEnds(front, written);
      assert Replay(front + [blank]) == Replay(front);
      ReplayIsDistinct(front);
      assert Replay(committed + declared) == Apply(Replay(front), changes);
    } else {
      ReplaySkips(committed, pending);
      ReplayIsDistinct(committed);
      if changes == NO_CHANGES {
        assert Apply(Replay(committed), changes) == Replay(committed);
      } else {
        var update := System("", changes.added, changes.removed);
        assert declared == [update] + pending;
        assert committed + declared == (committed + [update]) + pending;
        ReplaySkips(committed + [update], pending);
        ReplayEnds(committed, update);
      }
    }
  }

  /** After declaring, the transcript declares every name exactly as the runtime would execute it. */
  ghost predicate DeclaresExactly(messages: seq<Message>, tools: seq<AgentTool>) {
    && (forall name :: Lookup(Replay(messages), name) == Lookup(Declarations(tools), name))
    && (forall tool :: tool in Replay(messages) <==> tool in Declarations(tools))
  }

  lemma DeclaringIsExact(committed: seq<Message>, tools: seq<AgentTool>, pending: seq<Message>)
    requires Consistent(Declarations(tools))
    ensures DeclaresExactly(committed + Declared(committed, tools, pending), tools)
  {
    var after := committed + Declared(committed, tools, pending);
    var target := Declarations(tools);
    DeclaredReplaysDelta(committed, tools, pending);
    var previous := DeclaredBefore(committed, pending);
    forall name ensures Lookup(Replay(after), name) == Lookup(target, name) {
      DeltaReachesTarget(previous, target, name);
    }
    ReplayIsDistinct(after);
    forall tool: Tool ensures tool in Replay(after) <==> tool in target {
      MemberIsLookup(Replay(after), tool);
      MemberIsLookup(target, tool);
    }
  }

  lemma MemberIsLookup(tools: seq<Tool>, tool: Tool)
    requires DistinctNames(tools) || Consistent(tools)
    ensures tool in tools <==> Lookup(tools, tool.name) == Some(tool)
  {
    LookupIsMember(tools, tool.name);
  }

  /**
    The executable list declares one definition per name exactly when declaring works from every
    committed transcript.
   */
  lemma DeclaringIsExactIffConsistent(tools: seq<AgentTool>)
    ensures Consistent(Declarations(tools)) <==>
              forall committed: seq<Message>, pending: seq<Message> ::
                DeclaresExactly(committed + Declared(committed, tools, pending), tools)
  {
    var target := Declarations(tools);
    if Consistent(target) {
      forall committed: seq<Message>, pending: seq<Message>
        ensures DeclaresExactly(committed + Declared(committed, tools, pending), tools)
      {
        DeclaringIsExact(committed, tools, pending);
      }
    } else {
      var i, j :| 0 <= i < |target| && 0 <= j < |target| && target[i].name == target[j].name && target[i] != target[j];
      var committed := ClashingTranscript(tools, i, j);
      assert !DeclaresExactly(committed + Declared(committed, tools, []), tools);
    }
  }

  /** A transcript that already declares the executed definition of a clashing name is re-declared wrongly. */
  lemma ClashingTranscript(tools: seq<AgentTool>, i: nat, j: nat) returns (committed: seq<Message>)
    requires i < |tools| && j < |tools|
    requires tools[i].declaration.name == tools[j].declaration.name && tools[i].declaration != tools[j].declaration
    ensures !DeclaresExactly(committed + Declared(committed, tools, []), tools)
  {
    var target := Declarations(tools);
    var name := target[i].name;
    LookupIsMember(target, name);
    var first := Lookup(target, name).value;
    committed := [System("", [first], [])];
    assert committed[..0] == [];
    assert [first][..0] == [];
    assert PutAll([], [first]) == Put(PutAll([], []), first);
    assert Replay(committed) == Apply(Replay([]), Changes([first], [])) == [first];
    DeclaredReplaysDelta(committed, tools, []);
    DeltaEffect([first], target, name);
    LastOtherMeaning(target, name, Some(first));
  }

  // ---- What declaring keeps ----------------------------------------------------------

  /** A message without its tool fields. */
  function Erase(message: Message): Message {
    if message.System? then System(message.content, [], []) else message
  }

  function EraseAll(messages: seq<Message>): (erased: seq<Message>)
    ensures |erased| == |messages|
    ensures forall i :: 0 <= i < |messages| ==> erased[i] == Erase(messages[i])
  {
    seq(|messages|, i requires 0 <= i < |messages| => Erase(messages[i]))
  }

  /** Declaring rewrites tool fields of the last system message, or puts one empty update in front. */
  lemma DeclaringKeepsMessages(committed: seq<Message>, tools: seq<AgentTool>, pending: seq<Message>)
    ensures var declared := Declared(committed, tools, pending);
            || (EraseAll(declared) == EraseAll(pending)
                && forall i :: 0 <= i < |pending| && i != LastSystem(pending) ==> declared[i] == pending[i])
            || (LastSystem(pending) < 0 && |declared| == |pending| + 1 && declared[1..] == pending
                && Erase(declared[0]) == System("", [], []) && declared[0] != Erase(declared[0]))
  {
    var declared := Declared(committed, tools, pending);
    if |declared| == |pending| {
      assert EraseAll(declared) == EraseAll(pending);
    }
  }
}
