/** Action strings "tool:target", their parts, and the idempotency key built from them
    (src/agent/nodes.py, src/revalidation/fingerprint.py, src/tools/registry.py, src/env/registry.py). */
module Actions {
  import opened Options

  datatype Tool =
    RestartService | ScaleService | DeleteRecords | ClearCache | ApplyConfigChange | RollbackDeployment

  function ToolName(tool: Tool): string {
    match tool
    case RestartService => "restart_service"
    case ScaleService => "scale_service"
    case DeleteRecords => "delete_records"
    case ClearCache => "clear_cache"
    case ApplyConfigChange => "apply_config_change"
    case RollbackDeployment => "rollback_deployment"
  }

  /** The tool a name stands for; `None` for a name not in KNOWN_TOOLS. */
  function ToolOf(name: string): Option<Tool> {
    if name == "restart_service" then Some(RestartService)
    else if name == "scale_service" then Some(ScaleService)
    else if name == "delete_records" then Some(DeleteRecords)
    else if name == "clear_cache" then Some(ClearCache)
    else if name == "apply_config_change" then Some(ApplyConfigChange)
    else if name == "rollback_deployment" then Some(RollbackDeployment)
    else None
  }

  const RECORD_KINDS: set<string> := {"order", "session", "cache_entry"}
  const KNOWN_SERVICES: seq<string> := ["service_a", "service_b", "service_c"]

  predicate HasDisk(service: string) { service == "service_c" }

  function Join(tool: string, target: string): string { tool + ":" + target }

  /** `action.split(":", 1)`; `None` when there is no colon, where unpacking raises. */
  function Split(action: string): Option<(string, string)> {
    if action == "" then None
    else if action[0] == ':' then Some(("", action[1..]))
    else match Split(action[1..])
      case None => None
      case Some(parts) => Some(([action[0]] + parts.0, parts.1))
  }

  /** A parsed action: the tool (`None` if unknown) and its target. */
  datatype Parsed = Parsed(tool: Option<Tool>, target: string)

  function Parse(action: string): Option<Parsed> {
    match Split(action)
    case None => None
    case Some(parts) => Some(Parsed(ToolOf(parts.0), parts.1))
  }

  function Key(runId: string, action: string): string { runId + ":" + action }

  lemma {:induction false} SplitJoin(tool: string, target: string)
    requires ':' !in tool
    ensures Split(Join(tool, target)) == Some((tool, target))
  {
    if tool == "" {
      assert Join(tool, target)[1..] == target;
    } else {
      SplitJoin(tool[1..], target);
      assert Join(tool, target)[1..] == Join(tool[1..], target);
      assert [tool[0]] + tool[1..] == tool;
    }
  }

  lemma {:induction false} SplitSound(action: string)
    requires Split(action).Some?
    ensures var (tool, target) := Split(action).value; ':' !in tool && action == Join(tool, target)
  {
    if action[0] == ':' {
      assert action == Join("", action[1..]);
    } else {
      SplitSound(action[1..]);
      var (tool, target) := Split(action[1..]).value;
      assert action == [action[0]] + action[1..];
    }
  }

  /** Only a text without a colon does not split. */
  lemma {:induction false} SplitsExactly(action: string)
    ensures Split(action).Some? <==> ':' in action
  {
    if action != "" && action[0] != ':' {
      SplitsExactly(action[1..]);
      assert action == [action[0]] + action[1..];
    }
  }

  lemma ToolNameParses(tool: Tool, target: string)
    ensures ':' !in ToolName(tool)
    ensures Parse(Join(ToolName(tool), target)) == Some(Parsed(Some(tool), target))
  {
    SplitJoin(ToolName(tool), target);
  }

  lemma ParseSound(action: string, tool: Tool)
    requires Parse(action).Some? && Parse(action).value.tool == Some(tool)
    ensures action == Join(ToolName(tool), Parse(action).value.target)
  {
    SplitSound(action);
  }

  /** A known tool and a target without a colon. */
  ghost predicate WellFormed(action: string) {
    && Parse(action).Some?
    && Parse(action).value.tool.Some?
    && ':' !in Parse(action).value.target
  }

  /** What `validate_proposal` accepts has the shape of a known tool and a known target. */
  ghost predicate Grounded(action: string) {
    && Parse(action).Some?
    && Parse(action).value.tool.Some?
    && (Parse(action).value.target in RECORD_KINDS || Parse(action).value.target in KNOWN_SERVICES)
  }

  lemma GroundedIsWellFormed(action: string)
    requires Grounded(action)
    ensures WellFormed(action)
  {
  }

  lemma Shape(action: string) returns (tool: Tool, target: string)
    requires WellFormed(action)
    ensures action == Join(ToolName(tool), target)
    ensures ':' !in ToolName(tool) && ':' !in target
  {
    tool, target := Parse(action).value.tool.value, Parse(action).value.target;
    ParseSound(action, tool);
    ToolNameParses(tool, target);
  }

  /** The longer action starts with `x` and a colon, and the other run's id ends with them. */
  ghost predicate Shifted(run1: string, action1: string, run2: string, action2: string, x: string) {
    action1 == x + ":" + action2 && run2 == run1 + ":" + x
  }

  /** Exactly when two (run, action) pairs share a ledger key: they are the same, or a colon can be read
      both as the end of a run id and as part of an action. */
  lemma KeysEqualExactly(run1: string, action1: string, run2: string, action2: string)
    ensures Key(run1, action1) == Key(run2, action2) <==>
      || (run1 == run2 && action1 == action2)
      || (exists x :: Shifted(run1, action1, run2, action2, x))
      || (exists x :: Shifted(run2, action2, run1, action1, x))
  {
    ShiftedShare(run1, action1, run2, action2);
    ShiftedShare(run2, action2, run1, action1);
    if Key(run1, action1) == Key(run2, action2) {
      if |action1| >= |action2| {
        SharedIsShifted(run1, action1, run2, action2);
      } else {
        SharedIsShifted(run2, action2, run1, action1);
      }
    }
  }

  lemma ShiftedShare(run1: string, action1: string, run2: string, action2: string)
    ensures (exists x :: Shifted(run1, action1, run2, action2, x)) ==> Key(run1, action1) == Key(run2, action2)
  {
    forall x | Shifted(run1, action1, run2, action2, x)
      ensures Key(run1, action1) == Key(run2, action2)
    {
      assert run1 + ":" + (x + ":" + action2) == (run1 + ":" + x) + ":" + action2;
    }
  }

  lemma SharedIsShifted(run1: string, action1: string, run2: string, action2: string)
    requires Key(run1, action1) == Key(run2, action2) && |action1| >= |action2|
    ensures (run1 == run2 && action1 == action2) || exists x :: Shifted(run1, action1, run2, action2, x)
  {
    var k, n, m := Key(run1, action1), |run1|, |run2|;
    assert |k| == n + 1 + |action1| == m + 1 + |action2|;
    assert run1 == k[..n] && action1 == k[n + 1..] && run2 == k[..m] && action2 == k[m + 1..];
    if n < m {
      var x := k[n + 1..m];
      assert k[n] == ':' && k[m] == ':';
      assert run2 == run1 + ":" + x;
      assert action1 == x + ":" + action2;
      assert Shifted(run1, action1, run2, action2, x);
    }
  }

  lemma TailColonFree(pre1: string, post1: string, pre2: string, post2: string)
    requires pre1 + ":" + post1 == pre2 + ":" + post2
    requires ':' !in post1 && ':' !in post2
    ensures pre1 == pre2 && post1 == post2
  {
    var s := pre1 + ":" + post1;
    assert s[|pre1|] == ':' && s[|pre2|] == ':';
    assert forall i :: |pre1| < i < |s| ==> s[i] == post1[i - |pre1| - 1];
    assert forall i :: |pre2| < i < |s| ==> s[i] == post2[i - |pre2| - 1];
    assert |pre1| == |pre2|;
    assert pre1 == s[..|pre1|] && pre2 == s[..|pre2|];
    assert post1 == s[|pre1| + 1..] && post2 == s[|pre2| + 1..];
  }

  /** Actions of a known tool on a target without a colon, validated or edited in, share a ledger key only if
      run and action are the same, whatever characters the run ids hold. */
  lemma KeysAreUnique(run1: string, action1: string, run2: string, action2: string)
    requires WellFormed(action1) && WellFormed(action2)
    requires Key(run1, action1) == Key(run2, action2)
    ensures run1 == run2 && action1 == action2
  {
    var t1, x1 := Shape(action1);
    var t2, x2 := Shape(action2);
    var n1, n2 := ToolName(t1), ToolName(t2);
    assert Key(run1, action1) == (run1 + ":" + n1) + ":" + x1;
    assert Key(run2, action2) == (run2 + ":" + n2) + ":" + x2;
    TailColonFree(run1 + ":" + n1, x1, run2 + ":" + n2, x2);
    TailColonFree(run1, n1, run2, n2);
  }

  /** A human edit is not validated: an edited delete whose "kind" holds a colon shares its key
      with a grounded delete of another run. */
  lemma EditedKeysCanCollide(run: string, kind: string)
    requires kind in RECORD_KINDS
    ensures var grounded := Join(ToolName(DeleteRecords), kind);
      var edited := Join(ToolName(DeleteRecords), grounded);
      && Parse(edited) == Some(Parsed(Some(DeleteRecords), grounded))
      && Parse(grounded) == Some(Parsed(Some(DeleteRecords), kind)) && Grounded(grounded)
      && Key(run, edited) == Key(Join(run, ToolName(DeleteRecords)), grounded)
      && run != Join(run, ToolName(DeleteRecords))
  {
    var name := ToolName(DeleteRecords);
    ToolNameParses(DeleteRecords, kind);
    ToolNameParses(DeleteRecords, Join(name, kind));
    assert Shifted(run, Join(name, Join(name, kind)), Join(run, name), Join(name, kind), name);
    KeysEqualExactly(run, Join(name, Join(name, kind)), Join(run, name), Join(name, kind));
    assert |Join(run, name)| > |run|;
  }
}
