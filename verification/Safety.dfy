/** The verdict on one tool call (agent/safety/rule_engine.py, agent/agent_router/router.py). */
module Safety {

  datatype Mode = ReadOnlyMode | PlanMode | AgentMode | BreakGlass | ExecutingMode

  datatype Risk = ReadOnly | Write | Dangerous

  datatype Verdict = Allow | RequireConfirm | Block

  /** Which rule decided; the texts shown to the user are left out. */
  datatype Reason =
    | ModeGate | Emergency
    | ProtectedPath(path: string) | DangerousPattern(rule: nat) | PolicyPattern(rule: nat)
    | AutoReadOnly | AllWrites | HighRisk | Passed

  /** Regular expressions are predicates on the flattened argument values. */
  datatype Policy = Policy(
    protectedPaths: seq<string>, dangerous: seq<string -> bool>, patterns: seq<string -> bool>, allWrite: bool)

  function AllowedRiskLevels(mode: Mode): set<Risk> {
    if mode.ReadOnlyMode? || mode.PlanMode? then {ReadOnly} else {ReadOnly, Write, Dangerous}
  }

  predicate HasPart(text: string, part: string) {
    exists k :: 0 <= k <= |text| && part <= text[k..]
  }

  predicate TouchesPath(paths: seq<string>, value: string) {
    exists j :: 0 <= j < |paths| && paths[j] != "" && HasPart(value, paths[j])
  }

  predicate Matches(patterns: seq<string -> bool>, value: string) {
    exists j :: 0 <= j < |patterns| && patterns[j](value)
  }

  /** Some argument value touches a protected path or matches a pattern. */
  predicate Flagged(policy: Policy, values: seq<string>) {
    exists i :: 0 <= i < |values| &&
      (|| TouchesPath(policy.protectedPaths, values[i])
       || Matches(policy.dangerous, values[i])
       || Matches(policy.patterns, values[i]))
  }

  function VerdictFor(policy: Policy, risk: Risk, values: seq<string>, mode: Mode): Verdict {
    if risk !in AllowedRiskLevels(mode) then Block
    else if mode.BreakGlass? then Allow
    else if Flagged(policy, values) then RequireConfirm
    else if risk.Dangerous? || (risk.Write? && policy.allWrite) then RequireConfirm
    else Allow
  }

  method FindProtectedPath(paths: seq<string>, values: seq<string>) returns (hit: seq<string>)
    ensures |hit| <= 1
    ensures hit != [] <==> exists i :: 0 <= i < |values| && TouchesPath(paths, values[i])
    ensures hit != [] ==> hit[0] in paths && hit[0] != ""
  {
    for i := 0 to |values|
      invariant forall k :: 0 <= k < i ==> !TouchesPath(paths, values[k])
    {
      for j := 0 to |paths|
        invariant forall k :: 0 <= k < j ==> paths[k] == "" || !HasPart(values[i], paths[k])
      {
        if paths[j] != "" && HasPart(values[i], paths[j]) {
          assert TouchesPath(paths, values[i]);
          return [paths[j]];
        }
      }
    }
    return [];
  }

  method FindPattern(patterns: seq<string -> bool>, values: seq<string>) returns (hit: seq<nat>)
    ensures |hit| <= 1
    ensures hit != [] <==> exists i :: 0 <= i < |values| && Matches(patterns, values[i])
    ensures hit != [] ==> hit[0] < |patterns|
  {
    for i := 0 to |values|
      invariant forall k :: 0 <= k < i ==> !Matches(patterns, values[k])
    {
      for j := 0 to |patterns|
        invariant forall k :: 0 <= k < j ==> !patterns[k](values[i])
      {
        if patterns[j](values[i]) {
          assert Matches(patterns, values[i]);
          return [j];
        }
      }
    }
    return [];
  }

  /** The ordered search with early returns; only the reported rule depends on the order, the verdict does not. */
  method CheckToolCallWithReason(policy: Policy, risk: Risk, values: seq<string>, mode: Mode)
    returns (verdict: Verdict, reason: Reason)
    ensures verdict == VerdictFor(policy, risk, values, mode)
    ensures reason.ModeGate? <==> verdict.Block?
    ensures reason.Emergency? <==> verdict.Allow? && mode.BreakGlass?
    ensures verdict.RequireConfirm? <==>
            || reason.ProtectedPath? || reason.DangerousPattern? || reason.PolicyPattern?
            || reason.AllWrites? || reason.HighRisk?
  {
    if risk !in AllowedRiskLevels(mode) {
      return Block, ModeGate;
    }
    if mode.BreakGlass? {
      return Allow, Emergency;
    }
    var path := FindProtectedPath(policy.protectedPaths, values);
    if path != [] {
      return RequireConfirm, ProtectedPath(path[0]);
    }
    var rule := FindPattern(policy.dangerous, values);
    if rule != [] {
      return RequireConfirm, DangerousPattern(rule[0]);
    }
    rule := FindPattern(policy.patterns, values);
    if rule != [] {
      return RequireConfirm, PolicyPattern(rule[0]);
    }
    if risk.ReadOnly? {
      return Allow, AutoReadOnly;
    }
    if policy.allWrite && (risk.Write? || risk.Dangerous?) {
      return RequireConfirm, AllWrites;
    }
    if risk.Dangerous? {
      return RequireConfirm, HighRisk;
    }
    return Allow, Passed;
  }

  function Strictness(v: Verdict): nat {
    match v
    case Allow => 0
    case RequireConfirm => 1
    case Block => 2
  }

  ghost predicate Extends(stricter: Policy, policy: Policy) {
    && (forall p | p in policy.protectedPaths :: p in stricter.protectedPaths)
    && policy.dangerous <= stricter.dangerous
    && policy.patterns <= stricter.patterns
    && (policy.allWrite ==> stricter.allWrite)
  }

  lemma {:induction false} FlaggedMonotone(policy: Policy, stricter: Policy, values: seq<string>)
    requires Extends(stricter, policy) && Flagged(policy, values)
    ensures Flagged(stricter, values)
  {
    var i :| 0 <= i < |values| &&
      (|| TouchesPath(policy.protectedPaths, values[i])
       || Matches(policy.dangerous, values[i])
       || Matches(policy.patterns, values[i]));
    if TouchesPath(policy.protectedPaths, values[i]) {
      var j :| 0 <= j < |policy.protectedPaths| && policy.protectedPaths[j] != ""
              && HasPart(values[i], policy.protectedPaths[j]);
      assert policy.protectedPaths[j] in stricter.protectedPaths;
      assert TouchesPath(stricter.protectedPaths, values[i]);
    } else if Matches(policy.dangerous, values[i]) {
      var j :| 0 <= j < |policy.dangerous| && policy.dangerous[j](values[i]);
      assert stricter.dangerous[j](values[i]);
    } else {
      var j :| 0 <= j < |policy.patterns| && policy.patterns[j](values[i]);
      assert stricter.patterns[j](values[i]);
    }
  }

  /** Adding rules to a policy never makes a verdict laxer. */
  lemma {:induction false} StricterPolicy(policy: Policy, stricter: Policy, risk: Risk, values: seq<string>, mode: Mode)
    requires Extends(stricter, policy)
    ensures Strictness(VerdictFor(stricter, risk, values, mode)) >= Strictness(VerdictFor(policy, risk, values, mode))
  {
    if Flagged(policy, values) {
      FlaggedMonotone(policy, stricter, values);
    }
  }

  /** A part is found exactly if the text can be cut around it. */
  lemma {:induction false} HasPartMeaning(text: string, part: string)
    ensures HasPart(text, part) <==> exists a: string, b: string :: text == a + part + b
  {
    if HasPart(text, part) {
      var k :| 0 <= k <= |text| && part <= text[k..];
      var a, b := text[..k], text[k + |part|..];
      assert text == a + part + b;
    }
    forall a: string, b: string | text == a + part + b ensures HasPart(text, part) {
      PartInside(a, part, b);
    }
  }

  lemma {:induction false} PartInside(a: string, part: string, b: string)
    ensures HasPart(a + part + b, part)
  {
    assert (a + part + b)[|a|..] == part + b;
  }

  /** When a call is blocked, waits for confirmation or goes ahead. */
  lemma {:induction false} VerdictTable(policy: Policy, risk: Risk, values: seq<string>, mode: Mode)
    ensures var v := VerdictFor(policy, risk, values, mode);
            var barred := (mode == ReadOnlyMode || mode == PlanMode) && risk != ReadOnly;
            var sensitive := Flagged(policy, values) || risk == Dangerous || (risk == Write && policy.allWrite);
            && (v == Block <==> barred)
            && (v == RequireConfirm <==> !barred && mode != BreakGlass && sensitive)
            && (v == Allow <==> !barred && (mode == BreakGlass || !sensitive))
  {
  }
}
