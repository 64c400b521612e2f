/**
 * The agent summary panel's selectors: the trigger node, the agent node and
 * the tool nodes of a workflow, and the sentence describing the trigger.
 */
module AgentSummary {
  import opened Wrappers
  import opened Types
  import opened Text
  import opened Seqs

  const ToolType := "n8n-nodes-base.executeWorkflow"
  const CronType := "n8n-nodes-base.cron"

  predicate IsTriggerNode(n: Node) {
    EndsWith(n.nodeType, "Trigger") || EndsWith(n.nodeType, ".cron")
  }

  predicate IsAgentNode(n: Node) {
    EndsWith(n.nodeType, ".agent")
  }

  predicate IsToolNode(n: Node) {
    n.nodeType == ToolType
  }

  /** `getTrigger`: the first node whose type ends with "Trigger" or ".cron". */
  function GetTrigger(nodes: seq<Node>): (r: Option<Node>)
    ensures r.None? <==> forall i :: 0 <= i < |nodes| ==> !IsTriggerNode(nodes[i])
    ensures r.Some? ==> exists i :: 0 <= i < |nodes| && nodes[i] == r.value && IsTriggerNode(nodes[i]) &&
                          forall j :: 0 <= j < i ==> !IsTriggerNode(nodes[j])
  {
    FindFirst(nodes, IsTriggerNode)
  }

  /** `getAgent`: the first node whose type ends with ".agent". */
  function GetAgent(nodes: seq<Node>): (r: Option<Node>)
    ensures r.None? <==> forall i :: 0 <= i < |nodes| ==> !IsAgentNode(nodes[i])
    ensures r.Some? ==> exists i :: 0 <= i < |nodes| && nodes[i] == r.value && IsAgentNode(nodes[i]) &&
                          forall j :: 0 <= j < i ==> !IsAgentNode(nodes[j])
  {
    FindFirst(nodes, IsAgentNode)
  }

  /** `getTools`: the nodes that run another workflow, in their original order. */
  function GetTools(nodes: seq<Node>): (r: seq<Node>)
    ensures |r| <= |nodes|
    ensures forall i :: 0 <= i < |r| ==> IsToolNode(r[i]) && r[i] in nodes
    ensures forall i :: 0 <= i < |nodes| && IsToolNode(nodes[i]) ==> nodes[i] in r
  {
    Filter(nodes, IsToolNode)
  }

  /** Selecting the tools of a concatenation selects from each part in turn. */
  lemma GetToolsAppend(xs: seq<Node>, ys: seq<Node>)
    ensures GetTools(xs + ys) == GetTools(xs) + GetTools(ys)
  {
    FilterAppend(xs, ys, IsToolNode);
  }

  /** Selecting the tools again changes nothing. */
  lemma GetToolsIdempotent(nodes: seq<Node>)
    ensures GetTools(GetTools(nodes)) == GetTools(nodes)
  {
    FilterIdempotent(nodes, IsToolNode);
  }

  /** The tool type is neither a trigger type nor an agent type. */
  lemma ToolTypeIsDistinct(n: Node)
    requires IsToolNode(n)
    ensures !IsTriggerNode(n) && !IsAgentNode(n)
  {
    assert n.nodeType[|n.nodeType| - 7..] == "orkflow";
    assert n.nodeType[|n.nodeType| - 5..] == "kflow";
    assert n.nodeType[|n.nodeType| - 6..] == "rkflow";
  }

  /** So a workflow's trigger and agent are never among its tools. */
  lemma TriggerAndAgentAreNotTools(nodes: seq<Node>)
    ensures GetTrigger(nodes).Some? ==> GetTrigger(nodes).value !in GetTools(nodes)
    ensures GetAgent(nodes).Some? ==> GetAgent(nodes).value !in GetTools(nodes)
  {
    var tools := GetTools(nodes);
    forall i | 0 <= i < |tools| ensures !IsTriggerNode(tools[i]) && !IsAgentNode(tools[i]) {
      ToolTypeIsDistinct(tools[i]);
    }
  }

  // ---------------------------------------------------------------------------
  // The trigger sentence

  /** `String(x)` of an optional number: "undefined" when it is absent. */
  function NumberText(x: Option<int>): (r: string)
    ensures x.None? ==> r == "undefined"
    ensures x.Some? && x.value >= 0 ==> AllDigits(r) && ParseNat(r) == x.value
    ensures x.Some? && x.value < 0 ==> |r| >= 2 && r[0] == '-' && AllDigits(r[1..]) && ParseNat(r[1..]) == -x.value
  {
    match x
    case Some(v) => IntToString(v)
    case None => "undefined"
  }

  /** `triggerTimes?.[0]`. */
  function FirstTriggerTime(n: Node): (r: Option<TriggerTime>)
    ensures r.None? <==> n.parameters.triggerTimes == []
    ensures r.Some? ==> r.value == n.parameters.triggerTimes[0]
  {
    if |n.parameters.triggerTimes| > 0 then Some(n.parameters.triggerTimes[0]) else None
  }

  const NoTriggerText := "No trigger defined."
  const SchedulePrefix := "Runs on a schedule: Daily at "
  // One sentence, written as two literals so that the lemmas below can read
  // its opening characters.
  const ExternalEventText := "This agent is " + "triggered by an external event or another workflow."
  const FallbackPrefix := "Trigger type: "

  /** `renderTriggerDetails` as its text: "No trigger defined." without a
      trigger, the schedule sentence for the standard cron type, the
      external-event sentence for any other type mentioning "Trigger", and
      otherwise the type itself behind "Trigger type: ". */
  function TriggerDetails(trigger: Option<Node>): (r: string)
    ensures trigger.None? ==> r == NoTriggerText
    ensures trigger.Some? && trigger.value.nodeType == CronType ==>
              StartsWith(r, SchedulePrefix) && r[|r| - 1] == '.'
    ensures trigger.Some? && trigger.value.nodeType != CronType && Contains(trigger.value.nodeType, "Trigger") ==>
              r == ExternalEventText
    ensures trigger.Some? && trigger.value.nodeType != CronType && !Contains(trigger.value.nodeType, "Trigger") ==>
              r == FallbackPrefix + trigger.value.nodeType
  {
    match trigger
    case None => NoTriggerText
    case Some(n) =>
      if n.nodeType == CronType then
        var time := FirstTriggerTime(n);
        var hour := if time.Some? then Some(time.value.hour) else None;
        var minute := if time.Some? then Some(time.value.minute) else None;
        var h, m := PadStart(NumberText(hour), 2, '0'), PadStart(NumberText(minute), 2, '0');
        ScheduleSentence(h, m);
        SchedulePrefix + h + ":" + m + "."
      else if Contains(n.nodeType, "Trigger") then ExternalEventText
      else FallbackPrefix + n.nodeType
  }

  /** A schedule sentence starts with its prefix and ends with a full stop. */
  lemma ScheduleSentence(h: string, m: string)
    ensures var text := SchedulePrefix + h + ":" + m + ".";
            StartsWith(text, SchedulePrefix) && text[|text| - 1] == '.'
  {
    var text := SchedulePrefix + h + ":" + m + ".";
    assert text == SchedulePrefix + (h + ":" + m + ".");
    PrefixOfAppend(SchedulePrefix, h + ":" + m + ".");
  }

  /** A cron trigger at hh:mm (each below 100) reads "Daily at HH:MM." with
      both parts two digits long, zero-padded, and denoting hh and mm. */
  lemma CronTextZeroPadded(n: Node, hh: nat, mm: nat)
    requires n.nodeType == CronType && hh < 100 && mm < 100
    requires |n.parameters.triggerTimes| > 0 && n.parameters.triggerTimes[0] == TriggerTime(hh, mm)
    ensures var text := TriggerDetails(Some(n));
            var k := |SchedulePrefix|;
            && |text| == k + 6
            && StartsWith(text, SchedulePrefix)
            && AllDigits(text[k..k + 2]) && ParseNat(text[k..k + 2]) == hh
            && text[k + 2] == ':'
            && AllDigits(text[k + 3..k + 5]) && ParseNat(text[k + 3..k + 5]) == mm
            && text[k + 5] == '.'
  {
    TwoPlaces(hh);
    TwoPlaces(mm);
    var h := PadStart(NatToString(hh), 2, '0');
    var m := PadStart(NatToString(mm), 2, '0');
    CronTextParts(n, hh, mm);
    TimeLayout(SchedulePrefix, h, m);
  }

  /** The schedule sentence of a cron trigger is built from its padded parts. */
  lemma CronTextParts(n: Node, hh: nat, mm: nat)
    requires n.nodeType == CronType
    requires |n.parameters.triggerTimes| > 0 && n.parameters.triggerTimes[0] == TriggerTime(hh, mm)
    ensures TriggerDetails(Some(n)) ==
            SchedulePrefix + PadStart(NatToString(hh), 2, '0') + ":" + PadStart(NatToString(mm), 2, '0') + "."
  {
  }

  /** Where the pieces of "prefix HH:MM." sit. */
  lemma TimeLayout(prefix: string, h: string, m: string)
    requires |h| == 2 && |m| == 2
    ensures var text := prefix + h + ":" + m + ".";
            var k := |prefix|;
            && |text| == k + 6 && text[..k] == prefix
            && text[k..k + 2] == h && text[k + 2] == ':'
            && text[k + 3..k + 5] == m && text[k + 5] == '.'
  {
    var text := prefix + h + ":" + m + ".";
    var k := |prefix|;
    assert text[k..k + 2] == h;
    assert text[k + 3..k + 5] == m;
  }

  /** A suffix is contained in the string. */
  lemma {:induction false} EndsWithContains(s: string, suffix: string)
    requires EndsWith(s, suffix)
    ensures Contains(s, suffix)
    decreases |s|
  {
    if |s| > |suffix| {
      assert s[1..][|s[1..]| - |suffix|..] == s[|s| - |suffix|..];
      EndsWithContains(s[1..], suffix);
    } else {
      assert s == suffix;
    }
  }

  /** Every trigger whose type ends with "Trigger" is described as triggered
      by an external event. */
  lemma TriggerSuffixIsExternalEvent(n: Node)
    requires EndsWith(n.nodeType, "Trigger")
    ensures TriggerDetails(Some(n)) == ExternalEventText
  {
    EndsWithContains(n.nodeType, "Trigger");
    assert n.nodeType != CronType by {
      assert CronType[|CronType| - 7..] != "Trigger";
    }
  }

  /** The "Trigger type:" fallback is taken exactly for the selected triggers
      whose type ends with ".cron" without being the standard cron type and
      without containing "Trigger". */
  lemma FallbackOnlyForOtherCron(nodes: seq<Node>)
    requires GetTrigger(nodes).Some?
    ensures var n := GetTrigger(nodes).value;
            TriggerDetails(Some(n)) == FallbackPrefix + n.nodeType <==>
              EndsWith(n.nodeType, ".cron") && n.nodeType != CronType && !Contains(n.nodeType, "Trigger")
  {
    var n := GetTrigger(nodes).value;
    var i :| 0 <= i < |nodes| && nodes[i] == n && IsTriggerNode(nodes[i]);
    if EndsWith(n.nodeType, "Trigger") {
      TriggerSuffixIsExternalEvent(n);
      EndsWithContains(n.nodeType, "Trigger");
    }
    if n.nodeType == CronType {
      assert TriggerDetails(Some(n))[0] == 'R';
      assert (FallbackPrefix + n.nodeType)[0] == 'T';
    } else if Contains(n.nodeType, "Trigger") {
      assert ExternalEventText[1] == 'h';
      assert (FallbackPrefix + n.nodeType)[1] == 'r';
    }
  }

  /** The fallback is reachable: a trigger of type "custom.cron" is selected
      as the trigger and described by the fallback sentence. */
  lemma FallbackReachable(n: Node)
    requires n.nodeType == "custom.cron"
    ensures GetTrigger([n]) == Some(n)
    ensures TriggerDetails(Some(n)) == FallbackPrefix + "custom.cron"
  {
    assert n.nodeType[|n.nodeType| - 5..] == ".cron";
    assert n.nodeType != CronType by {
      assert |n.nodeType| != |CronType|;
    }
    if Contains(n.nodeType, "Trigger") {
      ContainsFirstChar(n.nodeType, "Trigger");
      assert false;
    }
  }
}
