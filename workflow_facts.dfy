/**
 * Facts about the shipped workflows: every node type has its own style,
 * the workflow ids are distinct so each sidebar entry opens its own
 * workflow, and what the agent summary says about the daily scheduler.
 */
module WorkflowFacts {
  import opened Wrappers
  import opened Types
  import opened Text
  import opened Seqs
  import opened Workflows
  import opened AgentSummary
  import NodeStyle
  import App

  /** Every node of `w` has its own entry in the style table. */
  predicate Styled(w: Workflow) {
    forall i :: 0 <= i < |w.nodes| ==> w.nodes[i].nodeType in NodeStyle.NodeStyleMap
  }

  lemma SchedulerStyled() ensures Styled(AgentDailyScheduler) {}
  lemma CalendarStateStyled() ensures Styled(GetCalendarState) {}
  lemma ResearchStyled() ensures Styled(ToolResearchAgent) {}
  lemma CreateEventStyled() ensures Styled(ToolCreateCalendarEvent) {}
  lemma NewsStyled() ensures Styled(ToolGetNews) {}
  lemma OnboardingStyled() ensures Styled(OnboardingAgent) {}

  /** No shipped node falls back to the default style. */
  lemma EveryShippedTypeStyled()
    ensures forall w, n :: w in All && n in w.nodes ==> n.nodeType in NodeStyle.NodeStyleMap
  {
    SchedulerStyled();
    CalendarStateStyled();
    ResearchStyled();
    CreateEventStyled();
    NewsStyled();
    OnboardingStyled();
    forall w, n | w in All && n in w.nodes ensures n.nodeType in NodeStyle.NodeStyleMap {
      assert Styled(w);
      var i :| 0 <= i < |w.nodes| && w.nodes[i] == n;
    }
  }

  /** The six workflow ids are pairwise distinct. */
  lemma ShippedIdsDistinct()
    ensures forall i, j :: 0 <= i < j < |All| ==> All[i].id != All[j].id
  {
  }

  /** So selecting any sidebar entry finds exactly that workflow. */
  lemma SelectingEntryFindsIt(i: int)
    requires 0 <= i < |All|
    ensures App.FindWorkflow(All, Some(All[i].id)) == Some(All[i])
  {
    ShippedIdsDistinct();
    App.FindDistinctIds(All, i);
  }

  /** A workflow whose first node is a trigger selects that node. */
  lemma FirstNodeIsTrigger(nodes: seq<Node>)
    requires |nodes| > 0 && IsTriggerNode(nodes[0])
    ensures GetTrigger(nodes) == Some(nodes[0])
  {
  }

  /** A standard cron trigger whose first time is 05:00 reads "Daily at 05:00.". */
  lemma DailyAtFive(n: Node)
    requires n.nodeType == CronType && |n.parameters.triggerTimes| > 0
    requires n.parameters.triggerTimes[0] == TriggerTime(5, 0)
    ensures TriggerDetails(Some(n)) == SchedulePrefix + "05:00."
  {
    assert PadStart(NumberText(Some(5)), 2, '0') == "05";
    assert PadStart(NumberText(Some(0)), 2, '0') == "00";
  }

  /** The scheduler is triggered by its cron node at 05:00 every day. */
  lemma SchedulerTriggerSentence()
    ensures GetTrigger(AgentDailyScheduler.nodes) == Some(AgentDailyScheduler.nodes[0])
    ensures TriggerDetails(GetTrigger(AgentDailyScheduler.nodes)) == SchedulePrefix + "05:00."
  {
    var n := AgentDailyScheduler.nodes[0];
    assert n.nodeType == CronType;
    assert IsTriggerNode(n) by {
      assert n.nodeType[|n.nodeType| - 5..] == ".cron";
    }
    FirstNodeIsTrigger(AgentDailyScheduler.nodes);
    DailyAtFive(n);
  }

  /** When the tool nodes form one contiguous run, they are the tools. */
  lemma ToolsAreRun(nodes: seq<Node>, lo: int, hi: int)
    requires 0 <= lo <= hi <= |nodes|
    requires forall i :: 0 <= i < |nodes| ==> (IsToolNode(nodes[i]) <==> lo <= i < hi)
    ensures GetTools(nodes) == nodes[lo..hi]
  {
    FilterRun(nodes, IsToolNode, lo, hi);
  }

  /** The scheduler's agent calls four tools: the four nodes that run
      another workflow. */
  lemma SchedulerTools()
    ensures GetTools(AgentDailyScheduler.nodes) == AgentDailyScheduler.nodes[1..5]
  {
    var nodes := AgentDailyScheduler.nodes;
    assert forall i :: 1 <= i < 5 ==> IsToolNode(nodes[i]);
    assert !IsToolNode(nodes[0]);
    assert forall i :: 5 <= i < 7 ==> !IsToolNode(nodes[i]);
    ToolsAreRun(nodes, 1, 5);
  }

  /** Every other shipped workflow starts from a node whose type ends with
      "Trigger", and is described as triggered by an external event: the
      "Trigger type:" fallback is never shown for the shipped data. */
  lemma OtherTriggersExternal(i: int)
    requires 0 < i < |All|
    ensures GetTrigger(All[i].nodes) == Some(All[i].nodes[0])
    ensures TriggerDetails(GetTrigger(All[i].nodes)) == ExternalEventText
  {
    var n := All[i].nodes[0];
    assert n.nodeType == ManualTriggerType || n.nodeType == ExecuteWorkflowTriggerType;
    assert EndsWith(ManualTriggerType, "Trigger");
    assert EndsWith(ExecuteWorkflowTriggerType, "Trigger");
    TriggerSuffixIsExternalEvent(n);
    FirstNodeIsTrigger(All[i].nodes);
  }
}
