/**
 * The six workflows the dashboard ships with, reduced to what the
 * components read: names, ids, the optional description, the nodes with
 * their types and positions, and the connection lists.
 */
module Workflows {
  import opened Wrappers
  import opened Types

  // The node types the shipped workflows use.
  const CodeType := "n8n-nodes-base.code"
  const CronNodeType := "n8n-nodes-base.cron"
  const ExecuteWorkflowType := "n8n-nodes-base.executeWorkflow"
  const ExecuteWorkflowTriggerType := "n8n-nodes-base.executeWorkflowTrigger"
  const GoogleCalendarType := "n8n-nodes-base.googleCalendar"
  const HttpRequestType := "n8n-nodes-base.httpRequest"
  const ManualTriggerType := "n8n-nodes-base.manualTrigger"
  const MergeType := "n8n-nodes-base.merge"
  const OutlookType := "n8n-nodes-base.microsoftOutlook"
  const RespondToWebhookType := "n8n-nodes-base.respondToWebhook"
  const SetType := "n8n-nodes-base.set"
  const WaitType := "n8n-nodes-base.wait"
  const AgentType := "@n8n/n8n-nodes-langchain.agent"

  function N(id: string, name: string, nodeType: string, x: real, y: real): Node {
    Node(id, name, nodeType, Point(x, y), NodeParameters([]))
  }

  /** A source with one `main` outlet per target. */
  function Main(targets: seq<ConnectionNode>): Outlets {
    Outlets(seq(|targets|, i requires 0 <= i < |targets| => [targets[i]]), None)
  }

  /** A source with no `main` outlet and one `tool` outlet. */
  function Tool(target: ConnectionNode): Outlets {
    Outlets([], Some([[target]]))
  }

  const GetCalendarState := Workflow(
    "Get Calendar State", "TCu4MAm8WdraO0tR", None,
    [ N("fbe2fb7b-489c-4a91-9c45-7f7ddfe0e8dd", "Manual Trigger", ManualTriggerType, 0.0, 300.0),
      N("a0c20a54-10e7-4b7e-9c12-1c04a3ec2963", "Google Calendar Events", GoogleCalendarType, 240.0, 40.0),
      N("f0082d0f-16bb-4c9a-9390-22f2afe7b01b", "Normalize Google Events", CodeType, 520.0, 40.0),
      N("038037c4-f389-4393-8da5-1cc67debbcb8", "Outlook Events", OutlookType, 240.0, 200.0),
      N("38b1b46d-8ed7-4b8f-9749-6ae2783f4c3d", "Normalize Outlook Events", CodeType, 520.0, 200.0),
      N("5a245ebe-6b12-4ec4-8a48-528620be66a4", "Todoist Tasks", HttpRequestType, 240.0, 360.0),
      N("d6da0d2b-3f7b-4880-8f4f-6aaf220de765", "Normalize Todoist Tasks", CodeType, 520.0, 360.0),
      N("8b1f453f-c238-4e7f-ac33-aea8a7b32b13", "Canvas Events", HttpRequestType, 240.0, 520.0),
      N("2c4f1b87-8675-4e1c-8760-fac62d45cbe3", "Normalize Canvas Events", CodeType, 520.0, 520.0),
      N("88ecf26c-b938-45f7-bbc0-9288a91af824", "Merge Events", MergeType, 820.0, 280.0),
      N("a4d3437f-05f7-4f44-9cf7-34cd4dd8f61a", "Return Events", RespondToWebhookType, 1040.0, 280.0) ],
    [ ("Manual Trigger", Main([ConnectionNode("Google Calendar Events", "main", 0), ConnectionNode("Outlook Events", "main", 0),
                               ConnectionNode("Todoist Tasks", "main", 0), ConnectionNode("Canvas Events", "main", 0)])),
      ("Google Calendar Events", Main([ConnectionNode("Normalize Google Events", "main", 0)])),
      ("Normalize Google Events", Main([ConnectionNode("Merge Events", "main", 0)])),
      ("Outlook Events", Main([ConnectionNode("Normalize Outlook Events", "main", 0)])),
      ("Normalize Outlook Events", Main([ConnectionNode("Merge Events", "main", 1)])),
      ("Todoist Tasks", Main([ConnectionNode("Normalize Todoist Tasks", "main", 0)])),
      ("Normalize Todoist Tasks", Main([ConnectionNode("Merge Events", "main", 2)])),
      ("Canvas Events", Main([ConnectionNode("Normalize Canvas Events", "main", 0)])),
      ("Normalize Canvas Events", Main([ConnectionNode("Merge Events", "main", 3)])),
      ("Merge Events", Main([ConnectionNode("Return Events", "main", 0)])) ])

  const ToolResearchAgent := Workflow(
    "Tool - Research Agent", "tool-research_agent",
    Some("Specialist agent that researches a single topic and returns a Knowledge Packet."),
    [ N("b4e710df-ea6b-4c6e-b32f-9aa1cc3a17bc", "Execute Workflow Trigger", ExecuteWorkflowTriggerType, 200.0, 200.0),
      N("a2a49d88-52ae-4d43-b49d-cc8fc2d9ab2a", "Google Search", "@n8n/n8n-nodes-langchain.tool", 200.0, 20.0),
      N("45be137e-7a59-4206-8b54-9a0626d31ed2", "Web Browser", "@n8n/n8n-nodes-langchain.tool", 400.0, 20.0),
      N("45cc0338-8cbb-4dda-bdcc-38223ed4340f", "Research Agent", AgentType, 600.0, 200.0) ],
    [ ("Execute Workflow Trigger", Main([ConnectionNode("Research Agent", "main", 0)])),
      ("Google Search", Tool(ConnectionNode("Research Agent", "tool", 0))),
      ("Web Browser", Tool(ConnectionNode("Research Agent", "tool", 1))) ])

  const ToolCreateCalendarEvent := Workflow(
    "tool-create_calendar_event", "tool-create_calendar_event", None,
    [ N("2d8adf70-8d26-487b-9a52-353a1a211a6b", "Execute Workflow Trigger", ExecuteWorkflowTriggerType, 0.0, 300.0),
      N("4f2acb57-5b55-4a8d-9a4c-f5d52c96a3ce", "Set Event Details", SetType, 240.0, 180.0),
      N("c1941a01-9d72-4b7d-86fa-59da6b343f21", "Get User Profile", HttpRequestType, 240.0, 420.0),
      N("cda250a1-6695-41f4-a011-907275aa9795", "Merge Profile & Event", MergeType, 520.0, 300.0),
      N("bf6405ad-9f3d-4067-9bd3-06fe70883ac3", "Prepare Calendar Event", CodeType, 760.0, 300.0),
      N("0d83d225-d4eb-49a5-ab35-7e2a76fa6919", "Create Google Calendar Event", GoogleCalendarType, 1000.0, 300.0),
      N("53b28a55-7b1b-4779-9dcb-d9c5967dfa60", "Format Response", CodeType, 1240.0, 300.0) ],
    [ ("Execute Workflow Trigger", Main([ConnectionNode("Set Event Details", "main", 0), ConnectionNode("Get User Profile", "main", 0)])),
      ("Set Event Details", Main([ConnectionNode("Merge Profile & Event", "main", 0)])),
      ("Get User Profile", Main([ConnectionNode("Merge Profile & Event", "main", 1)])),
      ("Merge Profile & Event", Main([ConnectionNode("Prepare Calendar Event", "main", 0)])),
      ("Prepare Calendar Event", Main([ConnectionNode("Create Google Calendar Event", "main", 0)])),
      ("Create Google Calendar Event", Main([ConnectionNode("Format Response", "main", 0)])) ])

  const ToolGetNews := Workflow(
    "tool-get_news", "tool-get_news", None,
    [ N("f6d8b9c7-9a7b-4ce3-9f8e-04f6fd57f1c0", "Execute Workflow Trigger", ExecuteWorkflowTriggerType, 0.0, 300.0),
      N("a15a1551-7a32-44c0-926f-4841a08fb4ba", "Fetch Headlines", HttpRequestType, 240.0, 300.0),
      N("2ee0f1b4-66b7-4db4-8d4c-34b6f2a5e5fe", "Format News Response", CodeType, 520.0, 300.0) ],
    [ ("Execute Workflow Trigger", Main([ConnectionNode("Fetch Headlines", "main", 0)])),
      ("Fetch Headlines", Main([ConnectionNode("Format News Response", "main", 0)])) ])

  const AgentDailyScheduler := Workflow(
    "Agent - Daily Scheduler", "agent-daily-scheduler", None,
    [ Node("b6d97a12-1084-420d-a377-0f5482d94c6e", "Daily Kickoff", CronNodeType, Point(0.0, 0.0),
           NodeParameters([TriggerTime(5, 0)])),
      N("ca7daae8-1cae-47dd-8e19-159889782752", "tool-get_calendar_events", ExecuteWorkflowType, 260.0, -220.0),
      N("7fd7eebc-7a18-4a83-a2f7-4b26b4f1ee21", "tool-create_calendar_event", ExecuteWorkflowType, 260.0, -420.0),
      N("8f1e7e56-02d4-43cf-98da-8a1999d8e9df", "tool-get_news", ExecuteWorkflowType, 260.0, -620.0),
      N("c64cf2f4-dedf-4cc3-b51c-05865b20f822", "tool-research_agent", ExecuteWorkflowType, 260.0, -820.0),
      N("7ec0820c-5d37-4c19-8ae0-1ddcb05c2a4f", "Dungeon Master Agent", AgentType, 520.0, 0.0),
      N("88d2f281-e8e6-4e8a-9d0a-9ad85e8750c2", "User Database", SetType, 260.0, 0.0) ],
    [ ("Daily Kickoff", Main([ConnectionNode("User Database", "main", 0)])),
      ("tool-get_calendar_events", Tool(ConnectionNode("Dungeon Master Agent", "tool", 1))),
      ("tool-create_calendar_event", Tool(ConnectionNode("Dungeon Master Agent", "tool", 2))),
      ("tool-get_news", Tool(ConnectionNode("Dungeon Master Agent", "tool", 3))),
      ("tool-research_agent", Tool(ConnectionNode("Dungeon Master Agent", "tool", 4))),
      ("User Database", Main([ConnectionNode("Dungeon Master Agent", "main", 0)])) ])

  const OnboardingAgent := Workflow(
    "Agent - Onboarding", "agent-onboarding", None,
    [ N("trigger-onboarding", "API Trigger", ExecuteWorkflowTriggerType, 200.0, 300.0),
      N("chat-tool", "Chat with User", WaitType, 450.0, 200.0),
      N("save-profile-tool", "Save User Profile", ExecuteWorkflowType, 450.0, 400.0),
      N("onboarding-agent-main", "Onboarding Agent", AgentType, 700.0, 300.0) ],
    [ ("API Trigger", Main([ConnectionNode("Onboarding Agent", "main", 0)])),
      ("Chat with User", Tool(ConnectionNode("Onboarding Agent", "tool", 0))),
      ("Save User Profile", Tool(ConnectionNode("Onboarding Agent", "tool", 1))) ])

  /** `WORKFLOWS`, in sidebar order. */
  const All: seq<Workflow> :=
    [AgentDailyScheduler, GetCalendarState, ToolResearchAgent, ToolCreateCalendarEvent, ToolGetNews, OnboardingAgent]
}
