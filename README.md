# Saga dashboard core, modelled in Dafny

This is a model of the logic inside a small React dashboard for n8n-style agent workflows. Most of the
dashboard is presentation. The model covers the stateful and computational parts:

- **Onboarding service** (`onboarding.dfy`). A six-state conversation line, START → AWAITING_STORY →
  AWAITING_PASSION → AWAITING_ICS → AWAITING_RITUALS → DONE, with DONE absorbing. Each state has a canned
  agent text. An agent message is built from that text and a clock reading.
- **Workflow canvas** (`canvas.dfy`):
  - the bounding box of the node boxes, computed by a min/max loop;
  - the view fitted around it with padding;
  - drag-to-pan and cursor-anchored wheel zoom of the SVG viewBox;
  - the list of connectors drawn between named nodes.
- **Connector geometry** (`connector.dfy`). The cubic Bézier curve between two node boxes.
- **Agent summary** (`agent_summary.dfy`). The trigger, agent and tool selectors, and the sentence that
  describes the trigger.
- **Tool runner** (`tool_runner.dfy`):
  - the fields each tool offers and the initial form built from them;
  - key-by-key edits;
  - a submit that shows a loading state and later a mock execution log.
- **Onboarding chat** (`chat.dfy`). The message list, input box and loading flag, changed by the
  conversation start, edits, sends and replies.
- **Application shell** (`app.dfy`). The open view, the selected workflow, what the main area shows, and
  the sidebar's highlighting.
- **Node styles** (`node_style.dfy`). The style-table lookup with its `default` fallback, and the
  colour-class lookup with its gray fallback.
- **Shared pieces**:
  - `types.dfy`: the records;
  - `workflows.dfy`: the six shipped workflows as data;
  - `workflow_facts.dfy`: facts about that data;
  - `seqs.dfy`: `find`, `filter`, `flat`;
  - `text.dfy`: the JavaScript string operations used (`endsWith`, `includes`, `String(n)`, `padStart`,
    `trim`);
  - `wrappers.dfy`: `Option`.

Pure code (selectors, geometry, lookups) is modelled as functions and lemmas. Components whose handlers
update state are modelled as classes:

- `Canvas.WorkflowCanvas`
- `ToolRunner.ToolRunnerPanel`
- `Chat.OnboardingChat`
- `App.Shell`

Their fields mirror the component's state variables. Each handler is a method whose postcondition ties
the new state to a pure step function (`State() == Send(old(State()), now)`). The lemmas about those step
functions carry the properties. Loops in the source stay loops:

- `Canvas.CalculateBounds` keeps the min/max accumulation, with its invariant;
- `ToolRunner.InitialState` keeps the record-building loop.

`ToolRunner.BuildMockResult` keeps the step-by-step `+=` construction of the log as a method.

Two points where the code and its description differ:

- **The chat does not drive the onboarding state machine.** The chat asks the service for replies by
  passing `''` and then the user's raw text (components/OnboardingChat.tsx:23, 46), not a tracked state.
  The record lookup finds a text only when that string is exactly one of the six state keys:
  `Onboarding.ResponseForKey` returns `None` for every other string, and `Onboarding.EmptyKeyHasNoResponse`
  states it for `''`. So the opening message and almost every reply carry an undefined text, while a user
  who types, say, `DONE` gets that state's canned text. The chat model takes each agent message as a
  given `ChatMessage`. Nothing in the chat advances the state machine.
- **The "Trigger type:" fallback of the agent summary is reachable.** The selected trigger's type ends
  with "Trigger" or with ".cron". A type such as `custom.cron` ends with ".cron", differs from
  `n8n-nodes-base.cron` and contains no "Trigger". It reaches the fallback
  (`AgentSummary.FallbackReachable`). `AgentSummary.FallbackOnlyForOtherCron` characterises exactly when
  the fallback is taken. For the shipped workflows it is never taken (`WorkflowFacts.OtherTriggersExternal`,
  `WorkflowFacts.SchedulerTriggerSentence`).

## Model

| member | source | states |
|---|---|---|
| Types.NodeBox | components/Node.tsx:10-11 | a node's box sits at its position with the fixed size 250×60 shared by the canvas and the connector |
| Onboarding.Rank | services/geminiService.ts:4 | each state's position in the conversation line, such that the line at that position is the state |
| Onboarding.Key | services/geminiService.ts:4 | the record key of each state; `KeyRoundTrip` states that it names that state again |
| Onboarding.Next | services/geminiService.ts:33-40 | every state but DONE moves exactly one place along the line; DONE stays DONE |
| Onboarding.StateOfKey | services/geminiService.ts:4 | a record key names at most one state, and the state it names has that key |
| Onboarding.KeyRoundTrip | services/geminiService.ts:4 | each state's key names that state again, so the six keys are distinct |
| Onboarding.Response | services/geminiService.ts:7-30 | the canned text of each state; `ResponseForKey` states that the record lookup yields exactly these texts for the six keys |
| Onboarding.ResponseForKey | services/geminiService.ts:7-30 | a record lookup of the responses finds a text exactly for the six state keys, and it is that state's text |
| Onboarding.EmptyKeyHasNoResponse | components/OnboardingChat.tsx:23 | the empty key the chat passes has no canned text |
| Onboarding.GetOnboardingResponse | services/geminiService.ts:47-52 | the message is from the agent, carries the state's text, and its id is "agent-" followed by the clock reading |
| Onboarding.ResponseIdsDistinct | services/geminiService.ts:49 | messages built at different clock readings have different ids |
| Onboarding.DoneAbsorbing | services/geminiService.ts:39 | DONE is a fixed point and any number of steps from DONE stays at DONE |
| Onboarding.OnlyDoneIsFixed | services/geminiService.ts:33-40 | a state is a fixed point of the step exactly when it is DONE |
| Onboarding.IterateRank | services/geminiService.ts:33-40 | k steps advance the position by k, capped at DONE's position |
| Onboarding.ChainFromStart | services/geminiService.ts:34-38 | from START, step i reaches the i-th state of the line START, AWAITING_STORY, AWAITING_PASSION, AWAITING_ICS, AWAITING_RITUALS, DONE |
| Onboarding.FiveStepsFromStart | services/geminiService.ts:33-40 | from START exactly five steps reach DONE, and fewer do not |
| Onboarding.AtMostFiveSteps | services/geminiService.ts:33-40 | from any state five steps, and indeed five minus its position, reach DONE |
| Onboarding.NoRevisit | services/geminiService.ts:33-40 | no state is visited twice before DONE |
| Canvas.TightBoundsUnique | components/WorkflowViewer.tsx:22-28 | at most one box encloses all node boxes and touches each on every side, so the bounds are fully specified |
| Canvas.CalculateBounds | components/WorkflowViewer.tsx:20-30 | with no nodes the bounds are (0, 0, 1600, 1200); otherwise every node box lies within them and each side is attained by some node |
| Canvas.FitViewBox | components/WorkflowViewer.tsx:33-40 | the fitted view is the bounds with 100 units of padding on every side |
| Canvas.FitUnpadded | components/WorkflowViewer.tsx:33-40 | fitting is the inverse of removing the padding, in both directions |
| Canvas.FittedViewBoxSize | components/WorkflowViewer.tsx:33-40 | for a non-empty workflow the fitted view is at least 450 wide and 260 high and keeps a 100-unit margin around every node box |
| Canvas.MouseDown | components/WorkflowViewer.tsx:43-46 | dragging starts, anchored at the pointer, and the view is unchanged |
| Canvas.MouseUp | components/WorkflowViewer.tsx:58-60 | dragging stops and nothing else changes |
| Canvas.MouseMove | components/WorkflowViewer.tsx:48-56 | nothing changes unless dragging with a screen matrix; a drag moves the view against the pointer by its displacement divided by the matrix scale, keeps the size, and re-anchors at the pointer |
| Canvas.PanComposes | components/WorkflowViewer.tsx:52-55 | two drag moves pan exactly as one move to the final pointer |
| Canvas.PanReturns | components/WorkflowViewer.tsx:52-55 | dragging back to the anchor restores the view |
| Canvas.ZoomFactor | components/WorkflowViewer.tsx:76 | the wheel factor is 0.9 or 1.1 and is below 1 (zoom in) exactly when scrolling up |
| Canvas.Zoom | components/WorkflowViewer.tsx:76-83 | both sizes and the cursor's offset from the view corner are scaled by 0.9 when scrolling up and by 1.1 otherwise |
| Canvas.ZoomKeepsAspect | components/WorkflowViewer.tsx:78-79 | zooming keeps the aspect ratio |
| Canvas.ZoomKeepsCursorFixed | components/WorkflowViewer.tsx:80-83 | the cursor's point keeps its relative position in the view |
| Canvas.ZoomInOut | components/WorkflowViewer.tsx:76-79 | zooming in and then out at the same cursor leaves the view 1% smaller, not unchanged |
| Canvas.Wheel | components/WorkflowViewer.tsx:62-84 | without an SVG element or screen matrix nothing changes; otherwise only the view is zoomed |
| Canvas.WorkflowCanvas.constructor | components/WorkflowViewer.tsx:12-14 | the canvas starts at view (0, 0, 1600, 1200), not dragging, anchored at the origin |
| Canvas.WorkflowCanvas.FitToWorkflow | components/WorkflowViewer.tsx:32-41 | the new view frames the tight bounds of the node boxes (the default bounds for no nodes) with the padding; the drag state is untouched |
| Canvas.WorkflowCanvas.OnMouseDown | components/WorkflowViewer.tsx:43-46 | the new state is the mouse-down step of the old one |
| Canvas.WorkflowCanvas.OnMouseMove | components/WorkflowViewer.tsx:48-56 | the new state is the mouse-move step of the old one |
| Canvas.WorkflowCanvas.OnMouseUp | components/WorkflowViewer.tsx:98-99 | the new state is the mouse-up step of the old one, for both mouse-up and mouse-leave |
| Canvas.WorkflowCanvas.OnWheel | components/WorkflowViewer.tsx:62-84 | the new state is the wheel step of the old one |
| Canvas.NameMapKeys | components/WorkflowViewer.tsx:17 | the name map has a key exactly for each node name |
| Canvas.NameMapLast | components/WorkflowViewer.tsx:17 | a name maps to the last node carrying it |
| Canvas.NameMap | components/WorkflowViewer.tsx:17 | every entry of the name map is a node of the workflow filed under its own name |
| Canvas.Outgoing | components/WorkflowViewer.tsx:114 | the flattened targets of one source; `OutgoingMainThenTool` states their order |
| Canvas.OutgoingMainThenTool | components/WorkflowViewer.tsx:114 | a source's targets are its main targets followed by its tool targets |
| Canvas.EdgesFrom | components/WorkflowViewer.tsx:117-123 | a source draws at most one connector per target |
| Canvas.EdgesFromSound | components/WorkflowViewer.tsx:117-123 | every connector of a source comes from a resolving target at its slot |
| Canvas.EdgesFromComplete | components/WorkflowViewer.tsx:117-123 | every resolving target of a source is drawn, at its slot |
| Canvas.EdgesFromOrdered | components/WorkflowViewer.tsx:117 | a source's connectors keep the order of its targets |
| Canvas.DrawnEdgesExactly | components/WorkflowViewer.tsx:108-124 | a connector is drawn exactly when its source name resolves and the target at its slot resolves; unresolved names are skipped |
| Canvas.DrawnEdgesBound | components/WorkflowViewer.tsx:108-124 | no more connectors are drawn than there are target references |
| Canvas.DrawnEdges | components/WorkflowViewer.tsx:108-124 | the connectors of all sources in key order; `DrawnEdgesExactly` and `DrawnEdgesBound` state which are drawn |
| Canvas.Connectors | components/WorkflowViewer.tsx:108-124 | the connectors of a workflow, over its name map; `DrawnEdgesExactly` states which are drawn |
| Connector.ConnectorCurve | components/Connection.tsx:14-26 | the curve starts at the right-middle of the source box and ends at the left-middle of the target box; each control point is on its end point's horizontal line, half the non-negative horizontal span away |
| Connector.AttachesToNodeBoxes | components/Connection.tsx:17-20 | the curve's ends are the attachment points of the two node boxes |
| Connector.ControlPointsOutward | components/Connection.tsx:22-25 | the first control point is never left of the start and the second never right of the end |
| Connector.ForwardControlPointsMeet | components/Connection.tsx:22-25 | when the target is right of the source box, both control points sit at the horizontal midpoint |
| Connector.TranslationInvariant | components/Connection.tsx:14-26 | moving both nodes by a vector moves all four points by it |
| Connector.PathData | components/Connection.tsx:28 | the path is a move to the curve's start followed by one cubic segment carrying the first control point, the second control point and the end, in that order |
| Connector.PathPoint | components/Connection.tsx:28 | the point the drawn path reaches at parameter t, by repeated interpolation of its four points; `PathIsBezier` states what it traces |
| Connector.PathIsBezier | components/Connection.tsx:28 | the drawn path traces exactly the cubic Bézier curve of the connector's four points (the interpolation construction equals the Bernstein form) |
| Connector.CurveEndsAndMidpoint | components/Connection.tsx:14-28 | the drawn path of a connector starts at its start point, ends at its end point and passes through their midpoint halfway along |
| Seqs.FindFirst | components/AgentViewer.tsx:11 | `find` returns none exactly when no element passes, and otherwise an element that passes with no passing element before it |
| Seqs.Filter | components/AgentViewer.tsx:19 | `filter` keeps only passing elements of the input and keeps every passing one |
| Seqs.FilterAppend | components/AgentViewer.tsx:19 | filtering distributes over concatenation |
| Seqs.FilterAllOrNone | components/AgentViewer.tsx:19 | a list whose elements all pass is kept whole, and one whose elements all fail is dropped |
| Seqs.FilterSkipFailing | components/AgentViewer.tsx:19 | a leading run of failing elements is dropped |
| Seqs.FilterKeepPassing | components/AgentViewer.tsx:19 | when exactly the first n elements pass, filtering keeps exactly those n |
| Seqs.FilterRun | components/AgentViewer.tsx:19 | when exactly the elements at one contiguous run of positions pass, filtering returns that run |
| Seqs.FilterIdempotent | components/AgentViewer.tsx:19 | filtering twice is filtering once |
| Seqs.ConcatAppend | components/WorkflowViewer.tsx:114 | flattening distributes over concatenation |
| AgentSummary.GetTrigger | components/AgentViewer.tsx:10-12 | the first node whose type ends with "Trigger" or ".cron", or none when no node does |
| AgentSummary.GetAgent | components/AgentViewer.tsx:14-16 | the first node whose type ends with ".agent", or none when no node does |
| AgentSummary.GetTools | components/AgentViewer.tsx:18-20 | only and all the nodes of the execute-workflow type, never more than the input |
| AgentSummary.GetToolsAppend | components/AgentViewer.tsx:18-20 | tool selection distributes over concatenation, so it preserves order |
| AgentSummary.GetToolsIdempotent | components/AgentViewer.tsx:18-20 | selecting tools again changes nothing |
| AgentSummary.ToolTypeIsDistinct | components/AgentViewer.tsx:10-20 | a tool node passes neither the trigger test nor the agent test |
| AgentSummary.TriggerAndAgentAreNotTools | components/AgentViewer.tsx:37-39 | the selected trigger and agent are never among the tools |
| AgentSummary.TriggerDetails | components/AgentViewer.tsx:41-51 | "No trigger defined." without a trigger; a sentence beginning "Runs on a schedule: Daily at " and ending with "." for the standard cron type; the external-event sentence for any other type containing "Trigger"; otherwise "Trigger type: " followed by the type |
| AgentSummary.FirstTriggerTime | components/AgentViewer.tsx:44 | `triggerTimes?.[0]`: absent exactly when the list is empty, otherwise its first entry |
| AgentSummary.NumberText | components/AgentViewer.tsx:45 | `String(...)` of an optional number: "undefined" when absent, otherwise the numeral of the value |
| AgentSummary.CronTextParts | components/AgentViewer.tsx:43-45 | the exact schedule text: "Runs on a schedule: Daily at ", the hour and the minute each padded to two places with '0' and joined by ':', then "." |
| AgentSummary.CronTextZeroPadded | components/AgentViewer.tsx:43-45 | a cron trigger at hh:mm (each below 100) reads "Runs on a schedule: Daily at HH:MM." with each part two digits, zero-padded, reading back as hh and mm |
| AgentSummary.EndsWithContains | components/AgentViewer.tsx:47 | a string ending with a part contains it |
| AgentSummary.TriggerSuffixIsExternalEvent | components/AgentViewer.tsx:47-48 | every trigger whose type ends with "Trigger" is described as triggered by an external event |
| AgentSummary.FallbackOnlyForOtherCron | components/AgentViewer.tsx:41-51 | the "Trigger type:" text is shown exactly for a selected trigger whose type ends with ".cron", is not the standard cron type and contains no "Trigger" |
| AgentSummary.FallbackReachable | components/AgentViewer.tsx:50 | a trigger of type "custom.cron" is selected and shown with the fallback text |
| Text.EndsWith | components/AgentViewer.tsx:10-16 | `endsWith`: the last characters of the string are the suffix; `EndsWithAppend` states it independently |
| Text.EndsWithAppend | components/AgentViewer.tsx:10-16 | a string ends with a suffix exactly when it is some string followed by that suffix |
| Text.Contains | components/AgentViewer.tsx:47 | `includes`: the part starts the string or is included in its tail; `ContainsAt` states it independently |
| Text.ContainsAt | components/AgentViewer.tsx:47 | a string includes a part exactly when the part occurs at some position of it |
| Text.ContainsFirstChar | components/AgentViewer.tsx:47 | a string containing a non-empty part contains its first character |
| Text.ContainsInfix | components/ToolRunner.tsx:91 | a string contains every piece it is assembled from |
| Text.DigitChar | components/AgentViewer.tsx:45 | the digit character of a value below 10 denotes that value |
| Text.DigitValue | components/AgentViewer.tsx:45 | a digit's value is below 10 and its digit character is the digit itself, so `DigitChar` and `DigitValue` are inverse |
| Text.NatToString | components/AgentViewer.tsx:45 | `String(n)` of a natural is a non-empty digit string with no leading zero unless n is 0 |
| Text.IntToString | components/AgentViewer.tsx:45 | `String(n)` of an integer: a digit string reading back as n when n is not negative, otherwise a minus sign followed by the digits of -n |
| Text.ParsePrinted | components/AgentViewer.tsx:45 | reading back a printed natural gives that natural |
| Text.PrintedInjective | services/geminiService.ts:49 | distinct naturals print differently |
| Text.ParseLeadingZero | components/AgentViewer.tsx:45 | a leading zero does not change a numeral's value |
| Text.Repeat | components/AgentViewer.tsx:45 | n copies of the fill character |
| Text.PadStart | components/AgentViewer.tsx:45 | `padStart` keeps the string as the suffix, fills the front with the fill character, and reaches the width unless already longer |
| Text.TwoPlaces | components/AgentViewer.tsx:45 | a natural below 100 padded to two places is a two-digit numeral reading back as itself |
| Text.TrimStart | components/OnboardingChat.tsx:32 | the result is a suffix, what was removed is whitespace, and the result does not start with whitespace |
| Text.TrimEnd | components/OnboardingChat.tsx:32 | the result is a prefix, what was removed is whitespace, and the result does not end with whitespace |
| Text.Trim | components/OnboardingChat.tsx:32 | `trim()` is no longer than its input and neither starts nor ends with whitespace |
| Text.TrimIsMiddle | components/OnboardingChat.tsx:32 | `trim()` is a stretch of its input with only whitespace removed before and after it |
| Text.TrimEmptyIffBlank | components/OnboardingChat.tsx:32 | `trim()` is empty exactly for the strings made only of whitespace |
| ToolRunner.Names | components/ToolRunner.tsx:133 | the field names, in field order |
| ToolRunner.ToolFields | components/ToolRunner.tsx:47-65 | a tool offers no fields exactly when it is not one of the four known tools, and every field is a text or date-time input |
| ToolRunner.FieldListsPerTool | components/ToolRunner.tsx:47-65 | research and scribe tools offer `topic`, news offers `query`, the calendar offers title, start and end with the end default one hour (3,600,000 ms) after the start default, and any other id offers nothing |
| ToolRunner.ToolFieldNamesDistinct | components/ToolRunner.tsx:47-65 | no tool offers two fields with the same name |
| ToolRunner.FormOfKeys | components/ToolRunner.tsx:39-45 | the initial record has exactly one key per field name |
| ToolRunner.FormOfLast | components/ToolRunner.tsx:39-45 | a name's value is the default (or "") of the last field carrying it |
| ToolRunner.InitialState | components/ToolRunner.tsx:39-45 | the loop builds the record whose keys are the field names and whose values are the defaults or "" |
| ToolRunner.ToolInitialForm | components/ToolRunner.tsx:67 | a tool's initial form holds each of its fields' default or "" under that field's name, and nothing else |
| ToolRunner.Lookup | components/ToolRunner.tsx:90-101 | a `${formData.key}` placeholder: the form's value for a present key and "undefined" for a missing one |
| ToolRunner.Quoting | components/ToolRunner.tsx:91 | a quoted template contains the quoted value |
| ToolRunner.BuildMockResult | components/ToolRunner.tsx:85-104 | the log built piece by piece is the mock log and begins with "Execution successful for tool: " and the tool's name |
| ToolRunner.MockBody | components/ToolRunner.tsx:89-104 | the tool-specific text; `DefaultTailIffNoFields` and `FirstInputQuoted` state what it contains |
| ToolRunner.MockResult | components/ToolRunner.tsx:85-104 | the whole log; `MockResultShape` states its beginning and end |
| ToolRunner.MockResultShape | components/ToolRunner.tsx:85-104 | the log begins with the success line naming the tool and ends with the tool-specific text |
| ToolRunner.DefaultTailIffNoFields | components/ToolRunner.tsx:102-103 | the "no specific mock result" text is used exactly for the tools that offer no fields |
| ToolRunner.FirstInputQuoted | components/ToolRunner.tsx:89-101 | for each tool with fields, the value of its first field appears quoted in the log ("undefined" when missing) |
| ToolRunner.PanelFor | components/ToolRunner.tsx:129-159 | a form is offered exactly when the field list is non-empty, and it shows those fields |
| ToolRunner.FormOfferedIffKnown | components/ToolRunner.tsx:129-159 | exactly the four known tools are offered a form |
| ToolRunner.ToolRunnerPanel.constructor | components/ToolRunner.tsx:47-69 | the panel starts with its tool's fields, the initial form, no result, not loading |
| ToolRunner.ToolRunnerPanel.HandleInputChange | components/ToolRunner.tsx:71-76 | the named key takes the new value and every other key and field is unchanged |
| ToolRunner.ToolRunnerPanel.HandleSubmit | components/ToolRunner.tsx:78-82 | loading starts, the result is cleared and the current inputs are captured for the completion |
| ToolRunner.ToolRunnerPanel.CompleteSubmit | components/ToolRunner.tsx:84-108 | loading ends and the result is the mock log of the captured inputs, beginning with the success line naming the tool |
| Chat.UserMessage | components/OnboardingChat.tsx:34-38 | a user message carrying the text, with id "user-" followed by the clock reading |
| Chat.InputEnabled | components/OnboardingChat.tsx:106 | the input box's `disabled` test: enabled exactly while nothing is loading; `LoadingDisablesInput` states it |
| Chat.SendEnabled | components/OnboardingChat.tsx:108 | the send button's `disabled` test: enabled exactly when nothing is loading and the trimmed input is non-empty; `SendGuard` ties it to the send |
| Chat.BeginStart | components/OnboardingChat.tsx:22 | the start shows the loading state, which disables the input and the send button, and keeps the messages |
| Chat.FinishStart | components/OnboardingChat.tsx:23-25 | after the first agent message the list holds exactly one message and the input is enabled |
| Chat.Edit | components/OnboardingChat.tsx:96 | after an edit the input box holds exactly the typed text; the messages and the loading flag are unchanged |
| Chat.Send | components/OnboardingChat.tsx:30-43 | a send keeps every earlier message and adds at most one; when it changes anything it adds one user message, empties the input and starts loading |
| Chat.Reply | components/OnboardingChat.tsx:45-49 | the reply adds exactly one message after the earlier ones and re-enables the input |
| Chat.StartShowsOneMessage | components/OnboardingChat.tsx:21-26 | the start leaves exactly the first agent message and nothing loading |
| Chat.SendGuard | components/OnboardingChat.tsx:32 | a send changes nothing exactly when the input is blank or a reply is pending, which is exactly when the send button is disabled |
| Chat.SendAppendsUserMessage | components/OnboardingChat.tsx:34-42 | a send that goes through appends one user message with the untrimmed input, keeps earlier messages, empties the input and starts loading |
| Chat.NoSendWhileWaiting | components/OnboardingChat.tsx:32 | a second send before the reply does nothing |
| Chat.ReplyAppendsOne | components/OnboardingChat.tsx:46-48 | the reply appends exactly the agent's message, keeps earlier ones and ends loading |
| Chat.LoadingDisablesInput | components/OnboardingChat.tsx:106-108 | while loading, the input box and the send button are disabled and a send does nothing |
| Chat.RunOnlyAppends | components/OnboardingChat.tsx:40-47 | any run of edits, sends and replies keeps the earlier messages as a prefix |
| Chat.OnboardingChat.constructor | components/OnboardingChat.tsx:8-10 | no messages, an empty input, not loading |
| Chat.OnboardingChat.StartConversation | components/OnboardingChat.tsx:22 | the new state is the start step of the old one |
| Chat.OnboardingChat.ConversationStarted | components/OnboardingChat.tsx:24-25 | the message list becomes exactly the first agent message and loading ends |
| Chat.OnboardingChat.EditInput | components/OnboardingChat.tsx:96 | the new state is the edit step of the old one, allowed only while the input is enabled |
| Chat.OnboardingChat.HandleSendMessage | components/OnboardingChat.tsx:30-50 | the new state is the send step of the old one, and it reports whether the send button was enabled |
| Chat.OnboardingChat.ReceiveReply | components/OnboardingChat.tsx:45-49 | the new state is the reply step of the old one |
| App.FindWorkflow | App.tsx:21-23 | no workflow for a null id; otherwise the first workflow with that id, or none when no workflow has it |
| App.FindDistinctIds | App.tsx:22 | with distinct ids, looking up a listed workflow's id finds exactly that workflow |
| App.RenderContent | App.tsx:25-35 | the viewer exactly for the workflow view with a selected workflow, showing that workflow; the "Select a workflow" placeholder exactly for the workflow view with none; the chat exactly for the onboarding view; the dashboard exactly for the dashboard view |
| App.Content | App.tsx:21-35 | whenever the viewer shows a workflow, the workflow view is open, the selected id is that workflow's id, and the workflow is one of the list |
| App.Select | App.tsx:16-19 | after a selection the workflow view is active and the selected entry is highlighted |
| App.SetView | App.tsx:42 | the chosen view becomes active and the selection is kept |
| App.EntryHighlighted | components/Sidebar.tsx:61-66 | the sidebar's highlight test: the workflow view is open on that id; `ViewerMatchesHighlight` states that it agrees with the viewer |
| App.NavActive | components/Sidebar.tsx:48-55 | a navigation item is active exactly when its view is open; `Select` and `SetView` state which item is active |
| App.InitialShowsDashboard | App.tsx:13-14 | the app opens on the dashboard with nothing selected or highlighted |
| App.SelectShowsViewer | App.tsx:16-19 | selecting sets the id, opens the workflow view and highlights the entry; the viewer is shown exactly when some workflow has the id |
| App.SetViewKeepsSelection | App.tsx:42 | changing the view keeps the selection; a `setCurrentView('workflow')`, which the sidebar never issues, would show the screen of before |
| App.ViewerMatchesHighlight | components/Sidebar.tsx:61-66 | whenever the viewer shows a workflow, the sidebar highlights its entry |
| App.Shell.constructor | App.tsx:13-14 | dashboard view, no selection |
| App.Shell.HandleSelectWorkflow | App.tsx:16-19 | the new state is the select step of the old one |
| App.Shell.SetCurrentView | App.tsx:42 | the new state is the set-view step of the old one |
| NodeStyle.StyleFor | components/Node.tsx:15 | the style-table entry for the type, or the default entry (gear icon, gray) when the type is absent |
| NodeStyle.ColorClassFor | components/Node.tsx:29 | the class entry for the colour, or the gray entry when the colour is absent |
| NodeStyle.EveryStyleColorHasClasses | components/Node.tsx:18-27 | every colour used by the style table has its own class entry |
| NodeStyle.NodeClassesFromOwnStyle | components/Node.tsx:29 | every node is drawn with the classes of its own style's colour: the gray class fallback is never taken |
| WorkflowFacts.EveryShippedTypeStyled | constants.ts:140-156 | every node type in the shipped workflows has its own style entry |
| WorkflowFacts.ShippedIdsDistinct | constants.ts:131-138 | the six shipped workflow ids are pairwise distinct |
| WorkflowFacts.SelectingEntryFindsIt | App.tsx:22 | selecting any sidebar entry finds exactly that workflow |
| WorkflowFacts.SchedulerTriggerSentence | constants.ts:95 | the daily scheduler's trigger is its cron node, described as "Runs on a schedule: Daily at 05:00." |
| WorkflowFacts.ToolsAreRun | components/AgentViewer.tsx:18-20 | when the tool nodes form one contiguous run, they are the selected tools |
| WorkflowFacts.SchedulerTools | constants.ts:96-99 | the daily scheduler's tools are its four execute-workflow nodes |
| WorkflowFacts.OtherTriggersExternal | constants.ts:131-138 | every other shipped workflow starts from a "…Trigger" node and is described as triggered by an external event |

## Left out

- Clock and ISO formatting. `Date.now()` and `new Date()` become an integer parameter `now`. `toISOString().slice(0, 16)` becomes a function parameter `iso`.
- `JSON.stringify(formData, null, 2)` becomes a function parameter of `ToolRunner.ToolRunnerPanel.CompleteSubmit`.
- Timers and `async`/`await`. Each delayed callback is a separate step: `CompleteSubmit`, `ConversationStarted` and `ReceiveReply`. No timing or interleavings are modelled.
- ToolRunner.ToolRunnerPanel.HandleSubmit: the panel holds one pending completion. The submit button is disabled while loading (components/ToolRunner.tsx:136), so the form offers no second submission before the first completes. The model does not forbid a call while loading; such a call replaces the captured inputs.
- Chat.OnboardingChat.ReceiveReply: the agent reply is a given message. The real reply comes from the service for the typed text (components/OnboardingChat.tsx:46). It is always from the agent, with id "agent-" followed by the clock reading (`Onboarding.GetOnboardingResponse`). For a typed text that is exactly one of the six state keys, its text is that state's canned text (`Onboarding.ResponseForKey`). For an inherited property name such as `toString` it is a function (see "Prototype keys" below). For any other text it is undefined. A non-string text is not representable as a `string`, so the model does not tie the reply to the typed text.
- Number printing. The model omits the floating-point text of the path data (components/Connection.tsx:28) and the viewBox attribute (components/WorkflowViewer.tsx:95). It keeps only the structure of the points.
- Floating point. Geometry uses exact reals.
- The `Infinity` initialisers. `Canvas.CalculateBounds` starts from the first node instead. The result is the same for a non-empty list, and the empty list returns early in the source.
- Canvas.MouseMove: a screen matrix with a zero scale entry is excluded by the precondition. JavaScript would divide by zero and produce `Infinity` or `NaN`.
- The cursor's SVG point (`matrixTransform(CTM.inverse())`) is a parameter of the wheel step. The matrix algebra is not modelled.
- Object key order. `connections` is a list of (name, outlets) pairs in declaration order. JavaScript's reordering of integer-like keys is not modelled.
- Repeated connection keys. The list may name the same source twice, which a JavaScript object cannot. In the source a later duplicate key replaces the earlier one; the model draws the connectors of both entries.
- Prototype keys in the lookup tables. The style table and the onboarding `responses` table are plain object literals. A node type or a typed chat text such as `constructor` or `toString` would find an inherited function there. The model treats such a key as absent.
- Node parameters are reduced to the cron trigger times, each an integer hour and minute. A non-numeric or fractional `hour` or `minute` is not representable. Neither is a first trigger time that lacks an `hour` or a `minute`; the source prints `undefined` for it. A trigger without any trigger time is modelled, and prints `undefined` for both parts.
- The `nodeIdMap` in components/WorkflowViewer.tsx:18 is unused by the source and is not modelled.
- The agent card's model and system-prompt lines (components/AgentViewer.tsx:65-71) and the tool list rendering are presentation and are not modelled.
- `scrollIntoView`, icons, CSS classes other than the colour classes, and the JSX layout.
- Sidebar, Dashboard, SagaLogo and LoadingSpinner are presentation. Only the sidebar's highlight test is kept, as `App.EntryHighlighted`.
- The `tool-scribe-assistant` tool has fields and a mock text but no shipped workflow. Its behaviour is modelled for any workflow carrying that id.
