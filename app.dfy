/**
 * The application shell: which view is open and which workflow is
 * selected, the lookup of the selected workflow, the choice of what the
 * main area shows, and the sidebar's highlighting.
 */
module App {
  import opened Wrappers
  import opened Types
  import opened Seqs

  datatype View = DashboardView | WorkflowView | OnboardingView

  /** What the main area shows. */
  datatype Screen = DashboardScreen | ViewerScreen(workflow: Workflow) | SelectPlaceholder | ChatScreen

  datatype AppState = AppState(currentView: View, selectedWorkflowId: Option<string>)

  const InitialApp := AppState(DashboardView, None)

  /** `workflows.find(w => w.id === selectedWorkflowId) || null`: the first
      workflow carrying the id; none when the id is null or unmatched. */
  function FindWorkflow(workflows: seq<Workflow>, id: Option<string>): (r: Option<Workflow>)
    ensures id.None? ==> r.None?
    ensures id.Some? && r.None? ==> forall i :: 0 <= i < |workflows| ==> workflows[i].id != id.value
    ensures r.Some? ==> id.Some? && r.value.id == id.value
    ensures r.Some? ==> exists i :: 0 <= i < |workflows| && workflows[i] == r.value &&
                          forall j :: 0 <= j < i ==> workflows[j].id != id.value
  {
    match id
    case None => None
    case Some(k) => FindFirst(workflows, (w: Workflow) => w.id == k)
  }

  /** When the ids are distinct, looking up any listed workflow's id finds
      exactly that workflow. */
  lemma FindDistinctIds(workflows: seq<Workflow>, i: int)
    requires forall j, k :: 0 <= j < k < |workflows| ==> workflows[j].id != workflows[k].id
    requires 0 <= i < |workflows|
    ensures FindWorkflow(workflows, Some(workflows[i].id)) == Some(workflows[i])
  {
    var r := FindWorkflow(workflows, Some(workflows[i].id));
    var k :| 0 <= k < |workflows| && workflows[k] == r.value &&
             forall j :: 0 <= j < k ==> workflows[j].id != workflows[i].id;
  }

  /** `renderContent`: the viewer for the workflow view with a selected
      workflow, a placeholder for the workflow view without one, the chat for
      the onboarding view and the dashboard otherwise. */
  function RenderContent(view: View, selected: Option<Workflow>): (r: Screen)
    ensures r.ViewerScreen? <==> view == WorkflowView && selected.Some?
    ensures r.ViewerScreen? ==> r.workflow == selected.value
    ensures r == SelectPlaceholder <==> view == WorkflowView && selected.None?
    ensures r == ChatScreen <==> view == OnboardingView
    ensures r == DashboardScreen <==> view == DashboardView
  {
    match view
    case WorkflowView => if selected.Some? then ViewerScreen(selected.value) else SelectPlaceholder
    case OnboardingView => ChatScreen
    case DashboardView => DashboardScreen
  }

  /** The main area for state `s`, looking workflows up in `workflows`. */
  function Content(s: AppState, workflows: seq<Workflow>): (r: Screen)
    ensures r.ViewerScreen? ==> s.currentView == WorkflowView && s.selectedWorkflowId == Some(r.workflow.id)
    ensures r.ViewerScreen? ==> r.workflow in workflows
  {
    RenderContent(s.currentView, FindWorkflow(workflows, s.selectedWorkflowId))
  }

  /** `handleSelectWorkflow`. */
  function Select(s: AppState, id: string): (r: AppState)
    ensures EntryHighlighted(r, id) && NavActive(r, WorkflowView)
  {
    AppState(WorkflowView, Some(id))
  }

  /** `setCurrentView`, as the sidebar's navigation items call it. */
  function SetView(s: AppState, v: View): (r: AppState)
    ensures NavActive(r, v) && r.selectedWorkflowId == s.selectedWorkflowId
  {
    s.(currentView := v)
  }

  /** A sidebar workflow entry is highlighted when the workflow view is open
      on that workflow; a navigation item when its view is open. */
  predicate EntryHighlighted(s: AppState, id: string) {
    s.currentView == WorkflowView && s.selectedWorkflowId == Some(id)
  }

  predicate NavActive(s: AppState, v: View) {
    s.currentView == v
  }

  // ---------------------------------------------------------------------------
  // Properties

  /** The app opens on the dashboard with nothing selected or highlighted. */
  lemma InitialShowsDashboard(workflows: seq<Workflow>, id: string)
    ensures Content(InitialApp, workflows) == DashboardScreen
    ensures !EntryHighlighted(InitialApp, id) && NavActive(InitialApp, DashboardView)
  {
  }

  /** Selecting a listed workflow opens the viewer on the first workflow with
      that id and highlights its entry; an unlisted id shows the placeholder. */
  lemma SelectShowsViewer(s: AppState, workflows: seq<Workflow>, id: string)
    ensures var t := Select(s, id);
            && t.currentView == WorkflowView && t.selectedWorkflowId == Some(id)
            && EntryHighlighted(t, id)
            && (Content(t, workflows).ViewerScreen? <==> exists i :: 0 <= i < |workflows| && workflows[i].id == id)
            && (Content(t, workflows).ViewerScreen? ==> Content(t, workflows).workflow.id == id)
  {
    var t := Select(s, id);
    var r := FindWorkflow(workflows, Some(id));
    if r.Some? {
      var i :| 0 <= i < |workflows| && workflows[i] == r.value;
    }
  }

  /** Changing the view keeps the selection.  The second clause is about a
      `setCurrentView('workflow')`, which the sidebar never issues (it offers
      only the dashboard and the onboarding views); the workflow view is
      otherwise reached only by selecting an entry, which replaces the
      selection. */
  lemma SetViewKeepsSelection(s: AppState, v: View, workflows: seq<Workflow>)
    ensures SetView(s, v).selectedWorkflowId == s.selectedWorkflowId
    ensures s.currentView == WorkflowView ==>
              Content(SetView(SetView(s, v), WorkflowView), workflows) == Content(s, workflows)
  {
  }

  /** Whenever the viewer shows a workflow, the sidebar highlights its entry. */
  lemma ViewerMatchesHighlight(s: AppState, workflows: seq<Workflow>)
    requires Content(s, workflows).ViewerScreen?
    ensures EntryHighlighted(s, Content(s, workflows).workflow.id)
  {
    var r := FindWorkflow(workflows, s.selectedWorkflowId);
  }

  // ---------------------------------------------------------------------------
  // The component

  class Shell {
    var currentView: View
    var selectedWorkflowId: Option<string>

    function State(): AppState
      reads this
    {
      AppState(currentView, selectedWorkflowId)
    }

    constructor()
      ensures State() == InitialApp
    {
      currentView := DashboardView;
      selectedWorkflowId := None;
    }

    method HandleSelectWorkflow(id: string)
      modifies this
      ensures State() == Select(old(State()), id)
    {
      selectedWorkflowId := Some(id);
      currentView := WorkflowView;
    }

    method SetCurrentView(v: View)
      modifies this
      ensures State() == SetView(old(State()), v)
    {
      currentView := v;
    }
  }
}
