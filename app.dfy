/** The navigation state of App.tsx: which view is shown and which node is
    active, as changed by sedimentation, graph actions, search selection and
    the layout's and dashboard's navigation, and the screen `renderContent`
    picks. The data hook is outside this model: a sedimentation's success
    and the user's answer to the delete confirmation are parameters, and a
    delete is recorded as a request. */
module App {
  import opened Wrappers
  import opened Domain
  import GraphAssembly
  import GraphRenderer

  /** The values a view can take. The `ViewMode` enum of types.ts declares
      only QA_FIRST, OKR_FIRST, GRAPH and FAILURE_QUEUE, so the members
      App.tsx also names, `ViewMode.DASHBOARD` and `ViewMode.SETTINGS`, both
      evaluate to `undefined`. */
  datatype ViewMode = QA_FIRST | OKR_FIRST | GRAPH | FAILURE_QUEUE | Undefined

  /** `ViewMode.DASHBOARD`: not declared, hence `undefined`. */
  const DASHBOARD: ViewMode := Undefined
  /** `ViewMode.SETTINGS`: not declared, hence `undefined` too. */
  const SETTINGS: ViewMode := Undefined

  /** The dashboard's card targets. */
  datatype DashboardTarget = ToQA | ToOKR | ToGraph | ToFailures

  /** What `renderContent` shows; the QA and OKR views receive the active
      node as their highlighted id. The settings screen of the
      `case ViewMode.SETTINGS` branch is never shown: its label is
      `undefined`, which the earlier `case ViewMode.DASHBOARD` already takes. */
  datatype Screen =
    | Loading
    | DashboardScreen
    | QAScreen(highlighted: Option<string>)
    | OKRScreen(highlighted: Option<string>)
    | GraphScreen
    | FailureScreen

  /** The view a selected graph node opens. */
  function SelectView(kind: GraphAssembly.NodeKind): (v: ViewMode)
    ensures v == QA_FIRST <==> kind.QuestionNode?
    ensures v == OKR_FIRST <==> kind.ObjectiveNode?
  {
    if kind.QuestionNode? then QA_FIRST else OKR_FIRST
  }

  /** The view a search result opens. */
  function SearchView(kind: EntityKind): (v: ViewMode)
    ensures v == QA_FIRST <==> kind.QuestionKind?
    ensures v == OKR_FIRST <==> kind.ObjectiveKind?
    ensures v == FAILURE_QUEUE <==> kind.FailureKind?
  {
    if kind.QuestionKind? then QA_FIRST
    else if kind.ObjectiveKind? then OKR_FIRST
    else FAILURE_QUEUE
  }

  /** The view a dashboard card opens. */
  function DashboardView(t: DashboardTarget): (v: ViewMode)
    ensures v != DASHBOARD && v != SETTINGS
  {
    match t
    case ToQA => QA_FIRST
    case ToOKR => OKR_FIRST
    case ToGraph => GRAPH
    case ToFailures => FAILURE_QUEUE
  }

  /** Selecting a node in the graph or finding it by search opens the same
      view, and different kinds of search result open different views. */
  lemma EntryPointsAgree(a: EntityKind, b: EntityKind)
    ensures SearchView(QuestionKind) == SelectView(GraphAssembly.QuestionNode)
    ensures SearchView(ObjectiveKind) == SelectView(GraphAssembly.ObjectiveNode)
    ensures SearchView(a) == SearchView(b) ==> a == b
  {
  }

  /** `renderContent`: the loading message while data loads, else the
      view's screen; the first matching `case` wins, so `undefined` (both
      DASHBOARD and SETTINGS) shows the dashboard. */
  function Render(view: ViewMode, loading: bool, activeNodeId: Option<string>): (s: Screen)
    ensures loading <==> s.Loading?
    ensures s.QAScreen? || s.OKRScreen? ==> s.highlighted == activeNodeId
    ensures !loading ==> (s.QAScreen? <==> view == QA_FIRST) && (s.OKRScreen? <==> view == OKR_FIRST)
    ensures !loading ==> (s.DashboardScreen? <==> view == DASHBOARD) && (s.GraphScreen? <==> view == GRAPH)
    ensures !loading ==> (s.FailureScreen? <==> view == FAILURE_QUEUE)
    ensures !loading && view == SETTINGS ==> s == DashboardScreen
  {
    if loading then Loading
    else
      match view
      case Undefined => DashboardScreen
      case QA_FIRST => QAScreen(activeNodeId)
      case OKR_FIRST => OKRScreen(activeNodeId)
      case GRAPH => GraphScreen
      case FAILURE_QUEUE => FailureScreen
  }

  /** A question or objective found by search is shown highlighted once the
      data has loaded. */
  lemma SearchSelectHighlights(kind: EntityKind, id: string)
    ensures kind.QuestionKind? ==> Render(SearchView(kind), false, Some(id)) == QAScreen(Some(id))
    ensures kind.ObjectiveKind? ==> Render(SearchView(kind), false, Some(id)) == OKRScreen(Some(id))
    ensures kind.FailureKind? ==> Render(SearchView(kind), false, Some(id)) == FailureScreen
  {
  }

  /** The application shell's navigation state. */
  class Shell {
    var view: ViewMode
    var activeNodeId: Option<string>
    /** The deletions handed to the data hook, in order. */
    var deletions: seq<(string, GraphAssembly.NodeKind)>

    constructor ()
      ensures view == DASHBOARD && activeNodeId == None && deletions == []
    {
      view, activeNodeId, deletions := DASHBOARD, None, [];
    }

    /** `handleSediment`: a successful sedimentation opens the QA view; a
        failed one changes nothing. */
    method HandleSediment(success: bool)
      modifies this
      ensures view == if success then QA_FIRST else old(view)
      ensures activeNodeId == old(activeNodeId) && deletions == old(deletions)
    {
      if success {
        view := QA_FIRST;
      }
    }

    /** `handleGraphAction`: a confirmed delete is handed on and nothing else
        changes; a select activates the node and opens its kind's view. */
    method HandleGraphAction(request: GraphRenderer.ActionRequest, confirmed: bool)
      modifies this
      ensures request.action == GraphRenderer.Delete ==>
                && view == old(view) && activeNodeId == old(activeNodeId)
                && deletions == old(deletions) + (if confirmed then [(request.id, request.kind)] else [])
      ensures request.action == GraphRenderer.Select ==>
                && view == SelectView(request.kind) && activeNodeId == Some(request.id)
                && deletions == old(deletions)
    {
      if request.action == GraphRenderer.Delete {
        if confirmed {
          deletions := deletions + [(request.id, request.kind)];
        }
      } else {
        activeNodeId := Some(request.id);
        view := SelectView(request.kind);
      }
    }

    /** `handleSearchSelect`: the result becomes the active node and its
        kind's view opens. */
    method HandleSearchSelect(kind: EntityKind, id: string)
      modifies this
      ensures view == SearchView(kind) && activeNodeId == Some(id) && deletions == old(deletions)
    {
      activeNodeId := Some(id);
      view := SearchView(kind);
    }

    /** The layout's `onChangeView`: the view changes and no node stays active. */
    method ChangeView(v: ViewMode)
      modifies this
      ensures view == v && activeNodeId == None && deletions == old(deletions)
    {
      view := v;
      activeNodeId := None;
    }

    /** The dashboard's `onNavigateToView`: the card's view opens; the active
        node is kept. */
    method NavigateFromDashboard(t: DashboardTarget)
      modifies this
      ensures view == DashboardView(t) && activeNodeId == old(activeNodeId) && deletions == old(deletions)
    {
      view := DashboardView(t);
    }
  }
}
