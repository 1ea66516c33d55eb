/**
 * The project board: client-name lookup for a card, one column per project
 * status, the "move to" targets of a card, and the new-project form.
 * Class ProjectBoardView holds the form and calls the application's
 * add-project handler.
 */
module ProjectBoard {
  import opened Seqs
  import opened Types
  import opened App
  import opened Dashboard

  /** The position of the first client with the id, if any. */
  function FirstIndex(clients: seq<Client>, id: string): (r: Option<nat>)
    ensures r.Some? ==> r.value < |clients| && clients[r.value].id == id
    ensures r.Some? ==> forall j :: 0 <= j < r.value ==> clients[j].id != id
    ensures r.None? ==> forall j :: 0 <= j < |clients| ==> clients[j].id != id
  {
    if clients == [] then None
    else if clients[0].id == id then Some(0)
    else match FirstIndex(clients[1..], id)
      case None => None
      case Some(k) => Some(k + 1)
  }

  const UnknownClient: string := "Unknown Client"

  /**
   * `clients.find(c => c.id === id)?.name || 'Unknown Client'`: the name of
   * the first client with the id, or `Unknown Client` when there is none or
   * its name is empty.
   */
  function ClientName(clients: seq<Client>, id: string): (r: string)
    ensures r != ""
    ensures (forall j :: 0 <= j < |clients| ==> clients[j].id != id) ==> r == UnknownClient
    ensures forall k :: 0 <= k < |clients| && clients[k].id == id && (forall j :: 0 <= j < k ==> clients[j].id != id) ==>
              r == (if clients[k].name == "" then UnknownClient else clients[k].name)
  {
    match FirstIndex(clients, id)
    case None => UnknownClient
    case Some(k) => if clients[k].name == "" then UnknownClient else clients[k].name
  }

  /** One column per status, in enumeration order: `projects.filter(p => p.status === status)`. */
  function Columns(projects: seq<Project>): (r: seq<seq<Project>>)
    ensures |r| == |ProjectStatuses|
    ensures forall i :: 0 <= i < |ProjectStatuses| ==> r[i] == Filter(projects, KeyIs(ProjectStatusOf, ProjectStatuses[i]))
  {
    GroupBy(projects, ProjectStatusOf, ProjectStatuses)
  }

  /**
   * Each project is in exactly the column of its status, each column keeps
   * the projects' order, and the column counts add up to the number of
   * projects.
   */
  lemma ColumnsPartition(projects: seq<Project>)
    ensures SumSizes(Columns(projects)) == |projects|
    ensures forall p, i :: p in projects && 0 <= i < |ProjectStatuses| ==>
              (p in Columns(projects)[i] <==> i == ProjectStatusIndex(p.status))
    ensures forall i :: 0 <= i < |ProjectStatuses| ==> IsSubsequence(Columns(projects)[i], projects)
  {
    EnumerationsComplete();
    GroupByPartition(projects, ProjectStatusOf, ProjectStatuses);
    forall i | 0 <= i < |ProjectStatuses| ensures IsSubsequence(Columns(projects)[i], projects) {
      FilterIsSubsequence(projects, KeyIs(ProjectStatusOf, ProjectStatuses[i]));
    }
  }

  /** The projects not in the Completed column are the active ones of the dashboard. */
  lemma ActiveIsAllButLastColumn(projects: seq<Project>)
    ensures ActiveProjects(projects) == |projects| - |Columns(projects)[3]|
  {
    ActivePlusCompleted(projects);
  }

  /** A new Planning project goes to the end of the first column; the other columns stay as they were. */
  lemma NewProjectJoinsPlanning(projects: seq<Project>, p: Project)
    requires p.status == Planning
    ensures Columns(projects + [p])[0] == Columns(projects)[0] + [p]
    ensures forall i :: 1 <= i < |ProjectStatuses| ==> Columns(projects + [p])[i] == Columns(projects)[i]
  {
    forall i | 0 <= i < |ProjectStatuses|
      ensures Columns(projects + [p])[i] == Columns(projects)[i] + Filter([p], KeyIs(ProjectStatusOf, ProjectStatuses[i]))
    {
      FilterConcat(projects, [p], KeyIs(ProjectStatusOf, ProjectStatuses[i]));
    }
    forall i | 0 <= i < |ProjectStatuses|
      ensures Filter([p], KeyIs(ProjectStatusOf, ProjectStatuses[i])) == if i == 0 then [p] else []
    {
      assert Filter([p], KeyIs(ProjectStatusOf, ProjectStatuses[i])) ==
             (if ProjectStatuses[i] == p.status then [p] else []) + Filter([], KeyIs(ProjectStatusOf, ProjectStatuses[i]));
    }
  }

  /** The card's quick actions: `Object.values(ProjectStatus).filter(s => s !== status)`. */
  function MoveTargets(current: ProjectStatus): (r: seq<ProjectStatus>)
    ensures |r| == 3
    ensures forall s :: s in r <==> s != current
  {
    var r := Filter(ProjectStatuses, KeyIsNot(Id, current));
    EnumerationsComplete();
    ThreeMoveTargets(current);
    r
  }

  /** Removing one status from the four leaves three. */
  lemma ThreeMoveTargets(current: ProjectStatus)
    ensures |Filter(ProjectStatuses, KeyIsNot(Id, current))| == 3
  {
    var p := KeyIsNot(Id, current);
    var s := ProjectStatuses;
    assert s == [s[0]] + [s[1]] + [s[2]] + [s[3]];
    FilterConcat([s[0]] + [s[1]] + [s[2]], [s[3]], p);
    FilterConcat([s[0]] + [s[1]], [s[2]], p);
    FilterConcat([s[0]], [s[1]], p);
    assert forall x :: Filter([x], p) == (if p(x) then [x] else []) + Filter([], p);
  }

  /** The targets keep the enumeration order. */
  lemma MoveTargetsInOrder(current: ProjectStatus)
    ensures IsSubsequence(MoveTargets(current), ProjectStatuses)
  {
    FilterIsSubsequence(ProjectStatuses, KeyIsNot(Id, current));
  }

  /** The new-project form. */
  datatype ProjectForm = ProjectForm(
    title: string,
    value: int,
    deadline: Option<Timestamp>,
    description: string,
    clientId: string)

  const EmptyProjectForm: ProjectForm := ProjectForm("", 0, None, "", "")

  /**
   * The project the form creates: none without a client or a title;
   * otherwise status Planning, the deadline defaulting to the UTC date of
   * `now`, and the entered value and description.
   */
  function BuildProject(form: ProjectForm, freshId: string, now: Timestamp): (r: Option<Project>)
    ensures r.Some? <==> form.clientId != "" && form.title != ""
    ensures r.Some? ==> r.value.status == Planning
    ensures r.Some? ==> r.value.id == freshId && r.value.clientId == form.clientId && r.value.title == form.title
    ensures r.Some? ==> r.value.deadline == (if form.deadline.Some? then form.deadline.value else Today(now))
    ensures r.Some? ==> r.value.value == form.value && r.value.description == form.description
  {
    if form.clientId == "" || form.title == "" then None
    else Some(Project(
      freshId,
      form.clientId,
      form.title,
      Planning,
      if form.deadline.Some? then form.deadline.value else Today(now),
      form.value,
      form.description))
  }

  /** The state of the project-board component. */
  class ProjectBoardView {
    const app: AppState
    var newProject: ProjectForm

    constructor (app: AppState)
      ensures this.app == app && newProject == EmptyProjectForm
    {
      this.app := app;
      newProject := EmptyProjectForm;
    }

    /** The form's input handlers, which set its fields. */
    method EditForm(form: ProjectForm)
      modifies this
      ensures newProject == form
    {
      newProject := form;
    }

    /**
     * Creates the project when the form has a client and a title, appends
     * it and resets the form; otherwise nothing changes.
     */
    method Submit(freshId: string, now: Timestamp)
      requires app.Valid()
      requires newProject.clientId != "" && newProject.title != "" ==> freshId !in KeysOf(app.projects, ProjectId)
      modifies this, app
      ensures app.Valid()
      ensures var built := BuildProject(old(newProject), freshId, now);
              if built.Some? then app.projects == old(app.projects) + [built.value] && newProject == EmptyProjectForm
              else app.projects == old(app.projects) && newProject == old(newProject)
      ensures app.clients == old(app.clients) && app.services == old(app.services)
    {
      var built := BuildProject(newProject, freshId, now);
      if built.None? {
        return;
      }
      app.AddProject(built.value);
      newProject := EmptyProjectForm;
    }
  }
}
