/**
 * The application's global state: three collections, each replaced as a
 * whole by its handlers (append, `map` over the matching id, or `filter`
 * out the matching id). The new collections are computed by the functions
 * at the top; class AppState holds the collections and has one method per
 * handler.
 */
module App {
  import opened Seqs
  import opened Types

  /** `c => c.id === client.id ? client : c`, as a function of the old element. */
  function Const<T>(x: T): (f: T -> T)
  {
    _ => x
  }

  function WithStatus(status: ProjectStatus): (f: Project -> Project)
  {
    (p: Project) => p.(status := status)
  }

  /**
   * `clients.map(c => c.id === client.id ? client : c)`: same length, and
   * exactly the elements with the client's id become the client.
   */
  function ReplaceClient(clients: seq<Client>, client: Client): (r: seq<Client>)
    ensures |r| == |clients|
    ensures forall i :: 0 <= i < |clients| ==>
              r[i] == (if clients[i].id == client.id then client else clients[i])
  {
    MapWhere(clients, ClientId, client.id, Const(client))
  }

  /**
   * `projects.map(p => p.id === projectId ? { ...p, status } : p)`: the
   * projects with that id get the new status, nothing else changes. No
   * current status is excluded from any target.
   */
  function SetProjectStatus(projects: seq<Project>, projectId: string, status: ProjectStatus): (r: seq<Project>)
    ensures |r| == |projects|
    ensures forall i :: 0 <= i < |projects| ==>
              r[i] == (if projects[i].id == projectId then projects[i].(status := status) else projects[i])
  {
    MapWhere(projects, ProjectId, projectId, WithStatus(status))
  }

  /** `s.filter(x => key(x) !== id)`, for each of the three collections. */
  function RemoveById<T(!new)>(s: seq<T>, key: T -> string, id: string): (r: seq<T>)
    ensures forall x :: x in r <==> x in s && key(x) != id
  {
    Filter(s, KeyIsNot(key, id))
  }

  /** Updating keeps the ids in place; an unknown id leaves the list as it was. */
  lemma ReplaceClientKeepsIds(clients: seq<Client>, client: Client)
    ensures KeysOf(ReplaceClient(clients, client), ClientId) == KeysOf(clients, ClientId)
    ensures client.id !in KeysOf(clients, ClientId) ==> ReplaceClient(clients, client) == clients
  {
    var r := ReplaceClient(clients, client);
    assert forall i :: 0 <= i < |r| ==> KeysOf(r, ClientId)[i] == KeysOf(clients, ClientId)[i];
    if client.id !in KeysOf(clients, ClientId) {
      MapWhereAbsent(clients, ClientId, client.id, Const(client));
    }
  }

  /** Changing a status keeps the ids in place; an unknown id leaves the list as it was. */
  lemma SetProjectStatusKeepsIds(projects: seq<Project>, projectId: string, status: ProjectStatus)
    ensures KeysOf(SetProjectStatus(projects, projectId, status), ProjectId) == KeysOf(projects, ProjectId)
    ensures projectId !in KeysOf(projects, ProjectId) ==> SetProjectStatus(projects, projectId, status) == projects
  {
    var r := SetProjectStatus(projects, projectId, status);
    assert forall i :: 0 <= i < |r| ==> KeysOf(r, ProjectId)[i] == KeysOf(projects, ProjectId)[i];
    if projectId !in KeysOf(projects, ProjectId) {
      MapWhereAbsent(projects, ProjectId, projectId, WithStatus(status));
    }
  }

  /**
   * Removing by id keeps the other elements in their order, leaves the list
   * as it was when the id is absent, and removing twice is removing once.
   */
  lemma RemoveByIdProperties<T(!new)>(s: seq<T>, key: T -> string, id: string)
    ensures IsSubsequence(RemoveById(s, key, id), s)
    ensures id !in KeysOf(s, key) ==> RemoveById(s, key, id) == s
    ensures RemoveById(RemoveById(s, key, id), key, id) == RemoveById(s, key, id)
  {
    FilterIsSubsequence(s, KeyIsNot(key, id));
    FilterIdempotent(s, KeyIsNot(key, id));
    if id !in KeysOf(s, key) {
      forall x | x in s ensures key(x) != id {
        var i :| 0 <= i < |s| && s[i] == x;
        assert KeysOf(s, key)[i] == key(x);
      }
      FilterKeepsAll(s, KeyIsNot(key, id));
    }
  }

  class AppState {
    var clients: seq<Client>
    var projects: seq<Project>
    var services: seq<ServiceOption>

    /** Ids are unique within each collection. */
    ghost predicate Valid()
      reads this
    {
      && DistinctKeys(clients, ClientId)
      && DistinctKeys(projects, ProjectId)
      && DistinctKeys(services, ServiceId)
    }

    /** The state starts from the given seed collections. */
    constructor (clients0: seq<Client>, projects0: seq<Project>, services0: seq<ServiceOption>)
      requires DistinctKeys(clients0, ClientId)
      requires DistinctKeys(projects0, ProjectId)
      requires DistinctKeys(services0, ServiceId)
      ensures Valid()
      ensures clients == clients0 && projects == projects0 && services == services0
    {
      clients, projects, services := clients0, projects0, services0;
    }

    method AddClient(client: Client)
      requires Valid()
      requires client.id !in KeysOf(clients, ClientId)
      modifies this
      ensures Valid()
      ensures clients == old(clients) + [client]
      ensures projects == old(projects) && services == old(services)
    {
      AppendFreshKeepsDistinct(clients, ClientId, client);
      clients := clients + [client];
    }

    method UpdateClient(client: Client)
      requires Valid()
      modifies this
      ensures Valid()
      ensures clients == ReplaceClient(old(clients), client)
      ensures projects == old(projects) && services == old(services)
    {
      ReplaceClientKeepsIds(clients, client);
      SameKeysKeepDistinct(clients, ReplaceClient(clients, client), ClientId);
      clients := ReplaceClient(clients, client);
    }

    /** Projects that name the client are kept: there is no cascade. */
    method DeleteClient(id: string)
      requires Valid()
      modifies this
      ensures Valid()
      ensures clients == RemoveById(old(clients), ClientId, id)
      ensures projects == old(projects) && services == old(services)
    {
      FilterKeepsDistinct(clients, ClientId, KeyIsNot(ClientId, id));
      clients := RemoveById(clients, ClientId, id);
    }

    method UpdateProjectStatus(projectId: string, status: ProjectStatus)
      requires Valid()
      modifies this
      ensures Valid()
      ensures projects == SetProjectStatus(old(projects), projectId, status)
      ensures clients == old(clients) && services == old(services)
    {
      SetProjectStatusKeepsIds(projects, projectId, status);
      SameKeysKeepDistinct(projects, SetProjectStatus(projects, projectId, status), ProjectId);
      projects := SetProjectStatus(projects, projectId, status);
    }

    method AddProject(project: Project)
      requires Valid()
      requires project.id !in KeysOf(projects, ProjectId)
      modifies this
      ensures Valid()
      ensures projects == old(projects) + [project]
      ensures clients == old(clients) && services == old(services)
    {
      AppendFreshKeepsDistinct(projects, ProjectId, project);
      projects := projects + [project];
    }

    method DeleteProject(id: string)
      requires Valid()
      modifies this
      ensures Valid()
      ensures projects == RemoveById(old(projects), ProjectId, id)
      ensures clients == old(clients) && services == old(services)
    {
      FilterKeepsDistinct(projects, ProjectId, KeyIsNot(ProjectId, id));
      projects := RemoveById(projects, ProjectId, id);
    }

    method AddService(service: ServiceOption)
      requires Valid()
      requires service.id !in KeysOf(services, ServiceId)
      modifies this
      ensures Valid()
      ensures services == old(services) + [service]
      ensures clients == old(clients) && projects == old(projects)
    {
      AppendFreshKeepsDistinct(services, ServiceId, service);
      services := services + [service];
    }

    /** Clients' `interestedServices` keep the id: references may dangle. */
    method DeleteService(id: string)
      requires Valid()
      modifies this
      ensures Valid()
      ensures services == RemoveById(old(services), ServiceId, id)
      ensures clients == old(clients) && projects == old(projects)
    {
      FilterKeepsDistinct(services, ServiceId, KeyIsNot(ServiceId, id));
      services := RemoveById(services, ServiceId, id);
    }
  }

  /**
   * A client can be deleted while a project still names it, and a service
   * while a client still lists it: neither delete cascades, so after both
   * the references are left dangling.
   */
  method DanglingReferences() returns (app: AppState)
    ensures app.Valid()
    ensures |app.projects| == 1 && app.projects[0].clientId !in KeysOf(app.clients, ClientId)
    ensures |app.clients| == 1 && "srv_1" in app.clients[0].interestedServices
    ensures "srv_1" !in KeysOf(app.services, ServiceId)
  {
    var srv := ServiceOption("srv_1", "SEO", "", 2500);
    var owner := Client("c_1", "John Doe", "Acme", "Construction", "", "", "", "", Lead, None, [], []);
    var other := Client("c_2", "Jane Roe", "Bolt", "Retail", "", "", "", "", Lead, None, ["srv_1"], []);
    var p := Project("p_1", "c_1", "Site", Planning, 0, 1200, "");
    app := new AppState([owner, other], [p], [srv]);
    app.DeleteClient("c_1");
    app.DeleteService("srv_1");
    assert app.clients == [other] by {
      assert [owner, other] == [owner] + [other];
      FilterConcat([owner], [other], KeyIsNot(ClientId, "c_1"));
      assert Filter([owner], KeyIsNot(ClientId, "c_1")) == Filter([], KeyIsNot(ClientId, "c_1"));
      assert Filter([other], KeyIsNot(ClientId, "c_1")) == [other] + Filter([], KeyIsNot(ClientId, "c_1"));
    }
    assert app.services == [] by {
      assert Filter([srv], KeyIsNot(ServiceId, "srv_1")) == Filter([], KeyIsNot(ServiceId, "srv_1"));
    }
  }
}
