/**
 * The client list: the search and status filter over the clients, the
 * add/edit form and the record it builds, logging a call, toggling an
 * interested service on the form, and the website label shown in the table.
 * Class ClientListView holds the component's own state and calls the
 * application's client handlers.
 */
module ClientList {
  import opened Seqs
  import opened Text
  import opened Types
  import opened App
  import opened Dashboard

  /** The status drop-down: `'ALL'` or one status value. */
  datatype StatusFilter = AllStatuses | Only(status: ClientStatus)

  /** Name, company or industry includes the term, both sides lower-cased. */
  predicate MatchesSearch(c: Client, term: string)
  {
    || Contains(Lower(c.name), Lower(term))
    || Contains(Lower(c.company), Lower(term))
    || Contains(Lower(c.industry), Lower(term))
  }

  predicate MatchesStatus(c: Client, filter: StatusFilter)
  {
    filter.AllStatuses? || c.status == filter.status
  }

  function SearchTest(term: string, filter: StatusFilter): (p: Client -> bool)
    ensures forall c :: p(c) <==> MatchesSearch(c, term) && MatchesStatus(c, filter)
  {
    c => MatchesSearch(c, term) && MatchesStatus(c, filter)
  }

  /** `clients.filter(client => matchesSearch && matchesStatus)` */
  function FilteredClients(clients: seq<Client>, term: string, filter: StatusFilter): (r: seq<Client>)
    ensures forall c :: c in r <==> c in clients && MatchesSearch(c, term) && MatchesStatus(c, filter)
    ensures filter.Only? ==> forall c :: c in r ==> c.status == filter.status
  {
    Filter(clients, SearchTest(term, filter))
  }

  /**
   * The visible rows keep the clients' order, and with `'ALL'` and an empty
   * search term every client is shown.
   */
  lemma FilteredClientsProperties(clients: seq<Client>, term: string, filter: StatusFilter)
    ensures IsSubsequence(FilteredClients(clients, term, filter), clients)
    ensures filter == AllStatuses && term == "" ==> FilteredClients(clients, term, filter) == clients
  {
    FilterIsSubsequence(clients, SearchTest(term, filter));
    if filter == AllStatuses && term == "" {
      FilterKeepsAll(clients, SearchTest(term, filter));
    }
  }

  /** The add/edit form's fields. */
  datatype ClientForm = ClientForm(
    name: string,
    company: string,
    industry: string,
    email: string,
    phone: string,
    website: string,
    projectNotes: string,
    status: ClientStatus,
    interestedServices: seq<string>)

  /** The form as opened for a new lead. */
  const EmptyClientForm: ClientForm := ClientForm("", "", "", "", "", "", "", Lead, [])

  /** The form as opened on an existing client. */
  function FormOf(c: Client): ClientForm
  {
    ClientForm(c.name, c.company, c.industry, c.email, c.phone, c.website, c.projectNotes, c.status, c.interestedServices)
  }

  /** `s || fallback` on a string: the empty string is falsy. */
  function OrDefault(s: string, fallback: string): string
  {
    if s == "" then fallback else s
  }

  /**
   * The record the form submits. Editing keeps the selected client's id,
   * interactions and last-contacted date; adding uses the new id, no
   * interactions and no last-contacted date. An empty name becomes
   * `Unknown` and an empty company `Unknown Company`; the other fields are
   * taken as they are.
   */
  function BuildClient(form: ClientForm, selected: Option<Client>, freshId: string): (r: Client)
    ensures r.id == (if selected.Some? then selected.value.id else freshId)
    ensures r.interactions == (if selected.Some? then selected.value.interactions else [])
    ensures r.lastContacted == (if selected.Some? then selected.value.lastContacted else None)
    ensures r.name != "" && r.company != ""
    ensures r.name == (if form.name == "" then "Unknown" else form.name)
    ensures r.company == (if form.company == "" then "Unknown Company" else form.company)
    ensures FormOf(r) == form.(name := r.name, company := r.company)
  {
    Client(
      if selected.Some? then selected.value.id else freshId,
      OrDefault(form.name, "Unknown"),
      OrDefault(form.company, "Unknown Company"),
      OrDefault(form.industry, ""),
      OrDefault(form.email, ""),
      OrDefault(form.phone, ""),
      OrDefault(form.website, ""),
      OrDefault(form.projectNotes, ""),
      form.status,
      if selected.Some? then selected.value.lastContacted else None,
      form.interestedServices,
      if selected.Some? then selected.value.interactions else [])
  }

  /** Opening a client and saving without edits gives back the same client, unless a name or company was empty. */
  lemma EditWithoutChangesIsIdentity(c: Client, freshId: string)
    ensures BuildClient(FormOf(c), Some(c), freshId) == c <==> c.name != "" && c.company != ""
  {
  }

  /**
   * Saving the form keeps "last contact is the latest interaction": an
   * edited client keeps both, a new one has neither.
   */
  lemma BuildClientKeepsLastContact(form: ClientForm, selected: Option<Client>, freshId: string)
    requires selected.Some? ==> LastContactIsLatest(selected.value)
    ensures LastContactIsLatest(BuildClient(form, selected, freshId))
  {
  }

  const NoNotes: string := "No notes added."

  /**
   * Logging a call at `now`: one interaction of kind Call, dated the UTC
   * day of `now`, is appended, and `lastContacted` becomes that date. An
   * empty note is stored as `No notes added.` Every other field is kept.
   */
  function LogCall(c: Client, interactionId: string, now: Timestamp, note: string): (r: Client)
    ensures r.interactions == c.interactions + [Interaction(interactionId, Today(now), Call, if note == "" then NoNotes else note)]
    ensures r.lastContacted == Some(Today(now))
    ensures r == c.(lastContacted := r.lastContacted, interactions := r.interactions)
  {
    var interaction := Interaction(interactionId, Today(now), Call, OrDefault(note, NoNotes));
    c.(lastContacted := Some(interaction.date), interactions := c.interactions + [interaction])
  }

  /** `lastContacted` names the date of the latest interaction. */
  predicate LastContactIsLatest(c: Client)
  {
    c.interactions != [] ==> c.lastContacted == Some(c.interactions[|c.interactions| - 1].date)
  }

  /** After a call is logged, the client has exactly one more call, and its last contact is that call. */
  lemma LogCallAddsOneCall(c: Client, interactionId: string, now: Timestamp, note: string)
    ensures CallCount(LogCall(c, interactionId, now, note).interactions) == CallCount(c.interactions) + 1
    ensures LastContactIsLatest(LogCall(c, interactionId, now, note))
  {
    var i := Interaction(interactionId, Today(now), Call, OrDefault(note, NoNotes));
    FilterConcat(c.interactions, [i], IsCall);
    assert Filter([i], IsCall) == [i] + Filter([], IsCall);
  }

  /**
   * Replacing the client at position `k` by `n` changes the calls-made
   * figure by the difference of their call counts.
   */
  lemma {:induction false} CallsMadeAfterReplace(clients: seq<Client>, k: nat, n: Client)
    requires DistinctKeys(clients, ClientId)
    requires k < |clients| && clients[k].id == n.id
    ensures CallsMade(ReplaceClient(clients, n)) + CallCount(clients[k].interactions) ==
            CallsMade(clients) + CallCount(n.interactions)
    decreases k
  {
    var rest := clients[1..];
    assert ReplaceClient(clients, n) == [ReplaceClient(clients, n)[0]] + ReplaceClient(rest, n);
    if k == 0 {
      assert n.id !in KeysOf(rest, ClientId) by {
        forall j | 0 <= j < |rest| ensures KeysOf(rest, ClientId)[j] != n.id {
          assert rest[j] == clients[j + 1];
        }
      }
      ReplaceClientKeepsIds(rest, n);
    } else {
      assert clients[0].id != n.id;
      CallsMadeAfterReplace(rest, k - 1, n);
    }
  }

  /**
   * Saving a call for a stored client raises the dashboard's calls-made
   * figure by exactly one.
   */
  lemma SavedCallIsCounted(clients: seq<Client>, k: nat, interactionId: string, now: Timestamp, note: string)
    requires DistinctKeys(clients, ClientId)
    requires k < |clients|
    ensures CallsMade(ReplaceClient(clients, LogCall(clients[k], interactionId, now, note))) == CallsMade(clients) + 1
  {
    LogCallAddsOneCall(clients[k], interactionId, now, note);
    CallsMadeAfterReplace(clients, k, LogCall(clients[k], interactionId, now, note));
  }

  /**
   * A client called at `now` leaves the call queue: from then on it is due
   * again exactly once more than 14 days of milliseconds have passed since
   * the midnight that starts the day of the call, and only if it is open.
   */
  lemma CalledClientLeavesQueue(c: Client, interactionId: string, now: Timestamp, note: string, later: Timestamp)
    requires later >= now
    ensures NeedsFollowUp(later, LogCall(c, interactionId, now, note)) <==>
            c.status != Closed && c.status != Lost && later > Today(now) + 14 * DayMs
    ensures !NeedsFollowUp(now, LogCall(c, interactionId, now, note))
  {
  }

  /**
   * A service tag on the form: removed (every copy) when present, appended
   * when absent. Afterwards the tag is present exactly when it was absent
   * before; every other tag keeps its presence.
   */
  function ToggleService(current: seq<string>, serviceId: string): (r: seq<string>)
    ensures serviceId in r <==> serviceId !in current
    ensures forall x :: x != serviceId ==> (x in r <==> x in current)
  {
    if serviceId in current then Filter(current, KeyIsNot(Id, serviceId)) else current + [serviceId]
  }

  /** Toggling a tag the list does not hold on and off again restores the list. */
  lemma ToggleTwiceRestores(current: seq<string>, serviceId: string)
    requires serviceId !in current
    ensures ToggleService(ToggleService(current, serviceId), serviceId) == current
  {
    var p := KeyIsNot(Id, serviceId);
    FilterConcat(current, [serviceId], p);
    FilterKeepsAll(current, p);
    assert Filter([serviceId], p) == Filter([], p);
  }

  /** `website.replace(/^https?:\/\//, '').replace(/\/$/, '')` */
  function DisplayWebsite(website: string): (r: string)
    ensures |r| <= |website|
  {
    var host := if "https://" <= website then DropPrefix(website, "https://") else DropPrefix(website, "http://");
    DropSuffix(host, "/")
  }

  /** Removing the scheme: one leading `https://` or `http://` goes, nothing else. */
  lemma DropSchemeLeavesRest(scheme: string, rest: string)
    requires scheme == "" || scheme == "http://" || scheme == "https://"
    requires scheme == "" ==> !("http://" <= rest) && !("https://" <= rest)
    ensures (if "https://" <= scheme + rest then DropPrefix(scheme + rest, "https://")
             else DropPrefix(scheme + rest, "http://")) == rest
  {
    var w := scheme + rest;
    if scheme == "https://" {
      assert w[..8] == scheme;
      assert w[8..] == rest;
    } else if scheme == "http://" {
      assert w[4] == ':' && "https://"[4] == 's';
      assert !("https://" <= w);
      assert w[..7] == scheme;
      assert w[7..] == rest;
    } else {
      assert w == rest;
    }
  }

  /** Removing the trailing slash: one `/` at the end goes, nothing else. */
  lemma DropSlashLeavesHost(host: string, slash: string)
    requires slash == "" || slash == "/"
    requires slash == "" ==> !EndsWith(host, "/")
    ensures DropSuffix(host + slash, "/") == host
  {
    if slash == "/" {
      assert EndsWith(host + slash, "/");
      assert (host + slash)[..|host + slash| - 1] == host;
    } else {
      assert host + slash == host;
    }
  }

  /**
   * The label is the website without one leading `http://` or `https://`
   * and without one trailing `/`: whatever the host, every such website
   * shows as its host.
   */
  lemma DisplayWebsiteShowsHost(scheme: string, host: string, slash: string)
    requires scheme == "" || scheme == "http://" || scheme == "https://"
    requires slash == "" || slash == "/"
    requires scheme == "" ==> !("http://" <= host + slash) && !("https://" <= host + slash)
    requires slash == "" ==> !EndsWith(host, "/")
    ensures DisplayWebsite(scheme + host + slash) == host
  {
    assert scheme + host + slash == scheme + (host + slash);
    DropSchemeLeavesRest(scheme, host + slash);
    DropSlashLeavesHost(host, slash);
  }

  /** The state of the client-list component. */
  class ClientListView {
    const app: AppState
    var selectedClient: Option<Client>
    var formData: ClientForm
    var clientToCall: Option<Client>
    var callNote: string

    constructor (app: AppState)
      ensures this.app == app
      ensures selectedClient == None && formData == EmptyClientForm
      ensures clientToCall == None && callNote == ""
    {
      this.app := app;
      selectedClient := None;
      formData := EmptyClientForm;
      clientToCall := None;
      callNote := "";
    }

    /** Opens the form on a client (edit) or on the empty form (add). */
    method OpenModal(client: Option<Client>)
      modifies this
      ensures selectedClient == client
      ensures formData == (if client.Some? then FormOf(client.value) else EmptyClientForm)
      ensures clientToCall == old(clientToCall) && callNote == old(callNote)
    {
      selectedClient := client;
      formData := if client.Some? then FormOf(client.value) else EmptyClientForm;
    }

    method CloseModal()
      modifies this
      ensures selectedClient == None
      ensures formData == old(formData) && clientToCall == old(clientToCall) && callNote == old(callNote)
    {
      selectedClient := None;
    }

    /** The form's input handlers, which set its fields. */
    method EditForm(form: ClientForm)
      modifies this
      ensures formData == form
      ensures selectedClient == old(selectedClient) && clientToCall == old(clientToCall) && callNote == old(callNote)
    {
      formData := form;
    }

    method ToggleInterestedService(serviceId: string)
      modifies this
      ensures formData == old(formData).(interestedServices := ToggleService(old(formData).interestedServices, serviceId))
      ensures selectedClient == old(selectedClient) && clientToCall == old(clientToCall) && callNote == old(callNote)
    {
      formData := formData.(interestedServices := ToggleService(formData.interestedServices, serviceId));
    }

    /** Builds the record, updates (edit) or appends (add) it, and closes the form. */
    method Submit(freshId: string)
      requires app.Valid()
      requires selectedClient.None? ==> freshId !in KeysOf(app.clients, ClientId)
      modifies this, app
      ensures app.Valid()
      ensures app.clients ==
              var c := BuildClient(old(formData), old(selectedClient), freshId);
              if old(selectedClient).Some? then ReplaceClient(old(app.clients), c) else old(app.clients) + [c]
      ensures app.projects == old(app.projects) && app.services == old(app.services)
      ensures selectedClient == None
      ensures formData == old(formData) && clientToCall == old(clientToCall) && callNote == old(callNote)
    {
      var newClient := BuildClient(formData, selectedClient, freshId);
      if selectedClient.Some? {
        app.UpdateClient(newClient);
      } else {
        app.AddClient(newClient);
      }
      CloseModal();
    }

    method OpenCallModal(client: Client)
      modifies this
      ensures clientToCall == Some(client) && callNote == ""
      ensures selectedClient == old(selectedClient) && formData == old(formData)
    {
      clientToCall := Some(client);
      callNote := "";
    }

    method EditCallNote(note: string)
      modifies this
      ensures callNote == note
      ensures selectedClient == old(selectedClient) && formData == old(formData) && clientToCall == old(clientToCall)
    {
      callNote := note;
    }

    /**
     * Logs a call, dated the UTC day of `now`, on the client the call
     * dialog was opened for and stores the updated client; does nothing
     * without one.
     */
    method SaveCall(interactionId: string, now: Timestamp)
      requires app.Valid()
      modifies this, app
      ensures app.Valid()
      ensures app.clients ==
              if old(clientToCall).None? then old(app.clients)
              else ReplaceClient(old(app.clients), LogCall(old(clientToCall).value, interactionId, now, old(callNote)))
      ensures app.projects == old(app.projects) && app.services == old(app.services)
      ensures clientToCall == None
      ensures selectedClient == old(selectedClient) && formData == old(formData) && callNote == old(callNote)
    {
      if clientToCall.None? {
        return;
      }
      var updated := LogCall(clientToCall.value, interactionId, now, callNote);
      app.UpdateClient(updated);
      clientToCall := None;
    }
  }
}
