/** The client list screen (src/pages/Clients.tsx): the list is read from the
    `clients` table, filtered locally, and changed through remote writes whose
    outcomes arrive as parameters. */
module Clients {
  import opened Wrappers
  import opened Seqs
  import opened Text

  datatype ClientStatus = Active | Inactive

  /** `Client` (src/types/supabase.ts), with the fields the screen reads. */
  datatype Client = Client(
    id: int,
    name: string,
    email: string,
    phone: string,
    company: string,
    vatNumber: string,
    status: ClientStatus)

  function ClientId(c: Client): int { c.id }

  /** A remote answer: `{ data }` or `{ error }` with its message. */
  datatype Response<+T> = Data(value: T) | Error(message: string)

  /** The error a response leaves in the `error` cell after `fetchClients`. */
  function ErrorOf<T>(r: Response<T>): Option<string>
  {
    if r.Error? then Some(r.message) else None
  }

  /** The form's fields as typed. */
  datatype ClientInput = ClientInput(name: string, email: string, company: string, vatNumber: string, phone: string)

  /** `clientSchema`: name, email, company and VAT number required, the email passing the
      email check `isEmail`; the phone is optional. */
  function ValidateClient(input: ClientInput, isEmail: string -> bool): (r: Option<ClientInput>)
    ensures r.Some? <==>
      input.name != "" && input.email != "" && isEmail(input.email) && input.company != "" && input.vatNumber != ""
    ensures r.Some? ==> r.value == input
  {
    if input.name == "" || input.email == "" || !isEmail(input.email) || input.company == "" || input.vatNumber == ""
    then None
    else Some(input)
  }

  /** Whatever the phone holds, it never decides whether the form is accepted. */
  lemma PhoneIsOptional(input: ClientInput, phone: string, isEmail: string -> bool)
    ensures ValidateClient(input.(phone := phone), isEmail).Some? == ValidateClient(input, isEmail).Some?
  {
  }

  /** One card of `filteredClients`: the search hits name, company or VAT number, and the
      status select admits the client. */
  predicate ClientShown(c: Client, search: string, status: Choice<ClientStatus>)
  {
    && (MatchesSearch(c.name, search) || MatchesSearch(c.company, search) || MatchesSearch(c.vatNumber, search))
    && Admits(status, c.status)
  }

  function Shown(search: string, status: Choice<ClientStatus>): Client -> bool
  {
    (c: Client) => ClientShown(c, search, status)
  }

  lemma NoFilterShowsAll(clients: seq<Client>)
    ensures Filter(clients, Shown("", All)) == clients
  {
    forall i | 0 <= i < |clients| ensures Shown("", All)(clients[i]) {
      EmptySearchMatches(clients[i].name);
    }
    FilterKeepsAll(clients, Shown("", All));
  }

  /** `filteredClients`: exactly the clients shown, in list order. */
  function FilteredClients(clients: seq<Client>, search: string, status: Choice<ClientStatus>): (r: seq<Client>)
    ensures forall i :: 0 <= i < |r| ==> r[i] in clients && ClientShown(r[i], search, status)
    ensures forall i :: 0 <= i < |clients| && ClientShown(clients[i], search, status) ==> clients[i] in r
    ensures IsSubsequence(r, clients)
    ensures search == "" && status == All ==> r == clients
  {
    FilterIsSubsequence(clients, Shown(search, status));
    NoFilterShowsAll(clients);
    Filter(clients, Shown(search, status))
  }

  /** The card's badge: `name.split(' ').map(n => n[0]).join('').slice(0, 2)`. */
  function CardInitials(name: string): (r: string)
    ensures |r| <= 2 && ' ' !in r
  {
    InitialsSpaceFree(name);
    Take(Initials(name), 2)
  }

  /** For a name of non-empty words separated by single spaces, the badge is the first
      letters of its first two words (of its only word, for a one-word name). */
  lemma CardInitialsOfName(words: seq<string>)
    requires |words| >= 1 && forall i :: 0 <= i < |words| ==> words[i] != [] && ' ' !in words[i]
    ensures |CardInitials(Join(words, ' '))| == if |words| == 1 then 1 else 2
    ensures forall i :: 0 <= i < |CardInitials(Join(words, ' '))| ==> CardInitials(Join(words, ' '))[i] == words[i][0]
  {
    InitialsOfName(words);
  }

  class ClientsPage {
    var clients: seq<Client>
    var loading: bool
    var error: Option<string>
    var searchTerm: string
    var statusFilter: Choice<ClientStatus>
    var isModalOpen: bool
    var editingClient: Option<Client>
    var deletingClientId: Option<int>

    /** Client ids are unique, as the table's key makes them. */
    predicate Valid()
      reads this
    {
      DistinctBy(clients, ClientId)
    }

    /** Mounting: no clients, loading, no error. */
    constructor ()
      ensures Valid()
      ensures clients == [] && loading && error.None? && searchTerm == "" && statusFilter == All
      ensures !isModalOpen && editingClient.None? && deletingClientId.None?
    {
      clients := [];
      loading := true;
      error := None;
      searchTerm := "";
      statusFilter := All;
      isModalOpen := false;
      editingClient := None;
      deletingClientId := None;
    }

    /** The cards shown. */
    function Visible(): (r: seq<Client>)
      reads this
      ensures IsSubsequence(r, clients)
      ensures forall i :: 0 <= i < |r| ==> ClientShown(r[i], searchTerm, statusFilter)
      ensures forall i :: 0 <= i < |clients| && ClientShown(clients[i], searchTerm, statusFilter) ==> clients[i] in r
    {
      FilteredClients(clients, searchTerm, statusFilter)
    }

    /** `fetchClients` given the query's answer: an error is stored and the list kept,
        data replaces the list and clears the error; loading ends either way. */
    method FetchClients(result: Response<seq<Client>>)
      requires Valid()
      requires result.Data? ==> DistinctBy(result.value, ClientId)
      modifies this
      ensures Valid()
      ensures searchTerm == old(searchTerm) && statusFilter == old(statusFilter)
      ensures !loading && error == ErrorOf(result)
      ensures result.Error? ==> clients == old(clients)
      ensures result.Data? ==> clients == result.value
      ensures isModalOpen == old(isModalOpen) && editingClient == old(editingClient)
      ensures deletingClientId == old(deletingClientId)
    {
      loading := true;
      error := None;
      match result {
        case Error(message) =>
          error := Some(message);
        case Data(rows) =>
          clients := rows;
      }
      loading := false;
    }

    /** `handleOpenModal(client)`. */
    method OpenModal(client: Option<Client>)
      requires Valid()
      modifies this
      ensures Valid()
      ensures searchTerm == old(searchTerm) && statusFilter == old(statusFilter)
      ensures loading == old(loading)
      ensures isModalOpen && editingClient == client
      ensures clients == old(clients) && error == old(error) && deletingClientId == old(deletingClientId)
    {
      editingClient := client;
      isModalOpen := true;
    }

    /** `handleCloseModal`. */
    method CloseModal()
      requires Valid()
      modifies this
      ensures Valid()
      ensures searchTerm == old(searchTerm) && statusFilter == old(statusFilter)
      ensures !isModalOpen && editingClient.None?
      ensures clients == old(clients) && error == old(error) && loading == old(loading)
      ensures deletingClientId == old(deletingClientId)
    {
      isModalOpen := false;
      editingClient := None;
    }

    /** `handleSubmit(onSubmit)`: input the schema rejects changes nothing. Otherwise the
        update (when editing) or insert is sent, its error stored, the list refetched and the
        modal closed, whether the write succeeded or not. The refetch clears the error
        first, so afterwards the cell holds only the refetch's own error. */
    method Submit(input: ClientInput, isEmail: string -> bool, writeError: Option<string>, refetch: Response<seq<Client>>)
      requires Valid()
      requires refetch.Data? ==> DistinctBy(refetch.value, ClientId)
      modifies this
      ensures Valid()
      ensures searchTerm == old(searchTerm) && statusFilter == old(statusFilter)
      ensures deletingClientId == old(deletingClientId)
      ensures ValidateClient(input, isEmail).None? ==>
        && clients == old(clients) && error == old(error) && loading == old(loading)
        && isModalOpen == old(isModalOpen) && editingClient == old(editingClient)
      ensures ValidateClient(input, isEmail).Some? ==>
        && !loading && error == ErrorOf(refetch)
        && (refetch.Data? ==> clients == refetch.value)
        && (refetch.Error? ==> clients == old(clients))
        && !isModalOpen && editingClient.None?
    {
      if ValidateClient(input, isEmail).None? {
        return;
      }
      if writeError.Some? {
        error := writeError;
      }
      FetchClients(refetch);
      CloseModal();
    }

    /** The card's delete entry, and the dialog's dismissal (`None`). */
    method SetDeleting(id: Option<int>)
      requires Valid()
      modifies this
      ensures Valid()
      ensures searchTerm == old(searchTerm) && statusFilter == old(statusFilter)
      ensures loading == old(loading) && editingClient == old(editingClient)
      ensures deletingClientId == id
      ensures clients == old(clients) && error == old(error) && isModalOpen == old(isModalOpen)
    {
      deletingClientId := id;
    }

    /** `handleDeleteClient` given the delete's error: with a pending id (`0` counts as none)
        the local list loses that client only when the remote delete succeeded, a failure is
        stored instead, and the pending id is cleared either way. */
    method DeleteClient(remoteError: Option<string>)
      requires Valid()
      modifies this
      ensures Valid()
      ensures searchTerm == old(searchTerm) && statusFilter == old(statusFilter)
      ensures isModalOpen == old(isModalOpen) && editingClient == old(editingClient) && loading == old(loading)
      ensures old(deletingClientId).None? || old(deletingClientId) == Some(0) ==>
        clients == old(clients) && error == old(error) && deletingClientId == old(deletingClientId)
      ensures old(deletingClientId).Some? && old(deletingClientId) != Some(0) ==>
        && deletingClientId.None?
        && (remoteError.Some? ==> clients == old(clients) && error == remoteError)
        && (remoteError.None? ==> clients == RemoveKey(old(clients), ClientId, old(deletingClientId).value) && error == old(error))
    {
      if deletingClientId.Some? && deletingClientId.value != 0 {
        if remoteError.Some? {
          error := remoteError;
        } else {
          RemoveKeyKeepsDistinct(clients, ClientId, deletingClientId.value);
          clients := RemoveKey(clients, ClientId, deletingClientId.value);
        }
        deletingClientId := None;
      }
    }
  }
}
