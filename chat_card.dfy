/**
 * The contact-list card: the search that replaces the shown list, and the
 * per-row derivations (sender label, preview line, highlight).
 */
module ChatCard {
  import opened Wrappers
  import opened JsString
  import opened Rows
  import opened ThreadSync

  /** The name search the card sends to the store: `name ILIKE pattern`, excluding one id. */
  datatype SearchQuery = SearchQuery(pattern: string, excludedId: string)

  /** The effect of one run of the search: the query issued, if any, and the list shown afterwards. */
  datatype SearchStep = SearchStep(query: Option<SearchQuery>, filteredClients: seq<Client>)

  /** Search results as contacts: no thread and no preview, in the store's order. */
  function Enrich(rows: seq<Profile>): (r: seq<Client>)
    ensures |r| == |rows|
    ensures forall i :: 0 <= i < |r| ==>
      ProfileOf(r[i]) == rows[i] && r[i].messages == [] && r[i].lastMessagePreview.None?
  {
    seq(|rows|, i requires 0 <= i < |rows| =>
      Client(rows[i].id, rows[i].name, rows[i].email, rows[i].mobile, [], None))
  }

  /**
   * The search effect. Without a logged-in id nothing happens; a blank term
   * shows the full list again without a query; otherwise the untrimmed term
   * is sent and, unless the store fails, its matches replace the shown list.
   */
  function FetchMatchingClients(loggedInUserId: string, searchTerm: string, clients: seq<Client>,
                                filteredClients: seq<Client>, reply: Result<seq<Profile>, StoreError>): (r: SearchStep)
    ensures loggedInUserId == [] ==> r == SearchStep(None, filteredClients)
    ensures loggedInUserId != [] && Trim(searchTerm) == [] ==> r == SearchStep(None, clients)
    ensures loggedInUserId != [] && Trim(searchTerm) != [] ==>
      && r.query == Some(SearchQuery("%" + searchTerm + "%", loggedInUserId))
      && r.filteredClients == if reply.Failure? then filteredClients else Enrich(reply.value)
  {
    if loggedInUserId == [] then SearchStep(None, filteredClients)
    else if Trim(searchTerm) == [] then SearchStep(None, clients)
    else
      var query := Some(SearchQuery("%" + searchTerm + "%", loggedInUserId));
      match reply
      case Failure(_) => SearchStep(query, filteredClients)
      case Success(data) => SearchStep(query, Enrich(data))
  }

  /** The label before a preview: none without preview, "You" for one's own message, else the contact's name. */
  function SenderLabel(client: Client, loggedInUserId: string): string
  {
    match client.lastMessagePreview
    case None => ""
    case Some(lastMessage) => if lastMessage.sender_id == loggedInUserId then "You" else client.name
  }

  /** The text shown under a contact's name. */
  function PreviewLine(client: Client, loggedInUserId: string): string
  {
    match client.lastMessagePreview
    case None => "No messages yet."
    case Some(lastMessage) => SenderLabel(client, loggedInUserId) + ": " + lastMessage.context
  }

  /** The row of `client` is highlighted. */
  predicate IsSelected(selectedClient: Option<Client>, client: Client)
  {
    selectedClient.Some? && selectedClient.value.id == client.id
  }

  /** The placeholder is shown exactly for contacts without a preview: no preview line can spell it. */
  lemma PreviewLinePlaceholderIff(client: Client, loggedInUserId: string)
    ensures PreviewLine(client, loggedInUserId) == "No messages yet." <==> client.lastMessagePreview.None?
  {
    if client.lastMessagePreview.Some? {
      var senderLabel := SenderLabel(client, loggedInUserId);
      var line := PreviewLine(client, loggedInUserId);
      assert line[|senderLabel|] == ':';
    }
  }

  /**
   * For a contact not itself named "You", the label reads "You" exactly when
   * the previewed message was sent by the logged-in user.
   */
  lemma SenderLabelMeansOwnMessage(client: Client, loggedInUserId: string)
    requires client.lastMessagePreview.Some? && client.name != "You"
    ensures SenderLabel(client, loggedInUserId) == "You" <==> client.lastMessagePreview.value.sender_id == loggedInUserId
  {
  }

  /** A contact named "You" reads as one's own message even when the contact sent it. */
  lemma ContactNamedYouReadsAsOwn(loggedInUserId: string, other: string)
    requires other != loggedInUserId
    ensures PreviewLine(Client("c", "You", None, None, [], Some(Preview("m", "hi", other, "t"))), loggedInUserId) == "You: hi"
  {
  }

  /** Search results always show the placeholder line. */
  lemma SearchResultsShowPlaceholder(loggedInUserId: string, searchTerm: string, clients: seq<Client>,
                                     filteredClients: seq<Client>, data: seq<Profile>)
    requires loggedInUserId != [] && Trim(searchTerm) != []
    ensures var shown := FetchMatchingClients(loggedInUserId, searchTerm, clients, filteredClients, Success(data)).filteredClients;
      forall c :: c in shown ==> PreviewLine(c, loggedInUserId) == "No messages yet."
  {
  }

  /** With distinct contact ids at most one row is highlighted. */
  lemma AtMostOneSelected(selectedClient: Option<Client>, clients: seq<Client>, i: int, j: int)
    requires forall a, b :: 0 <= a < b < |clients| ==> clients[a].id != clients[b].id
    requires 0 <= i < |clients| && 0 <= j < |clients|
    requires IsSelected(selectedClient, clients[i]) && IsSelected(selectedClient, clients[j])
    ensures i == j
  {
  }

  /** After a load selects the first contact, with distinct ids exactly the first row is highlighted. */
  lemma LoadedSelectionHighlightsFirst(clients: seq<Client>, i: int)
    requires forall a, b :: 0 <= a < b < |clients| ==> clients[a].id != clients[b].id
    requires 0 <= i < |clients|
    ensures IsSelected(Some(clients[0]), clients[i]) <==> i == 0
  {
  }

  /**
   * A message the logged-in user sent to the selected contact, once its live
   * insert patched the list, shows on that contact's row as "You: " and the text.
   */
  lemma OwnMessageShowsAsYou(clients: seq<Client>, selectedId: string, msg: Message, loggedInUserId: string, i: int)
    requires 0 <= i < |clients| && clients[i].id == selectedId
    requires msg.sender_id == loggedInUserId
    ensures PreviewLine(PatchPreview(clients, selectedId, msg)[i], loggedInUserId) == "You: " + msg.context
  {
  }
}
