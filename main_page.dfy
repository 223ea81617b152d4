/**
 * The chat page: its view state (current user, contact list, selected
 * contact, loading flag) and the handlers that change it — the contact-list
 * load, opening the selected contact's conversation, live inserts — and the
 * send handler with the store writes it issues. Store replies are parameters.
 */
module MainPage {
  import opened Wrappers
  import opened JsString
  import opened Rows
  import opened ConversationPair
  import opened ContactProjection
  import opened ThreadSync

  /** The PostgREST code of a `.single()` lookup that found no row. */
  const NotFoundCode: string := "PGRST116"

  /**
   * The outcome of finding or creating the conversation of the current user
   * and the selected contact: the key looked up, the row inserted (if any) and
   * the conversation or the error that aborts the load.
   */
  datatype Resolution = Resolution(key: Pair, inserted: Option<Pair>, conversation: Result<Conversation, StoreError>)

  /**
   * Looks the pair up under its canonical key; on "not found" inserts a row
   * with that key and uses the created row; any other error, or a failed
   * insert, aborts.
   */
  function ResolveConversation(currentUserId: string, selectedId: string,
                               lookup: Result<Conversation, StoreError>,
                               create: Result<Conversation, StoreError>): (r: Resolution)
    ensures r.key == CanonicalPair(currentUserId, selectedId)
    ensures r.inserted.Some? <==> lookup.Failure? && lookup.error.code == NotFoundCode
    ensures r.inserted.Some? ==> r.inserted.value == r.key
    ensures r.conversation.Success? <==> lookup.Success? || (r.inserted.Some? && create.Success?)
    ensures r.conversation.Success? ==>
      r.conversation.value == if lookup.Success? then lookup.value else create.value
  {
    var key := CanonicalPair(currentUserId, selectedId);
    match lookup
    case Success(conv) => Resolution(key, None, Success(conv))
    case Failure(e) =>
      if e.code == NotFoundCode then
        match create
        case Success(created) => Resolution(key, Some(key), Success(created))
        case Failure(createError) => Resolution(key, Some(key), Failure(createError))
      else Resolution(key, None, Failure(e))
  }

  /** Either user opening the conversation issues the same lookup and the same insert. */
  lemma ResolveSymmetric(a: string, b: string, lookup: Result<Conversation, StoreError>,
                         create: Result<Conversation, StoreError>)
    ensures ResolveConversation(a, b, lookup, create) == ResolveConversation(b, a, lookup, create)
  {
    CanonicalPairSymmetric(a, b);
  }

  /**
   * The send guard and the key of the send path's lookup: nothing when no
   * contact is selected, no user is loaded or the text is blank after trimming.
   */
  function SendTarget(selected: Option<Client>, current: Option<Profile>, content: string): (r: Option<Pair>)
    ensures r.None? <==> selected.None? || current.None? || Trim(content) == []
    ensures r.Some? ==> r.value == CanonicalPair(current.value.id, selected.value.id)
  {
    if selected.None? || current.None? || Trim(content) == [] then None
    else Some(CanonicalPair(current.value.id, selected.value.id))
  }

  /**
   * A message sent by either of two users is looked up under the key that
   * either of them uses when opening their conversation.
   */
  lemma SendHitsOpenedConversation(selected: Client, current: Profile, content: string,
                                   lookup: Result<Conversation, StoreError>, create: Result<Conversation, StoreError>)
    requires Trim(content) != []
    ensures SendTarget(Some(selected), Some(current), content)
         == Some(ResolveConversation(current.id, selected.id, lookup, create).key)
         == Some(ResolveConversation(selected.id, current.id, lookup, create).key)
  {
    ResolveSymmetric(current.id, selected.id, lookup, create);
  }

  /** The row the send path inserts into `messages`. */
  datatype MessageInsert = MessageInsert(conversation_id: string, sender_id: string, context: string, timestamp: string)

  /** The update the send path issues on `conversations`. */
  datatype ConversationUpdate = ConversationUpdate(id: string, last_message_id: string, updated_at: string)

  /** What a send does: nothing, or the store writes it issues before it stops. */
  datatype SendOutcome =
    | Skipped
    | LookupFailed(key: Pair, error: StoreError)
    | InsertFailed(key: Pair, insert: MessageInsert, error: StoreError)
    | Sent(key: Pair, insert: MessageInsert, update: ConversationUpdate)

  /** The `conversations` table after the send path's update: rows with that id point at the new message. */
  function ApplyUpdate(table: seq<Conversation>, update: ConversationUpdate): (r: seq<Conversation>)
    ensures |r| == |table|
    ensures forall i :: 0 <= i < |r| && table[i].id == update.id ==>
      r[i] == table[i].(last_message_id := Some(update.last_message_id), updated_at := Some(update.updated_at))
    ensures forall i :: 0 <= i < |r| && table[i].id != update.id ==> r[i] == table[i]
  {
    seq(|table|, i requires 0 <= i < |table| =>
      if table[i].id == update.id
      then table[i].(last_message_id := Some(update.last_message_id), updated_at := Some(update.updated_at))
      else table[i])
  }

  /** After the update, the next contact-list load asks for the new message. */
  lemma UpdatedMessageIsFetched(table: seq<Conversation>, update: ConversationUpdate)
    requires exists c :: c in table && c.id == update.id
    ensures update.last_message_id in LastMessageIds(ApplyUpdate(table, update))
  {
    var c :| c in table && c.id == update.id;
    var i :| 0 <= i < |table| && table[i] == c;
    var updated := ApplyUpdate(table, update);
    assert updated[i] in updated;
    LastMessageIdsMembers(updated);
  }

  /** The subscription opened for a conversation, with the ids its callback captured. */
  datatype Subscription = Subscription(conversationId: string, currentUserId: string, selectedId: string)

  class ChatSession {
    var currentUser: Option<Profile>
    var clients: seq<Client>
    var selectedClient: Option<Client>
    var loading: bool

    /** The state before the first load. */
    constructor ()
      ensures currentUser == None && clients == [] && selectedClient == None && loading
    {
      currentUser := None;
      clients := [];
      selectedClient := None;
      loading := true;
    }

    /**
     * The contact-list load. A failed user fetch changes nothing but the
     * loading flag; a failed roster or conversation fetch keeps the loaded
     * user; otherwise the list becomes the projection and its first contact,
     * if any, is selected.
     */
    method FetchData(loggedInUserId: string,
                     userReply: Result<Profile, StoreError>,
                     clientsReply: Result<seq<Profile>, StoreError>,
                     convReply: Result<seq<Conversation>, StoreError>,
                     lastReply: Result<seq<Preview>, StoreError>)
      modifies this
      ensures !loading
      ensures currentUser == if userReply.Success? then Some(userReply.value) else old(currentUser)
      ensures userReply.Failure? || clientsReply.Failure? || convReply.Failure? ==>
        clients == old(clients) && selectedClient == old(selectedClient)
      ensures userReply.Success? && clientsReply.Success? && convReply.Success? ==>
        && clients == Project(clientsReply.value, convReply.value, lastReply, loggedInUserId)
        && selectedClient == if clients != [] then Some(clients[0]) else old(selectedClient)
    {
      loading := true;
      if userReply.Failure? {
        loading := false;
        return;
      }
      currentUser := Some(userReply.value);
      if clientsReply.Failure? {
        loading := false;
        return;
      }
      var allClients := clientsReply.value;
      if convReply.Failure? {
        loading := false;
        return;
      }
      var conversations := convReply.value;

      var lastMessageIds := LastMessageIds(conversations);
      var lastMessages: Option<seq<Preview>> := None;
      if |lastMessageIds| > 0 {
        if lastReply.Success? {
          lastMessages := Some(lastReply.value);
        }
      }

      var convMap := BuildPreviewMap(conversations, lastMessages, loggedInUserId);
      var processedClients := ProcessClients(allClients, convMap);
      clients := processedClients;
      if |processedClients| > 0 {
        selectedClient := Some(processedClients[0]);
      }
      loading := false;
    }

    /**
     * Opening the selected contact's conversation: resolve it, load its
     * history into the selected contact and subscribe to inserts. Any
     * failure stops the handler with the state as it was.
     */
    method OpenConversation(lookup: Result<Conversation, StoreError>,
                            create: Result<Conversation, StoreError>,
                            history: Result<seq<Message>, StoreError>)
      returns (subscription: Option<Subscription>)
      modifies this
      ensures clients == old(clients) && currentUser == old(currentUser) && loading == old(loading)
      ensures old(selectedClient).None? || old(currentUser).None? ==>
        subscription.None? && selectedClient == old(selectedClient)
      ensures old(selectedClient).Some? && old(currentUser).Some? ==>
        var res := ResolveConversation(old(currentUser).value.id, old(selectedClient).value.id, lookup, create);
        if res.conversation.Success? && history.Success? then
          && selectedClient == WithHistory(old(selectedClient), history.value, old(currentUser).value.id)
          && subscription == Some(Subscription(res.conversation.value.id, old(currentUser).value.id,
                                               old(selectedClient).value.id))
        else
          subscription.None? && selectedClient == old(selectedClient)
    {
      subscription := None;
      if selectedClient.None? || currentUser.None? {
        return;
      }
      var me := currentUser.value.id;
      var selectedId := selectedClient.value.id;
      var res := ResolveConversation(me, selectedId, lookup, create);
      if res.conversation.Failure? {
        return;
      }
      var conversation := res.conversation.value;
      if history.Failure? {
        return;
      }
      selectedClient := WithHistory(selectedClient, history.value, me);
      subscription := Some(Subscription(conversation.id, me, selectedId));
    }

    /**
     * A live insert delivered to a subscription: the selected contact's thread
     * grows by the message and the contact whose id the subscription captured
     * gets it as preview.
     */
    method OnInsert(subscription: Subscription, newMessage: Message)
      modifies this
      ensures selectedClient == WithLiveMessage(old(selectedClient), newMessage, subscription.currentUserId)
      ensures clients == PatchPreview(old(clients), subscription.selectedId, newMessage)
      ensures currentUser == old(currentUser) && loading == old(loading)
    {
      selectedClient := WithLiveMessage(selectedClient, newMessage, subscription.currentUserId);
      clients := PatchPreview(clients, subscription.selectedId, newMessage);
    }

    /** A click on a row of the contact list. */
    method SelectClient(client: Client)
      modifies this
      ensures selectedClient == Some(client)
      ensures clients == old(clients) && currentUser == old(currentUser) && loading == old(loading)
    {
      selectedClient := Some(client);
    }

    /**
     * Sending a message: no store call when the guard rejects it; otherwise
     * the lookup under the canonical key, the insert of the untrimmed text by
     * the current user, and, once the insert succeeded, the update that makes
     * the new message the conversation's last one. The view state is untouched.
     */
    method HandleSendMessage(messageContent: string,
                             lookup: Result<string, StoreError>,
                             insert: Result<Message, StoreError>,
                             sentAt: string, updatedAt: string)
      returns (outcome: SendOutcome)
      ensures outcome.Skipped? <==> selectedClient.None? || currentUser.None? || Trim(messageContent) == []
      ensures !outcome.Skipped? ==> outcome.key == CanonicalPair(currentUser.value.id, selectedClient.value.id)
      ensures outcome.LookupFailed? <==> !outcome.Skipped? && lookup.Failure?
      ensures outcome.InsertFailed? || outcome.Sent? ==>
        outcome.insert == MessageInsert(lookup.value, currentUser.value.id, messageContent, sentAt)
      ensures outcome.Sent? <==> !outcome.Skipped? && lookup.Success? && insert.Success?
      ensures outcome.Sent? ==> outcome.update == ConversationUpdate(lookup.value, insert.value.id, updatedAt)
    {
      var key := SendTarget(selectedClient, currentUser, messageContent);
      if key.None? {
        return Skipped;
      }
      if lookup.Failure? {
        return LookupFailed(key.value, lookup.error);
      }
      var convId := lookup.value;
      var row := MessageInsert(convId, currentUser.value.id, messageContent, sentAt);
      if insert.Failure? {
        return InsertFailed(key.value, row, insert.error);
      }
      var msg := insert.value;
      outcome := Sent(key.value, row, ConversationUpdate(convId, msg.id, updatedAt));
    }
  }
}
