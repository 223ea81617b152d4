/**
 * The in-memory part of the contact-list load: which last messages to fetch,
 * the map from the other participant's id to the preview of the last message
 * of their conversation, and the decorated contact list.
 */
module ContactProjection {
  import opened Wrappers
  import opened Rows
  import opened ConversationPair

  /** The non-null `last_message_id`s of the conversations, in conversation order. */
  function LastMessageIds(convs: seq<Conversation>): seq<string>
  {
    if convs == [] then []
    else
      var head := if convs[0].last_message_id.Some? then [convs[0].last_message_id.value] else [];
      head + LastMessageIds(convs[1..])
  }

  /** An id is listed exactly when some conversation has it as last message; at most one id per conversation. */
  lemma {:induction false} LastMessageIdsMembers(convs: seq<Conversation>)
    ensures |LastMessageIds(convs)| <= |convs|
    ensures forall x :: x in LastMessageIds(convs) <==> exists c :: c in convs && c.last_message_id == Some(x)
  {
    if convs != [] {
      LastMessageIdsMembers(convs[1..]);
      assert forall c :: c in convs <==> c == convs[0] || c in convs[1..];
    }
  }

  /** Filtering keeps the order: the ids of a concatenation are the concatenation of the ids. */
  lemma {:induction false} LastMessageIdsConcat(a: seq<Conversation>, b: seq<Conversation>)
    ensures LastMessageIds(a + b) == LastMessageIds(a) + LastMessageIds(b)
  {
    if a == [] {
      assert a + b == b;
    } else {
      assert (a + b)[0] == a[0];
      assert (a + b)[1..] == a[1..] + b;
      LastMessageIdsConcat(a[1..], b);
    }
  }

  /** The list is empty exactly when no conversation has a last message. */
  lemma LastMessageIdsEmptyIff(convs: seq<Conversation>)
    ensures LastMessageIds(convs) == [] <==> forall c :: c in convs ==> c.last_message_id.None?
  {
    LastMessageIdsMembers(convs);
    if LastMessageIds(convs) != [] {
      assert LastMessageIds(convs)[0] in LastMessageIds(convs);
    }
  }

  /**
   * The previews `lastMessages` ends up holding: the store's reply when at
   * least one id was asked for and the reply is not an error, else none.
   */
  function FetchedPreviews(ids: seq<string>, reply: Result<seq<Preview>, StoreError>): (r: Option<seq<Preview>>)
    ensures r.Some? <==> |ids| > 0 && reply.Success?
    ensures r.Some? ==> r.value == reply.value
  {
    if |ids| > 0 && reply.Success? then Some(reply.value) else None
  }

  /** `messages.find(m => m.id === id)`. */
  function FindPreview(messages: seq<Preview>, id: Option<string>): Option<Preview>
  {
    if messages == [] then None
    else if Some(messages[0].id) == id then Some(messages[0])
    else FindPreview(messages[1..], id)
  }

  /**
   * `find` yields nothing exactly when no message has the id, and otherwise
   * the earliest message that has it.
   */
  lemma {:induction false} FindPreviewFinds(messages: seq<Preview>, id: Option<string>)
    ensures FindPreview(messages, id).None? <==> forall m :: m in messages ==> Some(m.id) != id
    ensures FindPreview(messages, id).Some? ==>
      exists i :: 0 <= i < |messages| && messages[i] == FindPreview(messages, id).value
                  && Some(messages[i].id) == id
                  && forall j :: 0 <= j < i ==> Some(messages[j].id) != id
  {
    if messages != [] && Some(messages[0].id) != id {
      var tail := messages[1..];
      FindPreviewFinds(tail, id);
      assert forall m :: m in messages <==> m == messages[0] || m in tail;
      if FindPreview(tail, id).Some? {
        var i :| 0 <= i < |tail| && tail[i] == FindPreview(tail, id).value && Some(tail[i].id) == id
          && forall j :: 0 <= j < i ==> Some(tail[j].id) != id;
        assert messages[i + 1] == tail[i];
        assert forall j :: 0 < j < i + 1 ==> messages[j] == tail[j - 1];
      }
    }
  }

  /** `lastMessages?.find(...)` for the conversation's `last_message_id`. */
  function PreviewFor(lastMessages: Option<seq<Preview>>, conv: Conversation): Option<Preview>
  {
    if lastMessages.None? then None else FindPreview(lastMessages.value, conv.last_message_id)
  }

  /** The participant of `conv` who is not the logged-in user. */
  function OtherUserId(conv: Conversation, me: string): string
  {
    if conv.user1_id == me then conv.user2_id else conv.user1_id
  }

  /** For a row stored under the canonical pair of `me` and `other`, the other user is `other`. */
  lemma OtherUserOfCanonicalRow(conv: Conversation, me: string, other: string)
    requires Pair(conv.user1_id, conv.user2_id) == CanonicalPair(me, other)
    ensures OtherUserId(conv, me) == other
  {
  }

  /**
   * The preview map after the `forEach` over `convs` in order: each
   * conversation with a found message sets the entry of its other user,
   * later conversations overwriting earlier ones.
   */
  function PreviewMap(convs: seq<Conversation>, lastMessages: Option<seq<Preview>>, me: string): map<string, Preview>
  {
    if convs == [] then map[]
    else
      var earlier := PreviewMap(convs[..|convs| - 1], lastMessages, me);
      var last := convs[|convs| - 1];
      match PreviewFor(lastMessages, last)
      case Some(msg) => earlier[OtherUserId(last, me) := msg]
      case None => earlier
  }

  /** Conversation `conv` contributes an entry for user `k`. */
  predicate SetsEntry(conv: Conversation, lastMessages: Option<seq<Preview>>, me: string, k: string)
  {
    OtherUserId(conv, me) == k && PreviewFor(lastMessages, conv).Some?
  }

  /** A user has an entry exactly when some conversation sets it. */
  lemma {:induction false} PreviewMapKeys(convs: seq<Conversation>, lastMessages: Option<seq<Preview>>, me: string, k: string)
    ensures k in PreviewMap(convs, lastMessages, me) <==>
      exists i :: 0 <= i < |convs| && SetsEntry(convs[i], lastMessages, me, k)
  {
    if convs != [] {
      var n := |convs| - 1;
      var init := convs[..n];
      PreviewMapKeys(init, lastMessages, me, k);
      assert forall i :: 0 <= i < n ==> init[i] == convs[i];
      if k in PreviewMap(convs, lastMessages, me) && !SetsEntry(convs[n], lastMessages, me, k) {
        assert k in PreviewMap(init, lastMessages, me);
      }
    }
  }

  /** The entry of a user is the message of the last conversation that sets it. */
  lemma {:induction false} PreviewMapLatest(convs: seq<Conversation>, lastMessages: Option<seq<Preview>>, me: string, k: string)
    requires k in PreviewMap(convs, lastMessages, me)
    ensures exists i :: 0 <= i < |convs| && SetsEntry(convs[i], lastMessages, me, k)
                        && PreviewMap(convs, lastMessages, me)[k] == PreviewFor(lastMessages, convs[i]).value
                        && forall j :: i < j < |convs| ==> !SetsEntry(convs[j], lastMessages, me, k)
  {
    var n := |convs| - 1;
    var init := convs[..n];
    var m := PreviewMap(convs, lastMessages, me);
    if SetsEntry(convs[n], lastMessages, me, k) {
      assert m[k] == PreviewFor(lastMessages, convs[n]).value;
    } else {
      var m0 := PreviewMap(init, lastMessages, me);
      assert k in m0 && m[k] == m0[k];
      PreviewMapLatest(init, lastMessages, me, k);
      var i :| 0 <= i < |init| && SetsEntry(init[i], lastMessages, me, k)
        && m0[k] == PreviewFor(lastMessages, init[i]).value
        && forall j :: i < j < |init| ==> !SetsEntry(init[j], lastMessages, me, k);
      assert forall j :: i < j < |convs| ==> !SetsEntry(convs[j], lastMessages, me, k) by {
        forall j | i < j < |convs| ensures !SetsEntry(convs[j], lastMessages, me, k) {
          if j < n {
            assert init[j] == convs[j];
          }
        }
      }
      assert init[i] == convs[i];
      assert SetsEntry(convs[i], lastMessages, me, k) && m[k] == PreviewFor(lastMessages, convs[i]).value;
    }
  }

  /** Without fetched messages (no ids, or a failed fetch) the map is empty. */
  lemma {:induction false} PreviewMapWithoutMessages(convs: seq<Conversation>, me: string)
    ensures PreviewMap(convs, None, me) == map[]
  {
    if convs != [] {
      PreviewMapWithoutMessages(convs[..|convs| - 1], me);
    }
  }

  /** Builds the preview map with the `forEach` loop of the contact-list load. */
  method BuildPreviewMap(convs: seq<Conversation>, lastMessages: Option<seq<Preview>>, me: string)
    returns (convMap: map<string, Preview>)
    ensures convMap == PreviewMap(convs, lastMessages, me)
  {
    convMap := map[];
    var i := 0;
    while i < |convs|
      invariant 0 <= i <= |convs|
      invariant convMap == PreviewMap(convs[..i], lastMessages, me)
    {
      var conv := convs[i];
      var msg := PreviewFor(lastMessages, conv);
      var otherUserId := OtherUserId(conv, me);
      if msg.Some? {
        convMap := convMap[otherUserId := msg.value];
      }
      assert convs[..i + 1][..i] == convs[..i];
      i := i + 1;
    }
    assert convs[..i] == convs;
  }

  /** A roster row decorated with an empty thread and its preview, if any. */
  function Decorate(row: Profile, convMap: map<string, Preview>): Client
  {
    Client(row.id, row.name, row.email, row.mobile, [],
           if row.id in convMap then Some(convMap[row.id]) else None)
  }

  /**
   * The processed contact list: one contact per roster row, in roster order,
   * with the row's columns, an empty thread and the map's preview for its id.
   */
  function ProcessClients(allClients: seq<Profile>, convMap: map<string, Preview>): (r: seq<Client>)
    ensures |r| == |allClients|
    ensures forall i :: 0 <= i < |r| ==>
      && ProfileOf(r[i]) == allClients[i]
      && r[i].messages == []
      && (allClients[i].id in convMap <==> r[i].lastMessagePreview.Some?)
      && (allClients[i].id in convMap ==> r[i].lastMessagePreview == Some(convMap[allClients[i].id]))
  {
    seq(|allClients|, i requires 0 <= i < |allClients| => Decorate(allClients[i], convMap))
  }

  /** The contact list the load produces from the store's three replies. */
  function Project(allClients: seq<Profile>, convs: seq<Conversation>, lastReply: Result<seq<Preview>, StoreError>,
                   me: string): seq<Client>
  {
    ProcessClients(allClients, PreviewMap(convs, FetchedPreviews(LastMessageIds(convs), lastReply), me))
  }

  /**
   * The whole projection: a contact gets a preview exactly when a conversation
   * with it has a last message that the fetch returned, and that preview is
   * the message of the last such conversation.
   */
  lemma ProjectionPreview(allClients: seq<Profile>, convs: seq<Conversation>, reply: Result<seq<Preview>, StoreError>,
                          me: string, n: nat)
    requires n < |allClients|
    ensures var lastMessages := FetchedPreviews(LastMessageIds(convs), reply);
      var p := Project(allClients, convs, reply, me)[n].lastMessagePreview;
      && (p.Some? <==> exists i :: 0 <= i < |convs| && SetsEntry(convs[i], lastMessages, me, allClients[n].id))
      && (p.Some? ==> exists i :: 0 <= i < |convs| && SetsEntry(convs[i], lastMessages, me, allClients[n].id)
                                  && p == PreviewFor(lastMessages, convs[i])
                                  && forall j :: i < j < |convs| ==> !SetsEntry(convs[j], lastMessages, me, allClients[n].id))
  {
    var lastMessages := FetchedPreviews(LastMessageIds(convs), reply);
    var k := allClients[n].id;
    PreviewMapKeys(convs, lastMessages, me, k);
    if k in PreviewMap(convs, lastMessages, me) {
      PreviewMapLatest(convs, lastMessages, me, k);
    }
  }

  /** With no last-message ids, or a failed fetch, no contact gets a preview. */
  lemma NoPreviewsWithoutFetch(allClients: seq<Profile>, convs: seq<Conversation>,
                               reply: Result<seq<Preview>, StoreError>, me: string)
    requires LastMessageIds(convs) == [] || reply.Failure?
    ensures forall c :: c in Project(allClients, convs, reply, me) ==> c.lastMessagePreview.None?
  {
    PreviewMapWithoutMessages(convs, me);
  }
}
