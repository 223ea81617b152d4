/**
 * How the open thread and the contact list absorb messages: the loaded
 * history is annotated with sender names, each live insert is appended to
 * the thread, and the selected contact's preview is patched.
 */
module ThreadSync {
  import opened Wrappers
  import opened Rows

  /** "You" for the current user's own messages, the contact's name otherwise. */
  function SenderName(msg: Message, currentUserId: string, contactName: string): string
  {
    if msg.sender_id == currentUserId then "You" else contactName
  }

  /** A stored message with its sender name. */
  function Annotate(msg: Message, currentUserId: string, contactName: string): ThreadMessage
  {
    ThreadMessage(msg, SenderName(msg, currentUserId, contactName))
  }

  /** The loaded history as shown. */
  function AnnotateHistory(history: seq<Message>, currentUserId: string, contactName: string): seq<ThreadMessage>
  {
    seq(|history|, i requires 0 <= i < |history| => Annotate(history[i], currentUserId, contactName))
  }

  /**
   * The annotated history holds the same messages in the same order, each
   * labelled "You" when the current user sent it and the contact's name otherwise.
   */
  lemma AnnotateHistoryLabels(history: seq<Message>, currentUserId: string, contactName: string)
    ensures var r := AnnotateHistory(history, currentUserId, contactName);
      && |r| == |history|
      && (forall i :: 0 <= i < |r| ==> r[i].message == history[i])
      && (forall i :: 0 <= i < |r| ==> (history[i].sender_id == currentUserId ==> r[i].senderName == "You"))
      && (forall i :: 0 <= i < |r| ==> (history[i].sender_id != currentUserId ==> r[i].senderName == contactName))
  {
  }

  /** Annotating a concatenation annotates each part. */
  lemma AnnotateHistoryConcat(a: seq<Message>, b: seq<Message>, currentUserId: string, contactName: string)
    ensures AnnotateHistory(a + b, currentUserId, contactName)
         == AnnotateHistory(a, currentUserId, contactName) + AnnotateHistory(b, currentUserId, contactName)
  {
  }

  /** `a` and `b` are the same contact apart from the thread. */
  predicate SameExceptMessages(a: Client, b: Client)
  {
    a.(messages := []) == b.(messages := [])
  }

  /**
   * The selected-contact update after the history load: the thread of the
   * contact selected at that moment becomes the annotated history, labelled
   * with that contact's name; no selection stays no selection.
   */
  function WithHistory(prev: Option<Client>, history: seq<Message>, currentUserId: string): (r: Option<Client>)
    ensures r.Some? <==> prev.Some?
    ensures r.Some? ==> (SameExceptMessages(r.value, prev.value)
                         && r.value.messages == AnnotateHistory(history, currentUserId, prev.value.name))
  {
    match prev
    case None => None
    case Some(c) => Some(c.(messages := AnnotateHistory(history, currentUserId, c.name)))
  }

  /**
   * The selected-contact update on a live insert: the thread grows by the
   * annotated message at its end and nothing else of the contact changes.
   */
  function WithLiveMessage(prev: Option<Client>, msg: Message, currentUserId: string): (r: Option<Client>)
    ensures r.Some? <==> prev.Some?
    ensures r.Some? ==> (SameExceptMessages(r.value, prev.value)
                         && |r.value.messages| == |prev.value.messages| + 1
                         && r.value.messages[..|prev.value.messages|] == prev.value.messages
                         && r.value.messages[|prev.value.messages|] == Annotate(msg, currentUserId, prev.value.name))
  {
    match prev
    case None => None
    case Some(c) =>
      var r := c.(messages := c.messages + [Annotate(msg, currentUserId, c.name)]);
      assert r.messages[..|c.messages|] == c.messages;
      Some(r)
  }

  /** A sequence of live inserts, delivered in order. */
  function WithLiveMessages(prev: Option<Client>, msgs: seq<Message>, currentUserId: string): Option<Client>
    decreases msgs
  {
    if msgs == [] then prev
    else WithLiveMessages(WithLiveMessage(prev, msgs[0], currentUserId), msgs[1..], currentUserId)
  }

  /** One live insert appends the annotation of the one-message history. */
  lemma LiveMessageStep(c: Client, msg: Message, currentUserId: string)
    ensures WithLiveMessage(Some(c), msg, currentUserId)
         == Some(c.(messages := c.messages + [Annotate(msg, currentUserId, c.name)]))
  {
  }

  /** Annotating a history that starts with `msg`. */
  lemma AnnotateHistoryCons(msg: Message, rest: seq<Message>, currentUserId: string, contactName: string)
    ensures AnnotateHistory([msg] + rest, currentUserId, contactName)
         == [Annotate(msg, currentUserId, contactName)] + AnnotateHistory(rest, currentUserId, contactName)
  {
  }

  /** Live inserts only append: the earlier thread is kept and the new messages follow in arrival order. */
  lemma {:induction false} LiveMessagesAppend(prev: Option<Client>, msgs: seq<Message>, currentUserId: string)
    ensures WithLiveMessages(prev, msgs, currentUserId)
         == if prev.None? then None
            else Some(prev.value.(messages := prev.value.messages + AnnotateHistory(msgs, currentUserId, prev.value.name)))
    decreases msgs
  {
    if msgs == [] {
      assert prev.Some? ==> prev.value.messages + AnnotateHistory(msgs, currentUserId, prev.value.name) == prev.value.messages;
    } else if prev.Some? {
      var c := prev.value;
      var a := Annotate(msgs[0], currentUserId, c.name);
      var rest := msgs[1..];
      var c' := c.(messages := c.messages + [a]);
      assert WithLiveMessages(prev, msgs, currentUserId) == WithLiveMessages(Some(c'), rest, currentUserId) by {
        LiveMessageStep(c, msgs[0], currentUserId);
      }
      assert WithLiveMessages(Some(c'), rest, currentUserId)
          == Some(c'.(messages := c'.messages + AnnotateHistory(rest, currentUserId, c.name))) by {
        LiveMessagesAppend(Some(c'), rest, currentUserId);
      }
      assert AnnotateHistory(msgs, currentUserId, c.name) == [a] + AnnotateHistory(rest, currentUserId, c.name) by {
        assert msgs == [msgs[0]] + rest;
        AnnotateHistoryCons(msgs[0], rest, currentUserId, c.name);
      }
      assert c'.messages + AnnotateHistory(rest, currentUserId, c.name)
          == c.messages + AnnotateHistory(msgs, currentUserId, c.name);
    } else {
      LiveMessagesAppend(None, msgs[1..], currentUserId);
    }
  }

  /**
   * A history load followed by live inserts shows the same thread as a history
   * that already held those messages, provided the selected contact did not change.
   */
  lemma HistoryThenLive(prev: Option<Client>, history: seq<Message>, live: seq<Message>, currentUserId: string)
    ensures WithLiveMessages(WithHistory(prev, history, currentUserId), live, currentUserId)
         == WithHistory(prev, history + live, currentUserId)
  {
    var loaded := WithHistory(prev, history, currentUserId);
    LiveMessagesAppend(loaded, live, currentUserId);
    if prev.Some? {
      AnnotateHistoryConcat(history, live, currentUserId, prev.value.name);
    }
  }

  /** The preview columns of a message. */
  function PreviewOf(msg: Message): (p: Preview)
  {
    Preview(msg.id, msg.context, msg.sender_id, msg.timestamp)
  }

  /**
   * The contact-list update on a live insert: the contacts whose id is
   * `selectedId` (the id selected when the subscription was opened) get the
   * message as their preview; every other contact and the order stay as they were.
   */
  function PatchPreview(clients: seq<Client>, selectedId: string, msg: Message): (r: seq<Client>)
    ensures |r| == |clients| && Ids(r) == Ids(clients)
    ensures forall i :: 0 <= i < |r| && clients[i].id != selectedId ==> r[i] == clients[i]
    ensures forall i :: 0 <= i < |r| && clients[i].id == selectedId ==>
      r[i].lastMessagePreview == Some(Preview(msg.id, msg.context, msg.sender_id, msg.timestamp))
      && r[i] == clients[i].(lastMessagePreview := r[i].lastMessagePreview)
  {
    seq(|clients|, i requires 0 <= i < |clients| =>
      if clients[i].id == selectedId then clients[i].(lastMessagePreview := Some(PreviewOf(msg))) else clients[i])
  }

  /** Delivering the same message twice patches the list once. */
  lemma PatchPreviewIdempotent(clients: seq<Client>, selectedId: string, msg: Message)
    ensures PatchPreview(PatchPreview(clients, selectedId, msg), selectedId, msg) == PatchPreview(clients, selectedId, msg)
  {
  }

  /** Patches for two different contacts do not interfere. */
  lemma PatchPreviewCommutes(clients: seq<Client>, a: string, ma: Message, b: string, mb: Message)
    requires a != b
    ensures PatchPreview(PatchPreview(clients, a, ma), b, mb) == PatchPreview(PatchPreview(clients, b, mb), a, ma)
  {
  }

  /** After a sequence of patches, a contact's preview is the last message patched for its id. */
  function PatchAll(clients: seq<Client>, selectedId: string, msgs: seq<Message>): seq<Client>
    decreases msgs
  {
    if msgs == [] then clients else PatchAll(PatchPreview(clients, selectedId, msgs[0]), selectedId, msgs[1..])
  }

  lemma {:induction false} PatchAllKeepsLast(clients: seq<Client>, selectedId: string, msgs: seq<Message>)
    requires msgs != []
    ensures PatchAll(clients, selectedId, msgs) == PatchPreview(clients, selectedId, msgs[|msgs| - 1])
    decreases msgs
  {
    if |msgs| > 1 {
      PatchAllKeepsLast(PatchPreview(clients, selectedId, msgs[0]), selectedId, msgs[1..]);
      var once := PatchPreview(clients, selectedId, msgs[0]);
      var last := msgs[|msgs| - 1];
      assert PatchPreview(once, selectedId, last) == PatchPreview(clients, selectedId, last);
    }
  }
}
