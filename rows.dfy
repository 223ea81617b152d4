/**
 * The row shapes the chat client reads from the hosted store and the
 * decorated contact it keeps in its view state. Identifiers and timestamps
 * are opaque strings.
 */
module Rows {
  import opened Wrappers

  /** A `clients` row as the store returns it (the password column is not carried). */
  datatype Profile = Profile(id: string, name: string, email: Option<string>, mobile: Option<string>)

  /** A `conversations` row; `user1_id` is the smaller id of the pair. */
  datatype Conversation = Conversation(
    id: string,
    user1_id: string,
    user2_id: string,
    last_message_id: Option<string>,
    updated_at: Option<string>)

  /** A `messages` row. */
  datatype Message = Message(
    id: string,
    conversation_id: string,
    sender_id: string,
    context: string,
    timestamp: string)

  /** The columns of a message shown in the contact list. */
  datatype Preview = Preview(id: string, context: string, sender_id: string, timestamp: string)

  /** A message in the open thread, with its view-only `senderName`. */
  datatype ThreadMessage = ThreadMessage(message: Message, senderName: string)

  /** A contact of the list: a profile, its loaded thread and its last-message preview. */
  datatype Client = Client(
    id: string,
    name: string,
    email: Option<string>,
    mobile: Option<string>,
    messages: seq<ThreadMessage>,
    lastMessagePreview: Option<Preview>)

  /** An error reply of the store, with its PostgREST code. */
  datatype StoreError = StoreError(code: string, message: string)

  /** The profile columns of a contact. */
  function ProfileOf(c: Client): Profile
  {
    Profile(c.id, c.name, c.email, c.mobile)
  }

  /** The ids of a contact list, in list order. */
  function Ids(clients: seq<Client>): (r: seq<string>)
    ensures |r| == |clients|
    ensures forall i :: 0 <= i < |clients| ==> r[i] == clients[i].id
  {
    seq(|clients|, i requires 0 <= i < |clients| => clients[i].id)
  }
}
