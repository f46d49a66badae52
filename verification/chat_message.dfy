/** `POST /api/chat/message`: find the user's chat or create one, store the
    user's message, ask the model runtime with the whole history, store the
    reply, and give an untitled chat its title. */
module ChatMessageRoute {
  import opened Common

  const DefaultChatModel: string := "llama3.2:3b"
  const TitleLength: nat := 50

  /** A chat title derived from its first message: the first 50 characters,
      followed by `...` exactly when the message is longer. */
  function Title(message: string): (t: string)
    ensures |message| <= TitleLength ==> t == message
    ensures |message| > TitleLength ==> t == message[..TitleLength] + "..."
  {
    Take(message, TitleLength) + (if |message| > TitleLength then "..." else "")
  }

  /** A title never exceeds 53 characters and keeps the start of the
      message. It equals the message when the message fits in 50
      characters, and otherwise only for a 53-character message that
      already ends in `...`. */
  lemma TitleBounds(message: string)
    ensures |Title(message)| <= TitleLength + 3
    ensures StartsWith(Title(message), Take(message, TitleLength))
    ensures Title(message) == message <==>
              |message| <= TitleLength
              || (|message| == TitleLength + 3 && message[TitleLength..] == "...")
  {
    var t := Title(message);
    if |message| > TitleLength {
      assert t[TitleLength..] == "...";
      if |message| == TitleLength + 3 && message[TitleLength..] == "..." {
        assert message == message[..TitleLength] + message[TitleLength..];
      }
    }
  }

  /** A stored chat and a stored message. `updatedAt` is the chat's
      last-activity stamp. */
  datatype ChatRow = ChatRow(userId: string, title: string, model: string, updatedAt: int)
  datatype MessageRow = MessageRow(id: string, chatId: string, role: string, content: string)

  /** One turn sent to the model runtime. */
  datatype Turn = Turn(role: string, content: string)

  /** The prior turns of a chat in order, followed by the new user turn. */
  function History(prior: seq<MessageRow>, message: string): (h: seq<Turn>)
    ensures |h| == |prior| + 1
    ensures forall i :: 0 <= i < |prior| ==> h[i] == Turn(prior[i].role, prior[i].content)
    ensures h[|prior|] == Turn("user", message)
  {
    seq(|prior|, i requires 0 <= i < |prior| => Turn(prior[i].role, prior[i].content)) + [Turn("user", message)]
  }

  /** The messages of one chat, in the order they were stored: exactly the
      stored rows carrying that chat's id. */
  function MessagesOf(messages: seq<MessageRow>, chatId: string): (r: seq<MessageRow>)
    ensures forall i :: 0 <= i < |r| ==> r[i] in messages && r[i].chatId == chatId
    ensures forall i :: 0 <= i < |messages| && messages[i].chatId == chatId ==> messages[i] in r
  {
    Filter(messages, (m: MessageRow) => m.chatId == chatId)
  }

  /** A chat's messages keep the order in which they were stored. */
  lemma MessagesOfInOrder(messages: seq<MessageRow>, chatId: string)
    ensures IsSubsequence(MessagesOf(messages, chatId), messages)
  {
    FilterIsSubsequence(messages, (m: MessageRow) => m.chatId == chatId);
  }

  /** Appending a message to the store appends it to its own chat's list
      and leaves every other chat's list as it was. */
  lemma MessagesOfAppend(messages: seq<MessageRow>, m: MessageRow, chatId: string)
    ensures MessagesOf(messages + [m], chatId)
            == if m.chatId == chatId then MessagesOf(messages, chatId) + [m] else MessagesOf(messages, chatId)
  {
    var keep := (x: MessageRow) => x.chatId == chatId;
    FilterAppend(messages, [m], keep);
    assert [m][1..] == [];
  }

  /** What the model runtime did with the request. */
  datatype Upstream = Unreachable | HttpError(status: nat) | Reply(content: Option<string>)

  /** A JSON request body: `chatId` and `model` may be left out, and
      `message` is None when it is missing or not a string. */
  datatype MessageBody = MessageBody(chatId: Option<string>, message: Option<string>, model: Option<string>)

  /** The database calls of this route, in the order they are made; a fault
      names the one that throws if it is reached. */
  datatype Write = FindChat | CreateChat | StoreUser | StoreAssistant | UpdateTitle | StampChat

  /** The request sent to the model runtime. */
  datatype RuntimeRequest = RuntimeRequest(model: string, messages: seq<Turn>)

  datatype MessageResponse =
    | Failure(status: nat, error: string)
    | Sent(assistant: MessageRow, user: MessageRow, chatId: string)

  /** The answer when anything in the handler throws. */
  const Failed: MessageResponse := Failure(500, "Failed to process message")

  /** The body names an existing chat (a non-empty `chatId`). */
  predicate NamesChat(body: MessageBody)
  {
    body.chatId.Some? && body.chatId.value != ""
  }

  /** The destructuring default `model = 'llama3.2:3b'`: it applies only
      when `model` is left out, so an empty model name is kept as sent. */
  function ModelOf(body: MessageBody): (model: string)
    ensures body.model.None? ==> model == DefaultChatModel
    ensures body.model.Some? ==> model == body.model.value
  {
    if body.model.Some? then body.model.value else DefaultChatModel
  }

  /** The database tables this route touches. */
  class ChatStore {
    var chats: map<string, ChatRow>
    var messages: seq<MessageRow>

    constructor (chats: map<string, ChatRow>, messages: seq<MessageRow>)
      ensures this.chats == chats && this.messages == messages
    {
      this.chats, this.messages := chats, messages;
    }

    /** Handle one message. `session` is the signed-in user's id; `body` is
        None when the request body is not JSON. `newChatId` and the two
        message ids are those the database assigns, so a new chat's id is
        not taken yet. `now` is the clock. `sent` is the request made to the
        model runtime, if any. Every write happens in order and a throwing
        one ends the request with a 500, keeping the writes before it: the
        user's message stays stored when the runtime or a later write
        fails. */
    method PostMessage(session: Option<string>, body: Option<MessageBody>, upstream: Upstream,
                       fault: Option<Write>, newChatId: string, userMessageId: string,
                       assistantMessageId: string, now: int)
      returns (r: MessageResponse, sent: Option<RuntimeRequest>)
      requires newChatId !in chats
      modifies this
      ensures session.None? || session.value == "" ==>
                r == Failure(401, "Unauthorized") && sent.None?
                && chats == old(chats) && messages == old(messages)
      ensures session.Some? && session.value != "" && body.None? ==>
                r == Failed && sent.None? && chats == old(chats) && messages == old(messages)
      // an existing chat: look it up, store the user's message, ask, store the reply
      ensures session.Some? && session.value != "" && body.Some? && NamesChat(body.value)
              && fault == Some(FindChat) ==>
                r == Failed && sent.None? && chats == old(chats) && messages == old(messages)
      ensures session.Some? && session.value != "" && body.Some? && NamesChat(body.value)
              && fault != Some(FindChat)
              && !(body.value.chatId.value in old(chats)
                   && old(chats)[body.value.chatId.value].userId == session.value) ==>
                r == Failure(404, "Chat not found") && sent.None?
                && chats == old(chats) && messages == old(messages)
      ensures session.Some? && session.value != "" && body.Some? && NamesChat(body.value)
              && fault != Some(FindChat)
              && body.value.chatId.value in old(chats)
              && old(chats)[body.value.chatId.value].userId == session.value ==>
                var id := body.value.chatId.value;
                var prior := MessagesOf(old(messages), id);
                if body.value.message.None? || fault == Some(StoreUser) then
                  r == Failed && sent.None? && chats == old(chats) && messages == old(messages)
                else
                  var message := body.value.message.value;
                  var userMsg := MessageRow(userMessageId, id, "user", message);
                  var titled := if prior == [] then old(chats)[id := old(chats)[id].(title := Title(message))]
                                else old(chats);
                  && sent == Some(RuntimeRequest(ModelOf(body.value), History(prior, message)))
                  && (!upstream.Reply? || fault == Some(StoreAssistant) ==>
                        r == Failed && messages == old(messages) + [userMsg] && chats == old(chats))
                  && (upstream.Reply? && fault != Some(StoreAssistant) ==>
                        var asst := MessageRow(assistantMessageId, id, "assistant", AssistantContent(upstream.content));
                        && messages == old(messages) + [userMsg, asst]
                        && (prior == [] && fault == Some(UpdateTitle) ==> r == Failed && chats == old(chats))
                        && (!(prior == [] && fault == Some(UpdateTitle)) && fault == Some(StampChat) ==>
                              r == Failed && chats == titled)
                        && (!(prior == [] && fault == Some(UpdateTitle)) && fault != Some(StampChat) ==>
                              r == Sent(asst, userMsg, id) && chats == titled[id := titled[id].(updatedAt := now)]))
      // a new chat: the title is cut from the message before the chat is created
      ensures session.Some? && session.value != "" && body.Some? && !NamesChat(body.value) ==>
                if body.value.message.None? || fault == Some(CreateChat) then
                  r == Failed && sent.None? && chats == old(chats) && messages == old(messages)
                else
                  var message := body.value.message.value;
                  var created := old(chats)[newChatId := ChatRow(session.value, Title(message), ModelOf(body.value), now)];
                  var userMsg := MessageRow(userMessageId, newChatId, "user", message);
                  if fault == Some(StoreUser) then
                    r == Failed && sent.None? && chats == created && messages == old(messages)
                  else
                    && sent == Some(RuntimeRequest(ModelOf(body.value), [Turn("user", message)]))
                    && (!upstream.Reply? || fault == Some(StoreAssistant) ==>
                          r == Failed && messages == old(messages) + [userMsg] && chats == created)
                    && (upstream.Reply? && fault != Some(StoreAssistant) ==>
                          var asst := MessageRow(assistantMessageId, newChatId, "assistant", AssistantContent(upstream.content));
                          && messages == old(messages) + [userMsg, asst]
                          && chats == created
                          && r == (if fault == Some(UpdateTitle) || fault == Some(StampChat) then Failed
                                   else Sent(asst, userMsg, newChatId)))
    {
      if session.None? || session.value == "" {
        return Failure(401, "Unauthorized"), None;
      }
      if body.None? {
        return Failed, None;
      }
      var b := body.value;
      var model := ModelOf(b);
      var id: string;
      var prior: seq<MessageRow>;
      if NamesChat(b) {
        if fault == Some(FindChat) {
          return Failed, None;
        }
        id := b.chatId.value;
        if !(id in chats && chats[id].userId == session.value) {
          return Failure(404, "Chat not found"), None;
        }
        prior := MessagesOf(messages, id);
        if b.message.None? {
          // the message row cannot be written without its content
          return Failed, None;
        }
      } else {
        if b.message.None? {
          // cutting the title out of a missing message throws
          return Failed, None;
        }
        if fault == Some(CreateChat) {
          return Failed, None;
        }
        id := newChatId;
        chats := chats[id := ChatRow(session.value, Title(b.message.value), model, now)];
        prior := [];
        assert History(prior, b.message.value) == [Turn("user", b.message.value)];
      }
      var message := b.message.value;
      if fault == Some(StoreUser) {
        return Failed, None;
      }
      var userMsg := MessageRow(userMessageId, id, "user", message);
      messages := messages + [userMsg];
      sent := Some(RuntimeRequest(model, History(prior, message)));
      if !upstream.Reply? || fault == Some(StoreAssistant) {
        return Failed, sent;
      }
      var asst := MessageRow(assistantMessageId, id, "assistant", AssistantContent(upstream.content));
      messages := messages + [asst];
      assert [userMsg] + [asst] == [userMsg, asst];
      if prior == [] {
        if fault == Some(UpdateTitle) {
          return Failed, sent;
        }
        chats := chats[id := chats[id].(title := Title(message))];
      }
      if fault == Some(StampChat) {
        return Failed, sent;
      }
      chats := chats[id := chats[id].(updatedAt := now)];
      r := Sent(asst, userMsg, id);
    }
  }

  /** After a successful call, the chat's own message list has grown by
      exactly the user's message followed by the assistant's. */
  lemma ConversationGrowsByTwo(messages: seq<MessageRow>, userMsg: MessageRow, asst: MessageRow, chatId: string)
    requires userMsg.chatId == chatId && asst.chatId == chatId
    ensures MessagesOf(messages + [userMsg, asst], chatId) == MessagesOf(messages, chatId) + [userMsg, asst]
  {
    MessagesOfAppend(messages, userMsg, chatId);
    MessagesOfAppend(messages + [userMsg], asst, chatId);
    assert messages + [userMsg] + [asst] == messages + [userMsg, asst];
  }
}
