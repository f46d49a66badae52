/** The chat dashboard page: the chat list, the current chat and its
    messages, and the model selection, as the page updates them after each
    request to the server. */
module DashboardPage {
  import opened Common

  /** A message as the page shows it. */
  datatype UiMessage = UiMessage(id: string, role: string, content: string, reasoning: Option<string>)

  /** A chat in the list (its messages are loaded separately). */
  datatype ChatItem = ChatItem(id: string, title: string, updatedAt: string)

  /** The model chosen when the models arrive: the first available one, but
      only when none is chosen yet. */
  function DefaultModel(available: seq<string>, selected: string): (m: string)
    ensures selected != "" ==> m == selected
    ensures selected == "" && |available| > 0 ==> m == available[0]
    ensures selected == "" && available == [] ==> m == ""
  {
    if |available| > 0 && selected == "" then available[0] else selected
  }

  /** Running the choice again changes nothing, so the effect settles after
      one run. */
  lemma DefaultModelSettles(available: seq<string>, selected: string)
    ensures DefaultModel(available, DefaultModel(available, selected)) == DefaultModel(available, selected)
  {
  }

  /** `chats.filter(c => c.id !== chatId)`. */
  function RemoveChat(chats: seq<ChatItem>, chatId: string): (r: seq<ChatItem>)
    ensures forall i :: 0 <= i < |r| ==> r[i].id != chatId && r[i] in chats
    ensures forall i :: 0 <= i < |chats| && chats[i].id != chatId ==> chats[i] in r
  {
    Filter(chats, (c: ChatItem) => c.id != chatId)
  }

  /** The remaining chats keep their order. */
  lemma RemoveChatKeepsOrder(chats: seq<ChatItem>, chatId: string)
    ensures IsSubsequence(RemoveChat(chats, chatId), chats)
  {
    FilterIsSubsequence(chats, (c: ChatItem) => c.id != chatId);
  }

  /** `prev.slice(0, -1)`: all but the last message. */
  function DropLast(prev: seq<UiMessage>): (r: seq<UiMessage>)
    ensures prev == [] ==> r == []
    ensures prev != [] ==> r + [prev[|prev| - 1]] == prev
  {
    if prev == [] then [] else prev[..|prev| - 1]
  }

  /** The server's copy of the user's message and the assistant's reply. */
  datatype ServerMessage = ServerMessage(id: string, content: string, reasoning: Option<string>)

  /** How a send ended: the request failed, or the server answered; an ok
      answer carries the chat id and both stored messages. */
  datatype SendOutcome =
    | SendFailed
    | SendReply(ok: bool, chatId: Option<string>, userMessage: ServerMessage, message: ServerMessage)

  /** The body of the send request; `chatId` is None for a new chat. */
  datatype SendRequest = SendRequest(chatId: Option<string>, message: string, model: string)

  /** How a request for a list ended. */
  datatype ListOutcome<T> = ListFailed | ListReply(ok: bool, items: Option<seq<T>>)

  /** How a create or delete request ended. */
  datatype NewChatOutcome = NewChatFailed | NewChatReply(ok: bool, chat: ChatItem)
  datatype Outcome = Failed | Replied(ok: bool)

  /** A string that JavaScript treats as true: present and not empty. */
  predicate Truthy(s: Option<string>)
  {
    s.Some? && s.value != ""
  }

  class Dashboard {
    var chats: seq<ChatItem>
    var currentChatId: Option<string>
    var messages: seq<UiMessage>
    var loading: bool
    var selectedModel: string
    var availableModels: seq<string>

    constructor ()
      ensures chats == [] && currentChatId.None? && messages == [] && !loading
      ensures selectedModel == "" && availableModels == []
    {
      chats, currentChatId, messages, loading := [], None, [], false;
      selectedModel, availableModels := "", [];
    }

    /** The effect that picks a model once the models are known. */
    method ChooseDefaultModel()
      modifies this
      ensures selectedModel == DefaultModel(availableModels, old(selectedModel))
      ensures chats == old(chats) && currentChatId == old(currentChatId) && messages == old(messages)
      ensures loading == old(loading) && availableModels == old(availableModels)
    {
      if |availableModels| > 0 && selectedModel == "" {
        selectedModel := availableModels[0];
      }
    }

    /** Load the model names: an ok reply replaces them (an absent list
        reads as empty), a failed request empties them, and any other reply
        leaves them. */
    method FetchAvailableModels(outcome: ListOutcome<string>)
      modifies this
      ensures outcome.ListReply? && outcome.ok ==>
                availableModels == (if outcome.items.Some? then outcome.items.value else [])
      ensures outcome.ListFailed? ==> availableModels == []
      ensures outcome.ListReply? && !outcome.ok ==> availableModels == old(availableModels)
      ensures chats == old(chats) && currentChatId == old(currentChatId) && messages == old(messages)
      ensures loading == old(loading) && selectedModel == old(selectedModel)
    {
      match outcome {
        case ListFailed =>
          availableModels := [];
        case ListReply(ok, items) =>
          if ok {
            availableModels := if items.Some? then items.value else [];
          }
      }
    }

    /** Load the chat list: only an ok reply replaces it. */
    method FetchChats(outcome: ListOutcome<ChatItem>)
      modifies this
      ensures outcome.ListReply? && outcome.ok ==>
                chats == (if outcome.items.Some? then outcome.items.value else [])
      ensures !(outcome.ListReply? && outcome.ok) ==> chats == old(chats)
      ensures currentChatId == old(currentChatId) && messages == old(messages)
      ensures loading == old(loading) && selectedModel == old(selectedModel)
      ensures availableModels == old(availableModels)
    {
      if outcome.ListReply? && outcome.ok {
        chats := if outcome.items.Some? then outcome.items.value else [];
      }
    }

    /** Select a chat: it becomes current at once, and its messages replace
        the shown ones when they arrive. */
    method HandleSelectChat(chatId: string, outcome: ListOutcome<UiMessage>)
      modifies this
      ensures currentChatId == Some(chatId)
      ensures outcome.ListReply? && outcome.ok ==>
                messages == (if outcome.items.Some? then outcome.items.value else [])
      ensures !(outcome.ListReply? && outcome.ok) ==> messages == old(messages)
      ensures chats == old(chats) && loading == old(loading)
      ensures selectedModel == old(selectedModel) && availableModels == old(availableModels)
    {
      currentChatId := Some(chatId);
      if outcome.ListReply? && outcome.ok {
        messages := if outcome.items.Some? then outcome.items.value else [];
      }
    }

    /** Create a chat with the selected model (`model` is what is sent): the
        new chat goes first in the list, becomes current and starts empty. */
    method HandleNewChat(outcome: NewChatOutcome) returns (model: string)
      modifies this
      ensures model == old(selectedModel)
      ensures outcome.NewChatReply? && outcome.ok ==>
                chats == [outcome.chat] + old(chats) && currentChatId == Some(outcome.chat.id)
                && messages == []
      ensures !(outcome.NewChatReply? && outcome.ok) ==>
                chats == old(chats) && currentChatId == old(currentChatId) && messages == old(messages)
      ensures loading == old(loading) && selectedModel == old(selectedModel)
      ensures availableModels == old(availableModels)
    {
      model := selectedModel;
      if outcome.NewChatReply? && outcome.ok {
        chats := [outcome.chat] + chats;
        currentChatId := Some(outcome.chat.id);
        messages := [];
      }
    }

    /** Delete a chat: on an ok reply it leaves the list, and if it was the
        current chat, nothing is current and no messages are shown. */
    method HandleDeleteChat(chatId: string, outcome: Outcome)
      modifies this
      ensures outcome == Replied(true) ==> chats == RemoveChat(old(chats), chatId)
      ensures outcome == Replied(true) && old(currentChatId) == Some(chatId) ==>
                currentChatId.None? && messages == []
      ensures !(outcome == Replied(true) && old(currentChatId) == Some(chatId)) ==>
                currentChatId == old(currentChatId) && messages == old(messages)
      ensures outcome != Replied(true) ==> chats == old(chats)
      ensures loading == old(loading) && selectedModel == old(selectedModel)
      ensures availableModels == old(availableModels)
    {
      if outcome == Replied(true) {
        chats := RemoveChat(chats, chatId);
        if currentChatId == Some(chatId) {
          currentChatId := None;
          messages := [];
        }
      }
    }

    /** Send a message. The user's message is shown at once under a
        provisional id; after an ok reply it is replaced by the server's
        copy and the assistant's reply follows, so the list has grown by two;
        otherwise the provisional message stays. A chat id from the reply is
        taken only when no chat was current. Loading ends either way.
        `request` is the body sent. */
    method HandleSendMessage(content: string, provisionalId: string, outcome: SendOutcome)
      returns (request: SendRequest)
      modifies this
      ensures request == SendRequest(old(currentChatId), content, old(selectedModel))
      ensures outcome.SendReply? && outcome.ok ==>
                messages == old(messages) + [
                  UiMessage(outcome.userMessage.id, "user", outcome.userMessage.content, None),
                  UiMessage(outcome.message.id, "assistant", outcome.message.content, outcome.message.reasoning)]
                && currentChatId == (if !Truthy(old(currentChatId)) && Truthy(outcome.chatId)
                                     then outcome.chatId else old(currentChatId))
      ensures !(outcome.SendReply? && outcome.ok) ==>
                messages == old(messages) + [UiMessage(provisionalId, "user", content, None)]
                && currentChatId == old(currentChatId)
      ensures !loading
      ensures chats == old(chats) && selectedModel == old(selectedModel)
      ensures availableModels == old(availableModels)
    {
      var provisional := UiMessage(provisionalId, "user", content, None);
      messages := messages + [provisional];
      loading := true;
      request := SendRequest(currentChatId, content, selectedModel);
      if outcome.SendReply? && outcome.ok {
        if !Truthy(currentChatId) && Truthy(outcome.chatId) {
          currentChatId := outcome.chatId;
        }
        var prev := messages;
        assert DropLast(prev) == old(messages);
        messages := DropLast(prev) + [
          UiMessage(outcome.userMessage.id, "user", outcome.userMessage.content, None),
          UiMessage(outcome.message.id, "assistant", outcome.message.content, outcome.message.reasoning)];
      }
      loading := false;
    }
  }
}
