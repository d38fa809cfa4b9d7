/**
 * The client-side chat store: the chats by id, the active chat, the models
 * picked for a new chat, the debate flag and the models shown as typing.
 * Every action replaces some of these fields; `SendMessage` runs the
 * whole exchange of one user message, with the reply of the chat endpoint
 * given as data and fresh ids and the current time supplied by the caller.
 */
module ChatStore {
  import opened Wrappers
  import opened Strings
  import opened Types
  import opened Seqs
  import Orchestrator

  // ---------------------------------------------------------------------
  // The list rules shared by the selection and the typing list

  /** `list.includes(id) ? list : [...list, id]`. */
  function WithAdded(list: seq<string>, id: string): (r: seq<string>)
    ensures id in r
    ensures forall x :: x in r <==> x in list || x == id
    ensures id in list ==> r == list
    ensures id !in list ==> r == list + [id]
  {
    if id in list then list else list + [id]
  }

  /** `list.filter(x => x !== id)`. */
  function Without(list: seq<string>, id: string): (r: seq<string>)
    ensures forall x :: x in r <==> x in list && x != id
    ensures |r| <= |list|
    decreases |list|
  {
    if |list| == 0 then []
    else (if list[0] == id then [] else [list[0]]) + Without(list[1..], id)
  }

  /** Adding never introduces a duplicate. */
  lemma WithAddedKeepsDistinct(list: seq<string>, id: string)
    requires Distinct(list)
    ensures Distinct(WithAdded(list, id))
  {
  }

  /** Adding twice is adding once. */
  lemma WithAddedIdempotent(list: seq<string>, id: string)
    ensures WithAdded(WithAdded(list, id), id) == WithAdded(list, id)
  {
  }

  /** Removing keeps the remaining ids in their relative order. */
  lemma {:induction false} WithoutIsSubsequence(list: seq<string>, id: string)
    ensures IsSubsequence(Without(list, id), list)
    decreases |list|
  {
    if |list| > 0 {
      WithoutIsSubsequence(list[1..], id);
      var r := Without(list, id);
      if list[0] != id {
        assert r[0] == list[0] && r[1..] == Without(list[1..], id);
      } else {
        assert r == Without(list[1..], id);
      }
    }
  }

  /** The list without an id it does not hold is the list itself. */
  lemma {:induction false} WithoutAbsent(list: seq<string>, id: string)
    requires id !in list
    ensures Without(list, id) == list
    decreases |list|
  {
    if |list| > 0 {
      WithoutAbsent(list[1..], id);
      assert list == [list[0]] + list[1..];
    }
  }

  /** Filtering distributes over concatenation. */
  lemma {:induction false} WithoutAppend(a: seq<string>, b: seq<string>, id: string)
    ensures Without(a + b, id) == Without(a, id) + Without(b, id)
    decreases |a|
  {
    if |a| > 0 {
      var head := if a[0] == id then [] else [a[0]];
      assert (a + b)[0] == a[0] && (a + b)[1..] == a[1..] + b;
      assert Without(a + b, id) == head + Without(a[1..] + b, id);
      WithoutAppend(a[1..], b, id);
      assert Without(a, id) == head + Without(a[1..], id);
      assert head + (Without(a[1..], id) + Without(b, id)) == (head + Without(a[1..], id)) + Without(b, id);
    } else {
      assert a + b == b;
    }
  }

  /** Removing an id just added to a list that lacked it gives the list back. */
  lemma WithoutUndoesWithAdded(list: seq<string>, id: string)
    requires id !in list
    ensures Without(WithAdded(list, id), id) == list
  {
    WithoutAppend(list, [id], id);
    WithoutAbsent(list, id);
  }

  /** Removing keeps a duplicate-free list duplicate-free. */
  lemma {:induction false} WithoutKeepsDistinct(list: seq<string>, id: string)
    requires Distinct(list)
    ensures Distinct(Without(list, id))
    decreases |list|
  {
    if |list| > 0 {
      WithoutKeepsDistinct(list[1..], id);
      assert list[0] !in list[1..];
    }
  }

  /** The typing list after each of `ids` has been removed in turn. */
  function WithoutAll(list: seq<string>, ids: seq<string>): seq<string>
    decreases |ids|
  {
    if |ids| == 0 then list else Without(WithoutAll(list, ids[..|ids| - 1]), ids[|ids| - 1])
  }

  /** After removing every id of `ids`, exactly the other ids of the list remain. */
  lemma {:induction false} WithoutAllMembers(list: seq<string>, ids: seq<string>)
    ensures forall x :: x in WithoutAll(list, ids) <==> x in list && x !in ids
    decreases |ids|
  {
    if |ids| > 0 {
      var init := ids[..|ids| - 1];
      WithoutAllMembers(list, init);
      assert forall x :: x in ids <==> x in init || x == ids[|ids| - 1];
    }
  }

  // ---------------------------------------------------------------------
  // Chats and requests

  /** The chats after appending `message` to the chat `chatId`, if there is one. */
  function AppendMessage(chats: map<string, Chat>, chatId: string, message: Message, now: Timestamp): (r: map<string, Chat>)
    ensures r.Keys == chats.Keys
    ensures forall k :: k in chats && k != chatId ==> r[k] == chats[k]
    ensures chatId in chats ==>
      && r[chatId].messages == chats[chatId].messages + [message]
      && r[chatId].id == chats[chatId].id
      && r[chatId].modelIds == chats[chatId].modelIds
      && r[chatId].createdAt == chats[chatId].createdAt
      && r[chatId].updatedAt == now
    ensures chatId !in chats ==> r == chats
  {
    if chatId in chats then
      var chat := chats[chatId];
      chats[chatId := chat.(messages := chat.messages + [message], updatedAt := now)]
    else chats
  }

  /** One history entry of the request body: role, content and model id of a turn. */
  datatype HistoryEntry = HistoryEntry(role: Role, content: string, modelId: Option<string>)

  /** The body posted to the chat endpoint. */
  datatype ChatRequest = ChatRequest(
    chatId: string,
    message: string,
    modelIds: seq<string>,
    debateMode: bool,
    conversationHistory: seq<HistoryEntry>)

  function HistoryOf(messages: seq<Message>): (r: seq<HistoryEntry>)
    ensures |r| == |messages|
    ensures forall i :: 0 <= i < |messages| ==>
      r[i].role == messages[i].role && r[i].content == messages[i].content && r[i].modelId == messages[i].modelId
  {
    seq(|messages|, i requires 0 <= i < |messages| => HistoryEntry(messages[i].role, messages[i].content, messages[i].modelId))
  }

  /** What the endpoint answered. */
  datatype FetchOutcome =
    | Delivered(responses: seq<Orchestrator.ModelResponse>)
      /** A non-OK status, with the `error` field of its body if there was one. */
    | Rejected(errorField: Option<string>)
      /** The request or the decoding of its answer threw. */
    | Broken(thrown: Thrown)

  /** `error.error || "Failed to get AI response"`: an absent or empty field falls back. */
  function RejectionText(errorField: Option<string>): string
  {
    if errorField.Some? && errorField.value != "" then errorField.value else "Failed to get AI response"
  }

  /** The text of the error turn appended when the exchange fails. */
  function FailureContent(outcome: FetchOutcome): string
    requires !outcome.Delivered?
  {
    "Error: " + (match outcome
      case Rejected(field) => RejectionText(field)
      case Broken(t) => if t.ErrorValue? then t.message else "Failed to get response")
  }

  /** `chat.modelIds[0]`, which is undefined for a chat without models. */
  function FirstModel(modelIds: seq<string>): Option<string>
  {
    if |modelIds| > 0 then Some(modelIds[0]) else None
  }

  function UserTurn(id: string, content: string, now: Timestamp): (m: Message)
    ensures m.role == User && m.content == content
    ensures m.isEveryoneMention == Some(Orchestrator.IsEveryoneMention(content))
  {
    Message(id, User, content, None, now, Some(Orchestrator.IsEveryoneMention(content)), None, None)
  }

  function AssistantTurn(id: string, content: string, modelId: Option<string>, now: Timestamp): Message
  {
    Message(id, Assistant, content, modelId, now, None, None, None)
  }

  /** The assistant turns appended for the delivered responses, in response order; reply i gets the id `mint(i + 1)`. */
  function ReplyTurns(responses: seq<Orchestrator.ModelResponse>, mint: nat -> string, now: Timestamp): (r: seq<Message>)
    ensures |r| == |responses|
    ensures forall i :: 0 <= i < |responses| ==>
      r[i].role == Assistant && r[i].content == responses[i].content && r[i].modelId == Some(responses[i].modelId)
  {
    seq(|responses|, i requires 0 <= i < |responses| =>
      AssistantTurn(mint(i + 1), responses[i].content, Some(responses[i].modelId), now))
  }

  lemma ReplyTurnsSnoc(responses: seq<Orchestrator.ModelResponse>, i: nat, mint: nat -> string, now: Timestamp)
    requires i < |responses|
    ensures ReplyTurns(responses[..i + 1], mint, now)
      == ReplyTurns(responses[..i], mint, now) + [AssistantTurn(mint(i + 1), responses[i].content, Some(responses[i].modelId), now)]
  {
  }

  /** Clearing the typing marks of one more response removes that response's model. */
  lemma TypingAfterOneMore(list: seq<string>, responses: seq<Orchestrator.ModelResponse>, i: nat)
    requires i < |responses|
    ensures WithoutAll(list, ModelIdsOf(responses[..i + 1]))
      == Without(WithoutAll(list, ModelIdsOf(responses[..i])), responses[i].modelId)
  {
    assert ModelIdsOf(responses[..i + 1])[..i] == ModelIdsOf(responses[..i]);
  }

  function ModelIdsOf(responses: seq<Orchestrator.ModelResponse>): (r: seq<string>)
    ensures |r| == |responses| && forall i :: 0 <= i < |responses| ==> r[i] == responses[i].modelId
  {
    seq(|responses|, i requires 0 <= i < |responses| => responses[i].modelId)
  }

  // ---------------------------------------------------------------------
  // The store

  class ChatStore {
    var chats: map<string, Chat>
    var activeChatId: Option<string>
    var selectedModels: seq<string>
    var debateMode: bool
    var typingModels: seq<string>

    /** The selection has no duplicate, and every chat is filed under its own id. */
    ghost predicate Valid()
      reads this
    {
      && Distinct(selectedModels)
      && forall k :: k in chats ==> chats[k].id == k
    }

    constructor()
      ensures Valid()
      ensures chats == map[] && activeChatId == None && selectedModels == []
      ensures !debateMode && typingModels == []
    {
      chats := map[];
      activeChatId := None;
      selectedModels := [];
      debateMode := false;
      typingModels := [];
    }

    /** Files a new empty chat over `modelIds` under the fresh id `id` and makes it the active chat. */
    method CreateChat(modelIds: seq<string>, id: string, now: Timestamp) returns (chatId: string)
      requires Valid()
      modifies this
      ensures Valid()
      ensures chatId == id
      ensures chats == old(chats)[id := Chat(id, modelIds, [], now, now)]
      ensures forall k :: k in old(chats) && k != id ==> k in chats && chats[k] == old(chats)[k]
      ensures activeChatId == Some(id)
      ensures selectedModels == old(selectedModels) && debateMode == old(debateMode)
      ensures typingModels == old(typingModels)
    {
      chats := chats[id := Chat(id, modelIds, [], now, now)];
      activeChatId := Some(id);
      chatId := id;
    }

    method SetActiveChatId(id: Option<string>)
      modifies this
      ensures activeChatId == id
      ensures chats == old(chats) && selectedModels == old(selectedModels)
      ensures debateMode == old(debateMode) && typingModels == old(typingModels)
    {
      activeChatId := id;
    }

    /** Appends `modelId` to the selection unless it is already there. */
    method AddSelectedModel(modelId: string)
      requires Valid()
      modifies this
      ensures Valid()
      ensures selectedModels == WithAdded(old(selectedModels), modelId)
      ensures chats == old(chats) && activeChatId == old(activeChatId)
      ensures debateMode == old(debateMode) && typingModels == old(typingModels)
    {
      WithAddedKeepsDistinct(selectedModels, modelId);
      selectedModels := if modelId in selectedModels then selectedModels else selectedModels + [modelId];
    }

    /** Drops every occurrence of `modelId` from the selection. */
    method RemoveSelectedModel(modelId: string)
      requires Valid()
      modifies this
      ensures Valid()
      ensures selectedModels == Without(old(selectedModels), modelId)
      ensures chats == old(chats) && activeChatId == old(activeChatId)
      ensures debateMode == old(debateMode) && typingModels == old(typingModels)
    {
      WithoutKeepsDistinct(selectedModels, modelId);
      selectedModels := Without(selectedModels, modelId);
    }

    method ClearSelectedModels()
      requires Valid()
      modifies this
      ensures Valid()
      ensures selectedModels == []
      ensures chats == old(chats) && activeChatId == old(activeChatId)
      ensures debateMode == old(debateMode) && typingModels == old(typingModels)
    {
      selectedModels := [];
    }

    method ToggleDebateMode()
      requires Valid()
      modifies this
      ensures Valid()
      ensures debateMode == !old(debateMode)
      ensures chats == old(chats) && activeChatId == old(activeChatId)
      ensures selectedModels == old(selectedModels) && typingModels == old(typingModels)
    {
      debateMode := !debateMode;
    }

    method SetDebateMode(enabled: bool)
      requires Valid()
      modifies this
      ensures Valid()
      ensures debateMode == enabled
      ensures chats == old(chats) && activeChatId == old(activeChatId)
      ensures selectedModels == old(selectedModels) && typingModels == old(typingModels)
    {
      debateMode := enabled;
    }

    /** Toggling twice leaves the whole store as it was. */
    method ToggleTwice()
      requires Valid()
      modifies this
      ensures Valid()
      ensures debateMode == old(debateMode)
      ensures chats == old(chats) && activeChatId == old(activeChatId)
      ensures selectedModels == old(selectedModels) && typingModels == old(typingModels)
    {
      ToggleDebateMode();
      ToggleDebateMode();
    }

    /** Appends `message` to the chat `chatId` and stamps it; an unknown chat leaves the store as it is. */
    method AddMessage(chatId: string, message: Message, now: Timestamp)
      requires Valid()
      modifies this
      ensures Valid()
      ensures chats == AppendMessage(old(chats), chatId, message, now)
      ensures activeChatId == old(activeChatId) && selectedModels == old(selectedModels)
      ensures debateMode == old(debateMode) && typingModels == old(typingModels)
    {
      if chatId in chats {
        var chat := chats[chatId];
        chats := chats[chatId := chat.(messages := chat.messages + [message], updatedAt := now)];
      }
    }

    method SetTypingModels(modelIds: seq<string>)
      requires Valid()
      modifies this
      ensures Valid()
      ensures typingModels == modelIds
      ensures chats == old(chats) && activeChatId == old(activeChatId)
      ensures selectedModels == old(selectedModels) && debateMode == old(debateMode)
    {
      typingModels := modelIds;
    }

    method AddTypingModel(modelId: string)
      requires Valid()
      modifies this
      ensures Valid()
      ensures typingModels == WithAdded(old(typingModels), modelId)
      ensures chats == old(chats) && activeChatId == old(activeChatId)
      ensures selectedModels == old(selectedModels) && debateMode == old(debateMode)
    {
      typingModels := if modelId in typingModels then typingModels else typingModels + [modelId];
    }

    method RemoveTypingModel(modelId: string)
      requires Valid()
      modifies this
      ensures Valid()
      ensures typingModels == Without(old(typingModels), modelId)
      ensures chats == old(chats) && activeChatId == old(activeChatId)
      ensures selectedModels == old(selectedModels) && debateMode == old(debateMode)
    {
      typingModels := Without(typingModels, modelId);
    }

    /** Each delivered response, in order, clears its model's typing mark and is appended as an assistant turn. */
    method DeliverResponses(chatId: string, responses: seq<Orchestrator.ModelResponse>, mint: nat -> string, now: Timestamp)
      requires Valid() && chatId in chats
      modifies this
      ensures Valid()
      ensures activeChatId == old(activeChatId) && selectedModels == old(selectedModels)
      ensures debateMode == old(debateMode)
      ensures chats.Keys == old(chats).Keys
      ensures forall k :: k in old(chats) && k != chatId ==> chats[k] == old(chats)[k]
      ensures chats[chatId].id == old(chats)[chatId].id && chats[chatId].modelIds == old(chats)[chatId].modelIds
      ensures chats[chatId].messages == old(chats)[chatId].messages + ReplyTurns(responses, mint, now)
      ensures chats[chatId].createdAt == old(chats)[chatId].createdAt
      ensures chats[chatId].updatedAt == if |responses| == 0 then old(chats)[chatId].updatedAt else now
      ensures typingModels == WithoutAll(old(typingModels), ModelIdsOf(responses))
    {
      var i := 0;
      while i < |responses|
        invariant 0 <= i <= |responses|
        invariant Valid()
        invariant activeChatId == old(activeChatId) && selectedModels == old(selectedModels)
        invariant debateMode == old(debateMode)
        invariant chats.Keys == old(chats).Keys
        invariant forall k :: k in old(chats) && k != chatId ==> chats[k] == old(chats)[k]
        invariant chats[chatId].id == old(chats)[chatId].id && chats[chatId].modelIds == old(chats)[chatId].modelIds
        invariant chats[chatId].messages == old(chats)[chatId].messages + ReplyTurns(responses[..i], mint, now)
        invariant chats[chatId].createdAt == old(chats)[chatId].createdAt
        invariant chats[chatId].updatedAt == if i == 0 then old(chats)[chatId].updatedAt else now
        invariant typingModels == WithoutAll(old(typingModels), ModelIdsOf(responses[..i]))
      {
        ReplyTurnsSnoc(responses, i, mint, now);
        TypingAfterOneMore(old(typingModels), responses, i);
        RemoveTypingModel(responses[i].modelId);
        AddMessage(chatId, AssistantTurn(mint(i + 1), responses[i].content, Some(responses[i].modelId), now), now);
        i := i + 1;
      }
      assert responses[..i] == responses;
    }

    /**
     * Sends `content` in the chat `chatId`. The user turn is appended first
     * and the responders are marked as typing; the request carries the
     * history as it was before the user turn. Each delivered response then
     * clears its model's typing mark and is appended as an assistant turn;
     * a failure clears all typing marks and appends one error turn
     * attributed to the chat's first model. The k-th id drawn is `mint(k)`.
     * Nothing happens for an unknown chat.
     */
    method SendMessage(chatId: string, content: string, mint: nat -> string, now: Timestamp, outcome: FetchOutcome)
      returns (request: Option<ChatRequest>)
      requires Valid()
      modifies this
      ensures Valid()
      ensures activeChatId == old(activeChatId) && selectedModels == old(selectedModels)
      ensures debateMode == old(debateMode)
      ensures chats.Keys == old(chats).Keys
      ensures forall k :: k in old(chats) && k != chatId ==> chats[k] == old(chats)[k]
      ensures chatId !in old(chats) ==> request == None && chats == old(chats) && typingModels == old(typingModels)
      ensures chatId in old(chats) ==>
        var chat := old(chats)[chatId];
        var user := UserTurn(mint(0), content, now);
        && request == Some(ChatRequest(chatId, content, chat.modelIds, old(debateMode), HistoryOf(chat.messages)))
        && chats[chatId].id == chatId && chats[chatId].modelIds == chat.modelIds
        && chats[chatId].createdAt == chat.createdAt && chats[chatId].updatedAt == now
        && (outcome.Delivered? ==>
              && chats[chatId].messages == chat.messages + [user] + ReplyTurns(outcome.responses, mint, now)
              && typingModels == WithoutAll(
                   Orchestrator.Responders(old(debateMode), content, chat.modelIds), ModelIdsOf(outcome.responses)))
        && (!outcome.Delivered? ==>
              && chats[chatId].messages
                   == chat.messages + [user, AssistantTurn(mint(1), FailureContent(outcome), FirstModel(chat.modelIds), now)]
              && typingModels == [])
    {
      if chatId !in chats {
        return None;
      }
      var chat := chats[chatId];
      var userMessage := UserTurn(mint(0), content, now);
      AddMessage(chatId, userMessage, now);
      var responding := Orchestrator.Responders(debateMode, content, chat.modelIds);
      SetTypingModels(responding);
      request := Some(ChatRequest(chatId, content, chat.modelIds, debateMode, HistoryOf(chat.messages)));
      match outcome
      case Delivered(responses) =>
        DeliverResponses(chatId, responses, mint, now);
      case _ =>
        SetTypingModels([]);
        AddMessage(chatId, AssistantTurn(mint(1), FailureContent(outcome), FirstModel(chat.modelIds), now), now);
    }
  }
}
