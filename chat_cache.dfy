/**
 * The renderer's query cache for chats and the two helpers that keep it in
 * step with the database after a chat is deleted or renamed
 * (src/features/chat/utils.ts).
 *
 * The cache holds one `chats.list` entry (possibly absent) and one
 * `chats.get` entry per chat id. The list updaters are pure functions over
 * the optional cached list; the helpers that apply them change the cache in
 * place and are methods of `ChatQueryCache`.
 */
module ChatCache {
  import opened Common

  /** A row of the `chat` table as the renderer receives it. */
  datatype Chat = Chat(id: string, name: string, createdAt: int)

  /** `a` is obtained from `b` by deleting elements, without reordering. */
  ghost predicate IsSubsequence(a: seq<Chat>, b: seq<Chat>)
    decreases |b|
  {
    if a == [] then true
    else if b == [] then false
    else if a[0] == b[0] then IsSubsequence(a[1..], b[1..])
    else IsSubsequence(a, b[1..])
  }

  // ---------------------------------------------------------------------
  // Remove: `oldChats.filter((chat) => chat.id !== chatId)`
  // ---------------------------------------------------------------------

  /** The cached list without the chats whose id is `chatId`. */
  function WithoutChat(chats: seq<Chat>, chatId: string): (r: seq<Chat>)
    ensures |r| <= |chats|
    ensures forall i :: 0 <= i < |r| ==> r[i].id != chatId
    ensures forall c :: c in r <==> c in chats && c.id != chatId
  {
    if chats == [] then []
    else if chats[0].id != chatId then [chats[0]] + WithoutChat(chats[1..], chatId)
    else WithoutChat(chats[1..], chatId)
  }

  /** Every survivor keeps its relative order: the result is a subsequence of the input. */
  lemma {:induction false} WithoutChatIsSubsequence(chats: seq<Chat>, chatId: string)
    ensures IsSubsequence(WithoutChat(chats, chatId), chats)
  {
    if chats != [] {
      WithoutChatIsSubsequence(chats[1..], chatId);
      var rest := WithoutChat(chats[1..], chatId);
      if chats[0].id != chatId {
        assert WithoutChat(chats, chatId) == [chats[0]] + rest;
        assert ([chats[0]] + rest)[1..] == rest;
      } else {
        // rest holds no chat of this id, so its head cannot be chats[0]
        assert rest == [] || rest[0] != chats[0];
      }
    }
  }

  /** Each chat with a different id is kept as often as it occurs; chats with `chatId` never. */
  lemma {:induction false} WithoutChatCounts(chats: seq<Chat>, chatId: string, c: Chat)
    ensures multiset(WithoutChat(chats, chatId))[c] ==
            if c.id == chatId then 0 else multiset(chats)[c]
  {
    if chats != [] {
      WithoutChatCounts(chats[1..], chatId, c);
      assert chats == [chats[0]] + chats[1..];
    }
  }

  /** Removing distributes over concatenation: the order of survivors is that of the input. */
  lemma {:induction false} WithoutChatAppend(a: seq<Chat>, b: seq<Chat>, chatId: string)
    ensures WithoutChat(a + b, chatId) == WithoutChat(a, chatId) + WithoutChat(b, chatId)
  {
    if a != [] {
      assert (a + b)[1..] == a[1..] + b;
      WithoutChatAppend(a[1..], b, chatId);
    } else {
      assert a + b == b;
    }
  }

  /** A list without any chat `chatId` is left as it is. */
  lemma {:induction false} WithoutChatNoMatch(chats: seq<Chat>, chatId: string)
    requires forall i :: 0 <= i < |chats| ==> chats[i].id != chatId
    ensures WithoutChat(chats, chatId) == chats
  {
    if chats != [] {
      WithoutChatNoMatch(chats[1..], chatId);
    }
  }

  /** Removing the same id twice is the same as removing it once. */
  lemma WithoutChatIdempotent(chats: seq<Chat>, chatId: string)
    ensures WithoutChat(WithoutChat(chats, chatId), chatId) == WithoutChat(chats, chatId)
  {
    WithoutChatNoMatch(WithoutChat(chats, chatId), chatId);
  }

  /** The updater passed to `setQueryData` for the chat list on removal. */
  function RemoveListUpdater(oldChats: Option<seq<Chat>>, chatId: string): (r: Option<seq<Chat>>)
    ensures r.None? <==> oldChats.None?
    ensures r.Some? ==> forall c :: c in r.value <==> c in oldChats.value && c.id != chatId
  {
    match oldChats
    case None => None
    case Some(chats) => Some(WithoutChat(chats, chatId))
  }

  /** Applying the removal updater twice is the same as applying it once. */
  lemma RemoveListUpdaterIdempotent(oldChats: Option<seq<Chat>>, chatId: string)
    ensures RemoveListUpdater(RemoveListUpdater(oldChats, chatId), chatId) == RemoveListUpdater(oldChats, chatId)
  {
    if oldChats.Some? {
      WithoutChatIdempotent(oldChats.value, chatId);
    }
  }

  // ---------------------------------------------------------------------
  // Update: `oldChats.map((chat) => chat.id === updatedChat.id ? updatedChat : chat)`
  // ---------------------------------------------------------------------

  /** The cached list with every chat of `updated.id` replaced by `updated`. */
  function ReplaceChat(chats: seq<Chat>, updated: Chat): (r: seq<Chat>)
    ensures |r| == |chats|
    ensures forall i :: 0 <= i < |r| ==> r[i].id == chats[i].id
    ensures forall i :: 0 <= i < |r| && chats[i].id == updated.id ==> r[i] == updated
    ensures forall i :: 0 <= i < |r| && chats[i].id != updated.id ==> r[i] == chats[i]
  {
    if chats == [] then []
    else [if chats[0].id == updated.id then updated else chats[0]] + ReplaceChat(chats[1..], updated)
  }

  /** With no cached chat of that id, the list is returned unchanged. */
  lemma ReplaceChatNoMatch(chats: seq<Chat>, updated: Chat)
    requires forall i :: 0 <= i < |chats| ==> chats[i].id != updated.id
    ensures ReplaceChat(chats, updated) == chats
  {
  }

  /** Replacing with the same chat twice is the same as replacing once. */
  lemma ReplaceChatIdempotent(chats: seq<Chat>, updated: Chat)
    ensures ReplaceChat(ReplaceChat(chats, updated), updated) == ReplaceChat(chats, updated)
  {
  }

  /** `updated` appears in the result exactly when some cached chat had its id. */
  lemma ReplaceChatPresent(chats: seq<Chat>, updated: Chat)
    ensures updated in ReplaceChat(chats, updated) <==>
            (exists i :: 0 <= i < |chats| && chats[i].id == updated.id)
  {
    var r := ReplaceChat(chats, updated);
    if updated in r {
      var i :| 0 <= i < |r| && r[i] == updated;
      assert chats[i].id == updated.id;
    }
  }

  /** A rename followed by a delete of the same chat leaves what the delete alone leaves. */
  lemma {:induction false} RemoveAfterReplace(chats: seq<Chat>, updated: Chat)
    ensures WithoutChat(ReplaceChat(chats, updated), updated.id) == WithoutChat(chats, updated.id)
  {
    if chats != [] {
      RemoveAfterReplace(chats[1..], updated);
      assert ReplaceChat(chats, updated)[1..] == ReplaceChat(chats[1..], updated);
    }
  }

  /** The updater passed to `setQueryData` for the chat list on rename. */
  function UpdateListUpdater(oldChats: Option<seq<Chat>>, updated: Chat): (r: Option<seq<Chat>>)
    ensures r.None? <==> oldChats.None?
    ensures r.Some? ==> |r.value| == |oldChats.value|
    ensures r.Some? ==> forall i :: 0 <= i < |r.value| ==>
              r.value[i] == if oldChats.value[i].id == updated.id then updated else oldChats.value[i]
    ensures r.Some? && (forall i :: 0 <= i < |oldChats.value| ==> oldChats.value[i].id != updated.id)
            ==> r == oldChats
  {
    match oldChats
    case None => None
    case Some(chats) =>
      assert (forall i :: 0 <= i < |chats| ==> chats[i].id != updated.id) ==> ReplaceChat(chats, updated) == chats by {
        if forall i :: 0 <= i < |chats| ==> chats[i].id != updated.id {
          ReplaceChatNoMatch(chats, updated);
        }
      }
      Some(ReplaceChat(chats, updated))
  }

  // ---------------------------------------------------------------------
  // The query cache itself
  // ---------------------------------------------------------------------

  /** The two kinds of chat entries in the renderer's query client. */
  class ChatQueryCache {
    /** The `chats.list` entry; `None` when it has never been fetched. */
    var chatList: Option<seq<Chat>>
    /** The `chats.get` entries, keyed by chat id. */
    var chatById: map<string, Chat>

    constructor ()
      ensures chatList == None && chatById == map[]
    {
      chatList := None;
      chatById := map[];
    }

    /** `removeChatFromQueryCache`: drop the chat's own entry, then filter it out of the list. */
    method RemoveChat(chatId: string)
      modifies this
      ensures chatById == old(chatById) - {chatId}
      ensures chatList == RemoveListUpdater(old(chatList), chatId)
      ensures chatList.Some? ==> forall i :: 0 <= i < |chatList.value| ==> chatList.value[i].id != chatId
    {
      chatById := chatById - {chatId};
      chatList := RemoveListUpdater(chatList, chatId);
    }

    /** `updateChatInQueryCache`: store the chat's own entry, then replace it in the list. */
    method UpdateChat(updated: Chat)
      modifies this
      ensures chatById == old(chatById)[updated.id := updated]
      ensures chatList == UpdateListUpdater(old(chatList), updated)
    {
      chatById := chatById[updated.id := updated];
      chatList := UpdateListUpdater(chatList, updated);
    }
  }
}
