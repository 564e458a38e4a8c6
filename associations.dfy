/**
 * The chat-to-categories index, kept under the storage key
 * "PinGPTChat-chat-categories": an object from chat id to the list of
 * category ids the chat is filed under. A key is removed rather than left
 * with an empty list.
 */
module Associations {
  import opened Sequences
  import opened Pins

  /** Chat id to the category ids it is filed under, in the order they were added. */
  type ChatCategories = map<string, seq<string>>

  /** The categories of `chatId`; none when the key is absent. */
  function CategoriesOf(m: ChatCategories, chatId: string): seq<string>
  {
    if chatId in m then m[chatId] else []
  }

  /** The index shape the operations keep: no empty list, no category twice in a list. */
  ghost predicate WellFormed(m: ChatCategories)
  {
    forall k :: k in m ==> m[k] != [] && Distinct(m[k])
  }

  /**
   * `addChatToCategory`: create the key with an empty list when absent, then
   * push `catId` unless the list already holds it.
   */
  function Add(m: ChatCategories, chatId: string, catId: string): (r: ChatCategories)
    ensures chatId in r && catId in r[chatId]
    ensures r.Keys == m.Keys + {chatId}
    ensures forall k :: k in m && k != chatId ==> r[k] == m[k]
    ensures CategoriesOf(m, chatId) <= r[chatId]
    ensures |r[chatId]| <= |CategoriesOf(m, chatId)| + 1
    ensures catId in CategoriesOf(m, chatId) ==> r == m
  {
    var list := if chatId in m then m[chatId] else [];
    m[chatId := if catId in list then list else list + [catId]]
  }

  /** The filter test that drops `catId` from a chat's list. */
  function IsNot(catId: string): string -> bool
  {
    (x: string) => x != catId
  }

  /** `list` without any occurrence of `catId`, the rest in order. */
  function Without(list: seq<string>, catId: string): (r: seq<string>)
    ensures forall x :: x in r <==> x in list && x != catId
    ensures r == [] <==> forall x :: x in list ==> x == catId
    ensures forall x :: multiset(r)[x] == if x != catId then multiset(list)[x] else 0
    ensures IsSubsequence(r, list)
  {
    FilterIsSubsequence(list, IsNot(catId));
    assert forall x :: multiset(Filter(list, IsNot(catId)))[x] == if x != catId then multiset(list)[x] else 0 by {
      forall x {
        FilterCount(list, IsNot(catId), x);
      }
    }
    var r := Filter(list, IsNot(catId));
    assert r != [] ==> r[0] in r;
    r
  }

  /**
   * `removeChatFromCategory`: when the key is present, drop `catId` from its
   * list and delete the key if nothing is left; an absent key changes nothing.
   */
  function Remove(m: ChatCategories, chatId: string, catId: string): (r: ChatCategories)
    ensures chatId in r ==> catId !in r[chatId] && r[chatId] != []
    ensures chatId in r ==> chatId in m && IsSubsequence(r[chatId], m[chatId])
    ensures chatId in m ==> (chatId in r <==> exists x :: x in m[chatId] && x != catId)
    ensures chatId in m ==> forall x :: x != catId ==> (x in m[chatId] <==> chatId in r && x in r[chatId])
    ensures r.Keys <= m.Keys && r.Keys - {chatId} == m.Keys - {chatId}
    ensures forall k :: k in m && k != chatId ==> k in r && r[k] == m[k]
    ensures chatId !in m ==> r == m
  {
    if chatId in m then
      var list := Without(m[chatId], catId);
      if |list| == 0 then m - {chatId} else m[chatId := list]
    else m
  }

  /**
   * The cascade of `deleteCategory`: every list loses `catId` and every key
   * left with nothing is deleted.
   */
  function StripCategory(m: ChatCategories, catId: string): (r: ChatCategories)
    ensures forall k :: k in r ==> catId !in r[k] && r[k] != []
    ensures forall k :: k in r ==> k in m && IsSubsequence(r[k], m[k])
    ensures forall k :: k in m ==> (k in r <==> exists x :: x in m[k] && x != catId)
    ensures forall k, x :: k in r && x != catId ==> (x in r[k] <==> x in m[k])
  {
    map k | k in m && Without(m[k], catId) != [] :: Without(m[k], catId)
  }

  /** The ids of the chats filed under `catId`. */
  function ChatIdsIn(m: ChatCategories, catId: string): (ids: set<string>)
    ensures forall k :: k in ids <==> catId in CategoriesOf(m, k)
  {
    set k | k in m && catId in m[k]
  }

  /** The filter test of `getChatsByCategory`: the chat's id is among `ids`. */
  function AmongIds(ids: set<string>): PinnedChat -> bool
  {
    (c: PinnedChat) => c.id in ids
  }

  /**
   * `getChatsByCategory` over `pinned`: the chats, in list order, whose id is
   * filed under `catId`. Index keys with no matching chat contribute nothing.
   */
  function ChatsInCategory(pinned: seq<PinnedChat>, m: ChatCategories, catId: string): (r: seq<PinnedChat>)
    ensures forall c :: c in r <==> c in pinned && catId in CategoriesOf(m, c.id)
    ensures forall c :: multiset(r)[c] == if catId in CategoriesOf(m, c.id) then multiset(pinned)[c] else 0
    ensures IsSubsequence(r, pinned)
  {
    var keep := AmongIds(ChatIdsIn(m, catId));
    FilterIsSubsequence(pinned, keep);
    assert forall c :: multiset(Filter(pinned, keep))[c] == if catId in CategoriesOf(m, c.id) then multiset(pinned)[c] else 0 by {
      forall c {
        FilterCount(pinned, keep, c);
      }
    }
    Filter(pinned, keep)
  }

  /** Adding the same association twice is adding it once. */
  lemma AddIdempotent(m: ChatCategories, chatId: string, catId: string)
    ensures Add(Add(m, chatId, catId), chatId, catId) == Add(m, chatId, catId)
  {
  }

  /** Adding keeps the index well formed: in particular no category id is duplicated. */
  lemma AddKeepsWellFormed(m: ChatCategories, chatId: string, catId: string)
    requires WellFormed(m)
    ensures WellFormed(Add(m, chatId, catId))
  {
    var r := Add(m, chatId, catId);
    var list := CategoriesOf(m, chatId);
    if catId !in list {
      var l := list + [catId];
      assert r[chatId] == l;
      forall i, j | 0 <= i < j < |l| ensures l[i] != l[j] {
        if j == |l| - 1 {
          assert l[i] in list;
        }
      }
    }
  }

  /** Removing keeps the index well formed. */
  lemma RemoveKeepsWellFormed(m: ChatCategories, chatId: string, catId: string)
    requires WellFormed(m)
    ensures WellFormed(Remove(m, chatId, catId))
  {
    if chatId in m {
      FilterDistinct(m[chatId], IsNot(catId));
    }
  }

  /** The cascade keeps a well-formed index well formed. */
  lemma StripCategoryKeepsWellFormed(m: ChatCategories, catId: string)
    requires WellFormed(m)
    ensures WellFormed(StripCategory(m, catId))
  {
    forall k | k in StripCategory(m, catId) ensures Distinct(StripCategory(m, catId)[k]) {
      FilterDistinct(m[k], IsNot(catId));
    }
  }

  /** Removing an association just added restores the index. */
  lemma AddThenRemove(m: ChatCategories, chatId: string, catId: string)
    requires catId !in CategoriesOf(m, chatId)
    requires chatId in m ==> m[chatId] != []
    ensures Remove(Add(m, chatId, catId), chatId, catId) == m
  {
    var list := CategoriesOf(m, chatId);
    FilterConcat(list, [catId], IsNot(catId));
    FilterKeepsAll(list, IsNot(catId));
    assert Without(list + [catId], catId) == list;
  }

  /** After removal the chat is no longer listed under that category. */
  lemma RemovedChatNotListed(pinned: seq<PinnedChat>, m: ChatCategories, chatId: string, catId: string)
    ensures forall c :: c in ChatsInCategory(pinned, Remove(m, chatId, catId), catId) ==> c.id != chatId
  {
  }

  /** After addition every pinned entry of the chat is listed under that category. */
  lemma AddedChatListed(pinned: seq<PinnedChat>, m: ChatCategories, chatId: string, catId: string)
    ensures forall c :: c in pinned && c.id == chatId ==> c in ChatsInCategory(pinned, Add(m, chatId, catId), catId)
  {
  }

  /** After the cascade no chat is listed under the deleted category. */
  lemma StrippedCategoryIsEmpty(pinned: seq<PinnedChat>, m: ChatCategories, catId: string)
    ensures ChatsInCategory(pinned, StripCategory(m, catId), catId) == []
  {
  }

  /**
   * Unpinning leaves the index alone: the association survives, yet the
   * chat is no longer listed under its category because only pinned chats
   * are listed.
   */
  lemma UnpinnedChatNotListed(pinned: seq<PinnedChat>, m: ChatCategories, id: string, catId: string)
    ensures forall c :: c in ChatsInCategory(Unpin(pinned, id), m, catId) ==> c.id != id
    ensures IsSubsequence(ChatsInCategory(Unpin(pinned, id), m, catId), ChatsInCategory(pinned, m, catId))
  {
    FilterCommute(pinned, IdIsNot(id), AmongIds(ChatIdsIn(m, catId)));
    assert ChatsInCategory(Unpin(pinned, id), m, catId) == Unpin(ChatsInCategory(pinned, m, catId), id);
  }
}
