/**
 * The pinned-chat list: most recently pinned first, kept under the storage
 * key "PinGPTChat-pinned-chats". These are the list transformations that
 * `DBService.pinChat`, `unpinChat`, `isPinned` and `toggleChatPin` apply to
 * the stored list.
 */
module Pins {
  import opened Sequences

  /** A pinned conversation: the host page's chat id and the name captured at pin time. */
  datatype PinnedChat = PinnedChat(id: string, name: string)

  /** `isPinned`: some entry carries `id`. */
  predicate IsPinned(chats: seq<PinnedChat>, id: string)
  {
    exists c :: c in chats && c.id == id
  }

  /** No two entries carry the same id. */
  ghost predicate NoDuplicateIds(chats: seq<PinnedChat>)
  {
    forall i, j :: 0 <= i < j < |chats| ==> chats[i].id != chats[j].id
  }

  /** The number of entries that carry `id`. */
  function CountId(chats: seq<PinnedChat>, id: string): nat
  {
    if chats == [] then 0 else (if chats[0].id == id then 1 else 0) + CountId(chats[1..], id)
  }

  /**
   * `pinChat`: the new entry goes to index 0, the previous list follows
   * unchanged. No duplicate check is made.
   */
  function Pin(chats: seq<PinnedChat>, id: string, name: string): (r: seq<PinnedChat>)
    ensures |r| == |chats| + 1
    ensures r[0] == PinnedChat(id, name) && r[1..] == chats
    ensures IsPinned(r, id)
    ensures CountId(r, id) == CountId(chats, id) + 1
  {
    var r := [PinnedChat(id, name)] + chats;
    assert r[1..] == chats;
    r
  }

  /** The filter test `unpinChat` applies: the entry does not carry `id`. */
  function IdIsNot(id: string): PinnedChat -> bool
  {
    (c: PinnedChat) => c.id != id
  }

  /** `unpinChat`: drop every entry that carries `id`, keep the rest in order. */
  function Unpin(chats: seq<PinnedChat>, id: string): (r: seq<PinnedChat>)
    ensures forall c :: c in r <==> c in chats && c.id != id
    ensures forall c :: multiset(r)[c] == if c.id != id then multiset(chats)[c] else 0
    ensures !IsPinned(r, id)
    ensures IsSubsequence(r, chats)
  {
    FilterIsSubsequence(chats, IdIsNot(id));
    assert forall c :: multiset(Filter(chats, IdIsNot(id)))[c] == if c.id != id then multiset(chats)[c] else 0 by {
      forall c {
        FilterCount(chats, IdIsNot(id), c);
      }
    }
    Filter(chats, IdIsNot(id))
  }

  /** `toggleChatPin`: unpin when pinned, otherwise pin. */
  function Toggle(chats: seq<PinnedChat>, id: string, name: string): (r: seq<PinnedChat>)
    ensures IsPinned(r, id) == !IsPinned(chats, id)
    ensures !IsPinned(chats, id) ==> r[0] == PinnedChat(id, name) && r[1..] == chats
    ensures IsPinned(chats, id) ==> r == Unpin(chats, id)
  {
    if IsPinned(chats, id) then Unpin(chats, id) else Pin(chats, id, name)
  }

  /** `CountId` counts exactly the entries that carry `id`. */
  lemma {:induction false} CountIdPositive(chats: seq<PinnedChat>, id: string)
    ensures CountId(chats, id) > 0 <==> IsPinned(chats, id)
    decreases |chats|
  {
    if chats != [] {
      CountIdPositive(chats[1..], id);
      assert chats == [chats[0]] + chats[1..];
    }
  }

  /** Unpinning keeps a list free of duplicate ids. */
  lemma UnpinKeepsIdsDistinct(chats: seq<PinnedChat>, id: string)
    requires NoDuplicateIds(chats)
    ensures NoDuplicateIds(Unpin(chats, id))
  {
    FilterKeepsIdsDistinct(chats, IdIsNot(id));
  }

  /** Any filter of a list free of duplicate ids is free of them. */
  lemma {:induction false} FilterKeepsIdsDistinct(chats: seq<PinnedChat>, keep: PinnedChat -> bool)
    requires NoDuplicateIds(chats)
    ensures NoDuplicateIds(Filter(chats, keep))
    decreases |chats|
  {
    if chats != [] {
      var tail := chats[1..];
      assert NoDuplicateIds(tail) by {
        forall i, j | 0 <= i < j < |tail| ensures tail[i].id != tail[j].id {
          assert tail[i] == chats[i + 1] && tail[j] == chats[j + 1];
        }
      }
      FilterKeepsIdsDistinct(tail, keep);
      var rest := Filter(tail, keep);
      if keep(chats[0]) {
        assert Filter(chats, keep) == [chats[0]] + rest;
        assert forall c :: c in rest ==> c.id != chats[0].id by {
          forall c | c in rest ensures c.id != chats[0].id {
            var j :| 0 <= j < |tail| && tail[j] == c;
            assert chats[j + 1] == c;
          }
        }
        var r := [chats[0]] + rest;
        forall i, j | 0 <= i < j < |r| ensures r[i].id != r[j].id {
          assert r[j] == rest[j - 1];
          if i > 0 {
            assert r[i] == rest[i - 1];
          } else {
            assert rest[j - 1] in rest;
          }
        }
      } else {
        assert Filter(chats, keep) == rest;
      }
    }
  }

  /** Toggling only pins an absent id, so it never creates a duplicate. */
  lemma ToggleKeepsIdsDistinct(chats: seq<PinnedChat>, id: string, name: string)
    requires NoDuplicateIds(chats)
    ensures NoDuplicateIds(Toggle(chats, id, name))
  {
    if IsPinned(chats, id) {
      UnpinKeepsIdsDistinct(chats, id);
    } else {
      var r := Toggle(chats, id, name);
      forall i, j | 0 <= i < j < |r| ensures r[i].id != r[j].id {
        assert r[j] == chats[j - 1];
        if i == 0 {
          assert chats[j - 1] in chats;
        } else {
          assert r[i] == chats[i - 1];
        }
      }
    }
  }

  /** Pinning an already pinned id yields a second entry for it. */
  lemma {:induction false} PinTwiceDuplicates(chats: seq<PinnedChat>, id: string, name: string)
    ensures CountId(Pin(Pin(chats, id, name), id, name), id) == CountId(chats, id) + 2
    ensures !NoDuplicateIds(Pin(Pin(chats, id, name), id, name))
  {
    var r := Pin(Pin(chats, id, name), id, name);
    assert r[0].id == id && r[1].id == id;
  }

  /** Unpinning what was just pinned is the same as unpinning the old list. */
  lemma PinThenUnpin(chats: seq<PinnedChat>, id: string, name: string)
    ensures Unpin(Pin(chats, id, name), id) == Unpin(chats, id)
  {
    assert Pin(chats, id, name) == [PinnedChat(id, name)] + chats;
  }

  /** Unpinning twice is unpinning once. */
  lemma UnpinIdempotent(chats: seq<PinnedChat>, id: string)
    ensures Unpin(Unpin(chats, id), id) == Unpin(chats, id)
  {
    FilterKeepsAll(Unpin(chats, id), IdIsNot(id));
  }

  /** Toggling twice from an unpinned state gives back the original list. */
  lemma ToggleTwiceFromUnpinned(chats: seq<PinnedChat>, id: string, name: string)
    requires !IsPinned(chats, id)
    ensures Toggle(Toggle(chats, id, name), id, name) == chats
  {
    PinThenUnpin(chats, id, name);
    FilterKeepsAll(chats, IdIsNot(id));
  }
}
