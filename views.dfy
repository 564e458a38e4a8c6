/**
 * The list filters of the full-page view: which pinned chats are shown for
 * the selected category and the text typed in the search box.
 */
module Views {
  import opened Sequences
  import opened Text
  import opened Pins

  /** `null` or a value, as the view's selected category and selected chat are. */
  datatype Option<T> = None | Some(value: T)

  /** A chat matches `term` when its lower-cased name contains the lower-cased term. */
  predicate NameMatches(c: PinnedChat, term: string)
  {
    Contains(Lower(c.name), Lower(term))
  }

  /** The filter test of the search box for an already trimmed term. */
  function Matching(term: string): PinnedChat -> bool
  {
    (c: PinnedChat) => NameMatches(c, term)
  }

  /**
   * The search filter: the box's value is trimmed; an empty term shows the
   * list unchanged, any other keeps exactly the matching chats, in order.
   */
  function SearchChats(chats: seq<PinnedChat>, searchValue: string): (r: seq<PinnedChat>)
    ensures Trim(searchValue) == [] ==> r == chats
    ensures Trim(searchValue) != [] ==> forall c :: c in r <==> c in chats && NameMatches(c, Trim(searchValue))
    ensures Trim(searchValue) != [] ==>
      forall c :: multiset(r)[c] == if NameMatches(c, Trim(searchValue)) then multiset(chats)[c] else 0
    ensures IsSubsequence(r, chats)
  {
    var term := Trim(searchValue);
    if term == [] then
      SubsequenceReflexive(chats);
      chats
    else
      FilterIsSubsequence(chats, Matching(term));
      assert forall c :: multiset(Filter(chats, Matching(term)))[c] == if NameMatches(c, term) then multiset(chats)[c] else 0 by {
        forall c {
          FilterCount(chats, Matching(term), c);
        }
      }
      Filter(chats, Matching(term))
  }

  /** Matching ignores the letter case of the term. */
  lemma NameMatchesIgnoresCase(c: PinnedChat, term: string)
    ensures NameMatches(c, Lower(term)) == NameMatches(c, term)
  {
    LowerIdempotent(term);
  }

  /** Searching the result of a search again with the same text changes nothing. */
  lemma SearchIdempotent(chats: seq<PinnedChat>, searchValue: string)
    ensures SearchChats(SearchChats(chats, searchValue), searchValue) == SearchChats(chats, searchValue)
  {
    var term := Trim(searchValue);
    if term != [] {
      FilterKeepsAll(SearchChats(chats, searchValue), Matching(term));
    }
  }
}
