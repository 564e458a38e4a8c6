/**
 * The full-page view's state and its store operations: the chats loaded at
 * start-up, the category list last read, the selected category filter and
 * the chat whose "add to category" dialog was opened last. Rendering is not
 * modelled; a handler that renders a list returns the list it would render.
 */
module FullPage {
  import opened Sequences
  import opened Text
  import opened Pins
  import opened Categories
  import opened Associations
  import opened Views
  import opened Storage

  /**
   * The `forEach` of `deleteCategory` over the keys of the index it read:
   * each list loses `categoryId`, and a key whose list is left empty is
   * deleted. Keys are visited in any order.
   */
  method RemoveCategoryFromAllChats(chatCategories: ChatCategories, categoryId: string) returns (r: ChatCategories)
    ensures r == StripCategory(chatCategories, categoryId)
  {
    r := chatCategories;
    var pending := chatCategories.Keys;
    while pending != {}
      invariant pending <= chatCategories.Keys
      invariant forall k :: k in r <==> k in chatCategories && (k in pending || Without(chatCategories[k], categoryId) != [])
      invariant forall k :: k in r ==> r[k] == if k in pending then chatCategories[k] else Without(chatCategories[k], categoryId)
      decreases pending
    {
      var chatId :| chatId in pending;
      r := r[chatId := Without(r[chatId], categoryId)];
      if |r[chatId]| == 0 {
        r := r - {chatId};
      }
      pending := pending - {chatId};
    }
    assert r.Keys == StripCategory(chatCategories, categoryId).Keys;
  }

  class FullPageView {
    const store: SyncStore
    /** `allChats`: the pinned chats read when the page loaded. */
    var allChats: seq<PinnedChat>
    /** `allCategories`: the category list as last read by `loadCategories`. */
    var allCategories: seq<Category>
    /** `currentCategoryFilter`: `None` shows all chats. */
    var currentCategoryFilter: Option<string>
    /** `currentChatForCategory`: the chat whose category dialog was opened last. */
    var currentChatForCategory: Option<PinnedChat>

    /**
     * The `DOMContentLoaded` handler: read the pinned chats; when there are
     * none, stop (the empty state); otherwise keep them and load the
     * category filters, which heals the category list.
     */
    constructor Load(store: SyncStore)
      modifies store`categories
      ensures this.store == store
      ensures allChats == store.pinned
      ensures currentCategoryFilter == None && currentChatForCategory == None
      ensures store.pinned == [] ==> store.categories == old(store.categories) && allCategories == []
      ensures store.pinned != [] ==> store.categories == Heal(old(store.categories)) && allCategories == store.categories
    {
      this.store := store;
      allChats := [];
      allCategories := [];
      currentCategoryFilter := None;
      currentChatForCategory := None;
      new;
      var pinnedChats := store.pinned;
      if pinnedChats != [] {
        allChats := pinnedChats;
        LoadCategoryFilters();
        SetActiveCategory(None);
      }
    }

    /** `loadCategories`: read the list, persist the default category if none is named "Important", keep it. */
    method LoadCategories() returns (categories: seq<Category>)
      modifies store`categories, this`allCategories
      ensures categories == allCategories == store.categories == Heal(old(store.categories))
    {
      categories := store.categories;
      if !HasImportant(categories) {
        categories := [DefaultCategory] + categories;
        store.categories := categories;
      }
      allCategories := categories;
    }

    /** `loadCategoryFilters`: reload the categories (the filter buttons are not modelled). */
    method LoadCategoryFilters()
      modifies store`categories, this`allCategories
      ensures allCategories == store.categories == Heal(old(store.categories))
    {
      var categories := LoadCategories();
    }

    /**
     * `deleteCategory`: drop the category from the list, strip it from every
     * chat's categories, then refresh the filters, which re-creates the
     * default category if it was the one deleted.
     */
    method DeleteCategory(categoryId: string)
      modifies store`categories, store`chatCategories, this`allCategories
      ensures store.categories == Heal(RemoveCategory(old(store.categories), categoryId))
      ensures store.chatCategories == StripCategory(old(store.chatCategories), categoryId)
      ensures allCategories == store.categories
    {
      var categories := store.categories;
      var updatedCategories := Filter(categories, CategoryIdIsNot(categoryId));
      store.categories := updatedCategories;
      var chatCategories := store.chatCategories;
      chatCategories := RemoveCategoryFromAllChats(chatCategories, categoryId);
      store.chatCategories := chatCategories;
      LoadCategoryFilters();
    }

    /** `showCategoryModal`: remember the chat and load the categories it can be added to. */
    method ShowCategoryModal(chat: PinnedChat)
      modifies this`currentChatForCategory, store`categories, this`allCategories
      ensures currentChatForCategory == Some(chat)
      ensures allCategories == store.categories == Heal(old(store.categories))
    {
      currentChatForCategory := Some(chat);
      var categories := LoadCategories();
    }

    /** `addChatToCategory` of the full page: the same update as the content script's, then a filter refresh. */
    method AddChatToCategory(chatId: string, categoryId: string)
      modifies store`chatCategories, store`categories, this`allCategories
      ensures store.chatCategories == Add(old(store.chatCategories), chatId, categoryId)
      ensures allCategories == store.categories == Heal(old(store.categories))
    {
      var chatCategories := store.chatCategories;
      if chatId !in chatCategories {
        chatCategories := chatCategories[chatId := []];
      }
      if categoryId !in chatCategories[chatId] {
        chatCategories := chatCategories[chatId := chatCategories[chatId] + [categoryId]];
      }
      store.chatCategories := chatCategories;
      LoadCategoryFilters();
    }

    /** `setActiveCategory`: select a category, or `None` for all chats. */
    method SetActiveCategory(categoryId: Option<string>)
      modifies this`currentCategoryFilter
      ensures currentCategoryFilter == categoryId
    {
      currentCategoryFilter := categoryId;
    }

    /**
     * `filterChatsByCategory`: the chats to show for a category (all chats
     * for `None`), narrowed by the search box's value `searchValue`.
     */
    method FilterChatsByCategory(categoryId: Option<string>, searchValue: string) returns (chatsToShow: seq<PinnedChat>)
      ensures IsSubsequence(chatsToShow, allChats)
      ensures forall c :: c in chatsToShow ==> c in allChats
      ensures categoryId.Some? ==> forall c :: c in chatsToShow ==> categoryId.value in CategoriesOf(store.chatCategories, c.id)
      ensures Trim(searchValue) != [] ==> forall c :: c in chatsToShow ==> NameMatches(c, Trim(searchValue))
      ensures categoryId.None? && Trim(searchValue) == [] ==> chatsToShow == allChats
      ensures chatsToShow == SearchChats(
        if categoryId.None? then allChats else ChatsInCategory(allChats, store.chatCategories, categoryId.value),
        searchValue)
    {
      if categoryId.None? {
        chatsToShow := allChats;
        SubsequenceReflexive(allChats);
      } else {
        var chatCategories := store.chatCategories;
        var chatIds := ChatIdsIn(chatCategories, categoryId.value);
        chatsToShow := Filter(allChats, AmongIds(chatIds));
        assert chatsToShow == ChatsInCategory(allChats, chatCategories, categoryId.value);
      }
      var before := chatsToShow;
      chatsToShow := SearchChats(chatsToShow, searchValue);
      SubsequenceTransitive(chatsToShow, before, allChats);
    }

    /**
     * The search box's `input` handler: with no category selected, search
     * all chats; otherwise filter within the selected category.
     */
    method OnSearchInput(searchValue: string) returns (shown: seq<PinnedChat>)
      ensures currentCategoryFilter.None? ==> shown == SearchChats(allChats, searchValue)
      ensures currentCategoryFilter.Some? ==>
        shown == SearchChats(ChatsInCategory(allChats, store.chatCategories, currentCategoryFilter.value), searchValue)
      ensures IsSubsequence(shown, allChats)
    {
      if currentCategoryFilter.None? {
        shown := SearchChats(allChats, searchValue);
      } else {
        shown := FilterChatsByCategory(currentCategoryFilter, searchValue);
      }
    }

    /** A category button's click: select it and show its chats under the current search. */
    method SelectCategory(categoryId: string, searchValue: string) returns (shown: seq<PinnedChat>)
      modifies this`currentCategoryFilter
      ensures currentCategoryFilter == Some(categoryId)
      ensures shown == SearchChats(ChatsInCategory(allChats, store.chatCategories, categoryId), searchValue)
    {
      SetActiveCategory(Some(categoryId));
      shown := FilterChatsByCategory(Some(categoryId), searchValue);
    }

    /** The "all categories" button's click: clear the selection and show every chat. */
    method ShowAllChats() returns (shown: seq<PinnedChat>)
      modifies this`currentCategoryFilter
      ensures currentCategoryFilter == None
      ensures shown == allChats
    {
      SetActiveCategory(None);
      shown := allChats;
    }

    /**
     * `createCategoryFromManage`: nothing happens when the trimmed input is
     * empty; otherwise one non-default category, named by the input after
     * `fixEncoding`, is appended to the healed list.
     */
    method CreateCategoryFromManage(inputValue: string, now: nat, fixEncoding: string -> string)
      modifies store`categories, this`allCategories
      ensures Trim(inputValue) == [] ==> store.categories == old(store.categories) && allCategories == old(allCategories)
      ensures Trim(inputValue) != [] ==>
        && store.categories == Heal(old(store.categories)) + [NewCategory(fixEncoding(Trim(inputValue)), now)]
        && allCategories == store.categories
    {
      var categoryName := Trim(inputValue);
      if categoryName != [] {
        var safeCategoryName := fixEncoding(categoryName);
        var categories := LoadCategories();
        var newCategory := Category(CategoryId(now), safeCategoryName, false);
        categories := categories + [newCategory];
        store.categories := categories;
        LoadCategoryFilters();
        categories := LoadCategories();
      }
    }

    /**
     * The category dialog's "create" button: when the trimmed input is not
     * empty and a chat was selected, append a new category to the healed
     * list and file the selected chat under it; otherwise do nothing.
     */
    method CreateCategoryForChat(inputValue: string, now: nat)
      modifies store`categories, store`chatCategories, this`allCategories
      ensures Trim(inputValue) != [] && currentChatForCategory.Some? ==>
        && store.categories == Heal(old(store.categories)) + [NewCategory(Trim(inputValue), now)]
        && store.chatCategories == Add(old(store.chatCategories), currentChatForCategory.value.id, CategoryId(now))
        && allCategories == store.categories
      ensures !(Trim(inputValue) != [] && currentChatForCategory.Some?) ==>
        && store.categories == old(store.categories)
        && store.chatCategories == old(store.chatCategories)
        && allCategories == old(allCategories)
    {
      var categoryName := Trim(inputValue);
      if categoryName != [] && currentChatForCategory.Some? {
        var categories := LoadCategories();
        var newCategory := Category(CategoryId(now), categoryName, false);
        categories := categories + [newCategory];
        store.categories := categories;
        AddChatToCategory(currentChatForCategory.value.id, newCategory.id);
        LoadCategoryFilters();
      }
    }
  }
}
