/**
 * `DBService` of the content script: every operation reads whole
 * collections from the store, changes a copy and writes it back. Calls run
 * one after another; each is atomic.
 */
module Content {
  import opened Sequences
  import opened Pins
  import opened Categories
  import opened Associations
  import opened Storage

  class DBService {
    const store: SyncStore

    constructor (store: SyncStore)
      ensures this.store == store
    {
      this.store := store;
    }

    /** `getPinnedChats`: the stored list, most recently pinned first. */
    method GetPinnedChats() returns (chats: seq<PinnedChat>)
      ensures chats == store.pinned
    {
      chats := store.pinned;
    }

    /** `setPinnedChats`: replace the whole list. */
    method SetPinnedChats(chats: seq<PinnedChat>)
      modifies store`pinned
      ensures store.pinned == chats
    {
      store.pinned := chats;
    }

    /** `getCategories`: read the list and persist the default category if none is named "Important". */
    method GetCategories() returns (categories: seq<Category>)
      modifies store`categories
      ensures categories == store.categories == Heal(old(store.categories))
      ensures HasImportant(categories)
    {
      categories := store.categories;
      if !HasImportant(categories) {
        categories := [DefaultCategory] + categories;
        SetCategories(categories);
      }
    }

    /** `setCategories`: replace the whole list. */
    method SetCategories(categories: seq<Category>)
      modifies store`categories
      ensures store.categories == categories
    {
      store.categories := categories;
    }

    /**
     * `createCategory`: append one non-default category, named `name` and
     * stamped with the clock reading `now`, to the healed list; return it.
     */
    method CreateCategory(name: string, now: nat) returns (newCategory: Category)
      modifies store`categories
      ensures newCategory.name == name && !newCategory.isDefault && newCategory.id == CategoryId(now)
      ensures store.categories == Heal(old(store.categories)) + [newCategory]
    {
      var categories := GetCategories();
      newCategory := Category(CategoryId(now), name, false);
      categories := categories + [newCategory];
      SetCategories(categories);
    }

    /** `getChatCategories`: the stored index. */
    method GetChatCategories() returns (chatCategories: ChatCategories)
      ensures chatCategories == store.chatCategories
    {
      chatCategories := store.chatCategories;
    }

    /** `setChatCategories`: replace the whole index. */
    method SetChatCategories(chatCategories: ChatCategories)
      modifies store`chatCategories
      ensures store.chatCategories == chatCategories
    {
      store.chatCategories := chatCategories;
    }

    /** `addChatToCategory`: file the chat under the category unless it already is. */
    method AddChatToCategory(chatId: string, categoryId: string)
      modifies store`chatCategories
      ensures store.chatCategories == Add(old(store.chatCategories), chatId, categoryId)
    {
      var chatCategories := GetChatCategories();
      if chatId !in chatCategories {
        chatCategories := chatCategories[chatId := []];
      }
      if categoryId !in chatCategories[chatId] {
        chatCategories := chatCategories[chatId := chatCategories[chatId] + [categoryId]];
      }
      SetChatCategories(chatCategories);
    }

    /** `removeChatFromCategory`: unfile the chat, deleting its key once its list is empty. */
    method RemoveChatFromCategory(chatId: string, categoryId: string)
      modifies store`chatCategories
      ensures store.chatCategories == Remove(old(store.chatCategories), chatId, categoryId)
    {
      var chatCategories := GetChatCategories();
      if chatId in chatCategories {
        chatCategories := chatCategories[chatId := Without(chatCategories[chatId], categoryId)];
        if |chatCategories[chatId]| == 0 {
          chatCategories := chatCategories - {chatId};
        }
      }
      SetChatCategories(chatCategories);
    }

    /**
     * `getChatsByCategory`: the pinned chats, in pinned order, whose id is
     * filed under `categoryId`.
     */
    method GetChatsByCategory(categoryId: string) returns (chats: seq<PinnedChat>)
      ensures forall c :: c in chats <==> c in store.pinned && categoryId in CategoriesOf(store.chatCategories, c.id)
      ensures IsSubsequence(chats, store.pinned)
      ensures chats == ChatsInCategory(store.pinned, store.chatCategories, categoryId)
    {
      var chatCategories := GetChatCategories();
      var pinnedChats := GetPinnedChats();
      var chatIds := ChatIdsIn(chatCategories, categoryId);
      chats := Filter(pinnedChats, AmongIds(chatIds));
      assert chats == ChatsInCategory(pinnedChats, chatCategories, categoryId);
    }

    /** `isPinned`: some stored entry carries `id`. */
    method IsPinned(id: string) returns (pinned: bool)
      ensures pinned <==> exists c :: c in store.pinned && c.id == id
    {
      var chats := GetPinnedChats();
      pinned := Pins.IsPinned(chats, id);
    }

    /** `pinChat`: put `{id, name}` in front of the stored list. */
    method PinChat(id: string, name: string)
      modifies store`pinned
      ensures store.pinned == Pin(old(store.pinned), id, name)
    {
      var chats := GetPinnedChats();
      SetPinnedChats([PinnedChat(id, name)] + chats);
    }

    /** `unpinChat`: drop every stored entry that carries `id`. */
    method UnpinChat(id: string)
      modifies store`pinned
      ensures store.pinned == Unpin(old(store.pinned), id)
    {
      var chats := GetPinnedChats();
      SetPinnedChats(Filter(chats, IdIsNot(id)));
    }

    /** `toggleChatPin`: read the pinned state, then unpin or pin. */
    method ToggleChatPin(id: string, name: string)
      modifies store`pinned
      ensures store.pinned == Toggle(old(store.pinned), id, name)
      ensures Pins.IsPinned(store.pinned, id) == !Pins.IsPinned(old(store.pinned), id)
    {
      var isPinned := IsPinned(id);
      if isPinned {
        UnpinChat(id);
      } else {
        PinChat(id, name);
      }
    }
  }
}
