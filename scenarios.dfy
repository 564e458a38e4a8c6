/**
 * Client code replaying end-to-end pin, category and delete scenarios
 * through the operations' contracts alone.
 */
module Scenarios {
  import opened Pins
  import opened Categories
  import opened Storage
  import opened Content
  import opened FullPage

  /** Pinning into an empty store gives a one-entry list; later pins go first. */
  method PinScenario()
  {
    var store := new SyncStore();
    var db := new DBService(store);
    db.PinChat("abc", "Trip Planning");
    var chats := db.GetPinnedChats();
    assert chats == [PinnedChat("abc", "Trip Planning")];
    db.PinChat("b", "Budget");
    chats := db.GetPinnedChats();
    assert chats == [PinnedChat("b", "Budget"), PinnedChat("abc", "Trip Planning")];
    db.ToggleChatPin("abc", "Trip Planning");
    chats := db.GetPinnedChats();
    assert !IsPinned(chats, "abc") && PinnedChat("b", "Budget") in chats;
  }

  /** An empty store reads back exactly the default category, however often it is read. */
  method DefaultCategoryScenario()
  {
    var store := new SyncStore();
    var db := new DBService(store);
    var categories := db.GetCategories();
    assert categories == [DefaultCategory];
    categories := db.GetCategories();
    assert categories == [DefaultCategory];
  }

  /**
   * A chat filed under a new category is listed under it while pinned; after
   * unpinning it is no longer listed, though its association survives.
   */
  method CategoryScenario(now: nat)
  {
    var store := new SyncStore();
    var db := new DBService(store);
    db.PinChat("a", "Alpha");
    var work := db.CreateCategory("Work", now);
    db.AddChatToCategory("a", work.id);
    var chats := db.GetChatsByCategory(work.id);
    assert PinnedChat("a", "Alpha") in chats;
    assert chats == [PinnedChat("a", "Alpha")];
    db.UnpinChat("a");
    chats := db.GetChatsByCategory(work.id);
    assert chats == [];
    assert store.chatCategories["a"] == [work.id];
  }

  /** Deleting a category removes it from the list and from every chat's categories. */
  method DeleteScenario()
  {
    var store := new SyncStore();
    store.pinned := [PinnedChat("a", "Alpha")];
    store.categories := [DefaultCategory, Category("w", "Work", false)];
    store.chatCategories := map["a" := ["w", "important"]];
    var page := new FullPageView.Load(store);
    var index := store.chatCategories;
    assert "important" in index["a"];
    page.DeleteCategory("w");
    assert "a" in store.chatCategories && "w" !in store.chatCategories["a"];
    assert !HasCategoryId(store.categories, "w");
    assert HasImportant(page.allCategories);
  }

  /** Deleting the default category and reading the list back re-creates it. */
  method DeleteDefaultScenario()
  {
    var store := new SyncStore();
    store.pinned := [PinnedChat("a", "Alpha")];
    store.chatCategories := map["a" := ["important"]];
    var page := new FullPageView.Load(store);
    page.DeleteCategory(DefaultCategory.id);
    assert "a" !in store.chatCategories;
    assert store.categories == [DefaultCategory];
  }
}
