/**
 * The synchronized key-value store, restricted to the three keys the
 * extension uses. A `get` of a key reads the field, a `set` assigns it; a
 * key never written reads as an empty collection.
 */
module Storage {
  import opened Pins
  import opened Categories
  import opened Associations

  class SyncStore {
    /** "PinGPTChat-pinned-chats" */
    var pinned: seq<PinnedChat>
    /** "PinGPTChat-categories" */
    var categories: seq<Category>
    /** "PinGPTChat-chat-categories" */
    var chatCategories: ChatCategories

    /** A store in which none of the three keys has been written. */
    constructor ()
      ensures pinned == [] && categories == [] && chatCategories == map[]
    {
      pinned := [];
      categories := [];
      chatCategories := map[];
    }
  }
}
