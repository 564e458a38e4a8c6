# PinGPTChat persistence, modelled in Dafny

PinGPTChat is a browser extension that lets a user pin chat conversations,
file them under categories, and browse them on a full page. This project
models its persistence logic. The logic is a small state machine over a
synchronized key-value store with three keys:

- `PinGPTChat-pinned-chats`: an ordered list of `{id, name}`, most recently pinned first.
- `PinGPTChat-categories`: an ordered list of `{id, name, isDefault}`.
- `PinGPTChat-chat-categories`: an object from chat id to the list of category ids the chat is filed under.

The store is the class `Storage.SyncStore`. It has one field per key. A
`chrome.storage.sync.get` reads a field and a `set` assigns it. A key that
was never written reads as an empty collection. Two programs share the store:

- The content script's `DBService` is the class `Content.DBService`.
- The full-page view is the class `FullPage.FullPageView`. Its fields are the
  page's state: `allChats`, `allCategories` and `currentCategoryFilter`, which
  are locals of the `DOMContentLoaded` handler (fullpage.js:32-34), and the
  module-level `currentChatForCategory` (fullpage.js:2).

Each operation is a method. It reads whole collections, changes a copy, and
writes the copy back. Its `ensures` ties the new store to a pure function of
the old store:

- `Pins`: `Pin`, `Unpin`, `Toggle`.
- `Categories`: `Heal` (the self-healing "Important" category), `RemoveCategory`, `NewCategory`.
- `Associations`: `Add`, `Remove`, `StripCategory`, `ChatsInCategory`.
- `Views`: `SearchChats`.

The lemmas beside those functions state what the extension promises: a pin
goes in front; unpinning drops every entry with that id; toggling flips the
pinned state and never creates a duplicate; healing is idempotent; filing a
chat is idempotent and undone by unfiling it; a key is never left with an
empty list; deleting a category cascades through the index; the default
category comes back after it is deleted; filters keep order.

`Sequences.Filter` models the `Array.prototype.filter` calls on lists:
unpinning, dropping a category id from a chat's list, deleting a category,
selecting the pinned chats of a category, and searching. It is proved to keep
exactly the elements that pass the test, in their original order
(`IsSubsequence`), and with every copy of each kept element. The filter over
the index's keys (`Object.keys(...).filter`, content.js:328-329,
fullpage.js:333-334) is the set comprehension `Associations.ChatIdsIn`. The deletion cascade,
`deleteCategory`'s `forEach` over the index's keys, is the loop method
`FullPage.RemoveCategoryFromAllChats`. It is proved equal to `StripCategory`
for any visiting order.

Inputs that the source takes from the environment are parameters:

- the clock reading behind `category_${Date.now()}` (`now: nat`);
- the value of an input box (`inputValue`, `searchValue`);
- the page's text-encoding repair function (`fixEncoding`).

The file `scenarios.dfy` replays end-to-end pin, category and delete
scenarios as client code checked against the contracts.

Two consequences of the code are worth stating:

- `getChatsByCategory` lists only pinned chats. So an unpinned chat is no
  longer listed under its category, though its association entry survives
  (`Associations.UnpinnedChatNotListed`).
- Healing tests names only. So a second category named "Important" that the
  user creates is kept beside the first (`Categories.SecondImportantIsKept`).

## Model

| member | source | states |
|---|---|---|
| Storage.SyncStore.constructor | content.js:243-248 | a key never written reads as an empty list, or an empty index |
| Content.DBService.constructor | content.js:367 | the service works on the given store |
| Content.DBService.GetPinnedChats | content.js:243-249 | returns the stored pinned list |
| Content.DBService.SetPinnedChats | content.js:250-253 | replaces the whole pinned list and nothing else |
| Content.DBService.GetCategories | content.js:256-270 | the stored and returned list is the healed old list; it always has a category named "Important" |
| Content.DBService.SetCategories | content.js:272-275 | replaces the whole category list and nothing else |
| Content.DBService.CreateCategory | content.js:277-287 | returns a non-default category with the given name and the id built from `now`; the stored list is the healed old list plus that one record at the end |
| Content.DBService.GetChatCategories | content.js:289-295 | returns the stored index |
| Content.DBService.SetChatCategories | content.js:297-300 | replaces the whole index and nothing else |
| Content.DBService.AddChatToCategory | content.js:302-311 | the new index is `Add` of the old one |
| Content.DBService.RemoveChatFromCategory | content.js:313-322 | the new index is `Remove` of the old one |
| Content.DBService.GetChatsByCategory | content.js:324-332 | returns exactly the pinned chats whose id is filed under the category, as a subsequence of the pinned list |
| Content.DBService.IsPinned | content.js:333-336 | true exactly when some stored entry has the id |
| Content.DBService.PinChat | content.js:337-340 | the new list is `Pin` of the old one |
| Content.DBService.UnpinChat | content.js:341-344 | the new list is `Unpin` of the old one |
| Content.DBService.ToggleChatPin | content.js:345-359 | the new list is `Toggle` of the old one; the pinned state of the id flips |
| Pins.Pin | content.js:337-340 | the new entry is at index 0 and the old list follows unchanged; one more entry with that id; no duplicate check |
| Pins.Unpin | content.js:341-344 | keeps exactly the entries with a different id, every copy of each, in their original order; afterwards the id is not pinned |
| Pins.Toggle | content.js:345-359 | the pinned state flips; a pin puts the entry in front of the old list; an unpin is `Unpin` of the old list |
| Pins.CountIdPositive | content.js:333-336 | the number of entries with an id is positive exactly when `isPinned` holds |
| Pins.UnpinKeepsIdsDistinct | content.js:341-344 | unpinning a list without duplicate ids gives a list without duplicate ids |
| Pins.ToggleKeepsIdsDistinct | content.js:345-359 | toggling pins only an absent id, so it never creates a duplicate id |
| Pins.PinTwiceDuplicates | content.js:337-340 | pinning the same chat twice gives two entries with its id |
| Pins.PinThenUnpin | content.js:337-344 | unpinning right after pinning gives the same list as unpinning the old list |
| Pins.UnpinIdempotent | content.js:341-344 | unpinning twice gives the same list as unpinning once |
| Pins.ToggleTwiceFromUnpinned | content.js:345-359 | toggling an unpinned chat twice restores the list |
| Categories.Heal | content.js:261-266 | the result has a category named "Important"; an unhealthy list gains the default record at the front, with the old list behind it; a healthy list is unchanged |
| Categories.HealIdempotent | content.js:256-270 | a second read heals nothing |
| Categories.CategoryId | content.js:280 | the generated id starts with `category_` and is never the default id `important` |
| Categories.CategoryIdInjective | content.js:280 | different clock readings give different ids |
| Categories.NewCategory | content.js:279-283 | the new record is non-default, has the given name and does not have the default id |
| Categories.CreateAppendsOne | content.js:277-287 | the healed list grows by exactly one non-default record with the given name at the end; the records before it are unchanged; "Important" survives |
| Categories.CreatedIdIsFresh | content.js:280 | when the clock is newer than every id already generated, the new id is not in the list |
| Categories.SecondImportantIsKept | content.js:262-264 | creating another category named "Important" leaves two categories with that name |
| Categories.RemoveCategory | fullpage.js:65 | keeps exactly the categories with another id, every copy of each, in order; the id is gone |
| Categories.DeleteThenHeal | fullpage.js:54-98 | after a delete and the refresh, "Important" exists; a deleted non-default id stays gone; deleting the only "Important" category brings the default record back at the front |
| Associations.Add | content.js:302-311 | the category is in the chat's list; the key exists; no other key changes; the old list is a prefix of the new one, which grows by at most one; an existing association changes nothing |
| Associations.Without | content.js:316 | keeps exactly the other category ids, every copy of each, in order; empty exactly when every id was the removed one |
| Associations.Remove | content.js:313-322 | the category is gone from the chat's list and every other category of the chat stays in it, in order; the key is kept only if another category remains; other keys are unchanged; an absent chat changes nothing |
| Associations.StripCategory | fullpage.js:71-85 | no list holds the category; no list is empty; a key survives exactly when it had another category; the other ids of each list are kept |
| Associations.ChatIdsIn | content.js:328-329 | the chat ids whose list holds the category |
| Associations.ChatsInCategory | content.js:324-332 | exactly the chats whose id is filed under the category, each with as many copies as the pinned list has, as a subsequence of the pinned list; index keys without a pinned chat add nothing |
| Associations.AddIdempotent | content.js:302-311 | adding the same association twice is the same as adding it once |
| Associations.AddKeepsWellFormed | content.js:302-311 | adding keeps every list non-empty and free of duplicate category ids |
| Associations.RemoveKeepsWellFormed | content.js:313-322 | removing keeps every list non-empty and free of duplicate category ids |
| Associations.StripCategoryKeepsWellFormed | fullpage.js:75-82 | the cascade keeps every list non-empty and free of duplicate category ids |
| Associations.AddThenRemove | content.js:302-322 | removing a newly added association restores the index |
| Associations.RemovedChatNotListed | content.js:313-332 | after removal the chat is not listed under that category |
| Associations.AddedChatListed | content.js:302-332 | after addition every pinned entry of the chat is listed under that category |
| Associations.StrippedCategoryIsEmpty | fullpage.js:71-85 | after the cascade no chat is listed under the deleted category |
| Associations.UnpinnedChatNotListed | content.js:324-344 | after an unpin the chat is not listed under any category, and each category's listing only loses entries |
| Views.SearchChats | fullpage.js:470-478 | an empty trimmed term leaves the list unchanged; otherwise it keeps exactly the chats whose lower-cased name contains the lower-cased term, each with all its copies; always a subsequence |
| Views.NameMatchesIgnoresCase | fullpage.js:343 | lower-casing the term beforehand does not change which chats match |
| Views.SearchIdempotent | fullpage.js:475-477 | searching a search result again with the same text changes nothing |
| Text.Trim | fullpage.js:627 | the result is a slice of the input with only whitespace before and after it; it neither starts nor ends with whitespace, and it is empty exactly when the input is all whitespace |
| Text.Lower | fullpage.js:343 | keeps the length, maps each ASCII capital to its small letter and keeps every other character |
| Text.LowerIdempotent | fullpage.js:343 | lower-casing twice is lower-casing once |
| Text.ContainsAt | fullpage.js:343 | `includes` holds exactly when the term is the slice of the name at some offset |
| Text.Decimal | content.js:280 | the timestamp is printed as a non-empty string of decimal digits |
| Text.DecimalInjective | content.js:280 | different timestamps print differently |
| Sequences.Filter | content.js:343 | keeps exactly the elements that pass the test, and is never longer than its input |
| Sequences.FilterIsSubsequence | content.js:343 | a filter keeps the relative order of the elements it keeps |
| Sequences.FilterCount | content.js:343 | a filter keeps every occurrence of a kept value and none of a dropped one |
| FullPage.RemoveCategoryFromAllChats | fullpage.js:74-82 | the loop over the keys, in any order, ends with `StripCategory` of the index it read |
| FullPage.FullPageView.Load | fullpage.js:447-466 | with no pinned chats the page stops, with the categories untouched; otherwise it keeps the chats, heals and loads the categories, and selects "all" |
| FullPage.FullPageView.LoadCategories | fullpage.js:102-120 | the stored list, the returned list and `allCategories` are the healed old list |
| FullPage.FullPageView.LoadCategoryFilters | fullpage.js:266-300 | the categories are healed and reloaded into `allCategories` |
| FullPage.FullPageView.DeleteCategory | fullpage.js:54-98 | the stored list is the healed list without the category; the index is `StripCategory` of the old one |
| FullPage.FullPageView.ShowCategoryModal | fullpage.js:122-126 | the chat becomes the dialog's chat; the categories are healed and reloaded |
| FullPage.FullPageView.AddChatToCategory | fullpage.js:181-200 | the new index is `Add` of the old one, as in the content script; the categories are healed and reloaded |
| FullPage.FullPageView.SetActiveCategory | fullpage.js:303-318 | the selected category filter becomes the given one |
| FullPage.FullPageView.FilterChatsByCategory | fullpage.js:321-351 | the shown chats are a subsequence of `allChats`; with a category, each is filed under it; with a term, each matches it; with neither, all chats are shown |
| FullPage.FullPageView.OnSearchInput | fullpage.js:470-483 | with no category selected, searches all chats; otherwise searches within the selected category; always a subsequence of `allChats` |
| FullPage.FullPageView.SelectCategory | fullpage.js:287-290 | the category becomes selected and its chats are shown under the current search |
| FullPage.FullPageView.ShowAllChats | fullpage.js:657-661 | clears the selection and shows every chat |
| FullPage.FullPageView.CreateCategoryFromManage | fullpage.js:626-654 | an all-whitespace input changes nothing; otherwise exactly one non-default category is appended to the healed list |
| FullPage.FullPageView.CreateCategoryForChat | fullpage.js:237-263 | acts only on a non-blank input with a selected chat; then the new category ends the healed list and the chat is filed under its id; otherwise nothing changes |

## Left out

- The DOM layer of the content script (`UIService`, content.js:38-233) is not modelled: observers, cloning and injecting menu items, and rendering the sidebar. So are the sidebar observer and the change subscription (content.js:376-395). They act on a host page the model cannot see.
- popup.js only renders the pinned list as links, so it is not modelled.
- The full page's rendering is not modelled: `displayChats`, `displayCategoriesInModal` and its category search, notifications, modals, `confirm`, clipboard, `window.open` and timers. Handlers that render return the list they would render instead.
- Store failures are not modelled: the store is always available. So the `catch` branches are not modelled. This hides a data loss: when the read fails, `loadCategories` returns `[]` (fullpage.js:116-118). Both create paths then write a one-element list over the whole stored category list (fullpage.js:241-248, fullpage.js:632-639).
- Concurrency is not modelled. Operations run one after another and each is atomic. The un-awaited `set` calls (content.js:252, content.js:274) and the lost updates of racing read-modify-write sequences are concurrency effects.
- The change notification that a write fires is not modelled. So the model does not capture that `getCategories` writes only when it heals.
- `fixTextEncoding` and `decodeURIComponent(escape(...))` (fullpage.js:37-51, fullpage.js:284) are a foreign string codec. The first is a parameter of `CreateCategoryFromManage`. The second builds the filter-button labels. For a name it cannot decode, such as one with a character above U+00FF or a lone Latin-1 letter like "é", it throws. The loop then stops at that category (fullpage.js:281-299), so that category and every later one get no filter button.
- FullPage.FullPageView.SelectCategory: filter buttons are not modelled, so it accepts any category id, including one whose button the label failure above left out.
- Text.Lower: models `toLowerCase` on ASCII letters only. Full Unicode case mapping is not modelled, so `Views.SearchChats` matches case-insensitively only for ASCII letters.
- `Date.now()` is the parameter `now`.
- FullPage.FullPageView.ShowAllChats: the source also empties the search box (fullpage.js:660). The model takes the box's value as a parameter, so it does not capture that the next search starts from an empty box.
- The category search of the manage dialog (`displayCategoriesInModal`, fullpage.js:549) filters categories by their name after `fixTextEncoding`, for display only, so it is not modelled. Its one store effect, the heal done by `loadCategories`, is modelled by `CreateCategoryFromManage`.
- The index is a plain map from chat id to list. The source stores it as a JavaScript object, so a chat id equal to an inherited property name such as `constructor` behaves differently there. The model does not capture that.
