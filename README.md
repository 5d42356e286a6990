# Kanban board: a verified model of the board, its lists and its cards

The page keeps one `Board`. The board holds an ordered sequence of `List`s, and each list holds an ordered sequence of `Card`s. Every change is written back to the browser's local storage under the key `kanban`. The page reloads from that record.

This project models the data behaviour behind the page's buttons and its drag-and-drop handler, and proves what the code promises:
- a card dropped on another list leaves its source list and goes on the end of the target list;
- it then names the target as its parent, and its delete button works on the target;
- nothing else changes, and, on a valid board that holds the target list and when card ids are unique, the number of cards and the count of every card id are kept (a source list holding two cards with the dragged id loses both, and only one is appended);
- adding and deleting lists and cards;
- the save/reload round trip, which loses no durable field.

The project has four modules:

- `Wrappers` (`wrappers.dfy`): the `Option` type.
- `Cards` (`cards.dfy`): `Card.js`.
  - A card is a value (`Card`) with its durable fields.
  - It also has `deleteTarget`, the id of the list whose `cards` the card's `onDelete` closure filters.
  - `CardData` is the record `toJSON` produces.
- `CardLists` (`card_lists.dfy`): the pure parts of `List.js`:
  - the `find`;
  - the `filter`s by card id;
  - the `map`s to and from records;
  - the counting of cards and card ids over a board, given as its lists' card sequences.
- `Kanban` (`kanban.dfy`): the stateful parts of `List.js` and `Board.js`.
  - `List` and `Board` are classes whose fields the methods update in place.
  - A list's `onSave` and `onDelete` closures always call the board that built the list, so they are modelled by one field, `owner: Board`.
  - `Board.save` writes `Some(ToJSON())` into a `Storage` object, which stands for local storage.
  - `Board.Valid()` is the containment invariant: no list object occurs twice, every list calls back into this board, and every card of a list names that list as its parent and as its delete target.

Clock readings (`Date.now()`) are `now: int` parameters. The drop handler's card id arrives already parsed to an `int`.

The model follows the code where it departs from the evident intent:
- Add list rejects only an absent (cancelled prompt) or empty title, exactly as `if (!listTitle)` does. A blank title such as `"  "` is accepted.
- Add card checks no title at all.
- Rehydration performs no validation of the record. A record without a `lists` or `cards` array makes the `map` at src/components/Board.js:13 or src/components/List.js:18 throw, and the boot code at src/main.js:12-19 then starts a fresh "Project Board". The model's records are typed, so they always carry both arrays and this failure path does not arise. A record missing only a scalar field such as `title` is accepted without notice by the code and cannot be expressed in the model.

## Model

| member | source | states |
|---|---|---|
| Cards.NewCard | src/components/Card.js:4-10 | the new card's record holds the clock reading as id and the given title, description and parent id; its delete closure is the one given |
| Cards.ToJSON | src/components/Card.js:77-84 | the record holds exactly the card's id, title, description and parent id; `Cards.ToJSONIgnoresDeleteTarget` shows the delete closure is not part of it, and `Cards.RoundTrip` that rehydrating it gives the card back |
| Cards.FromJSON | src/components/Card.js:12-21 | the rehydrated card serializes to exactly the record it was built from, so it keeps the record's id rather than the clock reading and copies title, description and parent id; its delete closure is the one given |
| Cards.FromJSONIgnoresClock | src/components/Card.js:12-21 | rehydration does not depend on the clock reading the constructor takes, and the result carries the record's id |
| Cards.ToJSONIgnoresDeleteTarget | src/components/Card.js:77-84 | the record holds only the four durable fields: changing the delete closure does not change it |
| Cards.RoundTrip | src/components/Card.js:12-21 | rehydrating a card's record with the card's own delete target gives back the same card |
| CardLists.Find | src/components/List.js:69 | `find` by id returns a card exactly when some card has that id; the card has that id and is the first such card in the list |
| CardLists.WithoutCard | src/components/List.js:20 | the `filter` by id keeps exactly the cards whose id differs, so no card with that id is left and the list does not grow |
| CardLists.WithoutCardAppend | src/components/List.js:20 | the filter works piecewise over a concatenation, so the surviving cards keep their order |
| CardLists.WithoutCardAbsent | src/components/List.js:20 | filtering out an id that no card has leaves the list unchanged |
| CardLists.WithoutCardOccurrences | src/components/List.js:20 | after the filter no card has the deleted id, and the count of every other id is unchanged |
| CardLists.WithoutCardLength | src/components/List.js:20 | the filter removes exactly as many cards as had the deleted id |
| CardLists.CardsToJSON | src/components/List.js:172 | the `map` to records keeps the number of cards |
| CardLists.CardsToJSONAt | src/components/List.js:172 | record `i` is the record of card `i`, so order is kept |
| CardLists.CardsFromJSON | src/components/List.js:18-23 | every rehydrated card serializes to the record at the same position, and its delete closure targets the new list |
| CardLists.WithoutCardKeepsOwner | src/components/List.js:18-22 | a filter keeps every remaining card's parent id and delete target |
| CardLists.CardsRoundTrip | src/components/List.js:18-23 | rehydrating a list's card records under the list the cards' closures target gives back the same cards in order |
| CardLists.CardsDeterminedByRecords | src/components/List.js:172 | two card sequences whose closures target the same list and which have the same records are equal: `toJSON` drops nothing durable |
| CardLists.CardsRecordRoundTrip | src/components/List.js:18-23 | serializing the rehydrated cards gives back the records |
| CardLists.ParentedRecords | src/components/List.js:172 | every card names list `k` as parent exactly when every card record does |
| CardLists.MoveKeepsIds | src/components/List.js:97-114 | when card ids are unique, filtering the card out of one list and appending it to another keeps the total number of cards and the count of every id on the board |
| Kanban.List.constructor | src/components/List.js:5-11 | a new list takes the clock reading as id, has the given title and no cards, and calls back into the given board |
| Kanban.List.ToJSON | src/components/List.js:168-174 | the record keeps the list's id and title and has one card record per card; `CardLists.CardsToJSONAt` gives the order and `Kanban.ListRoundTrip` shows nothing durable is dropped |
| Kanban.List.FromJSON | src/components/List.js:13-26 | the rehydrated list serializes to its record; every card's delete closure targets the new list; if the records name the list as parent, the list owns its cards |
| Kanban.List.AddCard | src/components/List.js:130-145 | exactly one new card goes on the end; it names this list as parent and delete target; every card stays owned by the list and the board stays valid; then the board is saved |
| Kanban.List.DeleteCard | src/components/List.js:19-22 | the card delete closure (built the same way at lines 108-111 and 137-140) filters every card with the id out of the list, keeps the list's ownership of its cards and the board's validity, and saves the board |
| Kanban.List.RequestDelete | src/components/List.js:156-159 | the list's delete button filters every list with this list's id off its board and saves; on a valid board, the board stays valid and no remaining card names the deleted id as parent |
| Kanban.List.Drop | src/components/List.js:48-120 | a move happens exactly when the first list holding the id has an id other than the target's; otherwise no list's cards and no storage change; on a move the source loses every card with the id, the card `find` returned goes on the end of the target naming it as parent and delete target, every other list is unchanged and the board is saved; when the target list is on the board, validity is kept and, with unique ids, so are the card count and every id's count |
| Kanban.List.Transfer | src/components/List.js:97-114 | the source list loses every card with the dragged id, the dragged card goes on the end of the target list with the target as parent and delete target, every other list is unchanged; when the target list is on the board, validity and, with unique ids, every id count are kept |
| Kanban.MoveAppliesSpec | src/components/List.js:77-94 | the drop guard `MoveApplies` lets no move happen when no list holds the id; otherwise a move happens exactly when the first list holding the id has a different id from the target |
| Kanban.FirstHolder | src/components/List.js:68-75 | the index of the first list, in board order, that holds a card with the id, or none when no list does |
| Kanban.LocateCard | src/components/List.js:65-85 | the search loop with `break` returns the first holding list and the `find` result in it, or nothing when no list holds the id |
| Kanban.WellFormedAppend | src/components/Board.js:51-60 | appending a new, empty list of the same board to a well-formed sequence keeps it well formed |
| Kanban.WellFormedWithout | src/components/Board.js:19 | deleting lists by id keeps the board well formed and leaves no card whose parent is the deleted id |
| Kanban.ListsToJSON | src/components/Board.js:77 | the `map` to records keeps the number of lists |
| Kanban.ListsToJSONAt | src/components/Board.js:77 | record `i` of the board is the record of list `i`, so order is kept |
| Kanban.WithoutList | src/components/Board.js:19 | the `filter` by list id keeps exactly the lists whose id differs and does not grow |
| Kanban.WithoutListAppend | src/components/Board.js:19 | the filter works piecewise, so the remaining lists keep their order |
| Kanban.WithoutListAbsent | src/components/Board.js:19 | deleting an id that no list has leaves the lists unchanged |
| Kanban.WithoutListDistinct | src/components/Board.js:19 | the filter never makes a list object occur twice |
| Kanban.WithoutListCount | src/components/Board.js:17-20 | deleting the lists with id `k` removes exactly their cards from the board's card count |
| Kanban.CardsUnderUnique | src/components/Board.js:17-20 | with unique list ids, the cards under a list's id are exactly that list's cards, so the count drops by the deleted list's card count |
| Kanban.CardsUnderAbsent | src/components/Board.js:19 | deleting an id that no list has removes no card |
| Kanban.ListRoundTrip | src/components/List.js:13-26 | two lists that share a record, each with its cards bound to itself, have the same id, title and cards |
| Kanban.BoardRoundTrip | src/components/Board.js:10-26 | a board rebuilt from a valid board's record has the same title and, position by position, lists with the same id, title and cards |
| Kanban.SavedIsConsistent | src/components/Board.js:74-83 | the record a valid board saves has every card record naming the list record holding it as parent |
| Kanban.Board.constructor | src/components/Board.js:5-8 | a new board has the given title and no lists |
| Kanban.Board.ToJSON | src/components/Board.js:74-79 | the record keeps the board's title and has one list record per list; `Kanban.ListsToJSONAt` gives the order and `Kanban.BoardRoundTrip` shows nothing durable is dropped |
| Kanban.Board.Save | src/components/Board.js:80-83 | storage holds the board's record afterwards |
| Kanban.Board.FromJSON | src/components/Board.js:10-26 | the board serializes to its record; its lists are new, distinct, call back into it and bind their cards' closures to themselves; a consistent record gives a valid board |
| Kanban.Board.RehydrateLists | src/components/Board.js:13-23 | one new list per record, in order, each rehydrated from its record and calling back into the board |
| Kanban.Board.Reload | src/components/Board.js:10-26 | rebuilding a valid board from what it saves gives a valid board with the same record, the same title and, list by list, the same id, title and cards |
| Kanban.Board.AddList | src/components/Board.js:48-63 | an absent or empty title changes nothing and saves nothing; otherwise exactly one new, empty list (id from the clock, the given title, calling back into this board) goes on the end, the old lists stay in place, the board is saved, and validity is kept |
| Kanban.Board.DeleteList | src/components/Board.js:17-20 | the list delete closure (built the same way at lines 54-57) makes the lists the filtered sequence; the board is saved; on a valid board, validity is kept and no remaining card names the deleted id as parent |

## Left out

- Rendering and the DOM: `render`, element creation, `querySelector`/`removeChild` of the old card element, the `dragover` handler and the drag-start payload. They build the page and hold no board data.
- `prompt`: titles and descriptions are parameters.
  - Kanban.List.AddCard: a cancelled prompt, which gives a `null` title or description, is not modelled, because the model's strings cannot be `null`.
- `localStorage.setItem` and `JSON.stringify`: `Storage.kanban` holds the record itself. Write failures are not modelled.
- The page's boot code (src/main.js:4-29): reading local storage, `JSON.parse`, the fallback to a new "Project Board" on an error, and the `window.board` global. It is boot-time I/O. `Kanban.Board.Reload` states what rehydrating a saved record gives.
- Kanban.Storage.constructor: `Storage` stands for the browser's local storage slot under the key `kanban`; its constructor only sets the initial content and models no source line.
- `Date.now()`: every clock reading is a parameter `now`. Ids colliding with each other are allowed, and properties that need unique ids require them.
- The drop handler's `if (!cardId)` and `if (!board)` guards:
  - the card id is a parsed `int`;
  - the board is passed in rather than read from `window.board`;
  - the handler's `if (!sourceList)` is covered by the card search returning both results or neither.
- Loose equality: the handler compares the string payload with `==` and `!=` against numeric ids. It is modelled as integer equality on an already parsed id.
- `Card.removeFromParent` (src/components/Card.js:66-75) only logs. All `console` calls are left out.
- Closure identity: a card's `onDelete` is represented by the id of the list it filters, and a list's `onSave`/`onDelete` by its owning board.
- Kanban.List.DeleteCard: it is stated for the list the closure belongs to. The card's delete button (src/components/Card.js:48-56) calls it on the list named by `deleteTarget`, and the DOM removal is left out.
- Aliasing of card objects: cards are values, so the handler's in-place update of the dragged card is modelled as appending an updated copy. The filter removes the original object from its source list, so in the JavaScript too no card object ends up in two lists.
- Kanban.Board.DeleteList: it does not restate that the remaining lists' cards are untouched. Its `modifies` clause, which names only the board's `lists` field and the storage slot, already guarantees that.
