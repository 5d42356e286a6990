/** List.js and Board.js: the two objects whose fields the page updates in
    place. They share one module because every list holds closures
    (`onSave`, `onDelete`) that call back into the board that made it. */
module Kanban {
  import opened Wrappers
  import opened Cards
  import opened CardLists

  /** The record a list serializes to. */
  datatype ListData = ListData(id: int, title: string, cards: seq<CardData>)

  /** The record a board serializes to: the whole persisted state. */
  datatype BoardData = BoardData(title: string, lists: seq<ListData>)

  /** The browser storage slot the board is saved under (key "kanban"). */
  class Storage {
    var kanban: Option<BoardData>

    constructor (initial: Option<BoardData>)
      ensures kanban == initial
    {
      kanban := initial;
    }
  }

  class List {
    var id: int
    var title: string
    var cards: seq<Card>
    /** The board that the list's `onSave` and `onDelete` closures call. */
    var owner: Board

    /** `new List(title, onSave, onDelete)`; `now` is the clock reading
        taken as the id. */
    constructor (now: int, title: string, owner: Board)
      ensures id == now && this.title == title && cards == [] && this.owner == owner
    {
      id := now;
      this.title := title;
      cards := [];
      this.owner := owner;
    }

    /** `list.toJSON()`: id, title and the cards' records in order
        (record `i` is card `i`'s, by `CardsToJSONAt`). */
    function ToJSON(): (r: ListData)
      reads this`id, this`title, this`cards
      ensures r.id == id && r.title == title && |r.cards| == |cards|
    {
      ListData(id, title, CardsToJSON(cards))
    }

    /** Every card of the list names it as parent and deletes from it. */
    ghost predicate OwnsCards()
      reads this`cards, this`id
    {
      Parented(cards, id) && Rebound(cards, id)
    }

    /** `List.fromJSON(data, onSave, onDelete)`: a new list with the
        record's id, and every card rebuilt with its delete closure bound
        to this new list. */
    static method FromJSON(data: ListData, owner: Board, now: int) returns (l: List)
      ensures fresh(l) && l.owner == owner
      ensures l.ToJSON() == data
      ensures Rebound(l.cards, l.id)
      ensures DataParented(data.cards, data.id) ==> l.OwnsCards()
    {
      l := new List(now, data.title, owner);
      l.id := data.id;
      l.cards := CardsFromJSON(data.cards, l.id, now);
      CardsRecordRoundTrip(data.cards, data.id, now);
      ParentedRecords(l.cards, l.id);
    }

    /** The "Add Card" button: a new card with this list as parent and
        delete target goes on the end; then the board is saved. Titles are
        not checked. */
    method AddCard(title: string, description: string, now: int)
      modifies this`cards, owner.store`kanban
      ensures cards == old(cards) + [NewCard(now, title, description, id, id)]
      ensures old(OwnsCards()) ==> OwnsCards()
      ensures old(owner.Valid()) ==> owner.Valid()
      ensures owner.store.kanban == Some(owner.ToJSON())
    {
      var card := NewCard(now, title, description, id, id);
      cards := cards + [card];
      if old(owner.Valid()) {
        forall i | 0 <= i < |owner.lists|
          ensures owner.lists[i].owner == owner && owner.lists[i].OwnsCards()
        {
        }
      }
      owner.Save();
    }

    /** The `onDelete` closure of a card whose delete target is this list:
        every card with that id is filtered out; then the board is saved. */
    method DeleteCard(cardId: int)
      modifies this`cards, owner.store`kanban
      ensures cards == WithoutCard(old(cards), cardId)
      ensures old(OwnsCards()) ==> OwnsCards()
      ensures old(owner.Valid()) ==> owner.Valid()
      ensures owner.store.kanban == Some(owner.ToJSON())
    {
      cards := WithoutCard(cards, cardId);
      if old(OwnsCards()) {
        WithoutCardKeepsOwner(old(cards), cardId, id);
      }
      if old(owner.Valid()) {
        forall i | 0 <= i < |owner.lists|
          ensures owner.lists[i].owner == owner && owner.lists[i].OwnsCards()
        {
          if owner.lists[i] == this {
            WithoutCardKeepsOwner(old(cards), cardId, id);
          }
        }
      }
      owner.Save();
    }

    /** The list's delete button: `this.onDelete(this.id)`. */
    method RequestDelete()
      modifies owner`lists, owner.store`kanban
      ensures owner.lists == WithoutList(old(owner.lists), id)
      ensures owner.store.kanban == Some(owner.ToJSON())
      ensures old(owner.Valid()) ==> owner.Valid()
      ensures old(owner.Valid()) ==>
        forall i, a :: 0 <= i < |owner.lists| && 0 <= a < |owner.lists[i].cards| ==>
          owner.lists[i].cards[a].parentListId != id
    {
      owner.DeleteList(id);
    }

    /** The `drop` handler with this list as target: find the first list of
        the board holding a card with id `cardId`; unless there is none or
        it has this list's id, move the card here and save. `moved` says
        whether anything happened. */
    method Drop(board: Board, cardId: int) returns (moved: bool)
      modifies board.lists`cards, this`cards, owner.store`kanban
      ensures moved == old(MoveApplies(board.lists, cardId, id))
      ensures !moved ==>
        && cards == old(cards)
        && (forall j :: 0 <= j < |board.lists| ==> board.lists[j].cards == old(board.lists[j].cards))
        && owner.store.kanban == old(owner.store.kanban)
      ensures moved ==>
        var s := old(FirstHolder(board.lists, cardId)).value;
        && board.lists[s] != this
        && board.lists[s].cards == WithoutCard(old(board.lists[s].cards), cardId)
        && cards == old(cards) + [old(Find(board.lists[s].cards, cardId)).value.(parentListId := id, deleteTarget := id)]
        && (forall j :: 0 <= j < |board.lists| && board.lists[j] != board.lists[s] && board.lists[j] != this ==>
              board.lists[j].cards == old(board.lists[j].cards))
        && owner.store.kanban == Some(owner.ToJSON())
      ensures old(board.Valid()) && this in board.lists ==> board.Valid()
      ensures old(board.Valid() && UniqueIds(Holdings(board.lists))) && this in board.lists ==>
        SameCardIds(Holdings(board.lists), old(Holdings(board.lists)))
    {
      var source, dragged := LocateCard(board.lists, cardId);
      if source.None? || dragged.None? {
        return false;
      }
      var s := source.value;
      if board.lists[s].id == id {
        return false;
      }
      Transfer(board, s, dragged.value);
      owner.Save();
      moved := true;
    }

    /** The moving part of the `drop` handler: the card with the dragged
        card's id leaves list `s` of the board, and the dragged card, now
        naming this list as parent and delete target, goes on the end of
        this list. */
    method Transfer(board: Board, s: nat, dragged: Card)
      requires s < |board.lists| && board.lists[s] != this
      requires HasCard(board.lists[s].cards, dragged.id)
      modifies board.lists`cards, this`cards
      ensures board.lists[s].cards == WithoutCard(old(board.lists[s].cards), dragged.id)
      ensures cards == old(cards) + [dragged.(parentListId := id, deleteTarget := id)]
      ensures forall j :: 0 <= j < |board.lists| && board.lists[j] != board.lists[s] && board.lists[j] != this ==>
        board.lists[j].cards == old(board.lists[j].cards)
      ensures old(board.Valid()) && this in board.lists ==> board.Valid()
      ensures old(board.Valid() && UniqueIds(Holdings(board.lists))) && this in board.lists ==>
        SameCardIds(Holdings(board.lists), old(Holdings(board.lists)))
    {
      ghost var before := Holdings(board.lists);
      ghost var wasValid := board.Valid();
      ghost var wasUnique := UniqueIds(before);
      var sourceList := board.lists[s];
      var moved := dragged.(parentListId := id, deleteTarget := id);
      if wasValid {
        WithoutCardKeepsOwner(sourceList.cards, dragged.id, sourceList.id);
      }
      sourceList.cards := WithoutCard(sourceList.cards, dragged.id);
      cards := cards + [moved];
      if wasValid && this in board.lists {
        var t :| 0 <= t < |board.lists| && board.lists[t] == this;
        assert s != t;
        forall j | 0 <= j < |board.lists| && j != s && j != t
          ensures board.lists[j].cards == before[j]
        {
          DistinctAt(board.lists, j, s);
          DistinctAt(board.lists, j, t);
        }
        forall j | 0 <= j < |board.lists|
          ensures board.lists[j].owner == board && board.lists[j].OwnsCards()
        {
        }
        if wasUnique {
          MoveKeepsIds(before, Holdings(board.lists), s, t, dragged.id, moved);
        }
      }
    }
  }

  /** The source list, guard and all, finds something to move: some list
      holds the id, and the first one that does is not the target. */
  function MoveApplies(ls: seq<List>, k: int, targetId: int): bool
    reads ls`cards, ls`id
  {
    var src := FirstHolder(ls, k);
    src.Some? && ls[src.value].id != targetId
  }

  /** No move when no list holds the id; otherwise a move exactly when
      the first list holding it is not the target. */
  lemma MoveAppliesSpec(ls: seq<List>, k: int, targetId: int)
    ensures (forall j :: 0 <= j < |ls| ==> !HasCard(ls[j].cards, k)) ==> !MoveApplies(ls, k, targetId)
    ensures forall j :: 0 <= j < |ls| && HasCard(ls[j].cards, k) && (forall i :: 0 <= i < j ==> !HasCard(ls[i].cards, k)) ==>
      (MoveApplies(ls, k, targetId) <==> ls[j].id != targetId)
  {
  }

  /** The lists are distinct objects, call back into `b`, and own their
      cards. */
  ghost predicate WellFormed(ls: seq<List>, b: Board)
    reads ls`cards, ls`id, ls`owner
  {
    && Distinct(ls)
    && forall i :: 0 <= i < |ls| ==> ls[i].owner == b && ls[i].OwnsCards()
  }

  /** A new empty list of `b` can go on the end. */
  lemma WellFormedAppend(ls: seq<List>, l: List, b: Board)
    requires WellFormed(ls, b) && l !in ls && l.owner == b && l.cards == []
    ensures WellFormed(ls + [l], b)
  {
    DistinctAppend(ls, l);
  }

  /** Deleting lists keeps the board well formed, and leaves no card that
      names a deleted id as its parent. */
  lemma {:induction false} WellFormedWithout(ls: seq<List>, k: int, b: Board)
    requires WellFormed(ls, b)
    ensures WellFormed(WithoutList(ls, k), b)
    ensures forall i, a :: 0 <= i < |WithoutList(ls, k)| && 0 <= a < |WithoutList(ls, k)[i].cards| ==>
      WithoutList(ls, k)[i].cards[a].parentListId != k
  {
    var r := WithoutList(ls, k);
    WithoutListDistinct(ls, k);
    forall i | 0 <= i < |r|
      ensures r[i].owner == b && r[i].OwnsCards()
    {
      var j :| 0 <= j < |ls| && ls[j] == r[i];
    }
  }

  /** The lists as their card sequences. */
  function Holdings(ls: seq<List>): (css: seq<seq<Card>>)
    reads ls`cards
    ensures |css| == |ls|
    ensures forall i :: 0 <= i < |ls| ==> css[i] == ls[i].cards
  {
    if ls == [] then [] else [ls[0].cards] + Holdings(ls[1..])
  }

  /** `lists.map((list) => list.toJSON())`. */
  function ListsToJSON(ls: seq<List>): (ds: seq<ListData>)
    reads ls`id, ls`title, ls`cards
    ensures |ds| == |ls|
  {
    if ls == [] then [] else [ls[0].ToJSON()] + ListsToJSON(ls[1..])
  }

  /** Record `i` of the board is the record of list `i`. */
  lemma {:induction false} ListsToJSONAt(ls: seq<List>, i: nat)
    requires i < |ls|
    ensures ListsToJSON(ls)[i] == ls[i].ToJSON()
  {
    if i > 0 {
      ListsToJSONAt(ls[1..], i - 1);
    }
  }

  /** The first list, in board order, holding a card with id `k`. */
  function FirstHolder(ls: seq<List>, k: int): (r: Option<nat>)
    reads ls`cards
    ensures r.Some? ==> r.value < |ls| && HasCard(ls[r.value].cards, k)
    ensures r.Some? ==> forall j :: 0 <= j < r.value ==> !HasCard(ls[j].cards, k)
    ensures r.None? ==> forall j :: 0 <= j < |ls| ==> !HasCard(ls[j].cards, k)
  {
    if ls == [] then None
    else if HasCard(ls[0].cards, k) then Some(0)
    else match FirstHolder(ls[1..], k)
      case None => None
      case Some(i) => Some(i + 1)
  }

  /** The search loop of the `drop` handler: the index of the source list
      and the card `find` returned in it. */
  method LocateCard(ls: seq<List>, k: int) returns (source: Option<nat>, dragged: Option<Card>)
    ensures source == FirstHolder(ls, k)
    ensures source.Some? ==> dragged == Find(ls[source.value].cards, k) && dragged.Some?
    ensures source.None? ==> dragged.None?
  {
    source, dragged := None, None;
    var i := 0;
    while i < |ls|
      invariant 0 <= i <= |ls|
      invariant forall j :: 0 <= j < i ==> !HasCard(ls[j].cards, k)
    {
      var found := Find(ls[i].cards, k);
      if found.Some? {
        source, dragged := Some(i), found;
        break;
      }
      i := i + 1;
    }
  }

  /** No list object occurs twice. */
  predicate Distinct(ls: seq<List>)
  {
    ls == [] || (ls[0] !in ls[1..] && Distinct(ls[1..]))
  }

  /** Two positions of a sequence of distinct lists hold different lists. */
  lemma {:induction false} DistinctAt(ls: seq<List>, i: nat, j: nat)
    requires Distinct(ls) && i < |ls| && j < |ls| && i != j
    ensures ls[i] != ls[j]
    decreases |ls|
  {
    if i == 0 {
      assert ls[j] == ls[1..][j - 1];
    } else if j == 0 {
      assert ls[i] == ls[1..][i - 1];
    } else {
      DistinctAt(ls[1..], i - 1, j - 1);
    }
  }

  /** A list not yet on the board can go on the end. */
  lemma {:induction false} DistinctAppend(ls: seq<List>, l: List)
    requires Distinct(ls) && l !in ls
    ensures Distinct(ls + [l])
  {
    if ls != [] {
      assert (ls + [l])[1..] == ls[1..] + [l];
      DistinctAppend(ls[1..], l);
    }
  }

  /** `lists.filter((l) => l.id !== k)`. */
  function WithoutList(ls: seq<List>, k: int): (r: seq<List>)
    reads ls`id
    ensures forall i :: 0 <= i < |r| ==> r[i] in ls && r[i].id != k
    ensures forall i :: 0 <= i < |ls| && ls[i].id != k ==> ls[i] in r
    ensures |r| <= |ls|
  {
    if ls == [] then []
    else if ls[0].id == k then WithoutList(ls[1..], k)
    else [ls[0]] + WithoutList(ls[1..], k)
  }

  /** The filter works piecewise, so the surviving lists keep their order. */
  lemma {:induction false} WithoutListAppend(a: seq<List>, b: seq<List>, k: int)
    ensures WithoutList(a + b, k) == WithoutList(a, k) + WithoutList(b, k)
  {
    if a == [] {
      assert a + b == b;
    } else {
      assert (a + b)[1..] == a[1..] + b;
      WithoutListAppend(a[1..], b, k);
    }
  }

  /** Deleting an id no list has changes nothing. */
  lemma {:induction false} WithoutListAbsent(ls: seq<List>, k: int)
    requires forall i :: 0 <= i < |ls| ==> ls[i].id != k
    ensures WithoutList(ls, k) == ls
  {
    if ls != [] {
      WithoutListAbsent(ls[1..], k);
      assert ls == [ls[0]] + ls[1..];
    }
  }

  /** Filtering keeps the list objects distinct. */
  lemma {:induction false} WithoutListDistinct(ls: seq<List>, k: int)
    requires Distinct(ls)
    ensures Distinct(WithoutList(ls, k))
  {
    if ls != [] {
      WithoutListDistinct(ls[1..], k);
      assert ls[0] !in ls[1..];
    }
  }

  /** The number of cards held by lists with id `k`. */
  function CardsUnder(ls: seq<List>, k: int): nat
    reads ls`id, ls`cards
  {
    if ls == [] then 0 else (if ls[0].id == k then |ls[0].cards| else 0) + CardsUnder(ls[1..], k)
  }

  /** Deleting the lists with id `k` takes exactly their cards off the board. */
  lemma {:induction false} WithoutListCount(ls: seq<List>, k: int)
    ensures TotalCards(Holdings(WithoutList(ls, k))) + CardsUnder(ls, k) == TotalCards(Holdings(ls))
  {
    if ls != [] {
      WithoutListCount(ls[1..], k);
      assert Holdings(ls)[1..] == Holdings(ls[1..]);
      if ls[0].id != k {
        var r := WithoutList(ls, k);
        assert r[1..] == WithoutList(ls[1..], k);
        assert Holdings(r)[1..] == Holdings(r[1..]);
      }
    }
  }

  /** No two lists share an id. */
  ghost predicate UniqueListIds(ls: seq<List>)
    reads ls`id
  {
    forall i, j :: 0 <= i < |ls| && 0 <= j < |ls| && ls[i].id == ls[j].id ==> i == j
  }

  /** With unique list ids, the cards under an id are those of its one list. */
  lemma {:induction false} CardsUnderUnique(ls: seq<List>, i: nat)
    requires i < |ls| && UniqueListIds(ls)
    ensures CardsUnder(ls, ls[i].id) == |ls[i].cards|
  {
    if i == 0 {
      assert forall j :: 0 <= j < |ls[1..]| ==> ls[1..][j].id != ls[0].id by {
        forall j | 0 <= j < |ls[1..]|
          ensures ls[1..][j].id != ls[0].id
        {
          assert ls[j + 1] == ls[1..][j];
        }
      }
      CardsUnderAbsent(ls[1..], ls[0].id);
    } else {
      assert ls[0].id != ls[i].id;
      assert UniqueListIds(ls[1..]) by {
        forall a, b | 0 <= a < |ls[1..]| && 0 <= b < |ls[1..]| && ls[1..][a].id == ls[1..][b].id
          ensures a == b
        {
          assert ls[a + 1].id == ls[b + 1].id;
        }
      }
      CardsUnderUnique(ls[1..], i - 1);
    }
  }

  /** No list with id `k`, no cards under `k`. */
  lemma {:induction false} CardsUnderAbsent(ls: seq<List>, k: int)
    requires forall j :: 0 <= j < |ls| ==> ls[j].id != k
    ensures CardsUnder(ls, k) == 0
  {
    if ls != [] {
      CardsUnderAbsent(ls[1..], k);
    }
  }

  /** `l` is what `List.fromJSON(d, ...)` builds for board `b`. */
  ghost predicate Rehydrated(l: List, d: ListData, b: Board)
    reads l`owner, l`id, l`title, l`cards
  {
    && l.owner == b
    && l.ToJSON() == d
    && Rebound(l.cards, l.id)
    && (DataParented(d.cards, d.id) ==> l.OwnsCards())
  }

  /** Two lists with the same record whose cards' delete closures target
      their own list agree on every field but the owner: a list survives
      `toJSON` followed by `fromJSON`. */
  lemma ListRoundTrip(l: List, r: List)
    requires r.ToJSON() == l.ToJSON()
    requires Rebound(l.cards, l.id) && Rebound(r.cards, r.id)
    ensures r.id == l.id && r.title == l.title && r.cards == l.cards
  {
    CardsDeterminedByRecords(l.cards, r.cards, l.id);
  }

  /** A board rebuilt from the record of a valid board has the same title
      and, position by position, lists with the same id, title and cards. */
  lemma BoardRoundTrip(b: Board, r: Board)
    requires b.Valid()
    requires r.ToJSON() == b.ToJSON()
    requires forall i :: 0 <= i < |r.lists| ==> Rebound(r.lists[i].cards, r.lists[i].id)
    ensures r.title == b.title && |r.lists| == |b.lists|
    ensures forall i :: 0 <= i < |b.lists| ==>
      r.lists[i].id == b.lists[i].id && r.lists[i].title == b.lists[i].title && r.lists[i].cards == b.lists[i].cards
  {
    forall i | 0 <= i < |b.lists|
      ensures r.lists[i].id == b.lists[i].id && r.lists[i].title == b.lists[i].title && r.lists[i].cards == b.lists[i].cards
    {
      ListsToJSONAt(b.lists, i);
      ListsToJSONAt(r.lists, i);
      ListRoundTrip(b.lists[i], r.lists[i]);
    }
  }

  /** What a valid board saves satisfies `ConsistentData`, so loading it
      back gives a valid board again. */
  lemma SavedIsConsistent(b: Board)
    requires b.Valid()
    ensures ConsistentData(b.ToJSON())
  {
    var data := b.ToJSON();
    forall i | 0 <= i < |data.lists|
      ensures DataParented(data.lists[i].cards, data.lists[i].id)
    {
      ListsToJSONAt(b.lists, i);
      ParentedRecords(b.lists[i].cards, b.lists[i].id);
    }
  }

  /** Every card record names the list record holding it as its parent. */
  predicate ConsistentData(data: BoardData)
  {
    forall i :: 0 <= i < |data.lists| ==> DataParented(data.lists[i].cards, data.lists[i].id)
  }

  class Board {
    var title: string
    var lists: seq<List>
    /** Where `save` writes (the page's local storage). */
    const store: Storage

    /** `new Board(title)`. */
    constructor (title: string, store: Storage)
      ensures this.title == title && lists == [] && this.store == store
    {
      this.title := title;
      lists := [];
      this.store := store;
    }

    /** The containment invariant: every list is held once, calls back into
        this board, and owns its cards (their parent id and delete target
        are the list's id). */
    ghost predicate Valid()
      reads this`lists, lists`cards, lists`id, lists`owner
    {
      WellFormed(lists, this)
    }

    /** `board.toJSON()`: the title and the lists' records in order
        (record `i` is list `i`'s, by `ListsToJSONAt`). */
    function ToJSON(): (r: BoardData)
      reads this`title, this`lists, lists`id, lists`title, lists`cards
      ensures r.title == title && |r.lists| == |lists|
    {
      BoardData(title, ListsToJSON(lists))
    }

    /** `board.save()`: the serialized board goes into storage. */
    method Save()
      modifies store`kanban
      ensures store.kanban == Some(ToJSON())
    {
      store.kanban := Some(ToJSON());
    }

    /** `Board.fromJSON(data)`: a new board whose lists are rebuilt from
        the records, each calling back into the new board. */
    static method FromJSON(data: BoardData, store: Storage, now: int) returns (b: Board)
      ensures fresh(b) && b.store == store
      ensures b.ToJSON() == data
      ensures Distinct(b.lists)
      ensures forall i :: 0 <= i < |b.lists| ==>
        fresh(b.lists[i]) && b.lists[i].owner == b && Rebound(b.lists[i].cards, b.lists[i].id)
      ensures ConsistentData(data) ==> b.Valid()
    {
      b := new Board(data.title, store);
      var ls := RehydrateLists(data.lists, b, now);
      b.lists := ls;
      forall j | 0 <= j < |ls|
        ensures ListsToJSON(ls)[j] == data.lists[j]
      {
        ListsToJSONAt(ls, j);
      }
      assert ListsToJSON(ls) == data.lists;
    }

    /** `Board.fromJSON` applied to what `save` stores: the rebuilt board
        is valid and agrees with this one on the title and, list by list,
        on id, title and cards. */
    method Reload(now: int) returns (r: Board)
      requires Valid()
      ensures r.Valid() && r.ToJSON() == ToJSON()
      ensures r.title == title && |r.lists| == |lists|
      ensures forall i :: 0 <= i < |lists| ==>
        r.lists[i].id == lists[i].id && r.lists[i].title == lists[i].title && r.lists[i].cards == lists[i].cards
    {
      SavedIsConsistent(this);
      r := FromJSON(ToJSON(), store, now);
      BoardRoundTrip(this, r);
    }

    /** The `data.lists.map(...)` of `Board.fromJSON`: one new list per
        record, each calling back into `b`. */
    static method RehydrateLists(ds: seq<ListData>, b: Board, now: int) returns (ls: seq<List>)
      ensures |ls| == |ds| && Distinct(ls)
      ensures forall j :: 0 <= j < |ds| ==> fresh(ls[j]) && Rehydrated(ls[j], ds[j], b)
    {
      ls := [];
      var i := 0;
      while i < |ds|
        invariant 0 <= i <= |ds|
        invariant |ls| == i
        invariant Distinct(ls)
        invariant forall j :: 0 <= j < i ==> fresh(ls[j]) && Rehydrated(ls[j], ds[j], b)
      {
        var l := List.FromJSON(ds[i], b, now);
        DistinctAppend(ls, l);
        ls := ls + [l];
        i := i + 1;
      }
    }

    /** The "Add List" button: a cancelled (`None`) or empty title is
        ignored; otherwise a new, empty list goes on the end and the board
        is saved. */
    method AddList(title: Option<string>, now: int)
      modifies this`lists, store`kanban
      ensures title == None || title == Some("") ==>
        lists == old(lists) && store.kanban == old(store.kanban)
      ensures title.Some? && title.value != "" ==>
        && |lists| == |old(lists)| + 1
        && lists[..|old(lists)|] == old(lists)
        && fresh(lists[|old(lists)|])
        && lists[|old(lists)|].id == now
        && lists[|old(lists)|].title == title.value
        && lists[|old(lists)|].cards == []
        && lists[|old(lists)|].owner == this
        && store.kanban == Some(ToJSON())
      ensures old(Valid()) ==> Valid()
    {
      if title.None? || title.value == "" {
        return;
      }
      ghost var wasValid := Valid();
      var l := new List(now, title.value, this);
      if wasValid {
        WellFormedAppend(lists, l, this);
      }
      lists := lists + [l];
      Save();
    }

    /** The `onDelete` closure of this board's lists: every list with id
        `listId` is filtered out, with its cards; then the board is saved. */
    method DeleteList(listId: int)
      modifies this`lists, store`kanban
      ensures lists == WithoutList(old(lists), listId)
      ensures store.kanban == Some(ToJSON())
      ensures old(Valid()) ==> Valid()
      ensures old(Valid()) ==>
        forall i, a :: 0 <= i < |lists| && 0 <= a < |lists[i].cards| ==> lists[i].cards[a].parentListId != listId
    {
      if Valid() {
        WellFormedWithout(lists, listId, this);
      }
      lists := WithoutList(lists, listId);
      Save();
    }
  }
}
