/** The pure parts of List.js: what a list does to its `cards` sequence
    (map to records and back, `find` by id, `filter` by id), and the
    counting of cards and card ids over all the lists of a board. */
module CardLists {
  import opened Wrappers
  import opened Cards

  /** Some card of `cs` has id `k`. */
  predicate HasCard(cs: seq<Card>, k: int)
  {
    exists i :: 0 <= i < |cs| && cs[i].id == k
  }

  /** `cards.find((c) => c.id == k)`: the first card with id `k`, if any. */
  function Find(cs: seq<Card>, k: int): (r: Option<Card>)
    ensures r.Some? <==> HasCard(cs, k)
    ensures r.Some? ==> r.value.id == k
    ensures r.Some? ==> exists i :: 0 <= i < |cs| && cs[i] == r.value && NoneBefore(cs, i, k)
  {
    if cs == [] then None
    else if cs[0].id == k then
      assert NoneBefore(cs, 0, k);
      Some(cs[0])
    else
      var r := Find(cs[1..], k);
      assert HasCard(cs, k) ==> HasCard(cs[1..], k) by {
        if HasCard(cs, k) {
          var i :| 0 <= i < |cs| && cs[i].id == k;
          assert cs[1..][i - 1].id == k;
        }
      }
      assert r.Some? ==> exists i :: 0 <= i < |cs| && cs[i] == r.value && NoneBefore(cs, i, k) by {
        if r.Some? {
          var i :| 0 <= i < |cs[1..]| && cs[1..][i] == r.value && NoneBefore(cs[1..], i, k);
          assert cs[i + 1] == r.value && NoneBefore(cs, i + 1, k);
        }
      }
      r
  }

  /** No card before position `i` of `cs` has id `k`. */
  predicate NoneBefore(cs: seq<Card>, i: int, k: int)
    requires 0 <= i <= |cs|
  {
    forall j :: 0 <= j < i ==> cs[j].id != k
  }

  /** `cards.filter((c) => c.id != k)`: every card with id `k` removed,
      the others kept in order. */
  function WithoutCard(cs: seq<Card>, k: int): (r: seq<Card>)
    ensures forall c :: c in r <==> c in cs && c.id != k
    ensures !HasCard(r, k)
    ensures |r| <= |cs|
  {
    if cs == [] then []
    else if cs[0].id == k then WithoutCard(cs[1..], k)
    else [cs[0]] + WithoutCard(cs[1..], k)
  }

  /** The filter works piecewise, so it keeps the surviving cards in their
      original order. */
  lemma {:induction false} WithoutCardAppend(a: seq<Card>, b: seq<Card>, k: int)
    ensures WithoutCard(a + b, k) == WithoutCard(a, k) + WithoutCard(b, k)
  {
    if a == [] {
      assert a + b == b;
    } else {
      assert (a + b)[1..] == a[1..] + b;
      WithoutCardAppend(a[1..], b, k);
    }
  }

  /** Filtering out an id no card has changes nothing. */
  lemma {:induction false} WithoutCardAbsent(cs: seq<Card>, k: int)
    requires !HasCard(cs, k)
    ensures WithoutCard(cs, k) == cs
  {
    if cs != [] {
      WithoutCardAbsent(cs[1..], k);
      assert cs == [cs[0]] + cs[1..];
    }
  }

  /** How many cards of `cs` have id `y`. */
  function Occurrences(cs: seq<Card>, y: int): nat
  {
    if cs == [] then 0 else (if cs[0].id == y then 1 else 0) + Occurrences(cs[1..], y)
  }

  /** An id occurs exactly when some card carries it. */
  lemma {:induction false} OccurrencesHas(cs: seq<Card>, k: int)
    ensures Occurrences(cs, k) > 0 <==> HasCard(cs, k)
  {
    if cs != [] {
      OccurrencesHas(cs[1..], k);
      if HasCard(cs, k) && cs[0].id != k {
        var i :| 0 <= i < |cs| && cs[i].id == k;
        assert cs[1..][i - 1].id == k;
      }
      if HasCard(cs[1..], k) {
        var i :| 0 <= i < |cs[1..]| && cs[1..][i].id == k;
        assert cs[i + 1].id == k;
      }
    }
  }

  /** Filtering out id `k` removes every occurrence of `k` and leaves the
      count of every other id alone. */
  lemma {:induction false} WithoutCardOccurrences(cs: seq<Card>, k: int, y: int)
    ensures Occurrences(WithoutCard(cs, k), y) == if y == k then 0 else Occurrences(cs, y)
  {
    if cs != [] {
      WithoutCardOccurrences(cs[1..], k, y);
      if cs[0].id != k {
        assert ([cs[0]] + WithoutCard(cs[1..], k))[1..] == WithoutCard(cs[1..], k);
      }
    }
  }

  /** The filter drops exactly the cards with id `k`. */
  lemma {:induction false} WithoutCardLength(cs: seq<Card>, k: int)
    ensures |WithoutCard(cs, k)| + Occurrences(cs, k) == |cs|
  {
    if cs != [] {
      WithoutCardLength(cs[1..], k);
    }
  }

  /** Appending a card adds one occurrence of its id. */
  lemma {:induction false} OccurrencesAppend(cs: seq<Card>, c: Card, y: int)
    ensures Occurrences(cs + [c], y) == Occurrences(cs, y) + if c.id == y then 1 else 0
  {
    if cs == [] {
      assert ([c])[1..] == [];
    } else {
      assert (cs + [c])[1..] == cs[1..] + [c];
      OccurrencesAppend(cs[1..], c, y);
    }
  }

  /** `cards.map((card) => card.toJSON())`: same length, same order. */
  function CardsToJSON(cs: seq<Card>): (ds: seq<CardData>)
    ensures |ds| == |cs|
  {
    if cs == [] then [] else [Cards.ToJSON(cs[0])] + CardsToJSON(cs[1..])
  }

  /** Record `i` is the record of card `i`. */
  lemma {:induction false} CardsToJSONAt(cs: seq<Card>, i: nat)
    requires i < |cs|
    ensures CardsToJSON(cs)[i] == Cards.ToJSON(cs[i])
  {
    if i > 0 {
      CardsToJSONAt(cs[1..], i - 1);
    }
  }

  /** `data.cards.map((cardData) => Card.fromJSON(cardData, onDelete))`,
      every closure bound to the list with id `target`. */
  function CardsFromJSON(ds: seq<CardData>, target: int, now: int): (cs: seq<Card>)
    ensures |cs| == |ds|
    ensures forall i :: 0 <= i < |ds| ==> Cards.ToJSON(cs[i]) == ds[i] && cs[i].deleteTarget == target
  {
    if ds == [] then [] else [Cards.FromJSON(ds[0], target, now)] + CardsFromJSON(ds[1..], target, now)
  }

  /** Every card's delete closure filters the list with id `listId`. */
  predicate Rebound(cs: seq<Card>, listId: int)
  {
    forall i :: 0 <= i < |cs| ==> cs[i].deleteTarget == listId
  }

  /** Every card names the list with id `listId` as its parent. */
  predicate Parented(cs: seq<Card>, listId: int)
  {
    forall i :: 0 <= i < |cs| ==> cs[i].parentListId == listId
  }

  /** Every card record names `listId` as its parent. */
  predicate DataParented(ds: seq<CardData>, listId: int)
  {
    forall i :: 0 <= i < |ds| ==> ds[i].parentListId == listId
  }

  /** Filtering keeps every surviving card's parent and delete target. */
  lemma {:induction false} WithoutCardKeepsOwner(cs: seq<Card>, k: int, listId: int)
    requires Parented(cs, listId) && Rebound(cs, listId)
    ensures Parented(WithoutCard(cs, k), listId) && Rebound(WithoutCard(cs, k), listId)
  {
    var r := WithoutCard(cs, k);
    forall i | 0 <= i < |r|
      ensures r[i].parentListId == listId && r[i].deleteTarget == listId
    {
      assert r[i] in r;
      var j :| 0 <= j < |cs| && cs[j] == r[i];
    }
  }

  /** Rehydrating the records of a list's cards under the same list gives
      the same cards back, closures included. */
  lemma {:induction false} CardsRoundTrip(cs: seq<Card>, target: int, now: int)
    requires Rebound(cs, target)
    ensures CardsFromJSON(CardsToJSON(cs), target, now) == cs
  {
    var r := CardsFromJSON(CardsToJSON(cs), target, now);
    forall i | 0 <= i < |cs|
      ensures r[i] == cs[i]
    {
      CardsToJSONAt(cs, i);
      Cards.RoundTrip(cs[i], now);
    }
  }

  /** Cards whose delete closures target the same list are determined by
      their records: nothing durable is lost in `toJSON`. */
  lemma CardsDeterminedByRecords(a: seq<Card>, b: seq<Card>, target: int)
    requires Rebound(a, target) && Rebound(b, target)
    requires CardsToJSON(a) == CardsToJSON(b)
    ensures a == b
  {
    CardsRoundTrip(a, target, 0);
    CardsRoundTrip(b, target, 0);
  }

  /** Serializing the rehydrated cards gives back the records. */
  lemma {:induction false} CardsRecordRoundTrip(ds: seq<CardData>, target: int, now: int)
    ensures CardsToJSON(CardsFromJSON(ds, target, now)) == ds
  {
    var cs := CardsFromJSON(ds, target, now);
    forall i | 0 <= i < |ds|
      ensures CardsToJSON(cs)[i] == ds[i]
    {
      CardsToJSONAt(cs, i);
    }
  }

  /** The parent back-references survive serialization, in both directions. */
  lemma ParentedRecords(cs: seq<Card>, listId: int)
    ensures Parented(cs, listId) <==> DataParented(CardsToJSON(cs), listId)
  {
    forall i | 0 <= i < |cs|
      ensures CardsToJSON(cs)[i].parentListId == cs[i].parentListId
    {
      CardsToJSONAt(cs, i);
    }
  }

  // ---- counting over the lists of a board, given as their card sequences ----

  /** The number of cards on the board. */
  function TotalCards(css: seq<seq<Card>>): nat
  {
    if css == [] then 0 else |css[0]| + TotalCards(css[1..])
  }

  /** How many cards on the board have id `y`. */
  function BoardOccurrences(css: seq<seq<Card>>, y: int): nat
  {
    if css == [] then 0 else Occurrences(css[0], y) + BoardOccurrences(css[1..], y)
  }

  /** No card id occurs twice on the board. */
  ghost predicate UniqueIds(css: seq<seq<Card>>)
  {
    forall y :: BoardOccurrences(css, y) <= 1
  }

  /** Two boards hold the same number of cards, and the same number of
      cards with each id. */
  ghost predicate SameCardIds(a: seq<seq<Card>>, b: seq<seq<Card>>)
  {
    && TotalCards(a) == TotalCards(b)
    && forall y :: BoardOccurrences(a, y) == BoardOccurrences(b, y)
  }

  /** Replacing the cards of one list replaces its occurrences on the board. */
  lemma {:induction false} BoardOccurrencesUpdate(css: seq<seq<Card>>, i: nat, x: seq<Card>, y: int)
    requires i < |css|
    ensures BoardOccurrences(css[i := x], y) + Occurrences(css[i], y) == BoardOccurrences(css, y) + Occurrences(x, y)
  {
    if i > 0 {
      assert css[i := x][1..] == css[1..][i - 1 := x];
      BoardOccurrencesUpdate(css[1..], i - 1, x, y);
    } else {
      assert css[i := x][1..] == css[1..];
    }
  }

  /** Replacing the cards of one list changes the count by the difference. */
  lemma {:induction false} TotalCardsUpdate(css: seq<seq<Card>>, i: nat, x: seq<Card>)
    requires i < |css|
    ensures TotalCards(css[i := x]) + |css[i]| == TotalCards(css) + |x|
  {
    if i > 0 {
      assert css[i := x][1..] == css[1..][i - 1 := x];
      TotalCardsUpdate(css[1..], i - 1, x);
    } else {
      assert css[i := x][1..] == css[1..];
    }
  }

  /** The cards of one list are among the board's cards. */
  lemma {:induction false} ListOccurrencesOnBoard(css: seq<seq<Card>>, i: nat, y: int)
    requires i < |css|
    ensures Occurrences(css[i], y) <= BoardOccurrences(css, y)
  {
    if i > 0 {
      ListOccurrencesOnBoard(css[1..], i - 1, y);
    }
  }

  /** Moving the (only) card with id `k` from list `s` to the end of list
      `t`, under any new parent and delete target, keeps the count of every
      id on the board, and therefore the card count and the uniqueness of
      the ids. */
  lemma MoveKeepsIds(css: seq<seq<Card>>, fin: seq<seq<Card>>, s: nat, t: nat, k: int, moved: Card)
    requires s < |css| && t < |css| && s != t
    requires HasCard(css[s], k) && moved.id == k
    requires UniqueIds(css)
    requires |fin| == |css| && fin[s] == WithoutCard(css[s], k) && fin[t] == css[t] + [moved]
    requires forall j :: 0 <= j < |css| && j != s && j != t ==> fin[j] == css[j]
    ensures SameCardIds(fin, css)
  {
    var w := WithoutCard(css[s], k);
    var mid := css[s := w];
    assert mid[t] == css[t];
    assert fin == mid[t := css[t] + [moved]];
    assert Occurrences(css[s], k) == 1 by {
      OccurrencesHas(css[s], k);
      ListOccurrencesOnBoard(css, s, k);
      assert BoardOccurrences(css, k) <= 1;
    }
    forall y
      ensures BoardOccurrences(fin, y) == BoardOccurrences(css, y)
    {
      WithoutCardOccurrences(css[s], k, y);
      BoardOccurrencesUpdate(css, s, w, y);
      OccurrencesAppend(css[t], moved, y);
      BoardOccurrencesUpdate(mid, t, css[t] + [moved], y);
    }
    WithoutCardLength(css[s], k);
    TotalCardsUpdate(css, s, w);
    TotalCardsUpdate(mid, t, css[t] + [moved]);
  }
}
