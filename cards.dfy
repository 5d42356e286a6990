/** Card.js: the leaf task item of the board, the record it persists as,
    and the two conversions between them. */
module Cards {

  /** A card as the page holds it. `deleteTarget` stands for the card's
      `onDelete` closure: it is the id of the list whose `cards` that
      closure filters. */
  datatype Card = Card(
    id: int,
    title: string,
    description: string,
    parentListId: int,
    deleteTarget: int)

  /** The plain record a card serializes to: its durable fields and
      nothing else (no closure). */
  datatype CardData = CardData(
    id: int,
    title: string,
    description: string,
    parentListId: int)

  /** `new Card(title, description, parentListId, onDelete)`; `now` is the
      clock reading the constructor takes as the id. */
  function NewCard(now: int, title: string, description: string, parentListId: int, onDelete: int): (c: Card)
    ensures ToJSON(c) == CardData(now, title, description, parentListId)
    ensures c.deleteTarget == onDelete
  {
    Card(now, title, description, parentListId, onDelete)
  }

  /** `card.toJSON()`: the durable fields only. */
  function ToJSON(c: Card): (r: CardData)
    ensures r.id == c.id && r.title == c.title && r.description == c.description && r.parentListId == c.parentListId
  {
    CardData(c.id, c.title, c.description, c.parentListId)
  }

  /** `Card.fromJSON(data, onDelete)`: builds a card through the
      constructor (which reads the clock, `now`) and then puts back the
      record's own id. */
  function FromJSON(d: CardData, onDelete: int, now: int): (c: Card)
    ensures ToJSON(c) == d
    ensures c.deleteTarget == onDelete
  {
    NewCard(now, d.title, d.description, d.parentListId, onDelete).(id := d.id)
  }

  /** The record does not depend on the delete closure. */
  lemma ToJSONIgnoresDeleteTarget(c: Card, onDelete: int)
    ensures ToJSON(c.(deleteTarget := onDelete)) == ToJSON(c)
  {
  }

  /** Rehydration keeps the record's id and ignores the clock reading. */
  lemma FromJSONIgnoresClock(d: CardData, onDelete: int, now1: int, now2: int)
    ensures FromJSON(d, onDelete, now1) == FromJSON(d, onDelete, now2)
    ensures FromJSON(d, onDelete, now1).id == d.id
  {
  }

  /** Saving a card and rehydrating it with its own delete target gives
      the card back. */
  lemma RoundTrip(c: Card, now: int)
    ensures FromJSON(ToJSON(c), c.deleteTarget, now) == c
  {
  }
}
