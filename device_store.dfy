/**
 * An in-memory stand-in for the DynamoDB table both handlers reach through
 * PutItem and GetItem: items keyed by their "id" attribute, a write that
 * overwrites unconditionally (last writer wins), a read that answers an
 * unknown key with an empty item rather than an error, and a switch that
 * makes every call fail the way an unreachable or misconfigured table does.
 */
module DeviceStore {
  import opened Wrappers
  import opened Types
  import opened Attributes

  /** GetItem's answer: the item found (empty when none matched) and the error, if any. */
  datatype GetItemResult = GetItemResult(item: Item, err: Option<string>)

  class DeviceTable {
    var items: map<string, Item>
    var available: bool

    /** Every item is stored under the value of its own "id" attribute. */
    ghost predicate Valid()
      reads this
    {
      forall k :: k in items ==> IdKey in items[k] && items[k][IdKey] == k
    }

    constructor (available: bool)
      ensures Valid()
      ensures items == map[] && this.available == available
    {
      items := map[];
      this.available := available;
    }

    /**
     * PutItem: fails when the table is unavailable or the item has no "id"
     * attribute; otherwise stores the item under its id, replacing any item
     * stored there, and leaves every other item as it was.
     */
    method PutItem(item: Item) returns (err: Option<string>)
      requires Valid()
      modifies this
      ensures Valid() && available == old(available)
      ensures err.None? <==> old(available) && IdKey in item
      ensures err.None? ==> items == old(items)[item[IdKey] := item]
      ensures err.Some? ==> items == old(items)
    {
      if !available {
        err := Some("table unavailable");
      } else if IdKey !in item {
        err := Some("item has no id attribute");
      } else {
        items := items[item[IdKey] := item];
        err := None;
      }
    }

    /**
     * GetItem: fails when the table is unavailable or the key is not exactly
     * the "id" attribute; otherwise returns the item stored under that id, or
     * an empty item when there is none.
     */
    function GetItem(key: Item): (r: GetItemResult)
      reads this
      ensures r.err.None? <==> available && key.Keys == {IdKey}
      ensures r.err.None? && key[IdKey] in items ==> r.item == items[key[IdKey]]
      ensures r.err.None? && key[IdKey] !in items ==> r.item == map[]
    {
      if !available then GetItemResult(map[], Some("table unavailable"))
      else if key.Keys != {IdKey} then GetItemResult(map[], Some("key does not match the key schema"))
      else GetItemResult(if key[IdKey] in items then items[key[IdKey]] else map[], None)
    }

    /** A stored item is never empty: it holds at least its "id" attribute. */
    lemma StoredItemsAreNonEmpty(id: string)
      requires Valid() && id in items
      ensures |items[id]| > 0
    {
      assert IdKey in items[id];
    }
  }
}
