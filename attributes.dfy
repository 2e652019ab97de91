/**
 * The DynamoDB item a Device is stored as, as dynamodbattribute.MarshalMap
 * writes it and UnmarshalMap reads it for the two handlers: one string
 * attribute per field, named by the field's JSON key.
 */
module Attributes {
  import opened Types

  /** A DynamoDB item restricted to string attributes: attribute name to value. */
  type Item = map<string, string>

  /** The attribute names of a stored device. */
  const DeviceAttributes: set<string> := set k | k in FieldKeys

  /** dynamodbattribute.MarshalMap of a Device (addDevice.go, insertItemToDatabase). */
  function MarshalMap(d: Device): (item: Item)
    ensures item.Keys == DeviceAttributes
    ensures forall k :: k in FieldKeys ==> item[k] == Field(d, k)
  {
    map[IdKey := d.id, DeviceModelKey := d.deviceModel, NameKey := d.name, NoteKey := d.note, SerialKey := d.serial]
  }

  /**
   * dynamodbattribute.UnmarshalMap into `types.Device{}` (getDeviceById.go,
   * createSuccessResponseJson): attributes named like a field fill it, every
   * other field stays "".
   */
  function UnmarshalMap(item: Item): (d: Device)
    ensures forall k :: k in FieldKeys ==> Field(d, k) == (if k in item then item[k] else "")
  {
    Populate(ZeroDevice, item)
  }

  /** A device survives being stored and read back. */
  lemma UnmarshalMarshal(d: Device)
    ensures UnmarshalMap(MarshalMap(d)) == d
  {
    FieldsDetermineDevice(UnmarshalMap(MarshalMap(d)), d);
  }

  /** An item with exactly the five attributes survives being read and stored again. */
  lemma MarshalUnmarshal(item: Item)
    requires item.Keys == DeviceAttributes
    ensures MarshalMap(UnmarshalMap(item)) == item
  {
    var back := MarshalMap(UnmarshalMap(item));
    forall k | k in item ensures k in back && back[k] == item[k] {
      assert k in FieldKeys;
    }
  }

  /** Items that differ only in attributes a Device does not have read as the same device. */
  lemma UnmarshalIgnoresOtherAttributes(item: Item, other: Item)
    requires forall k :: k in DeviceAttributes ==> (k in item <==> k in other)
    requires forall k :: k in DeviceAttributes && k in item ==> item[k] == other[k]
    ensures UnmarshalMap(item) == UnmarshalMap(other)
  {
    FieldsDetermineDevice(UnmarshalMap(item), UnmarshalMap(other));
  }
}
