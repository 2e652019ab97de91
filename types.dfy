/**
 * The records of src/handlers/types/types.go, plus the two API Gateway
 * records (request and response) that both handlers exchange with the
 * Lambda runtime.
 */
module Types {
  import opened Wrappers

  /** A device; every field is a JSON string with the key named in FieldKeys. */
  datatype Device = Device(id: string, deviceModel: string, name: string, note: string, serial: string)

  const IdKey: string := "id"
  const DeviceModelKey: string := "deviceModel"
  const NameKey: string := "name"
  const NoteKey: string := "note"
  const SerialKey: string := "serial"

  /** The JSON keys of Device, in declaration (and serialisation) order. */
  const FieldKeys: seq<string> := [IdKey, DeviceModelKey, NameKey, NoteKey, SerialKey]

  /** Go's zero value `types.Device{}`: every field is the empty string. */
  const ZeroDevice: Device := Device("", "", "", "", "")

  /** The field of `d` whose JSON key is `key`; "" for a key Device does not have. */
  function Field(d: Device, key: string): (r: string)
    ensures key !in FieldKeys ==> r == ""
  {
    if key == IdKey then d.id
    else if key == DeviceModelKey then d.deviceModel
    else if key == NameKey then d.name
    else if key == NoteKey then d.note
    else if key == SerialKey then d.serial
    else ""
  }

  /** A device is complete when none of its five fields is empty. */
  predicate Complete(d: Device) {
    forall k :: k in FieldKeys ==> Field(d, k) != ""
  }

  /**
   * Decoding a string-keyed record into an existing Device, as both
   * json.Unmarshal (into the pre-initialised device of validateInputs) and
   * dynamodbattribute.UnmarshalMap (into `types.Device{}`) do: every field
   * whose key is present is overwritten, every other field keeps its value,
   * and keys Device does not have are ignored.
   */
  function Populate(d: Device, attrs: map<string, string>): (r: Device)
    ensures forall k :: k in FieldKeys ==> Field(r, k) == (if k in attrs then attrs[k] else Field(d, k))
  {
    Device(
      if IdKey in attrs then attrs[IdKey] else d.id,
      if DeviceModelKey in attrs then attrs[DeviceModelKey] else d.deviceModel,
      if NameKey in attrs then attrs[NameKey] else d.name,
      if NoteKey in attrs then attrs[NoteKey] else d.note,
      if SerialKey in attrs then attrs[SerialKey] else d.serial)
  }

  /**
   * The zero device has every field empty: it is not complete, and decoding
   * an empty record into it leaves it as it is.
   */
  lemma ZeroDeviceIsEmpty()
    ensures forall k :: k in FieldKeys ==> Field(ZeroDevice, k) == ""
    ensures !Complete(ZeroDevice)
    ensures Populate(ZeroDevice, map[]) == ZeroDevice
  {
    assert FieldKeys[0] == IdKey && Field(ZeroDevice, IdKey) == "";
  }

  /** Two devices are equal exactly when they agree on every JSON key. */
  lemma FieldsDetermineDevice(d: Device, e: Device)
    requires forall k :: k in FieldKeys ==> Field(d, k) == Field(e, k)
    ensures d == e
  {
    assert Field(d, IdKey) == Field(e, IdKey);
    assert Field(d, DeviceModelKey) == Field(e, DeviceModelKey);
    assert Field(d, NameKey) == Field(e, NameKey);
    assert Field(d, NoteKey) == Field(e, NoteKey);
    assert Field(d, SerialKey) == Field(e, SerialKey);
  }

  /** `types.ErrorMessage`: JSON keys "code" then "message". */
  datatype ErrorMessage = ErrorMessage(code: int, message: string)

  /** `types.ErrorResponse`: the error message under the JSON key "error". */
  datatype ErrorResponse = ErrorResponse(error: ErrorMessage)

  /**
   * `types.DatabseStruct`: the session error recorded at start-up (None for
   * Go's nil error) and the table name (None for an unset name).
   */
  datatype DatabaseConfig = DatabaseConfig(sessionError: Option<string>, tableName: Option<string>)

  /** The configuration is healthy when there is no session error and a table name is present. */
  predicate Healthy(config: DatabaseConfig) {
    config.sessionError.None? && config.tableName.Some?
  }

  /** The parts of `events.APIGatewayProxyRequest` the handlers read. */
  datatype Request = Request(body: string, pathParameters: map<string, string>)

  /** `events.APIGatewayProxyResponse`: a status code and a body. */
  datatype Response = Response(statusCode: int, body: string)
}
