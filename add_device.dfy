/**
 * The add handler of src/handlers/addDevice/addDevice.go: validate the
 * request body into a Device, write it to the table, and answer with a
 * status code and an envelope.
 */
module AddDeviceHandler {
  import opened Wrappers
  import opened Types
  import opened JsonText
  import opened Envelope
  import opened Attributes
  import opened DeviceStore

  // The longer messages are written in two pieces only so that the verifier can index into them.
  const NoInputsMessage: string := "No inputs provided, " + "please provide inputs in json format."
  const WrongFormatMessage: string := "Wrong format: " + "Inputs must be a valid json."
  const MissingFieldsPrefix: string := "Following fields are not provided: "
  const InternalErrorMessage: string := "Internal Server's Error occured"
  const InsertedStatus: string := "requested item inserted"

  /**
   * What json.Unmarshal makes of a request body: a failure, or the string
   * members whose keys name a Device field (the decoder's own rules for
   * matching keys, nulls and mismatched types are left to it).
   */
  datatype Decoded = DecodeFailure | DecodeSuccess(members: map<string, string>)

  // ----- Response bodies -----

  /** createErrorResponseJson: an error envelope carrying exactly the given code and message. */
  function CreateErrorResponseJson(errorCode: int, errorMessage: string): (body: string)
    ensures ReadErrorResponse(body) == Some(ErrorResponse(ErrorMessage(errorCode, errorMessage)))
  {
    var e := ErrorResponse(ErrorMessage(errorCode, errorMessage));
    ReadMarshalledError(e);
    MarshalErrorResponse(e)
  }

  /** createSuccessResponseJson: status 201 and the inserted device under "data". */
  function CreateSuccessResponseJson(newDevice: Device): (r: Response)
    ensures r.statusCode == 201
    ensures ReadStatusResponse(r.body) == Some(StatusResponse(InsertedStatus, newDevice))
  {
    var s := StatusResponse(InsertedStatus, newDevice);
    ReadMarshalledStatus(s);
    Response(201, MarshalStatusResponse(s))
  }

  // ----- The missing-fields message -----

  /** The keys among `keys` whose field in `d` is empty, in the order of `keys`. */
  function EmptyKeys(d: Device, keys: seq<string>): seq<string> {
    if keys == [] then []
    else (if Field(d, keys[0]) == "" then [keys[0]] else []) + EmptyKeys(d, keys[1..])
  }

  /** The JSON keys of the empty fields of `d`, in declaration order. */
  function MissingKeys(d: Device): seq<string> {
    EmptyKeys(d, FieldKeys)
  }

  /** Each key followed by ", ", the last one included. */
  function ListKeys(keys: seq<string>): string {
    if keys == [] then "" else keys[0] + ", " + ListKeys(keys[1..])
  }

  function MissingFieldsMessage(d: Device): string {
    MissingFieldsPrefix + ListKeys(MissingKeys(d))
  }

  /** `a` is `b` with some elements left out, the rest kept in order. */
  predicate IsSubsequence(a: seq<string>, b: seq<string>)
    decreases |b|
  {
    a == [] || (b != [] && ((a[0] == b[0] && IsSubsequence(a[1..], b[1..])) || IsSubsequence(a, b[1..])))
  }

  lemma {:induction false} EmptyKeysFilter(d: Device, keys: seq<string>)
    ensures forall k :: k in EmptyKeys(d, keys) <==> k in keys && Field(d, k) == ""
    ensures IsSubsequence(EmptyKeys(d, keys), keys)
  {
    if keys != [] {
      EmptyKeysFilter(d, keys[1..]);
      var rest := EmptyKeys(d, keys[1..]);
      if Field(d, keys[0]) == "" {
        assert EmptyKeys(d, keys) == [keys[0]] + rest;
        assert (([keys[0]] + rest)[1..]) == rest;
      } else {
        assert EmptyKeys(d, keys) == rest;
      }
      forall k ensures k in keys <==> k == keys[0] || k in keys[1..] {
        assert keys == [keys[0]] + keys[1..];
      }
    }
  }

  /**
   * The message lists exactly the empty fields, in the order id,
   * deviceModel, name, note, serial; there are none exactly when the
   * device is complete.
   */
  lemma MissingKeysExact(d: Device)
    ensures forall k :: k in MissingKeys(d) <==> k in FieldKeys && Field(d, k) == ""
    ensures IsSubsequence(MissingKeys(d), FieldKeys)
    ensures MissingKeys(d) == [] <==> Complete(d)
  {
    EmptyKeysFilter(d, FieldKeys);
    if MissingKeys(d) != [] {
      assert MissingKeys(d)[0] in MissingKeys(d);
    }
  }

  lemma {:induction false} EmptyKeysAppend(d: Device, a: seq<string>, b: seq<string>)
    ensures EmptyKeys(d, a + b) == EmptyKeys(d, a) + EmptyKeys(d, b)
  {
    if a == [] {
      assert a + b == b;
    } else {
      assert (a + b)[0] == a[0];
      assert (a + b)[1..] == a[1..] + b;
      EmptyKeysAppend(d, a[1..], b);
    }
  }

  lemma EmptyKeysSingle(d: Device, k: string)
    ensures EmptyKeys(d, [k]) == if Field(d, k) == "" then [k] else []
  {
    assert [k][1..] == [];
  }

  /** The key, when its field is empty. */
  function IfEmpty(field: string, key: string): seq<string> {
    if field == "" then [key] else []
  }

  /** MissingKeys written out field by field, as validateInputs checks them. */
  lemma MissingKeysUnrolled(d: Device)
    ensures MissingKeys(d) ==
      IfEmpty(d.id, IdKey) + IfEmpty(d.deviceModel, DeviceModelKey) + IfEmpty(d.name, NameKey)
      + IfEmpty(d.note, NoteKey) + IfEmpty(d.serial, SerialKey)
  {
    assert FieldKeys == [IdKey] + [DeviceModelKey] + [NameKey] + [NoteKey] + [SerialKey];
    EmptyKeysAppend(d, [IdKey] + [DeviceModelKey] + [NameKey] + [NoteKey], [SerialKey]);
    EmptyKeysAppend(d, [IdKey] + [DeviceModelKey] + [NameKey], [NoteKey]);
    EmptyKeysAppend(d, [IdKey] + [DeviceModelKey], [NameKey]);
    EmptyKeysAppend(d, [IdKey], [DeviceModelKey]);
    EmptyKeysSingle(d, IdKey);
    EmptyKeysSingle(d, DeviceModelKey);
    EmptyKeysSingle(d, NameKey);
    EmptyKeysSingle(d, NoteKey);
    EmptyKeysSingle(d, SerialKey);
  }

  lemma {:induction false} ListKeysAppend(keys: seq<string>, k: string)
    ensures ListKeys(keys + [k]) == ListKeys(keys) + k + ", "
  {
    if keys != [] {
      assert (keys + [k])[1..] == keys[1..] + [k];
      ListKeysAppend(keys[1..], k);
    } else {
      assert [] + [k] == [k];
    }
  }

  /** One more key in the list is one more `key, ` at the end of the message. */
  lemma ListedKeyAppended(listed: seq<string>, k: string)
    ensures MissingFieldsPrefix + ListKeys(listed) + k + ", " == MissingFieldsPrefix + ListKeys(listed + [k])
  {
    ListKeysAppend(listed, k);
  }

  /** A message that lists at least one field keeps the trailing ", ". */
  lemma MissingMessageEndsWithSeparator(d: Device)
    requires !Complete(d)
    ensures MissingFieldsMessage(d)[..|MissingFieldsPrefix|] == MissingFieldsPrefix
    ensures |MissingFieldsMessage(d)| >= |MissingFieldsPrefix| + 2
    ensures MissingFieldsMessage(d)[|MissingFieldsMessage(d)| - 2..] == ", "
  {
    MissingKeysExact(d);
    var ks := MissingKeys(d);
    var last := ks[|ks| - 1];
    assert ks == ks[..|ks| - 1] + [last];
    ListKeysAppend(ks[..|ks| - 1], last);
  }

  // ----- Reading the list back -----

  /** The length of the run of characters other than ',' that starts `t`. */
  function SpanKey(t: string): (k: nat)
    ensures k <= |t| && (k < |t| ==> t[k] == ',')
    ensures forall i :: 0 <= i < k ==> t[i] != ','
  {
    if t == [] || t[0] == ',' then 0 else 1 + SpanKey(t[1..])
  }

  /** Splits a list written by ListKeys back into its keys. */
  function ReadKeys(t: string): Option<seq<string>>
    decreases |t|
  {
    if t == [] then Some([])
    else
      var k := SpanKey(t);
      if k + 2 <= |t| && t[k..k + 2] == ", " then
        match ReadKeys(t[k + 2..])
        case None => None
        case Some(keys) => Some([t[..k]] + keys)
      else None
  }

  lemma {:induction false} SpanOfKey(key: string, rest: string)
    requires forall i :: 0 <= i < |key| ==> key[i] != ','
    requires rest != [] && rest[0] == ','
    ensures SpanKey(key + rest) == |key|
  {
    if key != [] {
      assert (key + rest)[1..] == key[1..] + rest;
      SpanOfKey(key[1..], rest);
    }
  }

  lemma {:induction false} ReadListedKeys(keys: seq<string>)
    requires forall j, i :: 0 <= j < |keys| && 0 <= i < |keys[j]| ==> keys[j][i] != ','
    ensures ReadKeys(ListKeys(keys)) == Some(keys)
  {
    if keys != [] {
      var t := ListKeys(keys);
      var tail := ListKeys(keys[1..]);
      assert t == keys[0] + (", " + tail);
      SpanOfKey(keys[0], ", " + tail);
      var k := |keys[0]|;
      assert t[k..k + 2] == ", ";
      assert t[k + 2..] == tail;
      assert t[..k] == keys[0];
      ReadListedKeys(keys[1..]);
      assert [keys[0]] + keys[1..] == keys;
    }
  }

  lemma KeysHaveNoComma()
    ensures forall k, i :: k in FieldKeys && 0 <= i < |k| ==> k[i] != ','
  {
  }

  /** The missing-fields message names its fields unambiguously: it determines which fields were empty. */
  lemma MissingMessageDeterminesFields(d: Device, e: Device)
    requires MissingFieldsMessage(d) == MissingFieldsMessage(e)
    ensures MissingKeys(d) == MissingKeys(e)
  {
    MissingKeysExact(d);
    MissingKeysExact(e);
    KeysHaveNoComma();
    var p := |MissingFieldsPrefix|;
    assert ListKeys(MissingKeys(d)) == MissingFieldsMessage(d)[p..];
    assert ListKeys(MissingKeys(e)) == MissingFieldsMessage(e)[p..];
    ReadListedKeys(MissingKeys(d));
    ReadListedKeys(MissingKeys(e));
  }

  // ----- Validation -----

  /** The validator's verdict: the decoded device, or the envelope that rejects the request. */
  datatype Validated = Accepted(device: Device) | Rejected(body: string)

  /**
   * What validateInputs decides, in its order: an empty body is rejected
   * before anything is decoded, an undecodable body before any field is
   * looked at, and a decoded body whose fields are not all non-empty with
   * the list of the empty ones.
   */
  function Validate(body: string, unmarshal: string -> Decoded): (v: Validated)
    ensures v.Accepted? <==>
      |body| > 0 && unmarshal(body).DecodeSuccess? && Complete(Populate(ZeroDevice, unmarshal(body).members))
    ensures v.Accepted? ==> v.device == Populate(ZeroDevice, unmarshal(body).members) && Complete(v.device)
    ensures v.Rejected? ==> exists m :: ReadErrorResponse(v.body) == Some(ErrorResponse(ErrorMessage(400, m)))
  {
    if |body| == 0 then
      Rejected(CreateErrorResponseJson(400, NoInputsMessage))
    else
      match unmarshal(body)
      case DecodeFailure => Rejected(CreateErrorResponseJson(400, WrongFormatMessage))
      case DecodeSuccess(members) =>
        var d := Populate(ZeroDevice, members);
        MissingKeysExact(d);
        if MissingKeys(d) == [] then Accepted(d)
        else Rejected(CreateErrorResponseJson(400, MissingFieldsMessage(d)))
  }

  /** An empty body is "no inputs", whatever the decoder would have made of it. */
  lemma EmptyBodyRejectedFirst(unmarshal: string -> Decoded)
    ensures ReadErrorResponse(Validate("", unmarshal).body) == Some(ErrorResponse(ErrorMessage(400, NoInputsMessage)))
  {
  }

  /** A body that does not decode is "wrong format", before any field is checked. */
  lemma UndecodableBodyRejectedSecond(body: string, unmarshal: string -> Decoded)
    requires body != "" && unmarshal(body).DecodeFailure?
    ensures ReadErrorResponse(Validate(body, unmarshal).body) == Some(ErrorResponse(ErrorMessage(400, WrongFormatMessage)))
  {
  }

  /** A decoded body with empty fields is rejected with exactly those fields listed. */
  lemma IncompleteBodyListsMissingFields(body: string, unmarshal: string -> Decoded)
    requires body != "" && unmarshal(body).DecodeSuccess?
    requires !Complete(Populate(ZeroDevice, unmarshal(body).members))
    ensures ReadErrorResponse(Validate(body, unmarshal).body)
      == Some(ErrorResponse(ErrorMessage(400, MissingFieldsMessage(Populate(ZeroDevice, unmarshal(body).members)))))
  {
    MissingKeysExact(Populate(ZeroDevice, unmarshal(body).members));
  }

  /** The three rejections carry three different messages. */
  lemma RejectionMessagesDistinct(d: Device)
    ensures NoInputsMessage != WrongFormatMessage
    ensures MissingFieldsMessage(d) != NoInputsMessage && MissingFieldsMessage(d) != WrongFormatMessage
  {
    assert MissingFieldsMessage(d)[0] == MissingFieldsPrefix[0] == 'F';
    assert NoInputsMessage[0] == 'N' && WrongFormatMessage[0] == 'W';
  }

  /**
   * The five field checks of validateInputs, in declaration order: each
   * empty field appends its key and ", " to the message and raises the flag.
   */
  method CheckFields(device: Device) returns (errorFlag: bool, errorMessage: string)
    ensures errorFlag <==> !Complete(device)
    ensures errorMessage == MissingFieldsMessage(device)
  {
    errorFlag := false;
    errorMessage := MissingFieldsPrefix;
    ghost var listed: seq<string> := [];

    if |device.id| == 0 {
      ListedKeyAppended(listed, IdKey);
      errorMessage := errorMessage + IdKey + ", ";
      listed := listed + [IdKey];
      errorFlag := true;
    }
    assert listed == IfEmpty(device.id, IdKey);
    assert errorMessage == MissingFieldsPrefix + ListKeys(listed);
    if |device.deviceModel| == 0 {
      ListedKeyAppended(listed, DeviceModelKey);
      errorMessage := errorMessage + DeviceModelKey + ", ";
      listed := listed + [DeviceModelKey];
      errorFlag := true;
    }
    assert listed == IfEmpty(device.id, IdKey) + IfEmpty(device.deviceModel, DeviceModelKey);
    assert errorMessage == MissingFieldsPrefix + ListKeys(listed);
    if |device.name| == 0 {
      ListedKeyAppended(listed, NameKey);
      errorMessage := errorMessage + NameKey + ", ";
      listed := listed + [NameKey];
      errorFlag := true;
    }
    assert listed == IfEmpty(device.id, IdKey) + IfEmpty(device.deviceModel, DeviceModelKey)
      + IfEmpty(device.name, NameKey);
    assert errorMessage == MissingFieldsPrefix + ListKeys(listed);
    if |device.note| == 0 {
      ListedKeyAppended(listed, NoteKey);
      errorMessage := errorMessage + NoteKey + ", ";
      listed := listed + [NoteKey];
      errorFlag := true;
    }
    assert listed == IfEmpty(device.id, IdKey) + IfEmpty(device.deviceModel, DeviceModelKey)
      + IfEmpty(device.name, NameKey) + IfEmpty(device.note, NoteKey);
    assert errorMessage == MissingFieldsPrefix + ListKeys(listed);
    if |device.serial| == 0 {
      ListedKeyAppended(listed, SerialKey);
      errorMessage := errorMessage + SerialKey + ", ";
      listed := listed + [SerialKey];
      errorFlag := true;
    }
    assert listed == IfEmpty(device.id, IdKey) + IfEmpty(device.deviceModel, DeviceModelKey)
      + IfEmpty(device.name, NameKey) + IfEmpty(device.note, NoteKey) + IfEmpty(device.serial, SerialKey);
    assert errorMessage == MissingFieldsPrefix + ListKeys(listed);

    MissingKeysUnrolled(device);
    MissingKeysExact(device);

  }

  /**
   * validateInputs: the empty body and decoding checks in order, then the
   * five field checks, each appending its key to the message and raising
   * the flag. A rejection comes with the zero Device.
   */
  method ValidateInputs(request: Request, unmarshal: string -> Decoded) returns (device: Device, err: Option<string>)
    ensures err.None? <==> Validate(request.body, unmarshal).Accepted?
    ensures err.None? ==> device == Validate(request.body, unmarshal).device
    ensures err.Some? ==> device == ZeroDevice && err.value == Validate(request.body, unmarshal).body
  {
    var errorFlag := false;
    device := ZeroDevice;
    var errorMessage := "";

    if |request.body| == 0 {
      errorMessage := NoInputsMessage;
      return ZeroDevice, Some(CreateErrorResponseJson(400, errorMessage));
    }

    var decoded := unmarshal(request.body);
    if decoded.DecodeFailure? {
      errorMessage := WrongFormatMessage;
      return ZeroDevice, Some(CreateErrorResponseJson(400, errorMessage));
    }
    device := Populate(device, decoded.members);

    errorFlag, errorMessage := CheckFields(device);

    if errorFlag {
      return ZeroDevice, Some(CreateErrorResponseJson(400, errorMessage));
    }
    return device, None;
  }

  // ----- The handler -----

  /** insertItemToDatabase: the device's item written under its id. */
  method InsertItemToDatabase(table: DeviceTable, newDevice: Device) returns (err: Option<string>)
    requires table.Valid()
    modifies table
    ensures table.Valid() && table.available == old(table.available)
    ensures err.None? <==> old(table.available)
    ensures err.None? ==> table.items == old(table.items)[newDevice.id := MarshalMap(newDevice)]
    ensures err.Some? ==> table.items == old(table.items)
  {
    var item := MarshalMap(newDevice);
    err := table.PutItem(item);
  }

  /**
   * AddDevice: a rejected request is answered with 400 and the validator's
   * envelope and the table is not touched; an accepted device is written,
   * and a failed write is answered with 500 and the internal-error
   * envelope, a successful one with 201 and the device. There is no
   * configuration check on this path: a missing table name shows only as a
   * failing write; what a failed session does at line 41 is not modelled.
   */
  method AddDevice(table: DeviceTable, request: Request, unmarshal: string -> Decoded) returns (response: Response)
    requires table.Valid()
    modifies table
    ensures table.Valid() && table.available == old(table.available)
    ensures Validate(request.body, unmarshal).Rejected? ==>
      response == Response(400, Validate(request.body, unmarshal).body) && table.items == old(table.items)
    ensures Validate(request.body, unmarshal).Accepted? && !old(table.available) ==>
      response == Response(500, CreateErrorResponseJson(500, InternalErrorMessage)) && table.items == old(table.items)
    ensures Validate(request.body, unmarshal).Accepted? && old(table.available) ==>
      var d := Validate(request.body, unmarshal).device;
      response == CreateSuccessResponseJson(d) && table.items == old(table.items)[d.id := MarshalMap(d)]
  {
    var newDevice, err := ValidateInputs(request, unmarshal);
    ghost var verdict := Validate(request.body, unmarshal);
    if err.Some? {
      assert verdict == Rejected(err.value);
      return Response(400, err.value);
    }
    assert verdict == Accepted(newDevice);

    err := InsertItemToDatabase(table, newDevice);
    if err.Some? {
      return Response(500, CreateErrorResponseJson(500, InternalErrorMessage));
    }

    response := CreateSuccessResponseJson(newDevice);
  }
}
