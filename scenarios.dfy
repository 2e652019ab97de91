/**
 * The concrete cases of src/handlers/addDevice/addDevice_test.go and
 * src/handlers/getDeviceById/getDeviceById_test.go, each stated as the exact
 * status and body the handlers produce, plus a client that stores a device
 * and reads it back.
 *
 * Each expected body is the test's own byte string, written as a sum of
 * shorter literals split where the envelope's pieces meet.
 */
module Scenarios {
  import opened Wrappers
  import opened Types
  import opened JsonText
  import opened Envelope
  import opened Attributes
  import opened DeviceStore
  import Add = AddDeviceHandler
  import Get = GetDeviceByIdHandler

  // ----- Plain text is quoted as it is -----

  lemma QuotePlain(s: string)
    requires AllPlain(s)
    ensures Quote(s) == "\"" + s + "\""
  {
    EscapePlain(s);
  }

  lemma QuotePlain2(a: string, b: string)
    requires AllPlain(a) && AllPlain(b)
    ensures Quote(a + b) == "\"" + a + b + "\""
  {
    AllPlainAppend(a, b);
    QuotePlain(a + b);
    assert "\"" + (a + b) == "\"" + a + b;
  }

  lemma Decimal400()
    ensures IntToDecimal(400) == "400"
  {
  }

  // ----- addDevice_test.go: TestAddDevice -----

  /** Empty body: 400, "No inputs provided, ...". */
  lemma EmptyBodyCase(unmarshal: string -> Add.Decoded)
    ensures Add.Validate("", unmarshal) == Add.Rejected(
      "{\n\t\"error\": {\n\t\t\"code\": " + "400" + ",\n\t\t\"message\": "
      + ("\"" + "No inputs provided, " + "please provide inputs in json format." + "\"")
      + "\n\t}\n}")
  {
    var a, b := "No inputs provided, ", "please provide inputs in json format.";
    assert AllPlain(a) && AllPlain(b);
    QuotePlain2(a, b);
    Decimal400();
  }

  /** A body that is not JSON: 400, "Wrong format: ...". */
  lemma WrongFormatCase(unmarshal: string -> Add.Decoded)
    requires unmarshal("{{{}") == Add.DecodeFailure
    ensures Add.Validate("{{{}", unmarshal) == Add.Rejected(
      "{\n\t\"error\": {\n\t\t\"code\": " + "400" + ",\n\t\t\"message\": "
      + ("\"" + "Wrong format: " + "Inputs must be a valid json." + "\"")
      + "\n\t}\n}")
  {
    var a, b := "Wrong format: ", "Inputs must be a valid json.";
    assert AllPlain(a) && AllPlain(b);
    QuotePlain2(a, b);
    Decimal400();
  }

  /** The request bodies of the three missing-field cases, as decoded. */
  const MissingIdBody: string :=
    "{\"id\":\"\" , \"deviceModel\":\"testDeviceModel\" , " + "\"name\":\"testName\" , \"note\":\"testNote\" , \"serial\":\"testSerial\" }"
  const MissingIdMembers: map<string, string> :=
    map["id" := "", "deviceModel" := "testDeviceModel", "name" := "testName", "note" := "testNote", "serial" := "testSerial"]

  lemma ListedOne(a: string)
    ensures Add.ListKeys([a]) == a + ", "
  {
    assert [a][1..] == [];
  }

  lemma ListedTwo(a: string, b: string)
    ensures Add.ListKeys([a, b]) == a + ", " + b + ", "
  {
    assert [a, b][1..] == [b];
    ListedOne(b);
  }

  lemma ListedThree(a: string, b: string, c: string)
    ensures Add.ListKeys([a, b, c]) == a + ", " + b + ", " + c + ", "
  {
    assert [a, b, c][1..] == [b, c];
    ListedTwo(b, c);
  }

  lemma PrefixPlain()
    ensures AllPlain(Add.MissingFieldsPrefix)
  {
  }

  /**
   * A decoded body whose device misses the fields `listed` names is rejected
   * with the missing-fields envelope, written out.
   */
  lemma RejectedForMissing(body: string, unmarshal: string -> Add.Decoded, members: map<string, string>,
                           d: Device, listed: string)
    requires body != "" && unmarshal(body) == Add.DecodeSuccess(members) && Populate(ZeroDevice, members) == d
    requires Add.MissingKeys(d) != []
    requires Add.MissingFieldsMessage(d) == Add.MissingFieldsPrefix + listed && AllPlain(listed)
    ensures Add.Validate(body, unmarshal) == Add.Rejected(
      "{\n\t\"error\": {\n\t\t\"code\": " + "400" + ",\n\t\t\"message\": "
      + ("\"" + Add.MissingFieldsPrefix + listed + "\"")
      + "\n\t}\n}")
  {
    Add.MissingKeysExact(d);
    PrefixPlain();
    QuotePlain2(Add.MissingFieldsPrefix, listed);
    Decimal400();
  }

  /** The device the members decode to. */
  lemma MissingIdDecodes()
    ensures Populate(ZeroDevice, MissingIdMembers) == Device("", "testDeviceModel", "testName", "testNote", "testSerial")
  {
    assert "id" in MissingIdMembers;
  }

  /** The empty fields of that device, listed. */
  lemma MissingIdListed()
    ensures Add.MissingKeys(Device("", "testDeviceModel", "testName", "testNote", "testSerial")) != []
    ensures Add.MissingFieldsMessage(Device("", "testDeviceModel", "testName", "testNote", "testSerial")) == Add.MissingFieldsPrefix + "id, "
  {
    var d := Device("", "testDeviceModel", "testName", "testNote", "testSerial");
    Add.MissingKeysUnrolled(d);
    assert Add.MissingKeys(d) == [IdKey];
    ListedOne(IdKey);
  }

  /** Only the id is empty: 400, "Following fields are not provided: id, ". */
  lemma MissingIdCase(unmarshal: string -> Add.Decoded)
    requires unmarshal(MissingIdBody) == Add.DecodeSuccess(MissingIdMembers)
    ensures Add.Validate(MissingIdBody, unmarshal) == Add.Rejected(
      "{\n\t\"error\": {\n\t\t\"code\": " + "400" + ",\n\t\t\"message\": "
      + ("\"" + "Following fields are not provided: " + "id, " + "\"")
      + "\n\t}\n}")
  {
    var d := Device("", "testDeviceModel", "testName", "testNote", "testSerial");
    MissingIdDecodes();
    MissingIdListed();
    var listed := "id, ";
    assert AllPlain(listed);
    RejectedForMissing(MissingIdBody, unmarshal, MissingIdMembers, d, listed);
  }

  const ModelAndNoteBody: string :=
    "{\"id\":\"1\" , \"deviceModel\":\"\" , \"name\":\"testName\" , " + "\"note\":\"\" , \"serial\":\"testSerial\" }"
  const ModelAndNoteMembers: map<string, string> :=
    map["id" := "1", "deviceModel" := "", "name" := "testName", "note" := "", "serial" := "testSerial"]

  /** The device the members decode to. */
  lemma ModelAndNoteDecodes()
    ensures Populate(ZeroDevice, ModelAndNoteMembers) == Device("1", "", "testName", "", "testSerial")
  {
    assert "id" in ModelAndNoteMembers;
  }

  /** The empty fields of that device, listed. */
  lemma ModelAndNoteListed()
    ensures Add.MissingKeys(Device("1", "", "testName", "", "testSerial")) != []
    ensures Add.MissingFieldsMessage(Device("1", "", "testName", "", "testSerial")) == Add.MissingFieldsPrefix + ("deviceModel" + ", " + "note" + ", ")
  {
    var d := Device("1", "", "testName", "", "testSerial");
    Add.MissingKeysUnrolled(d);
    assert Add.MissingKeys(d) == [DeviceModelKey, NoteKey];
    ListedTwo(DeviceModelKey, NoteKey);
  }

  /** deviceModel and note are empty: both listed, in declaration order. */
  lemma MissingModelAndNoteCase(unmarshal: string -> Add.Decoded)
    requires unmarshal(ModelAndNoteBody) == Add.DecodeSuccess(ModelAndNoteMembers)
    ensures Add.Validate(ModelAndNoteBody, unmarshal) == Add.Rejected(
      "{\n\t\"error\": {\n\t\t\"code\": " + "400" + ",\n\t\t\"message\": "
      + ("\"" + "Following fields are not provided: " + ("deviceModel" + ", " + "note" + ", ") + "\"")
      + "\n\t}\n}")
  {
    var d := Device("1", "", "testName", "", "testSerial");
    ModelAndNoteDecodes();
    ModelAndNoteListed();
    var listed := "deviceModel" + ", " + "note" + ", ";
    assert AllPlain(listed);
    RejectedForMissing(ModelAndNoteBody, unmarshal, ModelAndNoteMembers, d, listed);
  }

  const ModelNameSerialBody: string :=
    "{\"id\":\"1\" , \"deviceModel\":\"\" , \"name\":\"\" , " + "\"note\":\"testNote\" , \"serial\":\"\" }"
  const ModelNameSerialMembers: map<string, string> :=
    map["id" := "1", "deviceModel" := "", "name" := "", "note" := "testNote", "serial" := ""]

  /** The device the members decode to. */
  lemma ModelNameSerialDecodes()
    ensures Populate(ZeroDevice, ModelNameSerialMembers) == Device("1", "", "", "testNote", "")
  {
    assert "id" in ModelNameSerialMembers;
  }

  /** The empty fields of that device, listed. */
  lemma ModelNameSerialListed()
    ensures Add.MissingKeys(Device("1", "", "", "testNote", "")) != []
    ensures Add.MissingFieldsMessage(Device("1", "", "", "testNote", "")) == Add.MissingFieldsPrefix + ("deviceModel" + ", " + "name" + ", " + "serial" + ", ")
  {
    var d := Device("1", "", "", "testNote", "");
    Add.MissingKeysUnrolled(d);
    assert Add.MissingKeys(d) == [DeviceModelKey, NameKey, SerialKey];
    ListedThree(DeviceModelKey, NameKey, SerialKey);
  }

  /** deviceModel, name and serial are empty: listed in declaration order. */
  lemma MissingModelNameSerialCase(unmarshal: string -> Add.Decoded)
    requires unmarshal(ModelNameSerialBody) == Add.DecodeSuccess(ModelNameSerialMembers)
    ensures Add.Validate(ModelNameSerialBody, unmarshal) == Add.Rejected(
      "{\n\t\"error\": {\n\t\t\"code\": " + "400" + ",\n\t\t\"message\": "
      + ("\"" + "Following fields are not provided: " + ("deviceModel" + ", " + "name" + ", " + "serial" + ", ") + "\"")
      + "\n\t}\n}")
  {
    var d := Device("1", "", "", "testNote", "");
    ModelNameSerialDecodes();
    ModelNameSerialListed();
    var listed := "deviceModel" + ", " + "name" + ", " + "serial" + ", ";
    assert AllPlain(listed);
    RejectedForMissing(ModelNameSerialBody, unmarshal, ModelNameSerialMembers, d, listed);
  }

  lemma Decimal500()
    ensures IntToDecimal(500) == "500"
  {
  }

  lemma InternalErrorPlain()
    ensures AllPlain(Add.InternalErrorMessage)
  {
  }

  const ValidBody: string :=
    "{\"id\":\"1\" , \"deviceModel\":\"testDeviceModel\" , " + "\"name\":\"testName\" , \"note\":\"testNote\" , \"serial\":\"testSerial\"}"
  const ValidMembers: map<string, string> :=
    map["id" := "1", "deviceModel" := "testDeviceModel", "name" := "testName", "note" := "testNote", "serial" := "testSerial"]

  lemma ValidBodyAccepted(unmarshal: string -> Add.Decoded)
    requires unmarshal(ValidBody) == Add.DecodeSuccess(ValidMembers)
    ensures Add.Validate(ValidBody, unmarshal) == Add.Accepted(Device("1", "testDeviceModel", "testName", "testNote", "testSerial"))
  {
    var d := Populate(ZeroDevice, ValidMembers);
    assert d == Device("1", "testDeviceModel", "testName", "testNote", "testSerial");
    Add.MissingKeysExact(d);
  }

  /**
   * A complete device with no database behind the handler: the write fails
   * and the answer is 500 with the internal-error envelope.
   */
  method ValidDeviceWithoutDatabase(unmarshal: string -> Add.Decoded) returns (response: Response)
    requires unmarshal(ValidBody) == Add.DecodeSuccess(ValidMembers)
    ensures response == Response(500,
      "{\n\t\"error\": {\n\t\t\"code\": " + "500" + ",\n\t\t\"message\": "
      + ("\"" + "Internal Server's Error occured" + "\"")
      + "\n\t}\n}")
  {
    var table := new DeviceTable(false);
    ValidBodyAccepted(unmarshal);
    response := Add.AddDevice(table, Request(ValidBody, map[]), unmarshal);
    InternalErrorPlain();
    QuotePlain(Add.InternalErrorMessage);
    Decimal500();
  }

  // ----- addDevice_test.go: TestCreateSuccessResponseJson -----

  const TestDevice: Device := Device("id_test", "deviceModel_test", "name_test", "note_test", "serial_test")

  lemma TestDevicePlain()
    ensures AllPlain("id_test") && AllPlain("deviceModel_test") && AllPlain("name_test")
    ensures AllPlain("note_test") && AllPlain("serial_test")
  {
  }

  /** The test device nested under "data", as both success envelopes write it. */
  lemma TestDeviceText()
    ensures MarshalDevice(TestDevice) ==
      "{\n\t\t\"id\": " + ("\"" + "id_test" + "\"")
      + ",\n\t\t\"deviceModel\": " + ("\"" + "deviceModel_test" + "\"")
      + ",\n\t\t\"name\": " + ("\"" + "name_test" + "\"")
      + ",\n\t\t\"note\": " + ("\"" + "note_test" + "\"")
      + ",\n\t\t\"serial\": " + ("\"" + "serial_test" + "\"")
      + "\n\t}"
  {
    TestDevicePlain();
    QuotePlain("id_test");
    QuotePlain("deviceModel_test");
    QuotePlain("name_test");
    QuotePlain("note_test");
    QuotePlain("serial_test");
    Flatten(IdSep, Quote("id_test"), DeviceModelSep, Quote("deviceModel_test"), NameSep, Quote("name_test"),
      NoteSep, Quote("note_test"), SerialSep, Quote("serial_test"), ObjectEnd);
  }

  lemma Flatten(s1: string, q1: string, s2: string, q2: string, s3: string, q3: string,
                s4: string, q4: string, s5: string, q5: string, e: string)
    ensures (s1 + q1) + (s2 + q2) + (s3 + q3) + (s4 + q4) + (s5 + q5) + e
      == s1 + q1 + s2 + q2 + s3 + q3 + s4 + q4 + s5 + q5 + e
  {
  }

  lemma InsertedStatusPlain()
    ensures AllPlain(Add.InsertedStatus)
  {
  }

  /** The inserted-device answer: 201 and the status and device, byte for byte. */
  lemma SuccessResponseCase()
    ensures Add.CreateSuccessResponseJson(TestDevice) == Response(201,
      "{\n\t\"status\": " + ("\"" + "requested item inserted" + "\"")
      + ",\n\t\"data\": "
      + ("{\n\t\t\"id\": " + ("\"" + "id_test" + "\"")
        + ",\n\t\t\"deviceModel\": " + ("\"" + "deviceModel_test" + "\"")
        + ",\n\t\t\"name\": " + ("\"" + "name_test" + "\"")
        + ",\n\t\t\"note\": " + ("\"" + "note_test" + "\"")
        + ",\n\t\t\"serial\": " + ("\"" + "serial_test" + "\"")
        + "\n\t}")
      + "\n}")
  {
    InsertedStatusPlain();
    QuotePlain(Add.InsertedStatus);
    TestDeviceText();
  }

  // ----- getDeviceById_test.go -----

  lemma Decimal404()
    ensures IntToDecimal(404) == "404"
  {
  }

  lemma LookupMessagesPlain()
    ensures AllPlain(Get.MissingIdMessage) && AllPlain(Get.InternalErrorMessage)
    ensures AllPlain("Desired device with provided ") && AllPlain("id was not founded")
  {
  }

  /** A configuration with a table name and no session error, as the tests set one up. */
  const TestConfig: DatabaseConfig := Get.Init(None, "test_table_name")

  /** TestGetDeviceById, empty id: 404 and "No ID Field Provided". */
  lemma EmptyIdCase(table: DeviceTable)
    requires table.Valid()
    ensures Get.GetDeviceById(TestConfig, table, Request("", map["id" := ""])) == Response(404,
      "{\n\t\"error\": {\n\t\t\"code\": " + "404" + ",\n\t\t\"message\": "
      + ("\"" + "No ID Field Provided" + "\"")
      + "\n\t}\n}")
  {
    LookupMessagesPlain();
    QuotePlain(Get.MissingIdMessage);
    Decimal404();
  }

  /** TestGetDeviceById, no database behind the handler: 500 and the internal-error envelope. */
  lemma UnreachableTableCase(table: DeviceTable)
    requires table.Valid() && !table.available
    ensures Get.GetDeviceById(TestConfig, table, Request("", map["id" := "id_test"])) == Response(500,
      "{\n\t\"error\": {\n\t\t\"code\": " + "500" + ",\n\t\t\"message\": "
      + ("\"" + "Internal Server's Error occured" + "\"")
      + "\n\t}\n}")
  {
    LookupMessagesPlain();
    QuotePlain(Get.InternalErrorMessage);
    Decimal500();
  }

  /**
   * A start-up without a table name: the lookup is refused before the id is
   * read, with status 404 around an envelope whose code is 500.
   */
  lemma MissingTableNameCase(table: DeviceTable, request: Request)
    requires table.Valid()
    ensures Get.GetDeviceById(Get.Init(None, ""), table, request) == Response(404,
      "{\n\t\"error\": {\n\t\t\"code\": " + "500" + ",\n\t\t\"message\": "
      + ("\"" + "Internal Server's Error occured" + "\"")
      + "\n\t}\n}")
  {
    LookupMessagesPlain();
    QuotePlain(Get.InternalErrorMessage);
    Decimal500();
  }

  /** TestValidateDatabaseResult, store error: 500 whatever the item. */
  lemma DatabaseErrorCase()
    ensures Get.ValidateDatabaseResult(GetItemResult(map[], Some("Unexpected Error has occured"))) == Response(500,
      "{\n\t\"error\": {\n\t\t\"code\": " + "500" + ",\n\t\t\"message\": "
      + ("\"" + "Internal Server's Error occured" + "\"")
      + "\n\t}\n}")
  {
    LookupMessagesPlain();
    QuotePlain(Get.InternalErrorMessage);
    Decimal500();
  }

  /** TestValidateDatabaseResult, empty result: 404 and "Desired device ... not founded". */
  lemma EmptyResultCase()
    ensures Get.ValidateDatabaseResult(GetItemResult(map[], None)) == Response(404,
      "{\n\t\"error\": {\n\t\t\"code\": " + "404" + ",\n\t\t\"message\": "
      + ("\"" + "Desired device with provided " + "id was not founded" + "\"")
      + "\n\t}\n}")
  {
    LookupMessagesPlain();
    QuotePlain2("Desired device with provided ", "id was not founded");
    Decimal404();
  }

  /** The item the test's fake GetItem returns for "id_test". */
  const TestItem: Item :=
    map["id" := "id_test", "deviceModel" := "deviceModel_test", "name" := "name_test", "note" := "note_test", "serial" := "serial_test"]

  lemma TestItemDecodes()
    ensures |TestItem| > 0 && UnmarshalMap(TestItem) == TestDevice
  {
    assert "id" in TestItem;
  }

  /** TestValidateDatabaseResult, found item: 200 and the device under "data", byte for byte. */
  lemma FoundItemCase()
    ensures Get.ValidateDatabaseResult(GetItemResult(TestItem, None)) == Response(200,
      "{\n\t\"data\": "
      + ("{\n\t\t\"id\": " + ("\"" + "id_test" + "\"")
        + ",\n\t\t\"deviceModel\": " + ("\"" + "deviceModel_test" + "\"")
        + ",\n\t\t\"name\": " + ("\"" + "name_test" + "\"")
        + ",\n\t\t\"note\": " + ("\"" + "note_test" + "\"")
        + ",\n\t\t\"serial\": " + ("\"" + "serial_test" + "\"")
        + "\n\t}")
      + "\n}")
  {
    TestItemDecodes();
    TestDeviceText();
  }

  /**
   * TestGetFromDatabase: a table holding the test item answers "id_test"
   * with that item and "id_test_no" with an empty item, neither with an error.
   */
  method GetFromDatabaseCases() returns (found: GetItemResult, missing: GetItemResult)
    ensures found == GetItemResult(TestItem, None)
    ensures missing == GetItemResult(map[], None)
  {
    var table := new DeviceTable(true);
    var err := table.PutItem(TestItem);
    assert table.items == map["id_test" := TestItem];
    found := Get.GetFromDatabase(table, "id_test");
    missing := Get.GetFromDatabase(table, "id_test_no");
  }

  // ----- Both handlers against one table -----

  /**
   * A client that adds a device and then looks it up by its id gets back
   * exactly that device with 200.
   */
  method AddThenGet(table: DeviceTable, body: string, unmarshal: string -> Add.Decoded, d: Device)
    returns (added: Response, fetched: Response)
    requires table.Valid() && table.available
    requires Add.Validate(body, unmarshal) == Add.Accepted(d)
    modifies table
    ensures added.statusCode == 201
    ensures fetched.statusCode == 200 && ReadDataResponse(fetched.body) == Some(DataResponse(d))
  {
    assert d.id != "" by {
      assert Complete(d) && IdKey in FieldKeys && Field(d, IdKey) == d.id;
    }
    added := Add.AddDevice(table, Request(body, map[]), unmarshal);
    Get.StoredDeviceIsReturned(TestConfig, table, d);
    fetched := Get.GetDeviceById(TestConfig, table, Request("", map["id" := d.id]));
  }
}
