/**
 * The lookup handler of src/handlers/getDeviceById/getDeviceById.go: check
 * the configuration recorded at start-up, then the path id, then fetch the
 * item under that id and classify the store's answer into a status code and
 * an envelope.
 */
module GetDeviceByIdHandler {
  import opened Wrappers
  import opened Types
  import opened JsonText
  import opened Envelope
  import opened Attributes
  import opened DeviceStore

  /** The error states createErrorResponseJson distinguishes. */
  const ErrorMissingIdField: int := 1
  const ErrorInternalServersDatabase: int := 2
  const ErrorNoItemFounded: int := 3

  const MissingIdMessage: string := "No ID Field Provided"
  const InternalErrorMessage: string := "Internal Server's Error occured"
  // Written in two pieces only so that the verifier can index into it.
  const NotFoundMessage: string := "Desired device with provided " + "id was not founded"

  /**
   * init: the configuration the handler reads on every call. A session that
   * could not be created leaves its error; an empty DEVICES_TABLE_NAME leaves
   * no table name. The values of the environment and of the session call are
   * the parameters.
   */
  function Init(sessionError: Option<string>, tableNameEnv: string): (config: DatabaseConfig)
    ensures config.sessionError == sessionError
    ensures config.tableName.None? <==> tableNameEnv == ""
    ensures config.tableName.Some? ==> config.tableName.value == tableNameEnv
    ensures Healthy(config) <==> sessionError.None? && tableNameEnv != ""
  {
    DatabaseConfig(sessionError, if |tableNameEnv| == 0 then None else Some(tableNameEnv))
  }

  /**
   * createErrorResponseJson: total over the error state; 1 is the missing
   * id, 2 the internal error, and every other value the missing device.
   */
  function CreateErrorResponseJson(errorState: int): (body: string)
    ensures errorState == ErrorMissingIdField ==>
      ReadErrorResponse(body) == Some(ErrorResponse(ErrorMessage(404, MissingIdMessage)))
    ensures errorState == ErrorInternalServersDatabase ==>
      ReadErrorResponse(body) == Some(ErrorResponse(ErrorMessage(500, InternalErrorMessage)))
    ensures errorState != ErrorMissingIdField && errorState != ErrorInternalServersDatabase ==>
      ReadErrorResponse(body) == Some(ErrorResponse(ErrorMessage(404, NotFoundMessage)))
  {
    var e :=
      if errorState == ErrorMissingIdField then ErrorResponse(ErrorMessage(404, MissingIdMessage))
      else if errorState == ErrorInternalServersDatabase then ErrorResponse(ErrorMessage(500, InternalErrorMessage))
      else ErrorResponse(ErrorMessage(404, NotFoundMessage));
    ReadMarshalledError(e);
    MarshalErrorResponse(e)
  }

  /** The three error states give three different bodies. */
  lemma ErrorStatesDistinct()
    ensures CreateErrorResponseJson(ErrorMissingIdField) != CreateErrorResponseJson(ErrorNoItemFounded)
    ensures CreateErrorResponseJson(ErrorMissingIdField) != CreateErrorResponseJson(ErrorInternalServersDatabase)
    ensures CreateErrorResponseJson(ErrorNoItemFounded) != CreateErrorResponseJson(ErrorInternalServersDatabase)
  {
    var missing := CreateErrorResponseJson(ErrorMissingIdField);
    var notFound := CreateErrorResponseJson(ErrorNoItemFounded);
    assert MissingIdMessage[0] == 'N' && NotFoundMessage[0] == 'D';
    assert ReadErrorResponse(missing) != ReadErrorResponse(notFound);
  }

  /**
   * createSuccessResponseJson: the item decoded into the zero Device and
   * written under "data"; attributes the item lacks come out as "".
   */
  function CreateSuccessResponseJson(item: Item): (body: string)
    ensures ReadDataResponse(body) == Some(DataResponse(UnmarshalMap(item)))
    ensures forall k :: k in FieldKeys && k !in item ==> Field(ReadDataResponse(body).value.data, k) == ""
  {
    var r := DataResponse(UnmarshalMap(item));
    ReadMarshalledData(r);
    MarshalDataResponse(r)
  }

  /**
   * validateDatabaseResult: a store error is a 500 whatever the item holds;
   * otherwise an empty item is a 404 and any other item a 200 with the
   * device it decodes to.
   */
  function ValidateDatabaseResult(result: GetItemResult): (response: Response)
    ensures result.err.Some? ==>
      response.statusCode == 500
      && ReadErrorResponse(response.body) == Some(ErrorResponse(ErrorMessage(500, InternalErrorMessage)))
    ensures result.err.None? && |result.item| == 0 ==>
      response.statusCode == 404
      && ReadErrorResponse(response.body) == Some(ErrorResponse(ErrorMessage(404, NotFoundMessage)))
    ensures result.err.None? && |result.item| > 0 ==>
      response.statusCode == 200
      && ReadDataResponse(response.body) == Some(DataResponse(UnmarshalMap(result.item)))
  {
    if result.err.Some? then
      Response(500, CreateErrorResponseJson(ErrorInternalServersDatabase))
    else if |result.item| == 0 then
      Response(404, CreateErrorResponseJson(ErrorNoItemFounded))
    else
      Response(200, CreateSuccessResponseJson(result.item))
  }

  /** The request's "id" path parameter; "" when it is absent, as a Go map read gives. */
  function PathId(request: Request): (id: string)
    ensures "id" in request.pathParameters ==> id == request.pathParameters["id"]
    ensures "id" !in request.pathParameters ==> id == ""
  {
    if "id" in request.pathParameters then request.pathParameters["id"] else ""
  }

  /**
   * getFromDatabase: asks the table for the item whose key is exactly the
   * "id" attribute with the given value. An id with no item is an empty item,
   * not an error.
   */
  function GetFromDatabase(table: DeviceTable, id: string): (result: GetItemResult)
    reads table
    ensures result.err.None? <==> table.available
    ensures result.err.None? && id in table.items ==> result.item == table.items[id]
    ensures result.err.None? && id !in table.items ==> result.item == map[]
  {
    table.GetItem(map[IdKey := id])
  }

  /**
   * GetDeviceById, guard by guard: a configuration fault first (answered
   * with status 404 around a body whose code is 500, as the code does), then
   * a missing id (404), then the store's answer: unreachable (500), no item
   * under the id (404), or the stored device (200).
   */
  function GetDeviceById(config: DatabaseConfig, table: DeviceTable, request: Request): (response: Response)
    requires table.Valid()
    reads table
    ensures !Healthy(config) ==>
      response.statusCode == 404
      && ReadErrorResponse(response.body) == Some(ErrorResponse(ErrorMessage(500, InternalErrorMessage)))
    ensures Healthy(config) && PathId(request) == "" ==>
      response.statusCode == 404
      && ReadErrorResponse(response.body) == Some(ErrorResponse(ErrorMessage(404, MissingIdMessage)))
    ensures Healthy(config) && PathId(request) != "" && !table.available ==>
      response.statusCode == 500
      && ReadErrorResponse(response.body) == Some(ErrorResponse(ErrorMessage(500, InternalErrorMessage)))
    ensures Healthy(config) && PathId(request) != "" && table.available && PathId(request) !in table.items ==>
      response.statusCode == 404
      && ReadErrorResponse(response.body) == Some(ErrorResponse(ErrorMessage(404, NotFoundMessage)))
    ensures Healthy(config) && PathId(request) != "" && table.available && PathId(request) in table.items ==>
      response.statusCode == 200
      && ReadDataResponse(response.body) == Some(DataResponse(UnmarshalMap(table.items[PathId(request)])))
  {
    if config.sessionError.Some? || config.tableName.None? then
      Response(404, CreateErrorResponseJson(ErrorInternalServersDatabase))
    else
      var id := PathId(request);
      if id == "" then
        Response(404, CreateErrorResponseJson(ErrorMissingIdField))
      else
        var result := GetFromDatabase(table, id);
        assert id in table.items ==> |table.items[id]| > 0 by {
          if id in table.items { table.StoredItemsAreNonEmpty(id); }
        }
        ValidateDatabaseResult(result)
  }

  /** A stored device is answered with exactly the device that was stored. */
  lemma StoredDeviceIsReturned(config: DatabaseConfig, table: DeviceTable, d: Device)
    requires table.Valid() && Healthy(config) && table.available
    requires d.id != "" && d.id in table.items && table.items[d.id] == MarshalMap(d)
    ensures var response := GetDeviceById(config, table, Request("", map["id" := d.id]));
      response.statusCode == 200 && ReadDataResponse(response.body) == Some(DataResponse(d))
  {
    UnmarshalMarshal(d);
  }
}
