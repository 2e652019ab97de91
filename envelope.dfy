/**
 * The three response bodies, byte for byte as `json.MarshalIndent(v, "", "\t")`
 * lays them out: one member per line, a tab per nesting level, `": "`
 * between key and value, members in declaration order.
 *
 *   error envelope         {"error": {"code": int, "message": string}}
 *   add success envelope   {"status": string, "data": Device}
 *   lookup success envelope {"data": Device}
 *
 * Each layout has a reader for its shape; the round-trip lemmas show that
 * a body determines the values written into it and that the shapes never
 * collide.
 */
module Envelope {
  import opened Wrappers
  import opened Types
  import opened JsonText

  // ----- Error envelope: types.ErrorResponse -----

  const ErrorHead: string := "{\n\t\"error\": {\n\t\t\"code\": "
  const MessageSep: string := ",\n\t\t\"message\": "
  const ErrorTail: string := "\n\t}\n}"

  function MarshalErrorResponse(e: ErrorResponse): string {
    ErrorHead + IntToDecimal(e.error.code) + MessageSep + Quote(e.error.message) + ErrorTail
  }

  function ReadErrorResponse(t: string): Option<ErrorResponse> {
    var t1 :- Lit(ErrorHead, t);
    var code :- ReadInt(t1);
    var t2 :- Lit(MessageSep, code.1);
    var message :- ReadString(t2);
    if message.1 == ErrorTail then Some(ErrorResponse(ErrorMessage(code.0, message.0))) else None
  }

  /** An error envelope reads back as the code and message written into it. */
  lemma ReadMarshalledError(e: ErrorResponse)
    ensures ReadErrorResponse(MarshalErrorResponse(e)) == Some(e)
  {
    var q := Quote(e.error.message);
    var t2 := q + ErrorTail;
    var t1 := IntToDecimal(e.error.code) + (MessageSep + t2);
    assert MarshalErrorResponse(e) == ErrorHead + t1;
    ReadDecimal(e.error.code, MessageSep + t2);
    assert Lit(MessageSep, MessageSep + t2) == Some(t2);
    ReadQuoted(e.error.message, ErrorTail);
  }

  /** Two error envelopes are the same text only when code and message agree. */
  lemma ErrorEnvelopeInjective(e: ErrorResponse, e': ErrorResponse)
    requires MarshalErrorResponse(e) == MarshalErrorResponse(e')
    ensures e == e'
  {
    ReadMarshalledError(e);
    ReadMarshalledError(e');
  }

  // ----- A Device, nested one level deep under "data" -----

  const IdSep: string := "{\n\t\t\"id\": "
  const DeviceModelSep: string := ",\n\t\t\"deviceModel\": "
  const NameSep: string := ",\n\t\t\"name\": "
  const NoteSep: string := ",\n\t\t\"note\": "
  const SerialSep: string := ",\n\t\t\"serial\": "
  const ObjectEnd: string := "\n\t}"

  /** One `separator "value"` member of an object. */
  function Member(sep: string, value: string): string {
    sep + Quote(value)
  }

  function MarshalDevice(d: Device): string {
    Member(IdSep, d.id) + Member(DeviceModelSep, d.deviceModel) + Member(NameSep, d.name)
    + Member(NoteSep, d.note) + Member(SerialSep, d.serial) + ObjectEnd
  }

  /** Reads a member written by Member from the front of `t`. */
  function ReadMember(sep: string, t: string): Option<(string, string)> {
    var t1 :- Lit(sep, t);
    ReadString(t1)
  }

  function ReadDevice(t: string): Option<(Device, string)> {
    var id :- ReadMember(IdSep, t);
    var model :- ReadMember(DeviceModelSep, id.1);
    var name :- ReadMember(NameSep, model.1);
    var note :- ReadMember(NoteSep, name.1);
    var serial :- ReadMember(SerialSep, note.1);
    var rest :- Lit(ObjectEnd, serial.1);
    Some((Device(id.0, model.0, name.0, note.0, serial.0), rest))
  }

  lemma ReadMarshalledMember(sep: string, s: string, rest: string)
    ensures ReadMember(sep, Member(sep, s) + rest) == Some((s, rest))
  {
    assert Member(sep, s) + rest == sep + (Quote(s) + rest);
    ReadQuoted(s, rest);
  }

  lemma Reassociate(a: string, b: string, c: string, d: string, e: string, f: string, g: string)
    ensures a + b + c + d + e + f + g == a + (b + (c + (d + (e + (f + g)))))
  {
  }

  /** A written device reads back as itself, whatever follows it. */
  lemma ReadMarshalledDevice(d: Device, rest: string)
    ensures ReadDevice(MarshalDevice(d) + rest) == Some((d, rest))
  {
    var m1, m2, m3 := Member(IdSep, d.id), Member(DeviceModelSep, d.deviceModel), Member(NameSep, d.name);
    var m4, m5 := Member(NoteSep, d.note), Member(SerialSep, d.serial);
    var t5 := ObjectEnd + rest;
    var t4 := m5 + t5;
    var t3 := m4 + t4;
    var t2 := m3 + t3;
    var t1 := m2 + t2;
    Reassociate(m1, m2, m3, m4, m5, ObjectEnd, rest);
    assert MarshalDevice(d) + rest == m1 + t1;
    ReadMarshalledMember(IdSep, d.id, t1);
    ReadMarshalledMember(DeviceModelSep, d.deviceModel, t2);
    ReadMarshalledMember(NameSep, d.name, t3);
    ReadMarshalledMember(NoteSep, d.note, t4);
    ReadMarshalledMember(SerialSep, d.serial, t5);
    assert Lit(ObjectEnd, t5) == Some(rest);
  }

  // ----- Add success envelope: addDevice's SuccessResponse -----

  /** addDevice.go's `SuccessResponse`: a status text and the device under "data". */
  datatype StatusResponse = StatusResponse(status: string, data: Device)

  const StatusHead: string := "{\n\t\"status\": "
  const DataSep: string := ",\n\t\"data\": "
  const DocumentEnd: string := "\n}"

  function MarshalStatusResponse(r: StatusResponse): string {
    Member(StatusHead, r.status) + DataSep + MarshalDevice(r.data) + DocumentEnd
  }

  function ReadStatusResponse(t: string): Option<StatusResponse> {
    var status :- ReadMember(StatusHead, t);
    var t1 :- Lit(DataSep, status.1);
    var device :- ReadDevice(t1);
    if device.1 == DocumentEnd then Some(StatusResponse(status.0, device.0)) else None
  }

  lemma ReadMarshalledStatus(r: StatusResponse)
    ensures ReadStatusResponse(MarshalStatusResponse(r)) == Some(r)
  {
    var t1 := MarshalDevice(r.data) + DocumentEnd;
    assert MarshalStatusResponse(r) == Member(StatusHead, r.status) + (DataSep + t1);
    ReadMarshalledMember(StatusHead, r.status, DataSep + t1);
    assert Lit(DataSep, DataSep + t1) == Some(t1);
    ReadMarshalledDevice(r.data, DocumentEnd);
  }

  // ----- Lookup success envelope: getDeviceById's SuccessResponse -----

  /** getDeviceById.go's `SuccessResponse`: the device under "data". */
  datatype DataResponse = DataResponse(data: Device)

  const DataHead: string := "{\n\t\"data\": "

  function MarshalDataResponse(r: DataResponse): string {
    DataHead + MarshalDevice(r.data) + DocumentEnd
  }

  function ReadDataResponse(t: string): Option<DataResponse> {
    var t1 :- Lit(DataHead, t);
    var device :- ReadDevice(t1);
    if device.1 == DocumentEnd then Some(DataResponse(device.0)) else None
  }

  lemma ReadMarshalledData(r: DataResponse)
    ensures ReadDataResponse(MarshalDataResponse(r)) == Some(r)
  {
    assert MarshalDataResponse(r) == DataHead + (MarshalDevice(r.data) + DocumentEnd);
    ReadMarshalledDevice(r.data, DocumentEnd);
  }

  // ----- The shapes are told apart by their first key -----

  /** No success body reads as an error envelope, and no error body as a success. */
  lemma ShapesDisjoint(e: ErrorResponse, s: StatusResponse, d: DataResponse)
    ensures ReadErrorResponse(MarshalStatusResponse(s)).None?
    ensures ReadErrorResponse(MarshalDataResponse(d)).None?
    ensures ReadStatusResponse(MarshalErrorResponse(e)).None?
    ensures ReadDataResponse(MarshalErrorResponse(e)).None?
    ensures ReadDataResponse(MarshalStatusResponse(s)).None?
    ensures ReadStatusResponse(MarshalDataResponse(d)).None?
  {
    var es, ss, ds := MarshalErrorResponse(e), MarshalStatusResponse(s), MarshalDataResponse(d);
    assert ss[4] == 's' && ds[4] == 'd' && es[4] == 'e';
    assert ErrorHead[4] == 'e' && StatusHead[4] == 's' && DataHead[4] == 'd';
  }
}
