/** The four single-record operations: each issues one request and turns the
    reply's status code (section 15.3 of RFC 9110) into its result.  The
    request itself is not modelled; only the reply is. */
module RecordOps {
  import opened Values
  import Location

  /** The reply to one request: its status code, the body `response.json()`
      would parse (read only where the source reads it) and the `Location`
      header, if any. */
  datatype Reply = Reply(status: int, body: Json, location: Option<string>)

  /** A status of the successful class 2xx (section 15.3 of RFC 9110). */
  predicate Successful(status: int)
  {
    200 <= status < 300
  }

  /** `if location:` in Python: the header is present and non-empty. */
  predicate HasLocation(r: Reply): (h: bool)
    ensures h <==> r.location != None && r.location != Some("")
  {
    r.location.Some? && r.location.value != []
  }

  /** `fetch_record_by_id`: the body on 200, `None` on any other status; a
      200 whose body is JSON `null` also yields `None`. */
  function FetchRecordById(r: Reply): (res: Option<Json>)
    ensures res.Some? <==> r.status == 200 && r.body != JNull
    ensures res.Some? ==> res.value == r.body
  {
    if r.status == 200 then AsPython(r.body) else None
  }

  /** How a call ends: it returns a value, or it raises the `AttributeError`
      that `result.get("id")` throws when `result` is not a dict. */
  datatype Outcome = Returned(value: Option<Json>) | Raised

  /** `create_netsuite_record`: the body on 200/201, which must be a JSON
      object because its `id` is read (anything else raises); on 204 the
      identifier read off `Location`, or `{}` when there is no usable header;
      `None` on any other status. */
  function CreateRecord(r: Reply): (out: Outcome)
    ensures out.Raised? <==> (r.status == 200 || r.status == 201) && !r.body.JObj?
    ensures (r.status == 200 || r.status == 201) && r.body.JObj? ==> out == Returned(Some(r.body))
    ensures r.status == 204 && HasLocation(r) ==>
      out == Returned(Some(JObj(map["id" := JStr(Location.LocationId(r.location.value))])))
    ensures r.status == 204 && !HasLocation(r) ==> out == Returned(Some(EmptyObject))
    ensures out == Returned(None) <==> r.status !in {200, 201, 204}
  {
    if r.status == 200 || r.status == 201 then
      if r.body.JObj? then Returned(AsPython(r.body)) else Raised
    else if r.status == 204 then
      if HasLocation(r) then Returned(Some(JObj(map["id" := JStr(Location.LocationId(r.location.value))])))
      else Returned(Some(EmptyObject))
    else Returned(None)
  }

  /** `update_netsuite_record`: the body on 200/201, `{}` on 204, `None` on
      any other status. */
  function UpdateRecord(r: Reply): (res: Option<Json>)
    ensures r.status == 200 || r.status == 201 ==> res == AsPython(r.body)
    ensures r.status == 204 ==> res == Some(EmptyObject)
    ensures res.None? <==> r.status !in {200, 201, 204} || (r.status != 204 && r.body == JNull)
  {
    if r.status == 200 || r.status == 201 then AsPython(r.body)
    else if r.status == 204 then Some(EmptyObject)
    else None
  }

  /** `delete_netsuite_record`: true exactly on 204 No Content. */
  function DeleteRecord(r: Reply): (deleted: bool)
    ensures deleted <==> r.status == 204
  {
    r.status == 204
  }

  /** No operation reports success for a status outside the 2xx class, and
      some 2xx statuses (202 Accepted, 206, ...) are still reported as
      failures by every operation. */
  lemma SuccessImplies2xx(r: Reply)
    ensures FetchRecordById(r).Some? ==> Successful(r.status)
    ensures CreateRecord(r).Returned? && CreateRecord(r).value.Some? ==> Successful(r.status)
    ensures UpdateRecord(r).Some? ==> Successful(r.status)
    ensures DeleteRecord(r) ==> Successful(r.status)
    ensures r.status == 202 ==>
      FetchRecordById(r).None? && CreateRecord(r) == Returned(None) && UpdateRecord(r).None? && !DeleteRecord(r)
  {
  }

  /** For fetch and update, a success whose body is JSON `null` returns the
      very `None` a failure returns: a caller cannot tell the two apart.
      Create does tell them apart, by raising on the success. */
  lemma NullBodyLooksLikeFailure(location: Option<string>, failure: int)
    requires failure !in {200, 201, 204}
    ensures FetchRecordById(Reply(200, JNull, location)) == FetchRecordById(Reply(failure, JNull, location)) == None
    ensures UpdateRecord(Reply(201, JNull, location)) == UpdateRecord(Reply(failure, JNull, location)) == None
    ensures CreateRecord(Reply(200, JNull, location)) == Raised
    ensures CreateRecord(Reply(failure, JNull, location)) == Returned(None)
  {
  }

  /** Create returns what update returns for the same reply, except on a
      204 carrying a usable `Location` header, which only create consults,
      and on a 200/201 whose body is not a JSON object, where only create
      raises. */
  lemma CreateAgreesWithUpdate(r: Reply)
    ensures CreateRecord(r) == Returned(UpdateRecord(r)) <==>
      !(r.status == 204 && HasLocation(r)) && !((r.status == 200 || r.status == 201) && !r.body.JObj?)
  {
    if r.status == 204 && HasLocation(r) {
      assert "id" in CreateRecord(r).value.value.fields;
    }
  }

  /** A 204 whose `Location` names the new record as `<base>/<id>` (trailing
      slashes allowed) makes create return `{"id": id}`: the identifier the
      server assigned is recovered. */
  lemma CreateRecoversAssignedId(base: string, id: string, slashes: string, body: Json)
    requires id != [] && '/' !in id
    requires Location.AllSlashes(slashes)
    ensures CreateRecord(Reply(204, body, Some(base + "/" + id + slashes)))
         == Returned(Some(JObj(map["id" := JStr(id)])))
  {
    Location.LocationIdOfRecordUrl(base, id, slashes);
  }

  /** A 204 without a usable `Location` still succeeds, with `{}`, which is
      a different result from the `None` of a failure; a header made only of
      slashes passes the `if location:` test and yields an empty id. */
  lemma CreateWithoutLocation(body: Json, location: string)
    ensures CreateRecord(Reply(204, body, None)) == Returned(Some(EmptyObject)) != Returned(None)
    ensures CreateRecord(Reply(204, body, Some(""))) == Returned(Some(EmptyObject))
    ensures location != [] && Location.AllSlashes(location) ==>
      CreateRecord(Reply(204, body, Some(location))) == Returned(Some(JObj(map["id" := JStr("")])))
  {
  }
}
