/** Decoding server records and the single-record operations `create` and
    `retrieve` of `SimProObject`.

    The HTTP exchange is replaced by its two halves: the request the client
    sends, which the model computes, and the server's reply, which the model
    takes as an input.
 */
module Crud {

  import opened Values
  import opened Text
  import opened Address
  import opened Columns

  /** The page size and sort key every listing request carries. */
  const PageSize: int := 250
  const OrderBy: string := "ID"

  /** A request the client sends. */
  datatype Request =
    | ListRequest(url: string, columns: string, pageSize: int, page: int, orderBy: string)
    | RetrieveRequest(url: string, columns: string)
    | CreateRequest(url: string, body: Record)

  /** The server's answer to a single-record request: a JSON object, a
      response that is not ok, or an exception raised by the HTTP library. */
  datatype Reply =
    | Answer(body: Record)
    | NotOk(status: int)
    | Raised(reason: string)

  /** The record a server would send for `x`: its attributes with "ID" put
      back. */
  function Encode(x: Node): Record
    requires x.Obj?
  {
    x.attributes["ID" := Int(x.recordId)]
  }

  /** Moving "ID" out of a server record into the object's record id
      (`obj_attributes.pop("ID")` then the class constructor). */
  function Decode(kind: Kind, parent: Node, rec: Record): (r: Result<Node>)
    ensures "ID" !in rec ==> r == Err(KeyError("ID"))
    ensures r.Ok? <==> "ID" in rec && rec["ID"].Int?
    ensures r.Ok? ==> && r.value.Obj?
                      && r.value.kind == kind
                      && r.value.parent == parent
                      && "ID" !in r.value.attributes
                      && Encode(r.value) == rec
  {
    if "ID" !in rec then Err(KeyError("ID"))
    else if !rec["ID"].Int? then Err(UnsupportedId)
    else Ok(NewObject(kind, rec["ID"].i, parent, Some(rec - {"ID"})))
  }

  /** Decoding what `Encode` produced gives the object back. */
  lemma DecodeEncode(x: Node)
    requires x.Obj? && "ID" !in x.attributes
    ensures Decode(x.kind, x.parent, Encode(x)) == Ok(x)
  {
    assert Encode(x) - {"ID"} == x.attributes;
  }

  /** The reply turned into the decoded record or the exception it raises. */
  function DecodeReply(kind: Kind, parent: Node, reply: Reply): (r: Result<Node>)
    ensures reply.NotOk? ==> r == Err(HttpError(reply.status))
    ensures reply.Raised? ==> r == Err(TransportError(reply.reason))
    ensures reply.Answer? ==> r == Decode(kind, parent, reply.body)
  {
    match reply
    case Answer(body) => Decode(kind, parent, body)
    case NotOk(status) => Err(HttpError(status))
    case Raised(reason) => Err(TransportError(reason))
  }

  /** `_create`: POST the attributes to the type URL under `parent`, then
      decode the reply. The request carries no id; the new object's URL is
      the POST URL followed by the id the server assigned. */
  function CreateRecord(kind: Kind, parent: Node, attributes: Record, reply: Reply)
    : (r: (Request, Result<Node>))
    ensures r.0 == CreateRequest(TypeUrl(parent, kind), attributes)
    ensures reply.Answer? && "ID" in reply.body && reply.body["ID"].Int? <==> r.1.Ok?
    ensures r.1.Ok? ==> && r.1.value.Obj?
                        && r.1.value.parent == parent
                        && ObjUrl(r.1.value) == r.0.url + IntToDecimal(r.1.value.recordId)
                        && Encode(r.1.value) == reply.body
  {
    (CreateRequest(TypeUrl(parent, kind), attributes), DecodeReply(kind, parent, reply))
  }

  /** `create`: a missing attribute map is sent as an empty JSON object. */
  function Create(kind: Kind, parent: Node, attributes: Option<Record>, reply: Reply)
    : (r: (Request, Result<Node>))
    ensures r.0.CreateRequest? && r.0.url == TypeUrl(parent, kind)
    ensures attributes.None? ==> r.0.body == map[]
    ensures attributes.Some? ==> r.0.body == attributes.value
    ensures r.1 == DecodeReply(kind, parent, reply)
  {
    CreateRecord(kind, parent, if attributes.None? then map[] else attributes.value, reply)
  }

  /** `_retrieve`: GET the object's own URL with the column projection, then
      decode the reply. The decoded object takes the id the server returns;
      when that is the requested id, its URL is the requested URL. */
  method RetrieveRecord(kind: Kind, recordId: int, parent: Node, columns: Option<seq<string>>, reply: Reply)
    returns (request: Request, result: Result<Node>, callerColumns: Option<seq<string>>)
    ensures request.RetrieveRequest?
    ensures request.url == ObjUrl(Obj(kind, recordId, parent, map[]))
    ensures columns.None? ==> request.columns == "ID"
    ensures columns.None? || FreeOf(columns.value, ',') ==> NamesExactly(request.columns, Requested(columns))
    ensures callerColumns == (if columns.None? then None else Some(columns.value + ["ID"]))
    ensures result == DecodeReply(kind, parent, reply)
    ensures result.Ok? && result.value.recordId == recordId ==> ObjUrl(result.value) == request.url
  {
    var params, order;
    params, order, callerColumns := ColumnsToParams(columns);
    request := RetrieveRequest(TypeUrl(parent, kind) + IntToDecimal(recordId), params);
    result := DecodeReply(kind, parent, reply);
  }

  /** `retrieve`: a missing column list becomes a fresh empty one, so the
      request asks for "ID" only and no caller list changes. */
  method Retrieve(kind: Kind, recordId: int, parent: Node, columns: Option<seq<string>>, reply: Reply)
    returns (request: Request, result: Result<Node>, callerColumns: Option<seq<string>>)
    ensures request.RetrieveRequest? && request.url == ObjUrl(Obj(kind, recordId, parent, map[]))
    ensures columns.None? ==> request.columns == "ID" && callerColumns.None?
    ensures columns.Some? && FreeOf(columns.value, ',') ==> NamesExactly(request.columns, Elements(columns.value))
    ensures columns.Some? ==> callerColumns == Some(columns.value + ["ID"])
    ensures result == DecodeReply(kind, parent, reply)
  {
    var given := if columns.None? then [] else columns.value;
    var after;
    request, result, after := RetrieveRecord(kind, recordId, parent, Some(given), reply);
    callerColumns := if columns.None? then None else after;
    if columns.None? {
      assert NamesExactly(request.columns, {});
      SplitJoinSingle(request.columns);
    }
  }

  /** A column string that splits into exactly {"ID"} is "ID". */
  lemma SplitJoinSingle(params: string)
    requires NamesExactly(params, {})
    ensures params == "ID"
  {
    var names := Split(params, ',');
    DistinctCardinality(names);
    assert names[0] in Elements(names);
    assert names == ["ID"];
    SplitRebuilds(params, ',');
  }
}
