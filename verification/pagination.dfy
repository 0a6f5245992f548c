/** Listing every child of a parent: `SimProObject._list_all` / `list_all`
    and `Company.list_all`.

    The server is modelled by the sequence of replies it gives to the
    successive page requests. The loop asks for pages 1, 2, ... at one URL
    with the same parameters until a reply carries no "next" link; a reply
    that is not ok, a library exception or an undecodable record aborts the
    whole listing.
 */
module Pagination {

  import opened Values
  import opened Text
  import opened Address
  import opened Columns
  import opened Crud

  /** The server's answer to one page request. */
  datatype ListReply =
    | PageReply(records: seq<Record>, hasNext: bool)
    | ListNotOk(status: int)
    | ListRaised(reason: string)

  /** Decoding every record of a page, in order; the first undecodable
      record's error aborts. */
  function DecodeAll(kind: Kind, parent: Node, records: seq<Record>): (r: Result<seq<Node>>)
    ensures r.Ok? <==> forall i :: 0 <= i < |records| ==> Decode(kind, parent, records[i]).Ok?
    ensures r.Ok? ==> |r.value| == |records|
    ensures r.Ok? ==> forall i :: 0 <= i < |records| ==> Decode(kind, parent, records[i]) == Ok(r.value[i])
  {
    if |records| == 0 then Ok([])
    else
      match Decode(kind, parent, records[0])
      case Err(e) => Err(e)
      case Ok(x) =>
        match DecodeAll(kind, parent, records[1..])
        case Err(e) => Err(e)
        case Ok(xs) => Ok([x] + xs)
  }

  /** A page whose records all decode. */
  predicate Decodable(kind: Kind, parent: Node, reply: ListReply) {
    reply.PageReply? && DecodeAll(kind, parent, reply.records).Ok?
  }

  /** The reply on which the listing loop stops. */
  predicate Ends(kind: Kind, parent: Node, reply: ListReply) {
    !Decodable(kind, parent, reply) || !reply.hasNext
  }

  /** Some reply at or after `from` stops the loop. */
  predicate EndsFrom(kind: Kind, parent: Node, replies: seq<ListReply>, from: nat) {
    exists k :: from <= k < |replies| && Ends(kind, parent, replies[k])
  }

  /** Index of the first reply at or after `from` that stops the loop. */
  function FirstEnd(kind: Kind, parent: Node, replies: seq<ListReply>, from: nat): (k: nat)
    requires EndsFrom(kind, parent, replies, from)
    ensures from <= k < |replies|
    ensures Ends(kind, parent, replies[k])
    ensures forall j :: from <= j < k ==> !Ends(kind, parent, replies[j])
    decreases |replies| - from
  {
    if Ends(kind, parent, replies[from]) then from else FirstEnd(kind, parent, replies, from + 1)
  }

  /** The objects of the first `n` pages, decoded and concatenated in page
      order. */
  function Collected(kind: Kind, parent: Node, replies: seq<ListReply>, n: nat): seq<Node>
    requires n <= |replies|
    requires forall j :: 0 <= j < n ==> Decodable(kind, parent, replies[j])
  {
    if n == 0 then []
    else
      assert Decodable(kind, parent, replies[n - 1]);
      Collected(kind, parent, replies, n - 1) + DecodeAll(kind, parent, replies[n - 1].records).value
  }

  /** The exception a stopping reply raises when it is not a decodable page. */
  function EndError(kind: Kind, parent: Node, reply: ListReply): Error
    requires !Decodable(kind, parent, reply)
  {
    match reply
    case ListNotOk(status) => HttpError(status)
    case ListRaised(reason) => TransportError(reason)
    case PageReply(records, _) => DecodeAll(kind, parent, records).error
  }

  /** What a listing whose loop stops at reply `k` returns: every page
      concatenated when reply `k` is a decodable last page, otherwise the
      exception reply `k` raises. */
  function Outcome(kind: Kind, parent: Node, replies: seq<ListReply>, k: nat): Result<seq<Node>>
    requires k < |replies|
    requires forall j :: 0 <= j < k ==> Decodable(kind, parent, replies[j])
  {
    if Decodable(kind, parent, replies[k]) then Ok(Collected(kind, parent, replies, k + 1))
    else Err(EndError(kind, parent, replies[k]))
  }

  /** The listing loop proper, once the column string is fixed. */
  method Drain(kind: Kind, parent: Node, url: string, params: string, replies: seq<ListReply>)
    returns (result: Result<seq<Node>>, requests: seq<Request>)
    requires EndsFrom(kind, parent, replies, 0)
    ensures requests == PageRequests(url, params, FirstEnd(kind, parent, replies, 0) + 1)
    ensures result == Outcome(kind, parent, replies, FirstEnd(kind, parent, replies, 0))
  {
    var k := FirstEnd(kind, parent, replies, 0);
    var page := 1;
    var objects := [];
    requests := [];
    while true
      invariant 1 <= page <= k + 1
      invariant requests == PageRequests(url, params, page - 1)
      invariant objects == Collected(kind, parent, replies, page - 1)
      decreases k + 1 - page
    {
      requests := requests + [PageRequest(url, params, page)];
      if Ends(kind, parent, replies[page - 1]) {
        break;
      }
      objects := objects + DecodeAll(kind, parent, replies[page - 1].records).value;
      page := page + 1;
    }
    assert page - 1 == k;
    var reply := replies[k];
    if !Decodable(kind, parent, reply) {
      result := Err(EndError(kind, parent, reply));
    } else {
      result := Ok(objects + DecodeAll(kind, parent, reply.records).value);
    }
  }

  /** The requests for pages 1 .. n, in order. */
  function PageRequests(url: string, columns: string, n: nat): (requests: seq<Request>)
    ensures |requests| == n
    ensures forall j :: 0 <= j < n ==> requests[j] == PageRequest(url, columns, j + 1)
  {
    if n == 0 then [] else PageRequests(url, columns, n - 1) + [PageRequest(url, columns, n)]
  }

  /** The request for page `page` of the collection at `url`. */
  function PageRequest(url: string, columns: string, page: int): Request {
    ListRequest(url, columns, PageSize, page, OrderBy)
  }

  /** `_list_all`. It sends requests for pages 1 .. k+1, where k is the first
      reply that stops the loop, all at the same URL with the same columns,
      page size and sort key. It returns the pages' objects concatenated in
      page order when that reply is a decodable last page, and otherwise that
      reply's exception, discarding the pages collected so far. */
  method ListAllPages(kind: Kind, parent: Node, columns: seq<string>, replies: seq<ListReply>)
    returns (result: Result<seq<Node>>, requests: seq<Request>, callerColumns: seq<string>)
    requires EndsFrom(kind, parent, replies, 0)
    ensures |requests| == FirstEnd(kind, parent, replies, 0) + 1
    ensures requests[0].ListRequest?
    ensures forall j :: 0 <= j < |requests| ==>
              requests[j] == PageRequest(TypeUrl(parent, kind), requests[0].columns, j + 1)
    ensures FreeOf(columns, ',') ==> NamesExactly(requests[0].columns, Elements(columns))
    ensures callerColumns == columns + ["ID"]
    ensures result.Ok? <==> Decodable(kind, parent, replies[FirstEnd(kind, parent, replies, 0)])
    ensures result.Ok? ==> result.value == Collected(kind, parent, replies, |requests|)
    ensures result.Err? ==> result.error == EndError(kind, parent, replies[|requests| - 1])
  {
    var params, order, after := ColumnsToParams(Some(columns));
    callerColumns := after.value;
    result, requests := Drain(kind, parent, TypeUrl(parent, kind), params, replies);
  }

  /** A parent with no children still costs one request. */
  lemma EmptyListingOneRequest(kind: Kind, parent: Node, replies: seq<ListReply>)
    requires |replies| > 0 && replies[0] == PageReply([], false)
    ensures EndsFrom(kind, parent, replies, 0)
    ensures FirstEnd(kind, parent, replies, 0) == 0
    ensures Decodable(kind, parent, replies[0])
    ensures Collected(kind, parent, replies, 1) == []
  {
    assert Ends(kind, parent, replies[0]);
  }

  /** `list_all`: a missing column list becomes a fresh empty one, which no
      caller sees. */
  method ListAll(kind: Kind, parent: Node, columns: Option<seq<string>>, replies: seq<ListReply>)
    returns (result: Result<seq<Node>>, requests: seq<Request>, callerColumns: Option<seq<string>>)
    requires EndsFrom(kind, parent, replies, 0)
    ensures |requests| == FirstEnd(kind, parent, replies, 0) + 1
    ensures requests[0].ListRequest?
    ensures forall j :: 0 <= j < |requests| ==>
              requests[j] == PageRequest(TypeUrl(parent, kind), requests[0].columns, j + 1)
    ensures columns.None? ==> NamesExactly(requests[0].columns, {})
    ensures columns.Some? && FreeOf(columns.value, ',') ==> NamesExactly(requests[0].columns, Elements(columns.value))
    ensures columns.None? ==> callerColumns.None?
    ensures columns.Some? ==> callerColumns == Some(columns.value + ["ID"])
    ensures result.Ok? <==> Decodable(kind, parent, replies[FirstEnd(kind, parent, replies, 0)])
    ensures result.Ok? ==> result.value == Collected(kind, parent, replies, |requests|)
    ensures result.Err? ==> result.error == EndError(kind, parent, replies[|requests| - 1])
  {
    var given := if columns.None? then [] else columns.value;
    var after;
    result, requests, after := ListAllPages(kind, parent, given, replies);
    callerColumns := if columns.None? then None else Some(after);
  }

  /** Putting "Name" in front adds it to the requested names and, being
      comma-free, keeps a comma-free list comma-free. */
  lemma NamePrepended(given: seq<string>)
    ensures Elements(["Name"] + given) == Elements(given) + {"Name"}
    ensures FreeOf(given, ',') ==> FreeOf(["Name"] + given, ',')
  {
    var named := ["Name"] + given;
    assert ',' !in "Name";
    forall i | 0 < i < |named|
      ensures named[i] == given[i - 1]
    {
    }
  }

  /** `Company.list_all`: "Name" is inserted at the front of the caller's
      list before the listing appends "ID", so the request always asks for
      both. */
  method CompanyListAll(parent: Node, columns: Option<seq<string>>, replies: seq<ListReply>)
    returns (result: Result<seq<Node>>, requests: seq<Request>, callerColumns: Option<seq<string>>)
    requires EndsFrom(CompanyKind, parent, replies, 0)
    ensures |requests| == FirstEnd(CompanyKind, parent, replies, 0) + 1
    ensures requests[0].ListRequest?
    ensures forall j :: 0 <= j < |requests| ==>
              requests[j] == PageRequest(TypeUrl(parent, CompanyKind), requests[0].columns, j + 1)
    ensures columns.None? || FreeOf(columns.value, ',') ==>
              NamesExactly(requests[0].columns, Requested(columns) + {"Name"})
    ensures columns.None? ==> callerColumns.None?
    ensures columns.Some? ==> callerColumns == Some(["Name"] + columns.value + ["ID"])
    ensures result.Ok? <==> Decodable(CompanyKind, parent, replies[FirstEnd(CompanyKind, parent, replies, 0)])
    ensures result.Ok? ==> result.value == Collected(CompanyKind, parent, replies, |requests|)
    ensures result.Err? ==> result.error == EndError(CompanyKind, parent, replies[|requests| - 1])
  {
    var given := if columns.None? then [] else columns.value;
    var named := ["Name"] + given;
    var after;
    result, requests, after := ListAllPages(CompanyKind, parent, named, replies);
    callerColumns := if columns.None? then None else Some(after);
    NamePrepended(given);
  }
}
