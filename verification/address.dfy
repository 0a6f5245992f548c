/** Resource instances and their request URLs.

    A SimPRO object knows its parent; its URL is the parent's URL followed by
    its type's URL suffix and its record id. The chain ends at `Parentless`,
    whose URL is the API base URL. Because `Node` is an inductive datatype,
    every parent chain is finite and acyclic by construction.
 */
module Address {

  import opened Values
  import opened Text

  /** The company's SimPRO sub-domain, read from the environment at start-up;
      its value is left open. */
  const CompanyDomain: string

  const BaseUrl: string := "https://" + CompanyDomain + ".simprosuite.com"

  /** The URL `Parentless` answers with. */
  const BaseApiUrl: string := BaseUrl + "/api/v1.0"

  /** A resource type: its class name and its `type_url_suffix`. */
  datatype Kind = Kind(name: string, suffix: string)

  const CompanyKind: Kind := Kind("Company", "/companies/")

  /** `Parentless`, or a SimPRO object with its type, record id, parent and
      attribute map. */
  datatype Node =
    | Parentless
    | Obj(kind: Kind, recordId: int, parent: Node, attributes: Record)

  /** The `obj_url` property. Every URL starts with the API base URL, and an
      object's URL ends with its decimal record id. */
  function ObjUrl(x: Node): (url: string)
    ensures |BaseApiUrl| <= |url| && url[..|BaseApiUrl|] == BaseApiUrl
    ensures x.Parentless? ==> url == BaseApiUrl
    ensures x.Obj? ==> |IntToDecimal(x.recordId)| <= |url|
    ensures x.Obj? ==> url[|url| - |IntToDecimal(x.recordId)|..] == IntToDecimal(x.recordId)
  {
    match x
    case Parentless => BaseApiUrl
    case Obj(kind, id, parent, _) => ObjUrl(parent) + kind.suffix + IntToDecimal(id)
  }

  /** The URL of the collection of `kind` objects under `parent`, used to list
      and to create them. */
  function TypeUrl(parent: Node, kind: Kind): (url: string)
    ensures |BaseApiUrl| <= |url| && url[..|BaseApiUrl|] == BaseApiUrl
    ensures |ObjUrl(parent)| <= |url| && url[..|ObjUrl(parent)|] == ObjUrl(parent)
  {
    ObjUrl(parent) + kind.suffix
  }

  /** The collection URL followed by a decimal id is the URL of the child
      with that id: what `_create` posts to, extended by the id the server
      assigns, is where the new object lives. */
  lemma ChildUrl(parent: Node, kind: Kind, id: int, attributes: Record)
    ensures TypeUrl(parent, kind) + IntToDecimal(id) == ObjUrl(Obj(kind, id, parent, attributes))
  {
  }

  /** `SimProObject.__init__`: a missing attribute map becomes an empty one. */
  function NewObject(kind: Kind, recordId: int, parent: Node, attributes: Option<Record>): (x: Node)
    ensures x.Obj? && x.parent == parent && x.recordId == recordId
    ensures attributes.Some? ==> x.attributes == attributes.value
    ensures attributes.None? ==> x.attributes == map[]
  {
    Obj(kind, recordId, parent, if attributes.None? then map[] else attributes.value)
  }

  /** `Company.__init__`: a falsy record id (None or 0) becomes 0, a missing
      parent becomes `Parentless` and a missing attribute map an empty one. */
  function NewCompany(recordId: Option<int>, parent: Option<Node>, attributes: Option<Record>): (c: Node)
    ensures c.Obj? && c.kind == CompanyKind
    ensures c.recordId == 0 <==> recordId == None || recordId == Some(0)
    ensures recordId.Some? ==> c.recordId == recordId.value
    ensures parent.Some? ==> c.parent == parent.value
    ensures parent.None? ==> c.parent == Parentless
    ensures c.attributes == (if attributes.Some? then attributes.value else map[])
  {
    var id := if recordId.None? || recordId.value == 0 then 0 else recordId.value;
    NewObject(CompanyKind, id, if parent.None? then Parentless else parent.value, attributes)
  }

  /** `Company(None)`, given no parent or attribute map, lives at
      `<base>/companies/0`. */
  lemma DefaultCompanyUrl()
    ensures ObjUrl(NewCompany(None, None, None)) == BaseApiUrl + "/companies/0"
  {
    assert IntToDecimal(0) == "0";
  }

  // ---------------------------------------------------------------------
  // The parent chain read from the root down
  // ---------------------------------------------------------------------

  /** The objects on the chain from the top-most ancestor down to `x`. */
  function Lineage(x: Node): (line: seq<Node>)
    ensures |line| == Depth(x)
    ensures forall i :: 0 <= i < |line| ==> line[i].Obj?
    ensures x.Obj? ==> line[|line| - 1] == x
  {
    match x
    case Parentless => []
    case Obj(_, _, parent, _) => Lineage(parent) + [x]
  }

  /** Number of objects on the parent chain, `x` included. */
  function Depth(x: Node): nat {
    match x
    case Parentless => 0
    case Obj(_, _, parent, _) => 1 + Depth(parent)
  }

  /** The URL piece one object contributes: its suffix and its id. */
  function Segment(x: Node): string
    requires x.Obj?
  {
    x.kind.suffix + IntToDecimal(x.recordId)
  }

  /** The segments of a root-to-leaf chain, read left to right. */
  function Segments(line: seq<Node>): string
    requires forall i :: 0 <= i < |line| ==> line[i].Obj?
  {
    if |line| == 0 then "" else Segment(line[0]) + Segments(line[1..])
  }

  lemma {:induction false} SegmentsAppend(line: seq<Node>, x: Node)
    requires forall i :: 0 <= i < |line| ==> line[i].Obj?
    requires x.Obj?
    ensures Segments(line + [x]) == Segments(line) + Segment(x)
  {
    if |line| > 0 {
      SegmentsAppend(line[1..], x);
      assert (line + [x])[1..] == line[1..] + [x];
    }
  }

  /** `obj_url` is the base URL followed by every ancestor's suffix and id in
      root-to-leaf order, ending with the object's own. */
  lemma {:induction false} ObjUrlFromRoot(x: Node)
    ensures ObjUrl(x) == BaseApiUrl + Segments(Lineage(x))
  {
    if x.Obj? {
      ObjUrlFromRoot(x.parent);
      UrlStep(x);
      SegmentsAppend(Lineage(x.parent), x);
      Regroup(ObjUrl(x.parent), BaseApiUrl, Segments(Lineage(x.parent)), Segment(x));
    }
  }

  /** One object's URL is its parent's followed by its own segment, and its
      lineage is its parent's followed by itself. */
  lemma UrlStep(x: Node)
    requires x.Obj?
    ensures ObjUrl(x) == ObjUrl(x.parent) + Segment(x)
    ensures Lineage(x) == Lineage(x.parent) + [x]
  {
  }

  lemma Regroup(url: string, base: string, segments: string, own: string)
    requires url == base + segments
    ensures url + own == base + (segments + own)
  {
  }

  /** The three-level case: a grandchild under a child under a top-level
      object under `Parentless`. */
  lemma ObjUrlDepthThree(top: Node, child: Node, grandchild: Node)
    requires top.Obj? && top.parent == Parentless
    requires child.Obj? && child.parent == top
    requires grandchild.Obj? && grandchild.parent == child
    ensures ObjUrl(grandchild) ==
      BaseApiUrl
      + top.kind.suffix + IntToDecimal(top.recordId)
      + child.kind.suffix + IntToDecimal(child.recordId)
      + grandchild.kind.suffix + IntToDecimal(grandchild.recordId)
  {
    UrlStep(top);
    UrlStep(child);
    UrlStep(grandchild);
    var a, b, c := Segment(top), Segment(child), Segment(grandchild);
    assert ObjUrl(grandchild) == BaseApiUrl + a + b + c;
  }

  /** Every ancestor's URL is a prefix of its descendants' URLs. */
  lemma {:induction false} AncestorUrlIsPrefix(x: Node, i: nat)
    requires i < Depth(x)
    ensures ObjUrl(Lineage(x)[i]) <= ObjUrl(x)
  {
    match x
    case Obj(_, _, parent, _) =>
      if i < Depth(parent) {
        AncestorUrlIsPrefix(parent, i);
        assert Lineage(x)[i] == Lineage(parent)[i];
      }
  }
}
