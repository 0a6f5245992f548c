/** The record-assembly helpers built on the client: `create_site` (name
    derivation, attribute merge, three attempts at creating the site) and
    `create_job` (attribute defaults, optional site, and making sure the job
    has a section with a cost center).

    The resource classes these helpers call (`Site`, `Job`, `Section`,
    `JobCostCenter`) are stubs, so each `create` / `list_all` is an abstract
    operation: its outcome is an input, and the model records the call made.
 */
module Bootstrap {

  import opened Values
  import opened Text
  import opened Address

  /** The cost center a new job cost center is attached to. */
  const DefaultCostCenter: int := 0

  /** How many times `create_site` tries `Site.create`. */
  const SiteAttempts: nat := 3

  /** The resource classes `create_job` and `create_site` call into. */
  datatype Resource = Site | Job | Section | JobCostCenter

  /** A call to one of the abstract resource operations. */
  datatype Call =
    | CreateCall(kind: Resource, parent: Node, body: Record)
    | ListCall(kind: Resource, parent: Node)

  /** Python `dict.update`: `changes` win on shared keys. */
  function Update(base: Record, changes: Record): (r: Record)
    ensures r.Keys == base.Keys + changes.Keys
    ensures forall key :: key in changes ==> r[key] == changes[key]
    ensures forall key :: key in base && key !in changes ==> r[key] == base[key]
  {
    base + changes
  }

  // ---------------------------------------------------------------------
  // create_site
  // ---------------------------------------------------------------------

  /** `dict.get(key)` seen as "present and not None". */
  predicate Given(m: Record, key: string) {
    key in m && m[key] != Null
  }

  /** A street address run through `replace("\n", "")` and then
      `" ".join(... .split())`. */
  function NormaliseStreet(street: string): (name: string)
    ensures '\n' !in name
    ensures Collapsed(name)
    ensures Words(name) == Words(Delete(street, '\n'))
    ensures Visible(name) == Visible(Delete(street, '\n'))
  {
    var joined := Delete(street, '\n');
    CollapseProperties(joined);
    Collapse(joined)
  }

  /** `set_name`: the caller's "Name" if there is one; otherwise the nested
      street address `Address["Address"]`, normalised, or "" when either
      level is missing or None. Calling `get` on an address that is not a
      dict, or `replace` on a street address that is not a string, raises
      AttributeError. */
  function SetName(siteAttributes: Record): (r: Result<Value>)
    ensures "Name" in siteAttributes ==> r == Ok(siteAttributes["Name"])
    ensures "Name" !in siteAttributes && !Given(siteAttributes, "Address") ==> r == Ok(Str(""))
    ensures "Name" !in siteAttributes && Given(siteAttributes, "Address") ==>
              (r.Ok? <==> siteAttributes["Address"].Dict?
                          && (!Given(siteAttributes["Address"].fields, "Address")
                              || siteAttributes["Address"].fields["Address"].Str?))
    ensures "Name" !in siteAttributes && Given(siteAttributes, "Address")
            && siteAttributes["Address"].Dict? && !Given(siteAttributes["Address"].fields, "Address")
            ==> r == Ok(Str(""))
    ensures "Name" !in siteAttributes && Given(siteAttributes, "Address")
            && siteAttributes["Address"].Dict? && Given(siteAttributes["Address"].fields, "Address")
            && siteAttributes["Address"].fields["Address"].Str?
            ==> r.Ok? && r.value.Str?
                && r.value.s == NormaliseStreet(siteAttributes["Address"].fields["Address"].s)
  {
    if "Name" in siteAttributes then Ok(siteAttributes["Name"])
    else if !Given(siteAttributes, "Address") then Ok(Str(""))
    else
      match siteAttributes["Address"]
      case Dict(address) =>
        if !Given(address, "Address") then Ok(Str(""))
        else if address["Address"].Str? then Ok(Str(NormaliseStreet(address["Address"].s)))
        else Err(AttributeError("replace"))
      case _ => Err(AttributeError("get"))
  }

  /** A line break is deleted, not turned into a space: the words on
      either side of it run together. */
  lemma NewlineJoinsWords(a: string, b: string)
    requires IsWord(a) && IsWord(b)
    ensures NormaliseStreet(a + "\n" + b) == a + b
  {
    WordUntouched(a);
    WordUntouched(b);
    DeleteNewline(a, b);
    WordsConcat(a, b);
    CollapseWord(a + b);
  }

  lemma DeleteNewline(a: string, b: string)
    requires '\n' !in a && '\n' !in b
    ensures Delete(a + "\n" + b, '\n') == a + b
  {
    assert a + "\n" + b == a + ("\n" + b);
    DeleteAppend(a, "\n" + b, '\n');
    DeleteLeadingNewline(b);
    DeleteAbsent(a, '\n');
    DeleteAbsent(b, '\n');
  }

  /** The shape of "Line1\nExtra   spaces", which gives "Line1Extra spaces":
      the line break glues the first two words, the run of spaces between
      the last two shrinks to one. */
  lemma NewlineThenSpaces(first: string, second: string, gap: string, third: string)
    requires IsWord(first) && IsWord(second) && IsWord(third)
    requires |gap| > 0 && forall i :: 0 <= i < |gap| ==> gap[i] == ' '
    ensures NormaliseStreet(first + "\n" + second + gap + third) == first + second + " " + third
  {
    var glued := first + second + gap + third;
    DeleteNewlineBeforeGap(first, second, gap, third);
    WordsConcat(first, second);
    SpacesCollapse(first + second, gap, third);
    DeleteGap(first + second, gap, third);
    assert Delete(first + "\n" + second + gap + third, '\n') == Delete(glued, '\n');
  }

  lemma DeleteNewlineBeforeGap(first: string, second: string, gap: string, third: string)
    requires IsWord(first) && IsWord(second) && IsWord(third)
    requires forall i :: 0 <= i < |gap| ==> gap[i] == ' '
    ensures Delete(first + "\n" + second + gap + third, '\n') == first + second + gap + third
  {
    WordUntouched(first);
    NoneLeft(first);
    DeleteGap(second, gap, third);
    NoneLeft(second + gap + third);
    GlueRest(first, second, gap, third);
  }

  lemma GlueRest(first: string, second: string, gap: string, third: string)
    requires '\n' !in first && '\n' !in second + gap + third
    ensures Delete(first + "\n" + second + gap + third, '\n') == first + second + gap + third
  {
    var rest := second + gap + third;
    assert first + "\n" + second + gap + third == first + "\n" + rest;
    DeleteNewline(first, rest);
    assert first + rest == first + second + gap + third;
  }

  lemma NoneLeft(s: string)
    requires Delete(s, '\n') == s
    ensures '\n' !in s
  {
  }

  lemma DeleteLeadingNewline(s: string)
    ensures Delete("\n" + s, '\n') == Delete(s, '\n')
  {
    DeleteAppend("\n", s, '\n');
    assert "\n"[1..] == "";
  }

  /** Deleting line breaks leaves a word alone. */
  lemma WordUntouched(w: string)
    requires IsWord(w)
    ensures Delete(w, '\n') == w
  {
    forall i | 0 <= i < |w|
      ensures w[i] != '\n'
    {
      assert !IsSpace(w[i]);
    }
    DeleteAbsent(w, '\n');
  }

  lemma WordsConcat(a: string, b: string)
    requires IsWord(a) && IsWord(b)
    ensures IsWord(a + b)
  {
    forall i | 0 <= i < |a + b|
      ensures !IsSpace((a + b)[i])
    {
      if i < |a| {
        assert (a + b)[i] == a[i];
      } else {
        assert (a + b)[i] == b[i - |a|];
      }
    }
  }

  lemma CollapseWord(w: string)
    requires IsWord(w)
    ensures Collapse(w) == w
  {
    WordsOfWord(w, "");
    assert w + "" == w;
  }

  /** A run of spaces between two words becomes one space. */
  lemma SpacesCollapse(a: string, gap: string, b: string)
    requires IsWord(a) && IsWord(b)
    requires |gap| > 0 && forall i :: 0 <= i < |gap| ==> gap[i] == ' '
    ensures NormaliseStreet(a + gap + b) == a + " " + b
  {
    DeleteGap(a, gap, b);
    WordsAroundGap(a, gap, b);
    assert [a, b][1..] == [b];
    assert Join([a, b], ' ') == a + [' '] + b;
  }

  lemma DeleteGap(a: string, gap: string, b: string)
    requires IsWord(a) && IsWord(b)
    requires forall i :: 0 <= i < |gap| ==> gap[i] == ' '
    ensures Delete(a + gap + b, '\n') == a + gap + b
  {
    DeleteAppend(a + gap, b, '\n');
    DeleteAppend(a, gap, '\n');
    WordUntouched(a);
    WordUntouched(b);
    assert '\n' !in gap by {
      forall i | 0 <= i < |gap|
        ensures gap[i] != '\n'
      {
      }
    }
    DeleteAbsent(gap, '\n');
  }

  lemma WordsAroundGap(a: string, gap: string, b: string)
    requires IsWord(a) && IsWord(b)
    requires |gap| > 0 && forall i :: 0 <= i < |gap| ==> gap[i] == ' '
    ensures Words(a + gap + b) == [a, b]
  {
    assert a + gap + b == a + (gap + b);
    assert (gap + b)[0] == ' ';
    WordsOfWord(a, gap + b);
    SkipSpaces(gap, b);
    WordsOfWord(b, "");
    assert b + "" == b;
  }

  lemma {:induction false} SkipSpaces(gap: string, rest: string)
    requires forall i :: 0 <= i < |gap| ==> gap[i] == ' '
    ensures Words(gap + rest) == Words(rest)
  {
    if |gap| > 0 {
      assert (gap + rest)[1..] == gap[1..] + rest;
      SkipSpaces(gap[1..], rest);
    } else {
      assert gap + rest == rest;
    }
  }

  lemma {:induction false} DeleteAppend(a: string, b: string, c: char)
    ensures Delete(a + b, c) == Delete(a, c) + Delete(b, c)
  {
    if |a| > 0 {
      DeleteAppend(a[1..], b, c);
      assert (a + b)[1..] == a[1..] + b;
    } else {
      assert a + b == b;
    }
  }

  lemma {:induction false} DeleteAbsent(s: string, c: char)
    requires c !in s
    ensures Delete(s, c) == s
  {
    if |s| > 0 {
      DeleteAbsent(s[1..], c);
      assert s == [s[0]] + s[1..];
    }
  }

  /** The attributes `Site.create` receives: the derived name, overridden by
      every attribute the caller passed (its own "Name" included). */
  function SiteRecord(siteAttributes: Record, name: Value): (r: Record)
    ensures r.Keys == siteAttributes.Keys + {"Name"}
    ensures forall key :: key in siteAttributes ==> r[key] == siteAttributes[key]
    ensures "Name" !in siteAttributes ==> r["Name"] == name
  {
    Update(map["Name" := name], siteAttributes)
  }

  /** An attempt that raised `HTTPError`, which the retry loop swallows. */
  predicate Retryable(outcome: Result<Node>) {
    outcome.Err? && outcome.error.HttpError?
  }

  /** Number of leading attempts that raised `HTTPError`. */
  function Swallowed(outcomes: seq<Result<Node>>): (k: nat)
    ensures k <= |outcomes|
    ensures forall j :: 0 <= j < k ==> Retryable(outcomes[j])
    ensures k < |outcomes| ==> !Retryable(outcomes[k])
  {
    if |outcomes| == 0 || !Retryable(outcomes[0]) then 0
    else 1 + Swallowed(outcomes[1..])
  }

  /** The retry loop of `create_site`. `outcomes[i]` is what attempt i+1 of
      `Site.create` would give. An attempt that raises `HTTPError` is
      retried; a created site ends the loop; any other exception
      propagates at once; after three `HTTPError`s the loop raises
      JobRecordCreationError. Every attempt sends the same attributes. */
  method CreateSiteWithRetry(customer: Node, record: Record, outcomes: seq<Result<Node>>)
    returns (result: Result<Node>, calls: seq<Call>)
    requires |outcomes| == SiteAttempts
    ensures 1 <= |calls| <= SiteAttempts
    ensures forall i :: 0 <= i < |calls| ==> calls[i] == CreateCall(Site, customer, record)
    ensures forall i :: 0 <= i < |calls| - 1 ==> Retryable(outcomes[i])
    ensures Swallowed(outcomes) < SiteAttempts ==>
              |calls| == Swallowed(outcomes) + 1 && result == outcomes[Swallowed(outcomes)]
    ensures Swallowed(outcomes) == SiteAttempts ==>
              |calls| == SiteAttempts && result == Err(JobRecordCreationError)
  {
    calls := [];
    var attempt := 0;
    while attempt < SiteAttempts
      invariant 0 <= attempt <= SiteAttempts
      invariant |calls| == attempt
      invariant forall i :: 0 <= i < attempt ==> calls[i] == CreateCall(Site, customer, record)
      invariant forall i :: 0 <= i < attempt ==> Retryable(outcomes[i])
    {
      calls := calls + [CreateCall(Site, customer, record)];
      var outcome := outcomes[attempt];
      if !Retryable(outcome) {
        SwallowedStops(outcomes, attempt);
        result := outcome;
        return;
      }
      attempt := attempt + 1;
    }
    SwallowedAll(outcomes);
    result := Err(JobRecordCreationError);
  }

  lemma {:induction false} SwallowedStops(outcomes: seq<Result<Node>>, k: nat)
    requires k < |outcomes|
    requires forall j :: 0 <= j < k ==> Retryable(outcomes[j])
    requires !Retryable(outcomes[k])
    ensures Swallowed(outcomes) == k
  {
    if k > 0 {
      SwallowedStops(outcomes[1..], k - 1);
    }
  }

  lemma {:induction false} SwallowedAll(outcomes: seq<Result<Node>>)
    requires forall j :: 0 <= j < |outcomes| ==> Retryable(outcomes[j])
    ensures Swallowed(outcomes) == |outcomes|
  {
    if |outcomes| > 0 {
      SwallowedAll(outcomes[1..]);
    }
  }

  /** What the retry loop ends with: the first attempt that did not raise
      `HTTPError`, or JobRecordCreationError when all three did. */
  function RetryOutcome(outcomes: seq<Result<Node>>): Result<Node>
    requires |outcomes| == SiteAttempts
  {
    if Swallowed(outcomes) < SiteAttempts then outcomes[Swallowed(outcomes)] else Err(JobRecordCreationError)
  }

  /** How many attempts the retry loop makes. */
  function AttemptsMade(outcomes: seq<Result<Node>>): nat
    requires |outcomes| == SiteAttempts
  {
    if Swallowed(outcomes) < SiteAttempts then Swallowed(outcomes) + 1 else SiteAttempts
  }

  /** Every call in `calls` is `call`. */
  predicate Repeats(calls: seq<Call>, call: Call) {
    forall i :: 0 <= i < |calls| ==> calls[i] == call
  }

  /** `create_site`: derive the name, merge it under the caller's
      attributes, then run the retry loop. A name that cannot be derived
      raises before any attempt. */
  method CreateSite(customer: Node, siteAttributes: Record, outcomes: seq<Result<Node>>)
    returns (result: Result<Node>, calls: seq<Call>)
    requires |outcomes| == SiteAttempts
    ensures SetName(siteAttributes).Err? ==> result == SetName(siteAttributes).PropagateFailure() && calls == []
    ensures SetName(siteAttributes).Ok? ==> 1 <= |calls| <= SiteAttempts
    ensures SetName(siteAttributes).Ok? ==>
              Repeats(calls, CreateCall(Site, customer, SiteRecord(siteAttributes, SetName(siteAttributes).value)))
    ensures SetName(siteAttributes).Ok? ==> |calls| == AttemptsMade(outcomes) && result == RetryOutcome(outcomes)
    ensures result.Ok? ==> result == outcomes[|calls| - 1]
    ensures SetName(siteAttributes).Ok? && Swallowed(outcomes) == SiteAttempts ==>
              result == Err(JobRecordCreationError)
  {
    var name := SetName(siteAttributes);
    if name.Err? {
      return Err(name.error), [];
    }
    result, calls := CreateSiteWithRetry(customer, SiteRecord(siteAttributes, name.value), outcomes);
  }

  // ---------------------------------------------------------------------
  // create_job
  // ---------------------------------------------------------------------

  /** What the abstract operations give, in the order `create_job` calls
      them. */
  datatype Outcomes = Outcomes(
    siteAttempts: seq<Result<Node>>,
    job: Result<Node>,
    sections: Result<seq<Node>>,
    newSection: Result<Node>,
    costCenters: Result<seq<Node>>,
    newCostCenter: Result<Node>)

  /** `x.record_id`: objects have one, the parentless root does not. */
  function RecordIdOf(x: Node): (r: Result<int>)
    ensures r.Ok? <==> x.Obj?
    ensures x.Obj? ==> r.value == x.recordId
  {
    if x.Obj? then Ok(x.recordId) else Err(AttributeError("record_id"))
  }

  /** The job defaults, before the caller's attributes are applied. */
  function JobDefaults(customerId: int): (r: Record)
    ensures r.Keys == {"Type", "Customer"}
    ensures r["Type"] == Str("Service") && r["Customer"] == Int(customerId)
  {
    map["Type" := Str("Service"), "Customer" := Int(customerId)]
  }

  /** The attributes of the cost center `create_job` adds. */
  const CostCenterDetails: Record := map["CostCenter" := Int(DefaultCostCenter), "Name" := Str("BOQ")]

  /** The result and the calls of one "ensure a child exists" step. */
  datatype Step = Step(result: Result<Node>, calls: seq<Call>)

  /** How many calls create a `kind`. */
  function Creations(calls: seq<Call>, kind: Resource): (n: nat)
    ensures n <= |calls|
  {
    if |calls| == 0 then 0
    else (if calls[0].CreateCall? && calls[0].kind == kind then 1 else 0) + Creations(calls[1..], kind)
  }

  lemma {:induction false} CreationsAppend(a: seq<Call>, b: seq<Call>, kind: Resource)
    ensures Creations(a + b, kind) == Creations(a, kind) + Creations(b, kind)
  {
    if |a| == 0 {
      assert a + b == b;
    } else {
      assert (a + b)[1..] == a[1..] + b;
      CreationsAppend(a[1..], b, kind);
    }
  }

  /** List the children; if there are none create one with `body`, otherwise
      use the first one listed. Every call made is about `kind` under
      `parent`. */
  function EnsureChild(kind: Resource, parent: Node, body: Record, listing: Result<seq<Node>>, created: Result<Node>)
    : (r: Step)
    ensures |r.calls| >= 1 && r.calls[0] == ListCall(kind, parent)
    ensures forall other :: Creations(r.calls, other) == (if listing == Ok([]) && other == kind then 1 else 0)
    ensures listing == Ok([]) ==> r.calls == [ListCall(kind, parent), CreateCall(kind, parent, body)]
    ensures listing != Ok([]) ==> r.calls == [ListCall(kind, parent)]
    ensures listing.Ok? && listing.value != [] ==> r.result == Ok(listing.value[0])
    ensures listing.Ok? && listing.value == [] ==> r.result == created
    ensures listing.Err? ==> r.result == listing.PropagateFailure()
  {
    match listing
    case Err(e) => Step(Err(e), [ListCall(kind, parent)])
    case Ok(children) =>
      if |children| < 1 then
        var calls := [ListCall(kind, parent), CreateCall(kind, parent, body)];
        assert calls[1..] == [CreateCall(kind, parent, body)];
        Step(created, calls)
      else Step(Ok(children[0]), [ListCall(kind, parent)])
  }

  /** Ensuring twice: once the first run has left the parent with a child
      (the one it found or the one it created), a second run creates
      nothing and picks the same child. */
  lemma EnsureChildIdempotent(kind: Resource, parent: Node, body: Record, children: seq<Node>,
                              created: Result<Node>, createdAgain: Result<Node>)
    requires EnsureChild(kind, parent, body, Ok(children), created).result.Ok?
    ensures var first := EnsureChild(kind, parent, body, Ok(children), created);
      var childrenAfter := if children == [] then [first.result.value] else children;
      var second := EnsureChild(kind, parent, body, Ok(childrenAfter), createdAgain);
      && Creations(second.calls, kind) == 0
      && second.result == first.result
  {
  }

  /** `CreationsAppend` for the four kinds `create_job` creates. */
  lemma CountAppend(a: seq<Call>, b: seq<Call>)
    ensures Creations(a + b, Site) == Creations(a, Site) + Creations(b, Site)
    ensures Creations(a + b, Job) == Creations(a, Job) + Creations(b, Job)
    ensures Creations(a + b, Section) == Creations(a, Section) + Creations(b, Section)
    ensures Creations(a + b, JobCostCenter) == Creations(a, JobCostCenter) + Creations(b, JobCostCenter)
  {
    CreationsAppend(a, b, Site);
    CreationsAppend(a, b, Job);
    CreationsAppend(a, b, Section);
    CreationsAppend(a, b, JobCostCenter);
  }

  /** Every creation of `kind` among `calls` sends `body`. */
  predicate CreatesWith(calls: seq<Call>, kind: Resource, body: Record) {
    forall i :: 0 <= i < |calls| && calls[i].CreateCall? && calls[i].kind == kind ==> calls[i].body == body
  }

  lemma CreatesWithAppend(a: seq<Call>, b: seq<Call>, kind: Resource, body: Record)
    requires CreatesWith(a, kind, body) && CreatesWith(b, kind, body)
    ensures CreatesWith(a + b, kind, body)
  {
    forall i | 0 <= i < |a + b| && (a + b)[i].CreateCall? && (a + b)[i].kind == kind
      ensures (a + b)[i].body == body
    {
      if i >= |a| {
        assert (a + b)[i] == b[i - |a|];
      }
    }
  }

  /** Every call creates a `kind`. */
  predicate OnlyCreates(calls: seq<Call>, kind: Resource) {
    forall i :: 0 <= i < |calls| ==> calls[i].CreateCall? && calls[i].kind == kind
  }

  /** `after` is `before` with one more key, every old entry unchanged. */
  predicate Extends(after: Record, before: Record, key: string) {
    && after.Keys == before.Keys + {key}
    && forall k :: k in before ==> after[k] == before[k]
  }

  /** No call creates a `kind`. */
  lemma {:induction false} NoCreations(calls: seq<Call>, kind: Resource)
    requires forall i :: 0 <= i < |calls| ==> !(calls[i].CreateCall? && calls[i].kind == kind)
    ensures Creations(calls, kind) == 0
  {
    if |calls| > 0 {
      NoCreations(calls[1..], kind);
    }
  }

  /** Every call that creates a `call.kind` is `call` itself: the same
      parent and the same body. */
  predicate CreatesOnly(calls: seq<Call>, call: Call) {
    forall i :: 0 <= i < |calls| && calls[i].CreateCall? && calls[i].kind == call.kind ==> calls[i] == call
  }

  /** No creation counted means no call creates a `kind`. */
  lemma {:induction false} ZeroCreations(calls: seq<Call>, kind: Resource)
    requires Creations(calls, kind) == 0
    ensures forall i :: 0 <= i < |calls| ==> !(calls[i].CreateCall? && calls[i].kind == kind)
  {
    if |calls| > 0 {
      ZeroCreations(calls[1..], kind);
      assert forall i :: 1 <= i < |calls| ==> calls[i] == calls[1..][i - 1];
    }
  }

  /** Calls that make `call` and create a `call.kind` only as `call`,
      followed by calls that create no `call.kind`: still so. */
  lemma CreatesOnlyAppend(a: seq<Call>, b: seq<Call>, call: Call)
    requires call in a && CreatesOnly(a, call)
    requires Creations(b, call.kind) == 0
    ensures call in a + b
    ensures CreatesOnly(a + b, call)
  {
    ZeroCreations(b, call.kind);
    assert forall i :: |a| <= i < |a + b| ==> (a + b)[i] == b[i - |a|];
  }

  /** Every call is a creation of `kind`. */
  lemma {:induction false} AllCreations(calls: seq<Call>, kind: Resource)
    requires forall i :: 0 <= i < |calls| ==> calls[i].CreateCall? && calls[i].kind == kind
    ensures Creations(calls, kind) == |calls|
  {
    if |calls| > 0 {
      AllCreations(calls[1..], kind);
    }
  }

  /** The exception the site half of `create_job` raises, if any: the
      name cannot be derived, the retry loop fails, or the site it returns
      is the parentless root, which has no `record_id`. */
  function SiteFailure(siteAttributes: Record, attempts: seq<Result<Node>>): Option<Error>
    requires |attempts| == SiteAttempts
  {
    if SetName(siteAttributes).Err? then Some(SetName(siteAttributes).error)
    else if RetryOutcome(attempts).Err? then Some(RetryOutcome(attempts).error)
    else if RetryOutcome(attempts).value.Parentless? then Some(AttributeError("record_id"))
    else None
  }

  /** The site half of `create_job`. When the caller gave no "Site" (the
      job defaults never carry one), create a site from the caller's
      attributes, without the job defaults, and write its `record_id` into
      the caller's map; otherwise do nothing. */
  method AddSite(customer: Node, jobAttributes: Record, attempts: seq<Result<Node>>)
    returns (result: Result<Record>, calls: seq<Call>)
    requires |attempts| == SiteAttempts
    ensures "Site" in jobAttributes ==> result == Ok(jobAttributes) && calls == []
    ensures OnlyCreates(calls, Site)
    ensures Creations(calls, Site) == |calls| <= SiteAttempts
    ensures Creations(calls, Job) == Creations(calls, Section) == Creations(calls, JobCostCenter) == 0
    ensures SetName(jobAttributes).Err? ==> calls == []
    ensures "Site" !in jobAttributes && SetName(jobAttributes).Ok? ==>
              && |calls| == AttemptsMade(attempts)
              && Repeats(calls, CreateCall(Site, customer, SiteRecord(jobAttributes, SetName(jobAttributes).value)))
    ensures "Site" !in jobAttributes && SetName(jobAttributes).Ok? ==>
              && CreateCall(Site, customer, SiteRecord(jobAttributes, SetName(jobAttributes).value)) in calls
              && CreatesOnly(calls, CreateCall(Site, customer, SiteRecord(jobAttributes, SetName(jobAttributes).value)))
    ensures "Site" !in jobAttributes ==> (result.Err? <==> SiteFailure(jobAttributes, attempts).Some?)
    ensures result.Err? ==> result.error == SiteFailure(jobAttributes, attempts).value
    ensures "Site" !in jobAttributes && result.Ok? ==>
              && RetryOutcome(attempts).Ok? && RetryOutcome(attempts).value.Obj?
              && result.value == jobAttributes["Site" := Int(RetryOutcome(attempts).value.recordId)]
              && RetryOutcome(attempts) == attempts[|calls| - 1]
    ensures "Site" !in jobAttributes && result.Ok? ==>
              && 1 <= |calls|
              && Extends(result.value, jobAttributes, "Site")
              && result.value["Site"].Int?
  {
    if "Site" in jobAttributes {
      return Ok(jobAttributes), [];
    }
    var site;
    site, calls := CreateSite(customer, jobAttributes, attempts);
    AllCreations(calls, Site);
    NoCreations(calls, Job);
    NoCreations(calls, Section);
    NoCreations(calls, JobCostCenter);
    if site.Err? {
      return site.PropagateFailure(), calls;
    }
    var siteId := RecordIdOf(site.value);
    if siteId.Err? {
      return siteId.PropagateFailure(), calls;
    }
    result := Ok(jobAttributes["Site" := Int(siteId.value)]);
  }

  /** The cost-center step acted on `section`: it listed the section's cost
      centers and, when there were none, created the "BOQ" one under it. */
  predicate CostCenterUnder(calls: seq<Call>, section: Node, costCenters: Result<seq<Node>>) {
    && ListCall(JobCostCenter, section) in calls
    && (costCenters == Ok([]) ==> CreateCall(JobCostCenter, section, CostCenterDetails) in calls)
  }

  /** The section step acted on `job`: its sections were listed, one was
      created under it when it had none, and the cost-center step used the
      first listed section or the new one. */
  predicate Equipped(calls: seq<Call>, job: Node, outcomes: Outcomes) {
    && ListCall(Section, job) in calls
    && (outcomes.sections.Ok? && outcomes.sections.value != [] ==>
          CostCenterUnder(calls, outcomes.sections.value[0], outcomes.costCenters))
    && (outcomes.sections == Ok([]) ==> CreateCall(Section, job, map[]) in calls)
    && (outcomes.sections == Ok([]) && outcomes.newSection.Ok? ==>
          CostCenterUnder(calls, outcomes.newSection.value, outcomes.costCenters))
  }

  /** The section step of `create_job` for `job`. */
  function SectionStep(job: Node, outcomes: Outcomes): Step {
    EnsureChild(Section, job, map[], outcomes.sections, outcomes.newSection)
  }

  /** The cost-center step of `create_job` for the section it uses. */
  function CostCenterStep(section: Node, outcomes: Outcomes): Step {
    EnsureChild(JobCostCenter, section, CostCenterDetails, outcomes.costCenters, outcomes.newCostCenter)
  }

  /** The calls of both steps, when the section step yields a section. */
  function EquipCalls(job: Node, outcomes: Outcomes): seq<Call>
    requires SectionStep(job, outcomes).result.Ok?
  {
    SectionStep(job, outcomes).calls + CostCenterStep(SectionStep(job, outcomes).result.value, outcomes).calls
  }

  /** Both steps together create one section exactly when the job had none
      and one cost center exactly when the section had none. */
  lemma EquipCounts(job: Node, outcomes: Outcomes)
    requires SectionStep(job, outcomes).result.Ok?
    ensures Creations(EquipCalls(job, outcomes), Site) == Creations(EquipCalls(job, outcomes), Job) == 0
    ensures Creations(EquipCalls(job, outcomes), Section) == (if outcomes.sections == Ok([]) then 1 else 0)
    ensures Creations(EquipCalls(job, outcomes), JobCostCenter) == (if outcomes.costCenters == Ok([]) then 1 else 0)
  {
    var section := SectionStep(job, outcomes);
    CountAppend(section.calls, CostCenterStep(section.result.value, outcomes).calls);
  }

  /** Both steps together act on the job and then on the section used. */
  lemma EquipParents(job: Node, outcomes: Outcomes)
    requires SectionStep(job, outcomes).result.Ok?
    ensures EquipCalls(job, outcomes)[0] == ListCall(Section, job)
    ensures Equipped(EquipCalls(job, outcomes), job, outcomes)
    ensures CreatesWith(EquipCalls(job, outcomes), JobCostCenter, CostCenterDetails)
  {
    var section := SectionStep(job, outcomes);
    var costCenter := CostCenterStep(section.result.value, outcomes);
    assert CreatesWith(section.calls, JobCostCenter, CostCenterDetails);
    CreatesWithAppend(section.calls, costCenter.calls, JobCostCenter, CostCenterDetails);
    assert CostCenterUnder(costCenter.calls, section.result.value, outcomes.costCenters);
  }

  /** Calls made earlier do not undo what a later step did. */
  lemma EquippedAfter(before: seq<Call>, calls: seq<Call>, job: Node, outcomes: Outcomes)
    requires Equipped(calls, job, outcomes)
    ensures Equipped(before + calls, job, outcomes)
  {
  }

  /** The exception the section and cost-center steps of `create_job`
      raise, if any, in the order the steps run: the section listing, the
      section creation when there were none, the cost-center listing, and
      the cost-center creation when there were none. */
  function EquipFailure(outcomes: Outcomes): Option<Error> {
    if outcomes.sections.Err? then Some(outcomes.sections.error)
    else if outcomes.sections.value == [] && outcomes.newSection.Err? then Some(outcomes.newSection.error)
    else if outcomes.costCenters.Err? then Some(outcomes.costCenters.error)
    else if outcomes.costCenters.value == [] && outcomes.newCostCenter.Err? then Some(outcomes.newCostCenter.error)
    else None
  }

  /** The exception `Job.create` and the steps after it raise, if any. */
  function JobFailure(outcomes: Outcomes): Option<Error> {
    if outcomes.job.Err? then Some(outcomes.job.error) else EquipFailure(outcomes)
  }

  /** A failed section step is the first failure; once it yields a section,
      the cost-center step fails exactly when the remaining steps do. */
  lemma EquipFailureSteps(job: Node, outcomes: Outcomes)
    ensures SectionStep(job, outcomes).result.Err? ==>
              EquipFailure(outcomes) == Some(SectionStep(job, outcomes).result.error)
    ensures SectionStep(job, outcomes).result.Ok? ==>
              var costCenter := CostCenterStep(SectionStep(job, outcomes).result.value, outcomes);
              && (costCenter.result.Err? <==> EquipFailure(outcomes).Some?)
              && (costCenter.result.Err? ==> EquipFailure(outcomes) == Some(costCenter.result.error))
  {
  }

  /** The second half of `create_job`: make sure the new job has a section
      and that section a cost center. Gives the section used. */
  method EquipJob(job: Node, outcomes: Outcomes) returns (result: Result<Node>, calls: seq<Call>)
    ensures |calls| >= 1 && calls[0] == ListCall(Section, job)
    ensures Equipped(calls, job, outcomes)
    ensures outcomes.sections.Err? ==> result == outcomes.sections.PropagateFailure() && |calls| == 1
    ensures outcomes.sections == Ok([]) && outcomes.newSection.Err? ==>
              calls == [ListCall(Section, job), CreateCall(Section, job, map[])]
    ensures result.Err? <==> EquipFailure(outcomes).Some?
    ensures result.Err? ==> result.error == EquipFailure(outcomes).value
    ensures Creations(calls, Site) == Creations(calls, Job) == 0
    ensures Creations(calls, Section) == (if outcomes.sections == Ok([]) then 1 else 0)
    ensures outcomes.costCenters != Ok([]) ==> Creations(calls, JobCostCenter) == 0
    ensures result.Ok? ==> Creations(calls, JobCostCenter) == (if outcomes.costCenters == Ok([]) then 1 else 0)
    ensures CreatesWith(calls, JobCostCenter, CostCenterDetails)
  {
    var section := SectionStep(job, outcomes);
    calls := section.calls;
    EquipFailureSteps(job, outcomes);
    if section.result.Err? {
      return section.result, calls;
    }
    EquipCounts(job, outcomes);
    EquipParents(job, outcomes);
    var costCenter := CostCenterStep(section.result.value, outcomes);
    calls := EquipCalls(job, outcomes);
    if costCenter.result.Err? {
      return costCenter.result, calls;
    }
    result := section.result;
  }

  /** The job creation and what follows it, once the attributes are fixed. */
  method CreateAndEquipJob(company: Node, record: Record, outcomes: Outcomes)
    returns (result: Result<Node>, calls: seq<Call>)
    ensures |calls| >= 1 && calls[0] == CreateCall(Job, company, record)
    ensures result.Ok? ==> result == outcomes.job
    ensures outcomes.job.Err? ==> result == outcomes.job && |calls| == 1
    ensures outcomes.job.Ok? ==>
              && |calls| >= 2 && calls[1] == ListCall(Section, outcomes.job.value)
              && Equipped(calls, outcomes.job.value, outcomes)
    ensures outcomes.job.Ok? && outcomes.sections.Err? ==> |calls| == 2
    ensures outcomes.job.Ok? && outcomes.sections == Ok([]) && outcomes.newSection.Err? ==> |calls| == 3
    ensures result.Err? <==> JobFailure(outcomes).Some?
    ensures result.Err? ==> result.error == JobFailure(outcomes).value
    ensures Creations(calls, Site) == 0 && Creations(calls, Job) == 1
    ensures result.Ok? ==> Creations(calls, Section) == (if outcomes.sections == Ok([]) then 1 else 0)
    ensures result.Ok? ==> Creations(calls, JobCostCenter) == (if outcomes.costCenters == Ok([]) then 1 else 0)
    ensures outcomes.sections != Ok([]) ==> Creations(calls, Section) == 0
    ensures outcomes.costCenters != Ok([]) ==> Creations(calls, JobCostCenter) == 0
    ensures CreatesWith(calls, JobCostCenter, CostCenterDetails)
  {
    calls := [CreateCall(Job, company, record)];
    assert calls[1..] == [];
    if outcomes.job.Err? {
      return outcomes.job, calls;
    }
    var section, equipCalls := EquipJob(outcomes.job.value, outcomes);
    CountAppend(calls, equipCalls);
    CreatesWithAppend(calls, equipCalls, JobCostCenter, CostCenterDetails);
    EquippedAfter(calls, equipCalls, outcomes.job.value, outcomes);
    calls := calls + equipCalls;
    if section.Err? {
      return section.PropagateFailure(), calls;
    }
    result := outcomes.job;
  }

  /** The site calls followed by the job calls: the sites come from the
      former and everything else from the latter, and the job creation and
      the section and cost-center calls are all still there. */
  lemma SiteThenJob(siteCalls: seq<Call>, jobCalls: seq<Call>, company: Node, record: Record, outcomes: Outcomes)
    requires OnlyCreates(siteCalls, Site)
    requires Creations(siteCalls, Job) == Creations(siteCalls, Section) == Creations(siteCalls, JobCostCenter) == 0
    requires Creations(jobCalls, Site) == 0
    requires |jobCalls| >= 1 && jobCalls[0] == CreateCall(Job, company, record)
    requires CreatesWith(jobCalls, JobCostCenter, CostCenterDetails)
    requires outcomes.job.Ok? ==> Equipped(jobCalls, outcomes.job.value, outcomes)
    ensures CreateCall(Job, company, record) in siteCalls + jobCalls
    ensures Creations(siteCalls + jobCalls, Site) == Creations(siteCalls, Site)
    ensures Creations(siteCalls + jobCalls, Job) == Creations(jobCalls, Job)
    ensures Creations(siteCalls + jobCalls, Section) == Creations(jobCalls, Section)
    ensures Creations(siteCalls + jobCalls, JobCostCenter) == Creations(jobCalls, JobCostCenter)
    ensures CreatesWith(siteCalls + jobCalls, JobCostCenter, CostCenterDetails)
    ensures outcomes.job.Ok? ==> Equipped(siteCalls + jobCalls, outcomes.job.value, outcomes)
  {
    CountAppend(siteCalls, jobCalls);
    CreatesWithAppend(siteCalls, jobCalls, JobCostCenter, CostCenterDetails);
    if outcomes.job.Ok? {
      EquippedAfter(siteCalls, jobCalls, outcomes.job.value, outcomes);
    }
    assert (siteCalls + jobCalls)[|siteCalls|] == jobCalls[0];
  }

  /** Whether `create_job` gets as far as `Job.create`: the customer has a
      record id, and the caller gave a "Site" or the site half succeeded. */
  predicate ReachesJob(customer: Node, jobAttributes: Record, attempts: seq<Result<Node>>)
    requires |attempts| == SiteAttempts
  {
    customer.Obj? && ("Site" in jobAttributes || SiteFailure(jobAttributes, attempts).None?)
  }

  /** `create_job`. The job is created from the defaults overridden by the
      caller's attributes. When those lack "Site", a site is created first
      and its id is written into the caller's map only: the attributes sent
      to `Job.create` were fixed before and do not contain it. The job then
      gets a section (the first listed, or one new one) and that section a
      cost center (a new "BOQ" one if it has none). Any exception on the
      way propagates. */
  method CreateJob(company: Node, customer: Node, jobAttributes: Record, outcomes: Outcomes)
    returns (result: Result<Node>, callerAttributes: Record, calls: seq<Call>)
    requires |outcomes.siteAttempts| == SiteAttempts
    ensures customer.Parentless? ==> result == Err(AttributeError("record_id")) && calls == []
    ensures result.Ok? ==> ReachesJob(customer, jobAttributes, outcomes.siteAttempts) && result == outcomes.job
    ensures Creations(calls, Job) == (if ReachesJob(customer, jobAttributes, outcomes.siteAttempts) then 1 else 0)
    ensures ReachesJob(customer, jobAttributes, outcomes.siteAttempts) ==>
              CreateCall(Job, company, Update(JobDefaults(customer.recordId), jobAttributes)) in calls
    ensures "Site" in jobAttributes ==> Creations(calls, Site) == 0 && callerAttributes == jobAttributes
    ensures customer.Obj? && "Site" !in jobAttributes && SetName(jobAttributes).Ok? ==>
              Creations(calls, Site) == AttemptsMade(outcomes.siteAttempts)
    ensures customer.Obj? && "Site" !in jobAttributes && SetName(jobAttributes).Ok? ==>
              && CreateCall(Site, customer, SiteRecord(jobAttributes, SetName(jobAttributes).value)) in calls
              && CreatesOnly(calls, CreateCall(Site, customer, SiteRecord(jobAttributes, SetName(jobAttributes).value)))
    ensures customer.Obj? && "Site" !in jobAttributes && SiteFailure(jobAttributes, outcomes.siteAttempts).Some? ==>
              && result == Err(SiteFailure(jobAttributes, outcomes.siteAttempts).value)
              && callerAttributes == jobAttributes
    ensures customer.Obj? && "Site" !in jobAttributes && SiteFailure(jobAttributes, outcomes.siteAttempts).None? ==>
              callerAttributes == jobAttributes["Site" := Int(RetryOutcome(outcomes.siteAttempts).value.recordId)]
    ensures ReachesJob(customer, jobAttributes, outcomes.siteAttempts) && outcomes.job.Err? ==> result == outcomes.job
    ensures ReachesJob(customer, jobAttributes, outcomes.siteAttempts) ==>
              && (result.Err? <==> JobFailure(outcomes).Some?)
              && (result.Err? ==> result.error == JobFailure(outcomes).value)
    ensures ReachesJob(customer, jobAttributes, outcomes.siteAttempts) && outcomes.job.Ok? ==>
              Equipped(calls, outcomes.job.value, outcomes)
    ensures result.Ok? ==> Creations(calls, Section) == (if outcomes.sections == Ok([]) then 1 else 0)
    ensures result.Ok? ==> Creations(calls, JobCostCenter) == (if outcomes.costCenters == Ok([]) then 1 else 0)
    ensures outcomes.sections != Ok([]) ==> Creations(calls, Section) == 0
    ensures outcomes.costCenters != Ok([]) ==> Creations(calls, JobCostCenter) == 0
    ensures CreatesWith(calls, JobCostCenter, CostCenterDetails)
  {
    calls := [];
    callerAttributes := jobAttributes;
    var customerId := RecordIdOf(customer);
    if customerId.Err? {
      return customerId.PropagateFailure(), callerAttributes, calls;
    }
    var record := Update(JobDefaults(customerId.value), jobAttributes);
    var withSite;
    withSite, calls := AddSite(customer, jobAttributes, outcomes.siteAttempts);
    if withSite.Err? {
      assert !ReachesJob(customer, jobAttributes, outcomes.siteAttempts);
      return withSite.PropagateFailure(), callerAttributes, calls;
    }
    assert ReachesJob(customer, jobAttributes, outcomes.siteAttempts);
    callerAttributes := withSite.value;
    var jobCalls;
    result, jobCalls := CreateAndEquipJob(company, record, outcomes);
    SiteThenJob(calls, jobCalls, company, record, outcomes);
    if "Site" !in jobAttributes && SetName(jobAttributes).Ok? {
      CreatesOnlyAppend(calls, jobCalls, CreateCall(Site, customer, SiteRecord(jobAttributes, SetName(jobAttributes).value)));
    }
    calls := calls + jobCalls;
  }
}
