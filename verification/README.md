# pySimPro client core in Dafny

A model of the generic resource-addressing and CRUD engine of pySimPro, a
Python client for the SimPRO REST API, and of the record-assembly helpers
that use it.

- **Columns** (`columns.dfy`): `_columns_to_params`. The caller's column
  list gets "ID" appended, goes through a set and is comma-joined. Python
  leaves set order unspecified, so the model picks the order
  nondeterministically and states every result up to that order.
- **Address** (`address.dfy`): `Parentless`, the `obj_url` recursion over the
  parent chain, `SimProObject.__init__` and `Company.__init__`.
- **Crud** (`crud.dfy`): turning a server record into an object (the "ID"
  moves out of the attribute map into the record id), `_create`/`create` and
  `_retrieve`/`retrieve`. The model computes the request the client sends and
  takes the server's reply as an input.
- **Pagination** (`pagination.dfy`): `_list_all`/`list_all` and
  `Company.list_all`. The server is the sequence of replies to pages 1, 2, ….
- **Factory** (`factory.dfy`): `ClassDescription.build_classes`, with each
  generated class as a record of its name, base names and definitions. It
  also holds the `CLASS_DESCRIPTIONS` catalog as data.
- **Bootstrap** (`bootstrap.dfy`): `create_site` (the nested `set_name`, the
  attribute merge, three attempts at `Site.create`), `create_job` and
  `DEFAULT_COST_CENTER`. `Site`, `Job`, `Section` and `JobCostCenter` are
  stubs in the source. Their `create` and `list_all` are abstract
  operations: the outcomes are inputs, and the model records each call.
- **Values** and **Text** (`values.dfy`, `text.dfy`) are shared support:
  - JSON-like values, `Option`/`Result` and the exceptions;
  - `str.split(sep)` and `sep.join`;
  - Python's `str.split()` whitespace handling;
  - decimal `str(int)`.

Changed caller-visible state is returned as an extra result:
- `_columns_to_params` appends "ID" to the caller's list;
- `Company.list_all` inserts "Name" into the caller's list;
- `create_job` writes "Site" into the caller's `job_attributes`.

Behaviour of the code that a reader might not expect, and that the model
keeps:
- **Retries.** `create_site` retries on every `HTTPError`. Any other
  exception ends the loop at once.
- **Duplicate class names.** `build_classes` returns one class per
  description. It keeps both "Company" entries of the catalog; nothing is
  keyed by class name.
- **Empty suffix.** An empty `type_url_suffix` is accepted like any other.
- **Failed retrieve.** A retrieve the server refuses is an `HttpError` like
  any other non-ok reply.
- **Line breaks.** `set_name` deletes a line break rather than replacing it
  with a space, so "Line1\nExtra   spaces" gives "Line1Extra spaces".
- **Columns.** A class's `attributes` list is never merged into the columns
  of a list or retrieve call.

## Model

| member | source | states |
|---|---|---|
| Columns.Enumerate | simpro.py:59-61 | iterating a set lists every element exactly once, in some order |
| Columns.ColumnsToParams | simpro.py:51-62 | the set's names are joined with commas, each exactly once. When no column contains a comma, splitting the string gives distinct names that are exactly the requested names plus "ID". With no list the string is "ID". A given list gains a trailing "ID" |
| Text.SplitJoin | simpro.py:61 | splitting a comma-joined, comma-free list gives the list back |
| Address.NewObject | simpro.py:195-203 | the object keeps its parent and id; a missing attribute map becomes an empty one |
| Address.NewCompany | simpro.py:275-286 | the id is 0 exactly when none or 0 was given, and is kept otherwise. A missing parent is `Parentless`, a missing attribute map is empty |
| Address.ObjUrl | simpro.py:76-89 | every URL starts with the API base URL; `Parentless` answers with the base itself, and an object's URL ends with its decimal record id |
| Address.TypeUrl | simpro.py:121 | the collection URL a listing or creation uses starts with the API base and with the parent's URL |
| Address.ChildUrl | simpro.py:155 | the collection URL followed by a decimal id is the URL of the child with that id |
| Address.DefaultCompanyUrl | simpro.py:275-283 | `Company(None)`, with no parent or attribute map, has URL base + "/companies/0" |
| Address.ObjUrlFromRoot | simpro.py:76-89 | an object's URL is the API base followed by every ancestor's suffix and decimal id, root to leaf, ending with its own |
| Address.ObjUrlDepthThree | simpro.py:88 | for a top-level object, its child and grandchild, the grandchild's URL is the base followed by the three suffix+id pieces in order |
| Address.AncestorUrlIsPrefix | simpro.py:88 | each ancestor's URL is a prefix of its descendant's URL |
| Text.DecimalRoundTrip | simpro.py:88 | the decimal id in a URL parses back to the id |
| Text.DecimalInjective | simpro.py:88 | different ids give different decimal strings |
| Crud.Decode | simpro.py:129-131 | a record without "ID" raises KeyError. With an integer "ID" the object has that id, the given kind and parent, and the record minus "ID" as attributes; re-encoding gives the record back |
| Crud.DecodeEncode | simpro.py:130-131 | decoding the record of an object whose attributes lack "ID" gives the object back |
| Crud.DecodeReply | simpro.py:181-185 | a non-ok reply raises HttpError with its status, a library failure propagates, and an answer is decoded |
| Crud.CreateRecord | simpro.py:153-162 | POSTs the attributes, with no id, to the parent URL plus the type suffix. It succeeds exactly when the reply carries an integer "ID"; the new object's URL is then the POST URL plus that id |
| Crud.Create | simpro.py:165-169 | a missing attribute map is posted as an empty object |
| Crud.RetrieveRecord | simpro.py:172-186 | GETs parent URL + suffix + decimal id with the column projection of `_columns_to_params`. The result is the decoded reply; when the server returns the requested id, the object's URL is the requested URL |
| Crud.Retrieve | simpro.py:189-193 | with no column list the request asks for "ID" only and no caller list changes |
| Pagination.DecodeAll | simpro.py:129-132 | a page decodes exactly when every record decodes, giving one object per record in order |
| Pagination.FirstEnd | simpro.py:123-139 | the stopping reply is the first that is not ok, fails to decode or has no "next" link |
| Pagination.Drain | simpro.py:122-140 | requests pages 1 … k+1 in order, where k is the first stopping reply, each with the same URL and columns. The result is the concatenated pages, or the stopping reply's exception |
| Pagination.ListAllPages | simpro.py:109-143 | every request goes to the same URL with the same columns, page size 250 and order "ID", and there is at least one. On success the objects are all pages concatenated in page order; otherwise the failing reply's exception, with the collected pages discarded |
| Pagination.EmptyListingOneRequest | simpro.py:123-139 | an empty last first page costs exactly one request and lists nothing |
| Pagination.ListAll | simpro.py:146-150 | with no column list the request asks for "ID" only and no caller list changes. The result is the listing's: the pages concatenated, or the stopping reply's exception |
| Pagination.CompanyListAll | simpro.py:269-273 | with no list, or when no caller name contains a comma, splitting the request's column string gives "Name", "ID" and the caller's names, each once and nothing else. The caller's list becomes "Name", its old entries, then "ID". The result is the pages concatenated, or the stopping reply's exception |
| Factory.ClassDefinitions | simpro.py:326-332 | the suffix is always defined, the docstring and attribute list only when truthy, and a description's own definitions override all three |
| Factory.BuildClass | simpro.py:323-337 | bases are `SimProObject` followed by the description's extra bases, in order |
| Factory.BuildClasses | simpro.py:313-339 | one class per description, in input order, with no merging by name |
| Factory.BuildKeepsNames | simpro.py:313-339 | the positions of the classes called a name are exactly the positions of the descriptions with that name |
| Factory.CatalogKeepsBothCompanies | simpro.py:342-559 | building the catalog gives 22 classes, of which exactly positions 0 and 21 are called "Company" |
| Factory.CatalogCompanyDocstrings | simpro.py:343-528 | the two "Company" classes keep their different docstrings |
| Factory.CatalogJobAttributes | simpro.py:386-414 | the Job class's attribute list has "AdditionalContactsSite" and no "Site" |
| Text.CollapseProperties | simple_bootstrap.py:44 | the collapsed string has no leading, trailing or doubled spaces and no other whitespace. Its words and visible characters are those of the input |
| Text.CollapseIdempotent | simple_bootstrap.py:44 | collapsing twice is collapsing once |
| Bootstrap.NormaliseStreet | simple_bootstrap.py:43-44 | the name has no line break, is collapsed, and has the words of the street address with its line breaks deleted |
| Bootstrap.NewlineJoinsWords | simple_bootstrap.py:43 | a line break between two words glues them together |
| Bootstrap.SpacesCollapse | simple_bootstrap.py:44 | a run of spaces between two words becomes one space |
| Bootstrap.NewlineThenSpaces | simple_bootstrap.py:43-44 | for word, line break, word, spaces, word, the name is the first two words glued, one space, then the third |
| Bootstrap.SetName | simple_bootstrap.py:37-48 | a caller "Name" is returned unchanged. With no address or no street address (missing or None) the name is "". A street string is normalised. A non-dict address or non-string street raises AttributeError |
| Bootstrap.SiteRecord | simple_bootstrap.py:50-51 | the keys are the caller's plus "Name"; every caller value wins, its "Name" included |
| Bootstrap.CreateSiteWithRetry | simple_bootstrap.py:55-63 | at most 3 identical attempts, every one but the last having raised HttpError. The first attempt that does not raise HttpError gives the result, with that many attempts made. Three HttpErrors raise JobRecordCreationError after exactly 3 attempts |
| Bootstrap.CreateSite | simple_bootstrap.py:35-65 | a name that cannot be derived raises before any attempt. Otherwise every attempt sends the merged record, and the attempts made and the result are the retry loop's: the first attempt that does not raise HttpError, whatever it gives, after that many attempts, or JobRecordCreationError after three |
| Bootstrap.EnsureChild | simple_bootstrap.py:89-100 | lists the children. Exactly when none are listed it creates one, with the given attributes, and uses it; otherwise it creates nothing and uses the first listed |
| Bootstrap.EnsureChildIdempotent | simple_bootstrap.py:89-100 | a second run after a successful first creates nothing and picks the same child |
| Bootstrap.AddSite | simple_bootstrap.py:80-83 | nothing happens when the caller gave a "Site". Otherwise only site creations happen, each under the customer and sending the caller's attributes (no job defaults) under the derived name. It fails exactly when the name, the retry loop or the site's `record_id` fails, with that exception. On success the caller's map gains "Site" = the created site's `record_id` and keeps every other entry |
| Bootstrap.EquipJob | simple_bootstrap.py:89-100 | lists the job's sections first and creates one under the job exactly when it has none. The cost centers are listed under the first listed section or the new one, and one with CostCenter 0 and Name "BOQ" is created under it exactly when it has none. It fails exactly when the first failing step (section listing, section creation, cost-center listing, cost-center creation) fails, with that step's exception. A failed section listing stops after that one call, and a failed section creation after the listing and that creation, so no cost-center call follows either |
| Bootstrap.EquipFailureSteps | simple_bootstrap.py:89-100 | a failed section listing or creation is the first failure of the two steps. Once a section is in hand, the cost-center step fails exactly when the steps fail, with the same exception |
| Bootstrap.EquipCounts | simple_bootstrap.py:89-100 | once a section is found or made, the two steps create one section exactly when the job had none and one cost center exactly when the section had none, and nothing else |
| Bootstrap.EquipParents | simple_bootstrap.py:89-100 | once a section is found or made, the sections are listed under the job and the cost centers under the section used, and every cost center created carries the "BOQ" details |
| Bootstrap.CreateAndEquipJob | simple_bootstrap.py:84-102 | the job is created once, with the record fixed beforehand, before any section or cost center call. A failed `Job.create` stops there with its exception; otherwise the sections are listed under the new job and the section and cost-center steps act as in `EquipJob`. It fails exactly when `Job.create` or one of those steps fails, with the first failure's exception |
| Bootstrap.CreateJob | simple_bootstrap.py:68-102 | a `Parentless` customer raises AttributeError before any call. A site is created only when the caller gave no "Site", and every site creation is the same call: under the customer, sending the caller's attributes (no job defaults) under the derived name. When the site half fails, its exception is raised and `Job.create` is never called. Otherwise the created site's `record_id` goes into the caller's map, not the job record. The job is created exactly once, from the defaults {"Type": "Service", "Customer": id} overridden by the caller's attributes. The section and cost-center steps then act on the new job as in `EquipJob`, so a job that has both gets neither. Once the job is reached, the result fails exactly when `Job.create` or a later step fails, with the first failure's exception |

## Left out

- Authentication and the environment (simpro.py:14-34): no token exchange or `os.environ`. The company domain is a constant whose value is left open, and `BASE_API_URL` is built from it as in the source.
- The HTTP library, JSON decoding and `response.links`: replies are input values (`Reply`, `ListReply`), and a "next" link is a boolean on the page.
- `print` logging in `_list_all` (simpro.py:125, simpro.py:142): no observable effect on results.
- Python's `type()` class synthesis, `classmethod`/`property` dispatch and the `type_url_suffix` property that raises `NotImplementedError` (simpro.py:64-74): classes are plain records.
- Factory.BuildClass: does not model `type()` failing, such as a base listed twice or an impossible method resolution order, since no catalog entry has extra bases.
- `Company.columns` (simpro.py:219-266), which nothing reads, and all commented-out code.
- Crud.Decode: record ids are integers. A server "ID" of another JSON type is an `UnsupportedId` error, while Python would store any value (and `Company` would turn a falsy one into 0).
- Pagination.ListAllPages, Pagination.ListAll, Pagination.CompanyListAll, Pagination.Drain: require the reply sequence to reach a stopping reply. A server that always sends a "next" link keeps the Python loop running forever, and that run is not modelled.
- Columns.ColumnsToParams: the set's iteration order is chosen nondeterministically rather than by Python's hashing, so results are stated up to that order.
- Bootstrap.CreateJob: the stub classes' own behaviour is not modelled. The outcomes of `Site.create`, `Job.create`, `Section.list_all`/`create` and `JobCostCenter.list_all`/`create` are inputs, and the calls made are recorded.
