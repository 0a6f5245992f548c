/** The class factory `ClassDescription.build_classes` and the catalog
    `CLASS_DESCRIPTIONS`.

    A generated class is modelled as a record of its name, the names of its
    base classes and the definitions dictionary handed to `type()`.
 */
module Factory {

  import opened Values

  /** One `ClassDescription`. Base classes are named by their class names. */
  datatype ClassDescription = ClassDescription(
    name: string,
    bases: Option<seq<string>>,
    typeUrlSuffix: string,
    docstring: Option<string>,
    attributes: Option<seq<string>>,
    definitions: Option<map<string, Value>>)

  /** A class produced by the factory. */
  datatype ClassRecord = ClassRecord(name: string, bases: seq<string>, definitions: map<string, Value>)

  /** Shorthand for a description with only the positional fields the
      catalog uses. */
  function Describe(name: string, suffix: string, doc: string, attributes: Option<seq<string>>): ClassDescription {
    ClassDescription(name, None, suffix, Some(doc), attributes, None)
  }

  function StrList(names: seq<string>): (v: Value)
    ensures v.List? && |v.items| == |names|
    ensures forall i :: 0 <= i < |names| ==> v.items[i] == Str(names[i])
  {
    List(seq(|names|, i requires 0 <= i < |names| => Str(names[i])))
  }

  predicate HasDoc(d: ClassDescription) { d.docstring.Some? && d.docstring.value != "" }

  predicate HasAttributes(d: ClassDescription) { d.attributes.Some? && d.attributes.value != [] }

  /** The keys a description's own `definitions` dictionary overrides. */
  function Overrides(d: ClassDescription): map<string, Value> {
    if d.definitions.Some? then d.definitions.value else map[]
  }

  /** The definitions dictionary one description produces: the URL suffix
      always, the docstring and the attribute list when they are truthy,
      then the description's own definitions on top. */
  function ClassDefinitions(d: ClassDescription): (defs: map<string, Value>)
    ensures forall key :: key in defs <==>
              || key == "type_url_suffix"
              || (key == "__doc__" && HasDoc(d))
              || (key == "attributes" && HasAttributes(d))
              || key in Overrides(d)
    ensures forall key :: key in Overrides(d) ==> defs[key] == Overrides(d)[key]
    ensures "type_url_suffix" !in Overrides(d) ==> defs["type_url_suffix"] == Str(d.typeUrlSuffix)
    ensures "__doc__" !in Overrides(d) && HasDoc(d) ==> defs["__doc__"] == Str(d.docstring.value)
    ensures "attributes" !in Overrides(d) && HasAttributes(d) ==> defs["attributes"] == StrList(d.attributes.value)
  {
    var defs := map["type_url_suffix" := Str(d.typeUrlSuffix)];
    var defs := if HasDoc(d) then defs["__doc__" := Str(d.docstring.value)] else defs;
    var defs := if HasAttributes(d) then defs["attributes" := StrList(d.attributes.value)] else defs;
    if d.definitions.Some? then defs + d.definitions.value else defs
  }

  /** The class one description yields: `SimProObject` first, then the
      description's own bases in order. */
  function BuildClass(d: ClassDescription): (c: ClassRecord)
    ensures c.name == d.name
    ensures |c.bases| >= 1 && c.bases[0] == "SimProObject"
    ensures c.bases[1..] == (if d.bases.Some? then d.bases.value else [])
    ensures c.definitions == ClassDefinitions(d)
  {
    var extra := if d.bases.Some? && d.bases.value != [] then d.bases.value else [];
    ClassRecord(d.name, ["SimProObject"] + extra, ClassDefinitions(d))
  }

  /** `build_classes`: one class per description, in the same order, with
      no merging of descriptions that share a name. */
  function BuildClasses(descriptions: seq<ClassDescription>): (classes: seq<ClassRecord>)
    ensures |classes| == |descriptions|
    ensures forall i :: 0 <= i < |descriptions| ==> classes[i] == BuildClass(descriptions[i])
  {
    if |descriptions| == 0 then []
    else [BuildClass(descriptions[0])] + BuildClasses(descriptions[1..])
  }

  /** Positions of the classes called `name`. */
  function NamedAt(classes: seq<ClassRecord>, name: string): set<int> {
    set i | 0 <= i < |classes| && classes[i].name == name
  }

  // ---------------------------------------------------------------------
  // The catalog
  // ---------------------------------------------------------------------

  const SiteAttributes: seq<string> := ["Address", "City", "State", "PostalCode", "Country"]

  /** The Job attribute list as written: a missing comma in the source
      joins "AdditionalContacts" and "Site" into one name. */
  const JobAttributes: seq<string> := [
    "Type", "Customer", "CustomerContact", "AdditionalContactsSite", "SiteContact",
    "OrderNo", "RequestNo", "Name", "Description", "Notes", "DateIssued",
    "DueDate", "DueTime", "Tags", "Salesperson", "ProjectManager", "Technician",
    "Stage", "Status", "ResponseTime", "IsVariation", "LinkedVariations",
    "ConvertedFromQuote", "DateModified", "Total", "Totals"]

  const ClassDescriptions: seq<ClassDescription> := [
    Describe("Company", "/companies/", "A Parentless SimPRO Type representing a company.", None),
    Describe("Contact", "/contacts/", "Child of Company.", None),
    Describe("Contractor", "/contractors/", "Child of Company.", None),
    Describe("CompanyCustomer", "/customers/companies/", "Child of Company.", None),
    Describe("Employee", "/employees/", "Child of Company.", None),
    Describe("Site", "/sites/", "Child of Company.", Some(SiteAttributes)),
    Describe("Staff", "/staff/", "Child of Company.", None),
    Describe("Vendor", "/vendors/", "Child of Company.", None),
    Describe("Job", "/jobs/", "Child of Company.", Some(JobAttributes)),
    Describe("JobSection", "/sections/", "Child of Job.", None),
    Describe("JobCostCenter", "/costCenters/", "Child of Section.", None),
    Describe("Quote", "/quotes/", "Child of Company.", None),
    Describe("QuoteSection", "/sections/", "Child of Quote.", None),
    Describe("JobTimeline", "/timelines/", "Child of Job.", None),
    Describe("Catalog", "/catalogs/", "Child of Company.", None),
    Describe("Prebuild", "/prebuilds/", "Child of CostCenter.", None),
    Describe("SetPricePrebuild", "/prebuilds/setPrice/", "Child of Company.", None),
    Describe("CustomerInvoice", "/customerInvoices/", "Child of Company.", None),
    Describe("CostCenter", "/setup/accounts/costCenters/", "Child of Company.", None),
    Describe("UnitsOfMeasurement", "/setup/materials/uoms/", "Child of Company.", None),
    Describe("ProjectTag", "/setup/tags/projects/", "Child of Company.", None),
    Describe("Company", "/companies/", "Child of Parentless.", None)]

  /** Positions of the descriptions called `name`. */
  function DescribedAt(descriptions: seq<ClassDescription>, name: string): set<int> {
    set i | 0 <= i < |descriptions| && descriptions[i].name == name
  }

  /** Building classes neither adds, drops nor moves a name. */
  lemma BuildKeepsNames(descriptions: seq<ClassDescription>, name: string)
    ensures NamedAt(BuildClasses(descriptions), name) == DescribedAt(descriptions, name)
  {
    var classes := BuildClasses(descriptions);
    forall i | 0 <= i < |classes|
      ensures classes[i].name == descriptions[i].name
    {
      assert classes[i] == BuildClass(descriptions[i]);
    }
  }

  /** Only the first and the last catalog entries are called "Company". */
  lemma CatalogCompanyEntries()
    ensures |ClassDescriptions| == 22
    ensures DescribedAt(ClassDescriptions, "Company") == {0, 21}
  {
    forall i | 0 <= i < 22
      ensures ClassDescriptions[i].name == "Company" <==> i == 0 || i == 21
    {
    }
  }

  /** Building the catalog keeps both "Company" descriptions: the classes
      at positions 0 and 21, and no others, are called "Company". */
  lemma CatalogKeepsBothCompanies()
    ensures |BuildClasses(ClassDescriptions)| == 22
    ensures NamedAt(BuildClasses(ClassDescriptions), "Company") == {0, 21}
  {
    CatalogCompanyEntries();
    BuildKeepsNames(ClassDescriptions, "Company");
  }

  /** The two "Company" classes differ in their docstrings. */
  lemma CatalogCompanyDocstrings()
    ensures var classes := BuildClasses(ClassDescriptions);
      classes[0].definitions["__doc__"] == Str("A Parentless SimPRO Type representing a company.")
      && classes[21].definitions["__doc__"] == Str("Child of Parentless.")
  {
    var company, lastCompany := ClassDescriptions[0], ClassDescriptions[21];
    assert HasDoc(company) && Overrides(company) == map[];
    assert HasDoc(lastCompany) && Overrides(lastCompany) == map[];
  }

  lemma JobEntry()
    ensures ClassDescriptions[8] == Describe("Job", "/jobs/", "Child of Company.", Some(JobAttributes))
    ensures BuildClasses(ClassDescriptions)[8] == BuildClass(ClassDescriptions[8])
  {
  }

  lemma JobAttributesAsWritten()
    ensures Str("Site") !in StrList(JobAttributes).items
    ensures Str("AdditionalContactsSite") in StrList(JobAttributes).items
  {
    var items := StrList(JobAttributes).items;
    assert "Site" !in JobAttributes;
    assert forall k :: 0 <= k < |items| ==> items[k] == Str(JobAttributes[k]);
    assert items[3] == Str("AdditionalContactsSite");
  }

  /** The Job class's attribute list has no "Site" entry, only the joined
      "AdditionalContactsSite". */
  lemma CatalogJobAttributes()
    ensures var job := BuildClasses(ClassDescriptions)[8];
      && job.name == "Job"
      && "attributes" in job.definitions
      && job.definitions["attributes"] == StrList(JobAttributes)
      && Str("Site") !in job.definitions["attributes"].items
      && Str("AdditionalContactsSite") in job.definitions["attributes"].items
  {
    JobEntry();
    JobAttributesAsWritten();
    var job := Describe("Job", "/jobs/", "Child of Company.", Some(JobAttributes));
    assert HasAttributes(job) && Overrides(job) == map[];
  }
}
