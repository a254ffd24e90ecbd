/** The JSON-to-rows transform: a company document (departments -> employees -> employee)
    becomes one flat row per employee, in the order the document lists them. */
module FlattenJson {
  import opened Wrappers

  // ---------------------------------------------------------------------------
  // The parsed document. JSON objects whose order matters are key/value sequences
  // in the order the object lists them (Python dicts keep insertion order).
  // ---------------------------------------------------------------------------

  /** One element of an employee's `projects` list: `p['name']` and `p['status']`. */
  datatype Project = Project(name: string, status: string)

  /** An employee record. A field that `emp.get` may not find, or that `in emp` tests, is an Option. */
  datatype Employee = Employee(
    name: Option<string>,
    role: Option<string>,
    skills: Option<seq<string>>,
    projects: Option<seq<Project>>,
    campaigns: Option<seq<(string, string)>>)

  /** A department record; only its `employees` mapping is read. */
  datatype Department = Department(employees: Option<seq<(string, Employee)>>)

  datatype Document = Document(
    company: Option<string>,
    location: Option<string>,
    departments: Option<seq<(string, Department)>>)

  /** One flattened row. None is the NULL that a missing `company`, `location`, `name` or `role` becomes. */
  datatype Row = Row(
    company: Option<string>,
    location: Option<string>,
    department: string,
    employeeId: string,
    name: Option<string>,
    role: Option<string>,
    skills: string,
    campaigns: string)

  /** Columns of table employee_details, in the order the table is created with. */
  const EmployeeDetailsColumns: seq<string> :=
    ["company", "location", "department", "employee_id", "name", "role", "skills", "campaigns"]

  /** The row as the dict the transform builds: column name and value, in insertion order. */
  function Record(r: Row): (rec: seq<(string, Option<string>)>)
    ensures |rec| == |EmployeeDetailsColumns|
    ensures forall i :: 0 <= i < |rec| ==> rec[i].0 == EmployeeDetailsColumns[i]
  {
    [("company", r.company), ("location", r.location), ("department", Some(r.department)),
     ("employee_id", Some(r.employeeId)), ("name", r.name), ("role", r.role),
     ("skills", Some(r.skills)), ("campaigns", Some(r.campaigns))]
  }

  predicate DistinctKeys<V>(kvs: seq<(string, V)>) {
    forall i, j :: 0 <= i < j < |kvs| ==> kvs[i].0 != kvs[j].0
  }

  /** `data.get("departments", {})` */
  function DepartmentsOf(doc: Document): seq<(string, Department)> {
    doc.departments.GetOr([])
  }

  /** `dept_info.get("employees", {})` */
  function EmployeesOf(d: Department): seq<(string, Employee)> {
    d.employees.GetOr([])
  }

  /** What a parsed JSON object guarantees: no key occurs twice in the department mapping
      or in any department's employee mapping. */
  predicate WellFormed(doc: Document) {
    DistinctKeys(DepartmentsOf(doc)) &&
    forall d :: d in DepartmentsOf(doc) ==> DistinctKeys(EmployeesOf(d.1))
  }

  // ---------------------------------------------------------------------------
  // ", ".join and its inverse, str.split(", ")
  // ---------------------------------------------------------------------------

  const Separator: string := ", "

  /** `", ".join(parts)`; `SplitJoin` and `JoinRoundTrip` state what it keeps. */
  function Join(parts: seq<string>): string
  {
    if |parts| == 0 then ""
    else if |parts| == 1 then parts[0]
    else parts[0] + Separator + Join(parts[1..])
  }

  /** `s.split(", ")`: the pieces between non-overlapping separators, scanned left to right. */
  function Split(s: string): (parts: seq<string>)
    ensures |parts| >= 1
  {
    if |s| == 0 then [""]
    else if |s| >= 2 && s[0] == ',' && s[1] == ' ' then [""] + Split(s[2..])
    else var rest := Split(s[1..]); [[s[0]] + rest[0]] + rest[1..]
  }

  /** A joined column read back as a list: "" is the empty list. */
  function DecodeColumn(col: string): seq<string> {
    if col == "" then [] else Split(col)
  }

  predicate CommaFree(s: string) {
    ',' !in s
  }

  lemma {:induction false} SplitCommaFree(p: string)
    requires CommaFree(p)
    ensures Split(p) == [p]
  {
    if |p| > 0 {
      assert p[0] != ',' by { assert p[0] in p; }
      SplitCommaFree(p[1..]);
      assert [p[0]] + p[1..] == p;
    }
  }

  lemma {:induction false} SplitAfterPart(p: string, t: string)
    requires CommaFree(p)
    ensures Split(p + Separator + t) == [p] + Split(t)
  {
    var s := p + Separator + t;
    if |p| == 0 {
      assert s == ", " + t;
      assert s[2..] == t;
    } else {
      assert p[0] != ',' by { assert p[0] in p; }
      assert s[1..] == p[1..] + Separator + t;
      SplitAfterPart(p[1..], t);
      assert [p[0]] + p[1..] == p;
    }
  }

  /** Splitting a join of comma-free parts gives the parts back. */
  lemma {:induction false} SplitJoin(parts: seq<string>)
    requires |parts| >= 1
    requires forall i :: 0 <= i < |parts| ==> CommaFree(parts[i])
    ensures Split(Join(parts)) == parts
  {
    if |parts| == 1 {
      SplitCommaFree(parts[0]);
    } else {
      SplitAfterPart(parts[0], Join(parts[1..]));
      SplitJoin(parts[1..]);
      assert [parts[0]] + parts[1..] == parts;
    }
  }

  /** Parts that survive the column format: none is empty or holds a comma. */
  predicate CleanParts(parts: seq<string>) {
    forall i :: 0 <= i < |parts| ==> parts[i] != "" && CommaFree(parts[i])
  }

  /** A ", "-joined column of non-empty, comma-free parts decodes to exactly those parts. */
  lemma {:induction false} JoinRoundTrip(parts: seq<string>)
    requires CleanParts(parts)
    ensures DecodeColumn(Join(parts)) == parts
  {
    if |parts| > 0 {
      SplitJoin(parts);
      assert Join(parts) != "" by {
        if |parts| > 1 {
          assert |Join(parts)| >= |parts[0]|;
        }
      }
    }
  }

  // ---------------------------------------------------------------------------
  // The campaigns column
  // ---------------------------------------------------------------------------

  /** `f"{k}: {v}"` */
  function FormatPair(kv: (string, string)): string {
    kv.0 + ": " + kv.1
  }

  /** `[f"{p['name']}: {p['status']}" for p in projects]` */
  function ProjectEntries(ps: seq<Project>): seq<string> {
    seq(|ps|, k requires 0 <= k < |ps| => FormatPair((ps[k].name, ps[k].status)))
  }

  /** `[f"{k}: {v}" for k, v in campaigns.items()]` */
  function CampaignEntries(cs: seq<(string, string)>): seq<string> {
    seq(|cs|, k requires 0 <= k < |cs| => FormatPair(cs[k]))
  }

  /** The campaigns column: the projects list if the key is present, otherwise the campaigns
      mapping if present, otherwise "". What it holds is stated by `CampaignsRoundTrip`. */
  function CampaignsColumn(emp: Employee): string {
    if emp.projects.Some? then Join(ProjectEntries(emp.projects.value))
    else if emp.campaigns.Some? then Join(CampaignEntries(emp.campaigns.value))
    else ""
  }

  /** The activity an employee's campaigns column reports, as (label, value) pairs:
      `projects` wins over `campaigns`; neither means none. */
  function ActivityPairs(emp: Employee): seq<(string, string)> {
    if emp.projects.Some? then
      var ps := emp.projects.value;
      seq(|ps|, k requires 0 <= k < |ps| => (ps[k].name, ps[k].status))
    else emp.campaigns.GetOr([])
  }

  /** `s.split(": ", 1)` read as a pair; a string without the separator is all label. */
  function SplitEntry(s: string): (string, string) {
    if |s| == 0 then ("", "")
    else if |s| >= 2 && s[0] == ':' && s[1] == ' ' then ("", s[2..])
    else var kv := SplitEntry(s[1..]); ([s[0]] + kv.0, kv.1)
  }

  /** The campaigns column read back into (label, value) pairs. */
  function DecodeCampaigns(col: string): seq<(string, string)> {
    var parts := DecodeColumn(col);
    seq(|parts|, k requires 0 <= k < |parts| => SplitEntry(parts[k]))
  }

  lemma {:induction false} SplitEntryFormat(kv: (string, string))
    requires ':' !in kv.0
    ensures SplitEntry(FormatPair(kv)) == kv
    decreases |kv.0|
  {
    var s := FormatPair(kv);
    if |kv.0| > 0 {
      assert kv.0[0] != ':' by { assert kv.0[0] in kv.0; }
      assert ':' !in kv.0[1..] by {
        forall c | c in kv.0[1..] ensures c != ':' { assert c in kv.0; }
      }
      assert s[1..] == FormatPair((kv.0[1..], kv.1));
      SplitEntryFormat((kv.0[1..], kv.1));
      assert [kv.0[0]] + kv.0[1..] == kv.0;
    } else {
      assert s == ": " + kv.1;
      assert s[2..] == kv.1;
    }
  }

  /** A pair that survives the column format: no ',' anywhere and no ':' in the label. */
  predicate Unambiguous(kv: (string, string)) {
    CommaFree(kv.0) && CommaFree(kv.1) && ':' !in kv.0
  }

  predicate AllUnambiguous(pairs: seq<(string, string)>) {
    forall k :: 0 <= k < |pairs| ==> Unambiguous(pairs[k])
  }

  /** The campaigns column holds exactly the activity pairs, in order, when labels and values
      are unambiguous: the projects when the key is present, else the campaigns mapping. */
  lemma CampaignsRoundTrip(emp: Employee)
    requires AllUnambiguous(ActivityPairs(emp))
    ensures DecodeCampaigns(CampaignsColumn(emp)) == ActivityPairs(emp)
  {
    var pairs := ActivityPairs(emp);
    var entries := seq(|pairs|, k requires 0 <= k < |pairs| => FormatPair(pairs[k]));
    assert CampaignsColumn(emp) == Join(entries) by {
      if emp.projects.Some? {
        assert ProjectEntries(emp.projects.value) == entries;
      } else if emp.campaigns.Some? {
        assert CampaignEntries(emp.campaigns.value) == entries;
      }
    }
    forall k | 0 <= k < |entries| ensures entries[k] != "" && CommaFree(entries[k]) {
      assert entries[k] == pairs[k].0 + ": " + pairs[k].1;
    }
    JoinRoundTrip(entries);
    forall k | 0 <= k < |pairs| ensures SplitEntry(entries[k]) == pairs[k] {
      SplitEntryFormat(pairs[k]);
    }
  }

  // ---------------------------------------------------------------------------
  // Rows
  // ---------------------------------------------------------------------------

  /** The row built for employee `empId` of department `deptName`. */
  function MakeRow(company: Option<string>, location: Option<string>, deptName: string,
                   empId: string, emp: Employee): (r: Row)
    ensures r.company == company && r.location == location
    ensures r.department == deptName && r.employeeId == empId
    ensures r.name == emp.name && r.role == emp.role
  {
    Row(company, location, deptName, empId, emp.name, emp.role,
        Join(emp.skills.GetOr([])), CampaignsColumn(emp))
  }

  /** A row's two joined columns read back to the employee's lists: the skills (a missing list
      reads back empty) and the reported activity. */
  lemma MakeRowDecodes(company: Option<string>, location: Option<string>, deptName: string,
                       empId: string, emp: Employee)
    requires CleanParts(emp.skills.GetOr([])) && AllUnambiguous(ActivityPairs(emp))
    ensures DecodeColumn(MakeRow(company, location, deptName, empId, emp).skills) == emp.skills.GetOr([])
    ensures DecodeCampaigns(MakeRow(company, location, deptName, empId, emp).campaigns) == ActivityPairs(emp)
  {
    JoinRoundTrip(emp.skills.GetOr([]));
    CampaignsRoundTrip(emp);
  }

  /** The rows of one department, in employee order. */
  function DepartmentRows(company: Option<string>, location: Option<string>,
                          dept: (string, Department)): seq<Row>
  {
    var emps := EmployeesOf(dept.1);
    seq(|emps|, k requires 0 <= k < |emps| => MakeRow(company, location, dept.0, emps[k].0, emps[k].1))
  }

  /** The rows of a list of departments: each department's rows after those of the ones before it. */
  function FlattenDepartments(company: Option<string>, location: Option<string>,
                              ds: seq<(string, Department)>): seq<Row>
  {
    if ds == [] then []
    else FlattenDepartments(company, location, ds[..|ds| - 1]) + DepartmentRows(company, location, ds[|ds| - 1])
  }

  /** The number of employees listed across the departments. */
  function EmployeeCount(ds: seq<(string, Department)>): nat {
    if ds == [] then 0 else EmployeeCount(ds[..|ds| - 1]) + |EmployeesOf(ds[|ds| - 1].1)|
  }

  /** The rows the transform produces for a document. */
  function Flattened(doc: Document): (rows: seq<Row>)
    ensures |rows| == TotalEmployees(doc)
    ensures rows == [] <==> forall i :: 0 <= i < |DepartmentsOf(doc)| ==> EmployeesOf(DepartmentsOf(doc)[i].1) == []
  {
    FlattenCount(doc.company, doc.location, DepartmentsOf(doc));
    EmptyIffNoEmployees(doc.company, doc.location, DepartmentsOf(doc));
    FlattenDepartments(doc.company, doc.location, DepartmentsOf(doc))
  }

  function TotalEmployees(doc: Document): nat {
    EmployeeCount(DepartmentsOf(doc))
  }

  /** One row per employee. */
  lemma {:induction false} FlattenCount(company: Option<string>, location: Option<string>,
                                        ds: seq<(string, Department)>)
    ensures |FlattenDepartments(company, location, ds)| == EmployeeCount(ds)
  {
    if ds != [] {
      FlattenCount(company, location, ds[..|ds| - 1]);
    }
  }

  /** Flattening distributes over concatenation of department lists. */
  lemma {:induction false} FlattenAppend(company: Option<string>, location: Option<string>,
                                         a: seq<(string, Department)>, b: seq<(string, Department)>)
    ensures FlattenDepartments(company, location, a + b)
         == FlattenDepartments(company, location, a) + FlattenDepartments(company, location, b)
  {
    if b == [] {
      assert a + b == a;
    } else {
      var ab := a + b;
      assert ab[..|ab| - 1] == a + b[..|b| - 1];
      assert ab[|ab| - 1] == b[|b| - 1];
      FlattenAppend(company, location, a, b[..|b| - 1]);
    }
  }

  /** Rows keep document order: employee j of department i is the row right after the
      rows of every department before i and of the employees before j. */
  lemma RowAt(company: Option<string>, location: Option<string>,
              ds: seq<(string, Department)>, i: nat, j: nat)
    requires i < |ds| && j < |EmployeesOf(ds[i].1)|
    ensures EmployeeCount(ds[..i]) + j < |FlattenDepartments(company, location, ds)|
    ensures FlattenDepartments(company, location, ds)[EmployeeCount(ds[..i]) + j]
         == MakeRow(company, location, ds[i].0, EmployeesOf(ds[i].1)[j].0, EmployeesOf(ds[i].1)[j].1)
  {
    SplitAtDepartment(company, location, ds, i);
    FlattenCount(company, location, ds[..i]);
  }

  /** The rows of ds are those of the departments before i, then department i's, then the rest. */
  lemma SplitAtDepartment(company: Option<string>, location: Option<string>,
                          ds: seq<(string, Department)>, i: nat)
    requires i < |ds|
    ensures FlattenDepartments(company, location, ds)
         == FlattenDepartments(company, location, ds[..i]) + DepartmentRows(company, location, ds[i])
            + FlattenDepartments(company, location, ds[i + 1..])
  {
    assert ds == ds[..i] + [ds[i]] + ds[i + 1..];
    FlattenAppend(company, location, ds[..i] + [ds[i]], ds[i + 1..]);
    FlattenAppend(company, location, ds[..i], [ds[i]]);
    assert [ds[i]][..0] == [];
  }

  /** Row r is the row of some employee of some department of ds. */
  ghost predicate RowOf(company: Option<string>, location: Option<string>,
                        ds: seq<(string, Department)>, r: Row)
  {
    exists i, j :: 0 <= i < |ds| && 0 <= j < |EmployeesOf(ds[i].1)| &&
      r == MakeRow(company, location, ds[i].0, EmployeesOf(ds[i].1)[j].0, EmployeesOf(ds[i].1)[j].1)
  }

  /** Every row is the row of an employee of the document: nothing is invented. */
  lemma {:induction false} RowsComeFromEmployees(company: Option<string>, location: Option<string>,
                                                 ds: seq<(string, Department)>)
    ensures forall r :: r in FlattenDepartments(company, location, ds) ==> RowOf(company, location, ds, r)
  {
    if ds != [] {
      var init := ds[..|ds| - 1];
      var last := |ds| - 1;
      RowsComeFromEmployees(company, location, init);
      forall r | r in FlattenDepartments(company, location, ds)
        ensures RowOf(company, location, ds, r)
      {
        if r in FlattenDepartments(company, location, init) {
          var i, j :| 0 <= i < |init| && 0 <= j < |EmployeesOf(init[i].1)| &&
            r == MakeRow(company, location, init[i].0, EmployeesOf(init[i].1)[j].0, EmployeesOf(init[i].1)[j].1);
          assert init[i] == ds[i];
        } else {
          var rows := DepartmentRows(company, location, ds[last]);
          assert r in rows;
          var j :| 0 <= j < |rows| && rows[j] == r;
          assert r == MakeRow(company, location, ds[last].0, EmployeesOf(ds[last].1)[j].0, EmployeesOf(ds[last].1)[j].1);
        }
      }
    }
  }

  /** Every row carries the document's company and location unchanged. */
  lemma RowsCarryDocumentFields(doc: Document)
    ensures forall r :: r in Flattened(doc) ==> r.company == doc.company && r.location == doc.location
  {
    RowsComeFromEmployees(doc.company, doc.location, DepartmentsOf(doc));
  }

  /** No rows exactly when no department lists an employee (in particular when the document has
      no `departments`, or every department lacks `employees`). */
  lemma {:induction false} EmptyIffNoEmployees(company: Option<string>, location: Option<string>,
                                               ds: seq<(string, Department)>)
    ensures FlattenDepartments(company, location, ds) == []
        <==> forall i :: 0 <= i < |ds| ==> EmployeesOf(ds[i].1) == []
  {
    if ds != [] {
      var init := ds[..|ds| - 1];
      EmptyIffNoEmployees(company, location, init);
      var lastRows := DepartmentRows(company, location, ds[|ds| - 1]);
      assert lastRows == [] <==> EmployeesOf(ds[|ds| - 1].1) == [] by {
        assert |lastRows| == |EmployeesOf(ds[|ds| - 1].1)|;
      }
      assert (forall i :: 0 <= i < |ds| ==> EmployeesOf(ds[i].1) == [])
         <==> (forall i :: 0 <= i < |init| ==> EmployeesOf(init[i].1) == []) && EmployeesOf(ds[|ds| - 1].1) == []
      by {
        assert forall i :: 0 <= i < |init| ==> init[i] == ds[i];
      }
    }
  }

  /** A department without employees contributes no rows: removing it changes nothing. */
  lemma EmployeelessDepartmentAddsNoRows(company: Option<string>, location: Option<string>,
                                         ds: seq<(string, Department)>, i: nat)
    requires i < |ds| && EmployeesOf(ds[i].1) == []
    ensures FlattenDepartments(company, location, ds)
         == FlattenDepartments(company, location, ds[..i] + ds[i + 1..])
  {
    assert ds == ds[..i] + [ds[i]] + ds[i + 1..];
    FlattenAppend(company, location, ds[..i] + [ds[i]], ds[i + 1..]);
    FlattenAppend(company, location, ds[..i], [ds[i]]);
    FlattenAppend(company, location, ds[..i], ds[i + 1..]);
    assert [ds[i]][..0] == [];
  }

  /** No two rows share a (department, employee_id) pair. */
  predicate RowKeysUnique(rows: seq<Row>) {
    forall a, b :: 0 <= a < b < |rows| ==>
      rows[a].department != rows[b].department || rows[a].employeeId != rows[b].employeeId
  }

  /** With distinct keys in every mapping, no two rows share a (department, employee_id) pair. */
  lemma {:induction false} RowKeysDistinct(company: Option<string>, location: Option<string>,
                                           ds: seq<(string, Department)>)
    requires DistinctKeys(ds)
    requires forall d :: d in ds ==> DistinctKeys(EmployeesOf(d.1))
    ensures RowKeysUnique(FlattenDepartments(company, location, ds))
  {
    if ds != [] {
      var init := ds[..|ds| - 1];
      var last := ds[|ds| - 1];
      assert forall d :: d in init ==> d in ds;
      assert DistinctKeys(init) by {
        assert forall i :: 0 <= i < |init| ==> init[i] == ds[i];
      }
      RowKeysDistinct(company, location, init);
      RowsComeFromEmployees(company, location, init);
      var before := FlattenDepartments(company, location, init);
      var mine := DepartmentRows(company, location, last);
      var rows := FlattenDepartments(company, location, ds);
      assert rows == before + mine;
      assert DistinctKeys(EmployeesOf(last.1)) by { assert last in ds; }
      forall a, b | 0 <= a < b < |rows|
        ensures rows[a].department != rows[b].department || rows[a].employeeId != rows[b].employeeId
      {
        var emps := EmployeesOf(last.1);
        if b < |before| {
          assert rows[a] == before[a] && rows[b] == before[b];
        } else if a < |before| {
          assert rows[a] in before;
          var i, j :| 0 <= i < |init| && 0 <= j < |EmployeesOf(init[i].1)| &&
            rows[a] == MakeRow(company, location, init[i].0, EmployeesOf(init[i].1)[j].0, EmployeesOf(init[i].1)[j].1);
          assert init[i] == ds[i];
          assert ds[i].0 != ds[|ds| - 1].0;
          assert rows[b] == mine[b - |before|];
          assert rows[b].department == last.0;
        } else {
          assert rows[a] == mine[a - |before|] && rows[b] == mine[b - |before|];
          assert rows[a].employeeId == emps[a - |before|].0;
          assert rows[b].employeeId == emps[b - |before|].0;
        }
      }
    }
  }

  /** In a well-formed document, (department, employee_id) identifies a row. */
  lemma DocumentRowKeysDistinct(doc: Document)
    requires WellFormed(doc)
    ensures RowKeysUnique(Flattened(doc))
  {
    RowKeysDistinct(doc.company, doc.location, DepartmentsOf(doc));
  }

  /** The keys of a mapping, in order. */
  function KeysOf<V>(kvs: seq<(string, V)>): seq<string> {
    seq(|kvs|, k requires 0 <= k < |kvs| => kvs[k].0)
  }

  /** Every employee id the departments list, department by department, in mapping order. */
  function EmployeeIds(ds: seq<(string, Department)>): seq<string> {
    if ds == [] then [] else EmployeeIds(ds[..|ds| - 1]) + KeysOf(EmployeesOf(ds[|ds| - 1].1))
  }

  predicate AllDistinct(ss: seq<string>) {
    forall i, j :: 0 <= i < j < |ss| ==> ss[i] != ss[j]
  }

  /** The rows' employee_id column is exactly the list of employee ids, in order. */
  lemma {:induction false} RowIdsAreEmployeeIds(company: Option<string>, location: Option<string>,
                                                ds: seq<(string, Department)>)
    ensures |FlattenDepartments(company, location, ds)| == |EmployeeIds(ds)|
    ensures forall k :: 0 <= k < |EmployeeIds(ds)| ==>
              FlattenDepartments(company, location, ds)[k].employeeId == EmployeeIds(ds)[k]
  {
    if ds != [] {
      var init := ds[..|ds| - 1];
      RowIdsAreEmployeeIds(company, location, init);
      var before := FlattenDepartments(company, location, init);
      var mine := DepartmentRows(company, location, ds[|ds| - 1]);
      var rows := FlattenDepartments(company, location, ds);
      var ids := EmployeeIds(ds);
      assert rows == before + mine;
      assert ids == EmployeeIds(init) + KeysOf(EmployeesOf(ds[|ds| - 1].1));
      forall k | 0 <= k < |ids| ensures rows[k].employeeId == ids[k] {
        if k < |before| {
          assert rows[k] == before[k];
        } else {
          assert rows[k] == mine[k - |before|];
        }
      }
    }
  }

  /** employee_id alone identifies a row exactly when no employee id is listed twice in the
      document; the transform does not check this, so an id reused in two departments gives
      two rows with that id. */
  lemma DocumentEmployeeIdsDistinct(doc: Document)
    ensures (forall a, b :: 0 <= a < b < |Flattened(doc)| ==> Flattened(doc)[a].employeeId != Flattened(doc)[b].employeeId)
        <==> AllDistinct(EmployeeIds(DepartmentsOf(doc)))
  {
    var rows, ids := Flattened(doc), EmployeeIds(DepartmentsOf(doc));
    RowIdsAreEmployeeIds(doc.company, doc.location, DepartmentsOf(doc));
    assert |rows| == |ids| && forall k :: 0 <= k < |ids| ==> rows[k].employeeId == ids[k];
    if AllDistinct(ids) {
      forall a, b | 0 <= a < b < |rows| ensures rows[a].employeeId != rows[b].employeeId {
        assert ids[a] != ids[b];
      }
    } else {
      var a, b :| 0 <= a < b < |ids| && ids[a] == ids[b];
      assert rows[a].employeeId == rows[b].employeeId;
    }
  }

  // ---------------------------------------------------------------------------
  // The transform as the source runs it
  // ---------------------------------------------------------------------------

  /** flatten_json_file on an already parsed document: two nested loops append one row per
      employee, starting from an empty list. */
  method FlattenJsonFile(doc: Document) returns (rows: seq<Row>)
    ensures rows == Flattened(doc)
    ensures |rows| == TotalEmployees(doc)
  {
    var company := doc.company;
    var location := doc.location;
    var departments := doc.departments.GetOr([]);
    rows := [];
    var i := 0;
    while i < |departments|
      invariant i <= |departments|
      invariant rows == FlattenDepartments(company, location, departments[..i])
    {
      var (deptName, deptInfo) := departments[i];
      var employees := deptInfo.employees.GetOr([]);
      var j := 0;
      while j < |employees|
        invariant j <= |employees|
        invariant rows == FlattenDepartments(company, location, departments[..i])
                          + DepartmentRows(company, location, departments[i])[..j]
      {
        var (empId, emp) := employees[j];
        var row := Row(company, location, deptName, empId, emp.name, emp.role,
                       Join(emp.skills.GetOr([])), "");
        if emp.projects.Some? {
          row := row.(campaigns := Join(ProjectEntries(emp.projects.value)));
        } else if emp.campaigns.Some? {
          row := row.(campaigns := Join(CampaignEntries(emp.campaigns.value)));
        }
        rows := rows + [row];
        j := j + 1;
      }
      assert DepartmentRows(company, location, departments[i])[..j]
          == DepartmentRows(company, location, departments[i]);
      assert departments[..i + 1][..i] == departments[..i];
      i := i + 1;
    }
    assert departments[..i] == departments;
    FlattenCount(company, location, departments);
  }

  // ---------------------------------------------------------------------------
  // Worked examples
  // ---------------------------------------------------------------------------

  /** A single project reads "name: status", and a campaigns mapping beside it is ignored. */
  lemma ProjectsExample()
    ensures CampaignsColumn(Employee(None, None, None, Some([Project("Alpha", "done")]),
                                     Some([("Q1", "active")]))) == "Alpha: done"
  {
  }

  /** Campaigns alone read "k: v". */
  lemma CampaignsExample()
    ensures CampaignsColumn(Employee(None, None, None, None, Some([("Q1", "active")]))) == "Q1: active"
  {
  }

  /** One department, one employee with two skills and no activity: one row. */
  lemma AcmeExample()
    ensures Flattened(Document(Some("Acme"), Some("NY"), Some([("Eng", Department(Some([
              ("E1", Employee(Some("Jo"), Some("Dev"), Some(["Go", "SQL"]), None, None))])))])))
         == [Row(Some("Acme"), Some("NY"), "Eng", "E1", Some("Jo"), Some("Dev"), "Go, SQL", "")]
  {
    var ds := [("Eng", Department(Some([
                 ("E1", Employee(Some("Jo"), Some("Dev"), Some(["Go", "SQL"]), None, None))])))];
    assert ds[..0] == [];
    assert Join(["Go", "SQL"]) == "Go, SQL" by {
      assert ["Go", "SQL"][1..] == ["SQL"];
    }
  }
}
