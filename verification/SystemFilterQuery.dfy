/** The system filter: every event or stack search is restricted to what the
    caller's organizations, projects or stack may see, and to each
    organization's retention window. */
module SystemFilter {
  import opened Common
  import opened Models

  /** The event index's date field. */
  const EventDateField: string := "date"

  /** `ExceptionlessSystemFilterQuery`. A null project list is the empty list:
      the builder treats both alike. */
  datatype Query = Query(
    organizations: seq<Organization>,
    projects: seq<Project>,
    stack: Option<Stack>,
    usesPremiumFeatures: bool,
    isUserOrganizationsFilter: bool)

  // ------------------------------------------------------------------
  // Constructors: `Err(name)` is the `ArgumentNullException` for `name`.

  function ForOrganizations(organizations: Option<seq<Organization>>): (r: Result<Query, string>)
    ensures r.Err? <==> organizations.None?
    ensures r.Err? ==> r.error == "organizations"
    ensures r.Ok? ==> r.value == Query(organizations.value, [], None, false, false)
  {
    if organizations.None? then Err("organizations")
    else Ok(Query(organizations.value, [], None, false, false))
  }

  function ForOrganization(organization: Option<Organization>): (r: Result<Query, string>)
    ensures r.Err? <==> organization.None?
    ensures r.Err? ==> r.error == "organization"
    ensures r.Ok? ==> r.value.organizations == [organization.value] && r.value.projects == [] && r.value.stack.None?
  {
    if organization.None? then Err("organization")
    else ForOrganizations(Some([organization.value]))
  }

  function ForProjects(projects: Option<seq<Project>>, organizations: Option<seq<Organization>>): (r: Result<Query, string>)
    ensures r.Err? <==> projects.None? || organizations.None?
    ensures organizations.None? ==> r == Err("organizations")
    ensures organizations.Some? && projects.None? ==> r == Err("projects")
    ensures r.Ok? ==> r.value.organizations == organizations.value && r.value.projects == projects.value
                      && r.value.stack.None?
  {
    match ForOrganizations(organizations)
    case Err(e) => Err(e)
    case Ok(q) => if projects.None? then Err("projects") else Ok(q.(projects := projects.value))
  }

  function ForProject(project: Option<Project>, organization: Option<Organization>): (r: Result<Query, string>)
    ensures organization.None? ==> r == Err("organization")
    ensures organization.Some? && project.None? ==> r == Err("project")
    ensures r.Ok? <==> project.Some? && organization.Some?
    ensures r.Ok? ==> r.value.organizations == [organization.value] && r.value.projects == [project.value]
  {
    if organization.None? then Err("organization")
    else if project.None? then Err("project")
    else ForProjects(Some([project.value]), Some([organization.value]))
  }

  /** The stack constructor as written: it checks the stack but not the
      organization, so a null organization passes into the list. */
  function ForStackAsWritten(stack: Option<Stack>, organization: Option<Organization>): Result<seq<Option<Organization>>, string> {
    if stack.None? then Err("stack") else Ok([organization])
  }

  lemma NullOrganizationPassesStackConstructor(stack: Stack)
    ensures ForStackAsWritten(Some(stack), None) == Ok([None])
  {
  }

  /** The stack constructor with the organization checked like every other one. */
  function ForStack(stack: Option<Stack>, organization: Option<Organization>): (r: Result<Query, string>)
    ensures organization.None? ==> r == Err("organization")
    ensures organization.Some? && stack.None? ==> r == Err("stack")
    ensures r.Ok? <==> stack.Some? && organization.Some?
    ensures r.Ok? ==> r.value.organizations == [organization.value] && r.value.stack == stack
                      && r.value.projects == []
  {
    if organization.None? then Err("organization")
    else if stack.None? then Err("stack")
    else Ok(Query([organization.value], [], stack, false, false))
  }

  // ------------------------------------------------------------------
  // Filters

  /** A search filter. `Range(field, days)` is `field >= now/d-{days}d` and
      `field <= now/d+1d`. */
  datatype Filter =
    | Term(field: string, value: string)
    | Range(field: string, retentionDays: int)
    | And(left: Filter, right: Filter)
    | Or(left: Filter, right: Filter)

  /** `&&` on filter containers, where a null operand is dropped. */
  function AndF(a: Option<Filter>, b: Option<Filter>): Option<Filter> {
    if a.None? then b else if b.None? then a else Some(And(a.value, b.value))
  }

  /** `||` on filter containers, where a null operand is dropped. */
  function OrF(a: Option<Filter>, b: Option<Filter>): Option<Filter> {
    if a.None? then b else if b.None? then a else Some(Or(a.value, b.value))
  }

  /** A document as a search sees it: keyword fields and dates, in whole days. */
  datatype Document = Document(keywords: map<string, string>, days: map<string, int>)

  predicate Eval(f: Filter, doc: Document, today: int) {
    match f
    case Term(field, value) => field in doc.keywords && doc.keywords[field] == value
    case Range(field, n) => field in doc.days && today - n <= doc.days[field] <= today + 1
    case And(l, r) => Eval(l, doc, today) && Eval(r, doc, today)
    case Or(l, r) => Eval(l, doc, today) || Eval(r, doc, today)
  }

  /** No filter at all admits every document. */
  predicate Admits(f: Option<Filter>, doc: Document, today: int) {
    f.None? || Eval(f.value, doc, today)
  }

  lemma AndAdmits(a: Option<Filter>, b: Option<Filter>, doc: Document, today: int)
    ensures Admits(AndF(a, b), doc, today) <==> Admits(a, doc, today) && Admits(b, doc, today)
  {
  }

  /** `GetRetentionFilter`. */
  function RetentionFilter(field: string, retentionDays: int): (r: Option<Filter>)
    ensures r.Some? <==> retentionDays > 0
  {
    if retentionDays > 0 then Some(Range(field, retentionDays)) else None
  }

  /** Within retention: dated no earlier than `retentionDays` days before today
      and no later than tomorrow; without retention every document is. */
  lemma RetentionAdmits(field: string, retentionDays: int, doc: Document, today: int)
    ensures Admits(RetentionFilter(field, retentionDays), doc, today) <==>
              retentionDays <= 0 ||
              (field in doc.days && today - retentionDays <= doc.days[field] <= today + 1)
  {
  }

  datatype IndexKind = StackIndex | EventIndex

  /** `GetDateField`: the stack index filters on the last occurrence, anything
      else (and no options at all) on the event date. */
  function DateField(options: Option<IndexKind>): (field: string)
    ensures options == Some(StackIndex) ==> field == LastOccurrenceField
    ensures options != Some(StackIndex) ==> field == EventDateField
  {
    if options.Some? && options.value == StackIndex then LastOccurrenceField else EventDateField
  }

  /** The organizations the query may search: premium ones always, the others
      only when the query uses no premium features. */
  function AllowedOrganizations(q: Query): (r: seq<Organization>)
    ensures forall o :: o in r <==> o in q.organizations && (o.hasPremiumFeatures || !q.usesPremiumFeatures)
    ensures r == [] <==> forall k :: 0 <= k < |q.organizations| ==> !q.organizations[k].hasPremiumFeatures && q.usesPremiumFeatures
  {
    Allowed(q.organizations, q.usesPremiumFeatures)
  }

  function Allowed(orgs: seq<Organization>, usesPremiumFeatures: bool): (r: seq<Organization>)
    ensures forall o :: o in r <==> o in orgs && (o.hasPremiumFeatures || !usesPremiumFeatures)
    ensures r == [] <==> forall k :: 0 <= k < |orgs| ==> !orgs[k].hasPremiumFeatures && usesPremiumFeatures
  {
    if orgs == [] then []
    else
      assert forall o :: o in orgs <==> o == orgs[0] || o in orgs[1..];
      var o := orgs[0];
      (if o.hasPremiumFeatures || (!o.hasPremiumFeatures && !usesPremiumFeatures) then [o] else [])
        + Allowed(orgs[1..], usesPremiumFeatures)
  }

  /** The organizations with the given id: `Single` succeeds when there is
      exactly one. */
  function Matching(orgs: seq<Organization>, id: string): (r: seq<Organization>)
    ensures forall o :: o in r <==> o in orgs && o.id == id
  {
    if orgs == [] then []
    else
      assert forall o :: o in orgs <==> o == orgs[0] || o in orgs[1..];
      (if orgs[0].id == id then [orgs[0]] else []) + Matching(orgs[1..], id)
  }

  /** One project's alternative: its id and its owner's retention. */
  function ProjectClause(p: Project, owner: Organization, field: string): Option<Filter> {
    AndF(Some(Term("project", p.id)), RetentionFilter(field, owner.retentionDays))
  }

  function OrganizationClause(o: Organization, field: string): Option<Filter> {
    AndF(Some(Term("organization", o.id)), RetentionFilter(field, o.retentionDays))
  }

  /** The projects loop, over a prefix of the projects; `Err(id)` when the owner
      `id` is not matched by exactly one organization. */
  function ProjectsFilter(orgs: seq<Organization>, projects: seq<Project>, field: string): Result<Option<Filter>, string>
  {
    if projects == [] then Ok(None)
    else
      var p := projects[|projects| - 1];
      match ProjectsFilter(orgs, projects[..|projects| - 1], field)
      case Err(e) => Err(e)
      case Ok(c) =>
        var owners := Matching(orgs, p.organizationId);
        if |owners| != 1 then Err(p.organizationId) else Ok(OrF(c, ProjectClause(p, owners[0], field)))
  }

  /** The organizations loop, over a prefix of the organizations. */
  function OrganizationsFilter(orgs: seq<Organization>, field: string): Option<Filter> {
    if orgs == [] then None
    else OrF(OrganizationsFilter(orgs[..|orgs| - 1], field), OrganizationClause(orgs[|orgs| - 1], field))
  }

  /** What `Build` ANDs into the context's filter: nothing for a search that is
      not a system filter query, `Err` when an owner lookup fails. */
  function SystemFilterOf(source: Option<Query>, field: string): Result<Option<Filter>, string> {
    if source.None? then Ok(None)
    else
      var q := source.value;
      if |AllowedOrganizations(q)| == 0 then Ok(Some(Term("organization", "none")))
      else if q.stack.Some? then
        var owners := Matching(q.organizations, q.stack.value.organizationId);
        if |owners| != 1 then Err(q.stack.value.organizationId)
        else Ok(AndF(Some(Term("stack", q.stack.value.id)), RetentionFilter(field, owners[0].retentionDays)))
      else if |q.projects| > 0 then ProjectsFilter(q.organizations, q.projects, field)
      else if |q.organizations| > 0 then Ok(OrganizationsFilter(q.organizations, field))
      else Ok(None)
  }

  // ------------------------------------------------------------------
  // What the filter admits

  /** A document is within an organization's retention on `field`. */
  predicate Retained(o: Organization, field: string, doc: Document, today: int) {
    o.retentionDays <= 0 || (field in doc.days && today - o.retentionDays <= doc.days[field] <= today + 1)
  }

  predicate HasKeyword(doc: Document, field: string, value: string) {
    field in doc.keywords && doc.keywords[field] == value
  }

  /** A document belongs to the project and is within the retention of the
      project's single owner. */
  predicate ProjectAdmits(orgs: seq<Organization>, p: Project, field: string, doc: Document, today: int) {
    HasKeyword(doc, "project", p.id)
    && |Matching(orgs, p.organizationId)| == 1
    && Retained(Matching(orgs, p.organizationId)[0], field, doc, today)
  }

  predicate OrganizationAdmits(o: Organization, field: string, doc: Document, today: int) {
    HasKeyword(doc, "organization", o.id) && Retained(o, field, doc, today)
  }

  lemma ClauseAdmits(kind: string, id: string, o: Organization, field: string, doc: Document, today: int)
    ensures var c := AndF(Some(Term(kind, id)), RetentionFilter(field, o.retentionDays));
            c.Some? && (Eval(c.value, doc, today) <==> HasKeyword(doc, kind, id) && Retained(o, field, doc, today))
  {
    RetentionAdmits(field, o.retentionDays, doc, today);
  }

  /** Some project of `projects` admits the document (scanning from the end,
      as the filter is built). */
  predicate SomeProjectAdmits(orgs: seq<Organization>, projects: seq<Project>, field: string, doc: Document, today: int)
  {
    projects != [] &&
    (ProjectAdmits(orgs, projects[|projects| - 1], field, doc, today)
     || SomeProjectAdmits(orgs, projects[..|projects| - 1], field, doc, today))
  }

  lemma {:induction false} SomeProjectAdmitsIff(orgs: seq<Organization>, projects: seq<Project>, field: string,
                                                doc: Document, today: int)
    ensures SomeProjectAdmits(orgs, projects, field, doc, today) <==>
              exists k :: 0 <= k < |projects| && ProjectAdmits(orgs, projects[k], field, doc, today)
    decreases |projects|
  {
    if projects != [] {
      var n := |projects| - 1;
      var init := projects[..n];
      SomeProjectAdmitsIff(orgs, init, field, doc, today);
      if SomeProjectAdmits(orgs, init, field, doc, today) {
        var k :| 0 <= k < n && ProjectAdmits(orgs, init[k], field, doc, today);
        assert init[k] == projects[k];
      }
      if exists k :: 0 <= k < |projects| && ProjectAdmits(orgs, projects[k], field, doc, today) {
        var k :| 0 <= k < |projects| && ProjectAdmits(orgs, projects[k], field, doc, today);
        if k < n {
          assert init[k] == projects[k];
        }
      }
    }
  }

  lemma {:induction false} ProjectsFilterEval(orgs: seq<Organization>, projects: seq<Project>, field: string,
                                              doc: Document, today: int)
    requires ProjectsFilter(orgs, projects, field).Ok? && projects != []
    ensures var c := ProjectsFilter(orgs, projects, field).value;
            c.Some? && (Eval(c.value, doc, today) <==> SomeProjectAdmits(orgs, projects, field, doc, today))
    decreases |projects|
  {
    var n := |projects| - 1;
    var p := projects[n];
    var init := projects[..n];
    ClauseAdmits("project", p.id, Matching(orgs, p.organizationId)[0], field, doc, today);
    if n == 0 {
      assert init == [];
    } else {
      ProjectsFilterEval(orgs, init, field, doc, today);
    }
  }

  /** The projects filter admits exactly the documents of one of the projects
      that are within the retention of that project's owner. */
  lemma ProjectsFilterAdmits(orgs: seq<Organization>, projects: seq<Project>, field: string,
                             doc: Document, today: int)
    requires ProjectsFilter(orgs, projects, field).Ok? && projects != []
    ensures var c := ProjectsFilter(orgs, projects, field).value;
            && c.Some?
            && (Eval(c.value, doc, today) <==>
                  exists k :: 0 <= k < |projects| && ProjectAdmits(orgs, projects[k], field, doc, today))
  {
    ProjectsFilterEval(orgs, projects, field, doc, today);
    SomeProjectAdmitsIff(orgs, projects, field, doc, today);
  }

  /** The organizations filter admits exactly the documents of one of the
      organizations that are within its retention. */
  lemma {:induction false} OrganizationsFilterAdmits(orgs: seq<Organization>, field: string, doc: Document, today: int)
    requires orgs != []
    ensures var c := OrganizationsFilter(orgs, field);
            && c.Some?
            && (Eval(c.value, doc, today) <==>
                  exists k :: 0 <= k < |orgs| && OrganizationAdmits(orgs[k], field, doc, today))
    decreases |orgs|
  {
    var n := |orgs| - 1;
    var init := orgs[..n];
    ClauseAdmits("organization", orgs[n].id, orgs[n], field, doc, today);
    var c := OrganizationsFilter(orgs, field);
    if n > 0 {
      OrganizationsFilterAdmits(init, field, doc, today);
      if Eval(c.value, doc, today) {
        if !OrganizationAdmits(orgs[n], field, doc, today) {
          var k :| 0 <= k < n && OrganizationAdmits(init[k], field, doc, today);
          assert init[k] == orgs[k];
        }
      } else {
        forall k | 0 <= k < |orgs| ensures !OrganizationAdmits(orgs[k], field, doc, today) {
          if k < n {
            assert init[k] == orgs[k];
          }
        }
      }
    }
  }

  /** When no organization is allowed, the only filter added is the term
      `organization = "none"`, whatever else the query names; when one is
      allowed that term is never the filter (unless an organization is
      itself called "none"). */
  lemma NoAllowedOrganization(q: Query, field: string)
    ensures |AllowedOrganizations(q)| == 0 ==> SystemFilterOf(Some(q), field) == Ok(Some(Term("organization", "none")))
    ensures |AllowedOrganizations(q)| > 0 && (forall k :: 0 <= k < |q.organizations| ==> q.organizations[k].id != "none") ==>
              SystemFilterOf(Some(q), field) != Ok(Some(Term("organization", "none")))
  {
    var d := Document(map["organization" := "none"], map[]);
    var r := SystemFilterOf(Some(q), field);
    if |AllowedOrganizations(q)| > 0 && (forall k :: 0 <= k < |q.organizations| ==> q.organizations[k].id != "none") && r.Ok? {
      assert Eval(Term("organization", "none"), d, 0);
      if q.stack.None? && |q.projects| > 0 {
        ProjectsFilterAdmits(q.organizations, q.projects, field, d, 0);
        assert !Eval(r.value.value, d, 0);
      } else if q.stack.None? && |q.organizations| > 0 {
        OrganizationsFilterAdmits(q.organizations, field, d, 0);
        assert !Eval(r.value.value, d, 0);
      }
    }
  }

  /** The stack branch: exactly the documents of the stack that are within the
      retention of the stack's single organization; organizations and projects
      play no further part. */
  lemma StackFilterAdmits(q: Query, field: string, doc: Document, today: int)
    requires |AllowedOrganizations(q)| > 0 && q.stack.Some?
    requires |Matching(q.organizations, q.stack.value.organizationId)| == 1
    ensures var r := SystemFilterOf(Some(q), field);
            && r.Ok? && r.value.Some?
            && (Eval(r.value.value, doc, today) <==>
                  HasKeyword(doc, "stack", q.stack.value.id)
                  && Retained(Matching(q.organizations, q.stack.value.organizationId)[0], field, doc, today))
  {
    RetentionAdmits(field, Matching(q.organizations, q.stack.value.organizationId)[0].retentionDays, doc, today);
  }

  /** The organizations branch filters by every organization of the query,
      not only the allowed ones. */
  lemma OrganizationBranchUsesAllOrganizations(q: Query, field: string, doc: Document, today: int)
    requires |AllowedOrganizations(q)| > 0 && q.stack.None? && q.projects == []
    ensures var r := SystemFilterOf(Some(q), field);
            && r.Ok? && r.value.Some?
            && (Eval(r.value.value, doc, today) <==>
                  exists k :: 0 <= k < |q.organizations| && OrganizationAdmits(q.organizations[k], field, doc, today))
  {
    assert AllowedOrganizations(q)[0] in AllowedOrganizations(q);
    OrganizationsFilterAdmits(q.organizations, field, doc, today);
  }

  // ------------------------------------------------------------------
  // The builder

  /** The part of `QueryBuilderContext` the builder reads and writes. */
  class QueryBuilderContext {
    /** `GetSourceAs<IExceptionlessSystemFilterQuery>()`: None when the search
        is not a system filter query. */
    const source: Option<Query>
    /** The index the options name, if options were given. */
    const indexKind: Option<IndexKind>
    var filter: Option<Filter>

    constructor (source: Option<Query>, indexKind: Option<IndexKind>, filter: Option<Filter>)
      ensures this.source == source && this.indexKind == indexKind && this.filter == filter
    {
      this.source := source;
      this.indexKind := indexKind;
      this.filter := filter;
    }
  }

  /** `ExceptionlessSystemFilterQueryBuilder.Build`; false when `Single` throws,
      in which case the context keeps its filter. */
  method Build(ctx: QueryBuilderContext) returns (ok: bool)
    modifies ctx
    ensures var r := SystemFilterOf(ctx.source, DateField(ctx.indexKind));
            && ok == r.Ok?
            && ctx.filter == (if r.Ok? then AndF(old(ctx.filter), r.value) else old(ctx.filter))
  {
    if ctx.source.None? {
      return true;
    }
    var sfq := ctx.source.value;
    var allowed := AllowedOrganizations(sfq);
    if |allowed| == 0 {
      ctx.filter := AndF(ctx.filter, Some(Term("organization", "none")));
      return true;
    }
    var field := DateField(ctx.indexKind);
    if sfq.stack.Some? {
      var owners := Matching(sfq.organizations, sfq.stack.value.organizationId);
      if |owners| != 1 {
        return false;
      }
      ctx.filter := AndF(ctx.filter, AndF(Some(Term("stack", sfq.stack.value.id)),
                                          RetentionFilter(field, owners[0].retentionDays)));
      return true;
    }
    if |sfq.projects| > 0 {
      var container;
      ok, container := ProjectsContainer(sfq.organizations, sfq.projects, field);
      if ok {
        ctx.filter := AndF(ctx.filter, container);
      }
      return;
    }
    if |sfq.organizations| > 0 {
      var container := OrganizationsContainer(sfq.organizations, field);
      ctx.filter := AndF(ctx.filter, container);
    }
    return true;
  }

  /** The projects loop of `Build`: one alternative per project, with its
      owner's retention; false when `Single` throws for an owner. */
  method ProjectsContainer(orgs: seq<Organization>, projects: seq<Project>, field: string)
    returns (ok: bool, container: Option<Filter>)
    ensures ok == ProjectsFilter(orgs, projects, field).Ok?
    ensures ok ==> container == ProjectsFilter(orgs, projects, field).value
  {
    container := None;
    for i := 0 to |projects|
      invariant ProjectsFilter(orgs, projects[..i], field) == Ok(container)
    {
      var project := projects[i];
      assert projects[..i + 1][..i] == projects[..i];
      var owners := Matching(orgs, project.organizationId);
      if |owners| != 1 {
        ProjectsFailurePersists(orgs, projects, i + 1, field);
        return false, container;
      }
      container := OrF(container, AndF(Some(Term("project", project.id)),
                                       RetentionFilter(field, owners[0].retentionDays)));
    }
    assert projects[..|projects|] == projects;
    ok := true;
  }

  /** The organizations loop of `Build`: one alternative per organization,
      with its retention. */
  method OrganizationsContainer(orgs: seq<Organization>, field: string) returns (container: Option<Filter>)
    ensures container == OrganizationsFilter(orgs, field)
  {
    container := None;
    for i := 0 to |orgs|
      invariant OrganizationsFilter(orgs[..i], field) == container
    {
      var organization := orgs[i];
      assert orgs[..i + 1][..i] == orgs[..i];
      container := OrF(container, AndF(Some(Term("organization", organization.id)),
                                       RetentionFilter(field, organization.retentionDays)));
    }
    assert orgs[..|orgs|] == orgs;
  }

  /** A failed owner lookup fails the whole projects loop. */
  lemma {:induction false} ProjectsFailurePersists(orgs: seq<Organization>, projects: seq<Project>, i: nat, field: string)
    requires i <= |projects| && ProjectsFilter(orgs, projects[..i], field).Err?
    ensures ProjectsFilter(orgs, projects, field).Err?
    decreases |projects| - i
  {
    if i < |projects| {
      assert projects[..i + 1][..i] == projects[..i];
      ProjectsFailurePersists(orgs, projects, i + 1, field);
    } else {
      assert projects[..i] == projects;
    }
  }
}
