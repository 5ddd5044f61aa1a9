/** `RestApplication`: a REST application and its resources. Unlike `SoapPort`
    its getters return copies and `toBuilder()` copies its collections, so in
    this model it is a plain value (sequences and maps). The constructor keeps
    the collections handed to the builder without copying them; that sharing
    is not modelled. */
module RestApplications {
  import opened Wrappers
  import opened JavaObjects
  import opened ExternalTypes

  /** A built application. `resources` and `statusCount` are what the copying
      getters return: a copy holds the same elements, in the same order, and
      the same bindings. */
  datatype RestApplication = RestApplication(
    id: string,
    name: string,
    projectId: string,
    resources: seq<RestResource>,
    statusCount: map<RestMethodStatus, int>)
  {
    /** `equals`: all five fields agree. */
    predicate Equals(that: RestApplication)
    {
      && id == that.id
      && name == that.name
      && projectId == that.projectId
      && resources == that.resources
      && statusCount == that.statusCount
    }

    /** What `toBuilder()` puts in the fresh builder: every field, with each
        resource rebuilt and the status counts copied into a new map. */
    function ToBuilderFields(): Fields
    {
      Fields(Some(id), Some(name), Some(projectId), Some(resources), Some(statusCount))
    }

    /** `toBuilder()`: a fresh builder holding copies of every field. */
    method ToBuilder() returns (b: Builder)
      ensures fresh(b) && b.State() == ToBuilderFields()
    {
      b := new Builder();
      b.SetId(Some(id));
      b.SetName(Some(name));
      b.SetProjectId(Some(projectId));
      b.SetResources(Some(resources));
      b.SetStatusCount(Some(statusCount));
    }
  }

  /** The state of a `Builder`: every field may still be `null`. */
  datatype Fields = Fields(
    id: Option<string>,
    name: Option<string>,
    projectId: Option<string>,
    resources: Option<seq<RestResource>>,
    statusCount: Option<map<RestMethodStatus, int>>)

  /** The private constructor: id, name and projectId are required and checked
      in that order; unset resources become an empty list and an unset status
      count an empty map. */
  function Make(f: Fields): (r: Result<RestApplication, BuildError>)
    ensures r.Success? <==> f.id.Some? && f.name.Some? && f.projectId.Some?
    ensures r.Success? ==>
      && r.value.id == f.id.value
      && r.value.name == f.name.value
      && r.value.projectId == f.projectId.value
      && r.value.resources == f.resources.GetOr([])
      && r.value.statusCount == f.statusCount.GetOr(map[])
    ensures f.id.None? ==> r == Failure(NullPointer(Some("id")))
    ensures f.id.Some? && f.name.None? ==> r == Failure(NullPointer(Some("name")))
    ensures f.id.Some? && f.name.Some? && f.projectId.None? ==> r == Failure(NullPointer(Some("projectId")))
  {
    var id :- RequireNonNull(f.id, "id");
    var name :- RequireNonNull(f.name, "name");
    var projectId :- RequireNonNull(f.projectId, "projectId");
    Success(RestApplication(id, name, projectId, f.resources.GetOr([]), f.statusCount.GetOr(map[])))
  }

  /** `toBuilder().build()` gives back an equal application. */
  lemma RoundTrip(a: RestApplication)
    ensures Make(a.ToBuilderFields()) == Success(a)
  {
  }

  /** `equals` holds exactly when all five fields are the same value; since
      `hashCode` is `Objects.hash` of those same five fields, equal applications hash alike. */
  lemma EqualsIsValueEquality(a: RestApplication, b: RestApplication)
    ensures a.Equals(b) <==> a == b
  {
  }

  /** A builder: each setter overwrites its own field and touches nothing else. */
  class Builder {
    var id: Option<string>
    var name: Option<string>
    var projectId: Option<string>
    var resources: Option<seq<RestResource>>
    var statusCount: Option<map<RestMethodStatus, int>>

    /** The builder's fields as one value. */
    function State(): Fields
      reads this
    {
      Fields(id, name, projectId, resources, statusCount)
    }

    /** `RestApplication.builder()`: nothing set yet. */
    constructor ()
      ensures State() == Fields(None, None, None, None, None)
    {
      id, name, projectId, resources, statusCount := None, None, None, None, None;
    }

    method SetId(id: Option<string>)
      modifies this
      ensures State() == old(State()).(id := id)
    {
      this.id := id;
    }

    method SetName(name: Option<string>)
      modifies this
      ensures State() == old(State()).(name := name)
    {
      this.name := name;
    }

    method SetProjectId(projectId: Option<string>)
      modifies this
      ensures State() == old(State()).(projectId := projectId)
    {
      this.projectId := projectId;
    }

    method SetResources(resources: Option<seq<RestResource>>)
      modifies this
      ensures State() == old(State()).(resources := resources)
    {
      this.resources := resources;
    }

    method SetStatusCount(statusCount: Option<map<RestMethodStatus, int>>)
      modifies this
      ensures State() == old(State()).(statusCount := statusCount)
    {
      this.statusCount := statusCount;
    }

    /** `Builder.build()`. */
    function Build(): Result<RestApplication, BuildError>
      reads this
    {
      Make(State())
    }
  }

  /** `a.toBuilder().build()`, run through the builder object: it never throws
      and yields an application equal to `a`. */
  method ToBuilderThenBuild(a: RestApplication) returns (r: Result<RestApplication, BuildError>)
    ensures r == Success(a)
  {
    var b := a.ToBuilder();
    r := b.Build();
    RoundTrip(a);
  }
}
