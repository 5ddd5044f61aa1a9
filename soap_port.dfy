/** `SoapPort`: a SOAP port (service endpoint) and the operations it offers.
    Unlike the other domain values it holds MUTABLE collections: its operations
    list and its status-count map are objects that `getOperations()` and
    `getStatusCount()` hand out as they are, and that `toBuilder()` passes on to
    the next port, so a change made through any of them is seen by all. */
module SoapPorts {
  import opened Wrappers
  import opened JavaObjects
  import opened ExternalTypes

  /** The port's list of operations (a `CopyOnWriteArrayList`), as a mutable object. */
  class OperationList {
    var items: seq<SoapOperation>

    /** `new CopyOnWriteArrayList<>()`. */
    constructor ()
      ensures items == []
    {
      items := [];
    }

    /** `List.add`: append at the end. */
    method Add(operation: SoapOperation)
      modifies this
      ensures items == old(items) + [operation]
    {
      items := items + [operation];
    }
  }

  /** The port's count of operations per status (a `HashMap`), as a mutable object. */
  class StatusCountMap {
    var entries: map<SoapOperationStatus, int>

    /** `new HashMap<>()`. */
    constructor ()
      ensures entries == map[]
    {
      entries := map[];
    }

    /** `Map.put`: bind `status` to `count`, replacing any earlier count. */
    method Put(status: SoapOperationStatus, count: int)
      modifies this
      ensures entries == old(entries)[status := count]
    {
      entries := entries[status := count];
    }
  }

  /** A built port. `operations` and `statusCount` are what `getOperations()` and
      `getStatusCount()` return: the stored objects themselves, not copies.
      `invokeAddress` is what `getInvokeAddress()` returns. */
  datatype SoapPort = SoapPort(
    id: string,
    name: string,
    uri: string,
    projectId: string,
    invokeAddress: Option<string>,
    operations: OperationList,
    statusCount: StatusCountMap)
  {
    /** `equals`: the five scalar fields agree, and the two collections have the
        same contents (`List.equals` and `Map.equals` compare contents, not identity). */
    predicate Equals(that: SoapPort)
      reads operations, statusCount, that.operations, that.statusCount
    {
      && id == that.id
      && name == that.name
      && uri == that.uri
      && projectId == that.projectId
      && invokeAddress == that.invokeAddress
      && operations.items == that.operations.items
      && statusCount.entries == that.statusCount.entries
    }

    /** What `toBuilder()` puts in the fresh builder: every field, and the very
        same operations list and status-count map. */
    function ToBuilderFields(): Fields
    {
      Fields(Some(id), Some(name), Some(uri), Some(projectId), invokeAddress, Some(operations), Some(statusCount))
    }

    /** `toBuilder()`: a fresh builder that shares this port's collections. */
    method ToBuilder() returns (b: Builder)
      ensures fresh(b) && b.State() == ToBuilderFields()
    {
      b := new Builder();
      b.SetId(Some(id));
      b.SetProjectId(Some(projectId));
      b.SetInvokeAddress(invokeAddress);
      b.SetName(Some(name));
      b.SetUri(Some(uri));
      b.SetOperations(Some(operations));
      b.SetStatusCount(Some(statusCount));
    }
  }

  /** The state of a `Builder`: every field may be `null`, the two collections included. */
  datatype Fields = Fields(
    id: Option<string>,
    name: Option<string>,
    uri: Option<string>,
    projectId: Option<string>,
    invokeAddress: Option<string>,
    operations: Option<OperationList>,
    statusCount: Option<StatusCountMap>)

  /** A builder: each setter overwrites its own field and touches nothing else. */
  class Builder {
    var id: Option<string>
    var name: Option<string>
    var uri: Option<string>
    var projectId: Option<string>
    var invokeAddress: Option<string>
    var operations: Option<OperationList>
    var statusCount: Option<StatusCountMap>

    /** The builder's fields as one value. */
    function State(): Fields
      reads this
    {
      Fields(id, name, uri, projectId, invokeAddress, operations, statusCount)
    }

    /** `SoapPort.builder()`: no scalar set yet, but the two collections start as
        a new empty list and a new empty map. */
    constructor ()
      ensures id.None? && name.None? && uri.None? && projectId.None? && invokeAddress.None?
      ensures operations.Some? && fresh(operations.value) && operations.value.items == []
      ensures statusCount.Some? && fresh(statusCount.value) && statusCount.value.entries == map[]
    {
      id, name, uri, projectId, invokeAddress := None, None, None, None, None;
      var ops := new OperationList();
      var counts := new StatusCountMap();
      operations, statusCount := Some(ops), Some(counts);
    }

    method SetId(id: Option<string>)
      modifies this
      ensures State() == old(State()).(id := id)
    {
      this.id := id;
    }

    method SetName(name: Option<string>)
      modifies this
      ensures State() == old(State()).(name := name)
    {
      this.name := name;
    }

    method SetUri(uri: Option<string>)
      modifies this
      ensures State() == old(State()).(uri := uri)
    {
      this.uri := uri;
    }

    method SetProjectId(projectId: Option<string>)
      modifies this
      ensures State() == old(State()).(projectId := projectId)
    {
      this.projectId := projectId;
    }

    method SetInvokeAddress(invokeAddress: Option<string>)
      modifies this
      ensures State() == old(State()).(invokeAddress := invokeAddress)
    {
      this.invokeAddress := invokeAddress;
    }

    method SetOperations(operations: Option<OperationList>)
      modifies this
      ensures State() == old(State()).(operations := operations)
    {
      this.operations := operations;
    }

    method SetStatusCount(statusCount: Option<StatusCountMap>)
      modifies this
      ensures State() == old(State()).(statusCount := statusCount)
    {
      this.statusCount := statusCount;
    }

    /** `Builder.build()`, through the private constructor: id, name, uri and
        projectId are required (checked in that order, with an exception that
        carries no message); a collection that was set is stored as that very
        object, one that was set to `null` is replaced by a new empty one. */
    method Build() returns (r: Result<SoapPort, BuildError>)
      ensures r.Success? <==> id.Some? && name.Some? && uri.Some? && projectId.Some?
      ensures r.Failure? ==> r.error == NullPointer(None)
      ensures r.Success? ==>
        && r.value.id == id.value
        && r.value.name == name.value
        && r.value.uri == uri.value
        && r.value.projectId == projectId.value
        && r.value.invokeAddress == invokeAddress
      ensures r.Success? && operations.Some? ==> r.value.operations == operations.value
      ensures r.Success? && operations.None? ==> fresh(r.value.operations) && r.value.operations.items == []
      ensures r.Success? && statusCount.Some? ==> r.value.statusCount == statusCount.value
      ensures r.Success? && statusCount.None? ==> fresh(r.value.statusCount) && r.value.statusCount.entries == map[]
    {
      var id :- RequireNonNullUnnamed(this.id);
      var name :- RequireNonNullUnnamed(this.name);
      var uri :- RequireNonNullUnnamed(this.uri);
      var projectId :- RequireNonNullUnnamed(this.projectId);
      var ops: OperationList;
      if operations.Some? {
        ops := operations.value;
      } else {
        ops := new OperationList();
      }
      var counts: StatusCountMap;
      if statusCount.Some? {
        counts := statusCount.value;
      } else {
        counts := new StatusCountMap();
      }
      r := Success(SoapPort(id, name, uri, projectId, invokeAddress, ops, counts));
    }
  }

  /** `p.toBuilder().build()`: it never throws, and the result is not merely
      `equals` to `p` but the same value, holding the same operations list and
      status-count map objects (it aliases them rather than copying). */
  method ToBuilderThenBuild(p: SoapPort) returns (r: Result<SoapPort, BuildError>)
    ensures r == Success(p)
    ensures r.value.Equals(p)
  {
    var b := p.ToBuilder();
    r := b.Build();
  }

  /** A change made through the operations list of a rebuilt port is seen by the
      original port, because the two share that list. */
  method AddThroughRebuiltPort(p: SoapPort, operation: SoapOperation) returns (q: SoapPort)
    modifies p.operations
    ensures q.operations == p.operations
    ensures p.operations.items == old(p.operations.items) + [operation]
  {
    var r := ToBuilderThenBuild(p);
    q := r.value;
    q.operations.Add(operation);
  }

  /** Setting both collections of a builder explicitly to `null` still yields a
      port, holding a new empty operations list and a new empty status-count map. */
  method BuildWithNullCollections(id: string, name: string, uri: string, projectId: string)
    returns (r: Result<SoapPort, BuildError>)
    ensures r.Success?
    ensures r.value.id == id && r.value.name == name && r.value.uri == uri && r.value.projectId == projectId
    ensures r.value.invokeAddress == None
    ensures fresh(r.value.operations) && r.value.operations.items == []
    ensures fresh(r.value.statusCount) && r.value.statusCount.entries == map[]
  {
    var b := new Builder();
    b.SetId(Some(id));
    b.SetName(Some(name));
    b.SetUri(Some(uri));
    b.SetProjectId(Some(projectId));
    b.SetOperations(None);
    b.SetStatusCount(None);
    r := b.Build();
  }

  /** `equals` compares the collections by contents: two ports built with the
      same fields and no collections are equal, although each holds its own
      operations list and status-count map. */
  method DistinctCollectionsWithSameContentsAreEqual(id: string, name: string, uri: string, projectId: string)
    returns (p: SoapPort, q: SoapPort)
    ensures p.operations != q.operations && p.statusCount != q.statusCount
    ensures p.Equals(q) && q.Equals(p)
  {
    var rp := BuildWithNullCollections(id, name, uri, projectId);
    var rq := BuildWithNullCollections(id, name, uri, projectId);
    p, q := rp.value, rq.value;
  }
}
