/** `ConnectionManager` of lib/connection/connection-manager.ts: the list of
    registered connections, searched by name. */
module Registry {
  import opened Wrappers
  import opened Errors
  import opened Options
  import opened Loggers
  import opened Drivers
  import opened Connections

  /** The position of the first connection called `name`, as `find` returns it. */
  function IndexOfName(connections: seq<Connection>, name: string): (k: Option<nat>)
    ensures k.Some? ==>
      k.value < |connections| && connections[k.value].name == name &&
      forall j :: 0 <= j < k.value ==> connections[j].name != name
    ensures k.None? ==> forall j :: 0 <= j < |connections| ==> connections[j].name != name
  {
    if connections == [] then None
    else if connections[0].name == name then Some(0)
    else match IndexOfName(connections[1..], name)
      case None => None
      case Some(k) => Some(k + 1)
  }

  ghost predicate NamesDistinct(connections: seq<Connection>) {
    forall i, j :: 0 <= i < j < |connections| ==> connections[i].name != connections[j].name
  }

  /** `splice(k, 1)`: drop the element at `k`, keeping the others in order. */
  function Without(connections: seq<Connection>, k: nat): (rest: seq<Connection>)
    requires k < |connections|
    ensures |rest| == |connections| - 1
    ensures forall i :: 0 <= i < k ==> rest[i] == connections[i]
    ensures forall i :: k <= i < |rest| ==> rest[i] == connections[i + 1]
  {
    connections[..k] + connections[k + 1..]
  }

  /** The list once `create` has dropped an entry called `name`, if there is one. */
  function Evicted(connections: seq<Connection>, name: string): (rest: seq<Connection>)
    ensures IndexOfName(connections, name).None? ==> rest == connections
    ensures |rest| == |connections| - (if IndexOfName(connections, name).Some? then 1 else 0)
    ensures forall c | c in rest :: c in connections
    ensures NamesDistinct(connections) ==> forall i :: 0 <= i < |rest| ==> rest[i].name != name
  {
    match IndexOfName(connections, name)
    case None => connections
    case Some(k) => Without(connections, k)
  }

  /** `create` refuses `name` when the entry it finds under that name is
      connected. */
  predicate Refuses(connections: seq<Connection>, name: string): (r: bool)
    reads connections
    ensures r <==> exists i :: 0 <= i < |connections| && connections[i].name == name &&
                              connections[i].isDriverConnected &&
                              forall j :: 0 <= j < i ==> connections[j].name != name
  {
    var k := IndexOfName(connections, name);
    k.Some? && connections[k.value].isDriverConnected
  }

  /** Dropping the entry called `c.name` and appending `c` keeps names
      pairwise distinct, makes `c` the entry found under its name, and grows
      the list by one exactly when the name was new. */
  lemma CreateKeepsNamesDistinct(connections: seq<Connection>, c: Connection)
    requires NamesDistinct(connections)
    ensures var kept := Evicted(connections, c.name);
            NamesDistinct(kept + [c]) &&
            IndexOfName(kept + [c], c.name) == Some(|kept|) &&
            |kept + [c]| == |connections| + (if IndexOfName(connections, c.name).None? then 1 else 0)
  {
    var kept := Evicted(connections, c.name);
    var after := kept + [c];
    assert NoneCalled: forall i :: 0 <= i < |kept| ==> kept[i].name != c.name by {
      match IndexOfName(connections, c.name)
      case None =>
      case Some(k) =>
        forall i | 0 <= i < |kept| ensures kept[i].name != c.name {
          if i < k {
            assert kept[i] == connections[i];
          } else {
            assert kept[i] == connections[i + 1];
          }
        }
    }
    assert after[|kept|] == c;
    forall i | 0 <= i < |kept| ensures after[i] == kept[i] { }
  }

  class ConnectionManager {
    var connections: seq<Connection>

    /** Registered names are pairwise distinct and never empty. */
    ghost predicate Valid()
      reads this
    {
      NamesDistinct(connections) && forall i :: 0 <= i < |connections| ==> connections[i].name != ""
    }

    constructor ()
      ensures Valid() && connections == []
    {
      connections := [];
    }

    /** `has`: some registered connection is called `name`. */
    function Has(name: string): (r: bool)
      reads this
      ensures r <==> exists i :: 0 <= i < |connections| && connections[i].name == name
    {
      IndexOfName(connections, name).Some?
    }

    /** `get(name = "default")`: the first registered connection with that name,
        connected or not; throws with the name as message when there is none. */
    function Get(name: Option<string>): (r: Result<Connection, Error>)
      reads this
      ensures r.Success? <==> Has(NameArgument(name))
      ensures r.Failure? ==> r.error == Thrown(NameArgument(name))
      ensures r.Success? ==>
        r.value.name == NameArgument(name) &&
        exists i :: 0 <= i < |connections| && connections[i] == r.value &&
                    forall j :: 0 <= j < i ==> connections[j].name != r.value.name
    {
      var key := NameArgument(name);
      match IndexOfName(connections, key)
      case None => Failure(Thrown(key))
      case Some(k) => Success(connections[k])
    }

    /** `create(options)`: under the resolved name, refuse when the entry found
        is connected; otherwise drop that entry, build the connection (which
        may throw after the drop) and append it, disconnected, as the last
        entry. */
    method Create(options: ConnectionOptions) returns (r: Result<Connection, Error>)
      requires Valid()
      modifies this
      ensures Valid()
      ensures var name := ConnectionName(options.name);
              old(Refuses(connections, name)) ==>
                r == Failure(Thrown(name)) && connections == old(connections)
      ensures var name := ConnectionName(options.name);
              !old(Refuses(connections, name)) && ConstructionError(options).Some? ==>
                r == Failure(ConstructionError(options).value) &&
                connections == Evicted(old(connections), name)
      ensures var name := ConnectionName(options.name);
              !old(Refuses(connections, name)) && ConstructionError(options).None? ==>
                r.Success? && connections == Evicted(old(connections), name) + [r.value] &&
                fresh(r.value) && fresh(r.value.driver.Footprint()) &&
                r.value.name == name && !r.value.isDriverConnected && r.value.driver.Idle() &&
                r.value.maxQueryExecutionTime == MaxQueryExecutionTime(options.maxQueryExecutionTime) &&
                r.value.logger == LoggerFactory(options.loggerType, options.logOptions).value &&
                r.value.driver.BuiltBy(DriverFactory(options.driver).value) &&
                Get(Some(name)) == Success(r.value)
    {
      var name := ConnectionName(options.name);
      var existing := IndexOfName(connections, name);
      if existing.Some? {
        if connections[existing.value].isDriverConnected {
          return Failure(Thrown(name));
        }
        connections := Without(connections, existing.value);
      }
      ghost var kept := connections;
      r := Connection.New(options);
      if r.Failure? {
        return;
      }
      CreateKeepsNamesDistinct(old(connections), r.value);
      connections := connections + [r.value];
      assert IndexOfName(connections, name) == Some(|kept|);
    }
  }
}
