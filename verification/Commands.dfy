/** What each configuration command does to a loaded configuration, before it is validated and saved. */
module Commands {
  import opened Wrappers
  import opened Lists
  import opened Sorting
  import opened Config

  datatype Command =
    | AddBackend(backend: Backend)
    | RemoveBackend(name: string)
    | RemoveAll
    | SetEnabled(name: string, enabled: bool)
    | AddView(view: LogicalView)
    | RemoveView(schema: string, viewName: string)
    | SetViewEnabled(qualifiedName: string, enabled: bool)

  /** The command is refused, has nothing to do, or gives a new configuration. */
  datatype Mutation = Refused | Unchanged | Changed(config: Configuration)

  function FindBackend(backends: seq<Backend>, name: string): (r: Option<Backend>)
    ensures r.Some? ==> r.value in backends && r.value.name == name
    ensures r.None? <==> forall b :: b in backends ==> b.name != name
  {
    if backends == [] then None
    else if backends[0].name == name then Some(backends[0])
    else FindBackend(backends[1..], name)
  }

  predicate IsFirst(backends: seq<Backend>, name: string, i: nat) {
    i < |backends| && backends[i].name == name && forall j :: 0 <= j < i ==> backends[j].name != name
  }

  /** What is found is the first backend with the name. */
  lemma {:induction false} FindBackendIsFirst(backends: seq<Backend>, name: string) returns (i: nat)
    requires exists b :: b in backends && b.name == name
    ensures IsFirst(backends, name, i) && FindBackend(backends, name) == Some(backends[i])
  {
    i := 0;
    if backends[0].name != name {
      var k := FindBackendIsFirst(backends[1..], name);
      i := k + 1;
      assert forall j :: 0 < j < i ==> backends[j] == backends[1..][j - 1];
    }
  }

  lemma {:induction false} FindBackendByName(backends: seq<Backend>, b: Backend)
    requires DistinctKeys(backends, BackendKey) && b in backends
    ensures FindBackend(backends, b.name) == Some(b)
  {
    if backends[0] != b {
      DistinctKeysOfTail(backends, BackendKey);
      FindBackendByName(backends[1..], b);
    }
  }

  lemma {:induction false} FindBackendIgnoresOrder(a: seq<Backend>, b: seq<Backend>, name: string)
    requires multiset(a) == multiset(b) && DistinctKeys(a, BackendKey)
    ensures FindBackend(a, name) == FindBackend(b, name)
  {
    assert forall x :: x in a <==> x in multiset(a);
    assert forall x :: x in b <==> x in multiset(b);
    if FindBackend(a, name).Some? {
      DistinctKeysOfPermutation(a, b, BackendKey);
      FindBackendByName(b, FindBackend(a, name).value);
    }
  }

  /** `iter_mut().find(..)` and an assignment: the first backend with the name is updated. */
  function WithEnabled(backends: seq<Backend>, name: string, enabled: bool): seq<Backend> {
    if backends == [] then []
    else if backends[0].name == name then [backends[0].(enabled := enabled)] + backends[1..]
    else [backends[0]] + WithEnabled(backends[1..], name, enabled)
  }

  predicate IsView(v: LogicalView, schema: string, name: string) { v.schema == schema && v.name == name }

  function OtherBackend(name: string): Backend -> bool { (b: Backend) => b.name != name }

  function OtherView(schema: string, name: string): LogicalView -> bool {
    (v: LogicalView) => !IsView(v, schema, name)
  }

  function FindView(views: seq<LogicalView>, schema: string, name: string): (r: Option<nat>)
    ensures r.Some? ==> r.value < |views| && IsView(views[r.value], schema, name)
    ensures r.None? <==> forall v :: v in views ==> !IsView(v, schema, name)
  {
    if views == [] then None
    else if IsView(views[0], schema, name) then Some(0)
    else match FindView(views[1..], schema, name) case Some(i) => Some(i + 1) case None => None
  }

  /** `mutate_config` sorts the backends after its closure ran. */
  function Mutated(config: Configuration): Mutation {
    Changed(config.(backends := Sort(config.backends, BackendKey)))
  }

  function Mutate(command: Command, config: Configuration): Mutation {
    match command
    case AddBackend(backend) =>
      if FindBackend(config.backends, backend.name).Some? then Refused
      else Mutated(config.(backends := config.backends + [backend]))
    case RemoveBackend(name) =>
      Mutated(config.(backends := Filter(OtherBackend(name), config.backends)))
    case RemoveAll =>
      if config.backends == [] then Unchanged else Changed(config.(backends := []))
    case SetEnabled(name, enabled) =>
      (match FindBackend(config.backends, name)
       case None => Refused
       case Some(backend) =>
         if backend.enabled == enabled then Unchanged
         else Changed(config.(backends := WithEnabled(config.backends, name, enabled))))
    case AddView(view) =>
      Mutated(config.(views := config.views + [view]))
    case RemoveView(schema, name) =>
      Mutated(config.(views := Filter(OtherView(schema, name), config.views)))
    case SetViewEnabled(qualifiedName, enabled) =>
      (match ParseQualifiedViewName(qualifiedName)
       case None => Refused
       case Some((schema, name)) =>
         match FindView(config.views, schema, name)
         case None => Refused
         case Some(i) =>
           if config.views[i].enabled == enabled then Unchanged
           else Changed(config.(views := config.views[i := config.views[i].(enabled := enabled)])))
  }
}
