/** What each configuration command makes of a loaded configuration, by name. */
module CommandMeaning {
  import opened Wrappers
  import opened Lists
  import opened Sorting
  import opened Commands
  import opened Config

  /** The view with this schema and name. */
  function ViewAt(views: seq<LogicalView>, schema: string, name: string): Option<LogicalView> {
    match FindView(views, schema, name) case Some(i) => Some(views[i]) case None => None
  }

  // ----- what a command makes -----

  /** The backends are those of `before`, except that the one called `name` is now `b`, or gone. */
  ghost predicate ExceptBackend(before: seq<Backend>, after: seq<Backend>, name: string, b: Option<Backend>) {
    forall n :: FindBackend(after, n) == if n == name then b else FindBackend(before, n)
  }

  /** The same for views. */
  ghost predicate ExceptView(before: seq<LogicalView>, after: seq<LogicalView>, schema: string, name: string,
                             v: Option<LogicalView>) {
    forall s, n :: ViewAt(after, s, n) == if s == schema && n == name then v else ViewAt(before, s, n)
  }

  /** Where it stands, each element of `before` is as it was, or is the one meant and has the new flag. */
  predicate BackendSwitched(before: seq<Backend>, after: seq<Backend>, name: string, enabled: bool) {
    && |after| == |before|
    && forall i :: 0 <= i < |before| ==>
         after[i] == if before[i].name == name then before[i].(enabled := enabled) else before[i]
  }

  predicate ViewSwitched(before: seq<LogicalView>, after: seq<LogicalView>, schema: string, name: string,
                         enabled: bool) {
    && |after| == |before|
    && forall i :: 0 <= i < |before| ==>
         after[i] == if before[i].schema == schema && before[i].name == name then before[i].(enabled := enabled)
                     else before[i]
  }

  /** What is saved when the command goes through: everything it does not mean is as before. */
  ghost predicate Made(command: Command, before: Configuration, after: Configuration) {
    match command
    case AddBackend(b) =>
      && after == before.(backends := after.backends)
      && FindBackend(before.backends, b.name).None?
      && ExceptBackend(before.backends, after.backends, b.name, Some(b))
    case RemoveBackend(name) =>
      after == before.(backends := after.backends) && ExceptBackend(before.backends, after.backends, name, None)
    case RemoveAll => before.backends != [] && after == before.(backends := [])
    case SetEnabled(name, enabled) =>
      && after == before.(backends := after.backends)
      && FindBackend(before.backends, name).Some? && FindBackend(before.backends, name).value.enabled != enabled
      && BackendSwitched(before.backends, after.backends, name, enabled)
    case AddView(v) =>
      && after == before.(views := after.views)
      && ViewAt(before.views, v.schema, v.name).None?
      && ExceptView(before.views, after.views, v.schema, v.name, Some(v))
    case RemoveView(schema, name) =>
      after == before.(views := after.views) && ExceptView(before.views, after.views, schema, name, None)
    case SetViewEnabled(qualifiedName, enabled) =>
      && ParseQualifiedViewName(qualifiedName).Some?
      && var (schema, name) := ParseQualifiedViewName(qualifiedName).value;
         && after == before.(views := after.views)
         && ViewAt(before.views, schema, name).Some? && ViewAt(before.views, schema, name).value.enabled != enabled
         && ViewSwitched(before.views, after.views, schema, name, enabled)
  }

  // ----- lookups by membership -----

  lemma {:induction false} FoundBackend(backends: seq<Backend>, name: string, b: Backend)
    requires DistinctKeys(backends, BackendKey)
    ensures FindBackend(backends, name) == Some(b) <==> b in backends && b.name == name
  {
    if b in backends && b.name == name { FindBackendByName(backends, b); }
  }

  lemma FoundView(views: seq<LogicalView>, schema: string, name: string, v: LogicalView)
    requires DistinctViews(views)
    ensures ViewAt(views, schema, name) == Some(v) <==> v in views && v.schema == schema && v.name == name
  {
    if v in views && v.schema == schema && v.name == name {
      var i :| 0 <= i < |views| && views[i] == v;
      assert IsView(v, schema, name);
      assert FindView(views, schema, name).Some?;
    }
  }

  /** Backends with other members are other backends by name, and only by these names. */
  lemma ExceptByMembers(before: seq<Backend>, after: seq<Backend>, name: string, b: Option<Backend>)
    requires DistinctKeys(before, BackendKey) && DistinctKeys(after, BackendKey)
    requires b.Some? ==> b.value.name == name
    requires forall x :: x in after <==> if x.name == name then Some(x) == b else x in before
    ensures ExceptBackend(before, after, name, b)
  {
    forall n ensures FindBackend(after, n) == if n == name then b else FindBackend(before, n) {
      var expected := if n == name then b else FindBackend(before, n);
      if expected.Some? {
        FoundBackend(after, n, expected.value);
      } else if FindBackend(after, n).Some? {
        FoundBackend(before, n, FindBackend(after, n).value);
      }
    }
  }

  lemma ExceptViewByMembers(before: seq<LogicalView>, after: seq<LogicalView>, schema: string, name: string,
                            v: Option<LogicalView>)
    requires DistinctViews(before) && DistinctViews(after)
    requires v.Some? ==> v.value.schema == schema && v.value.name == name
    requires forall x :: x in after <==> if x.schema == schema && x.name == name then Some(x) == v else x in before
    ensures ExceptView(before, after, schema, name, v)
  {
    forall s, n ensures ViewAt(after, s, n) == if s == schema && n == name then v else ViewAt(before, s, n) {
      var expected := if s == schema && n == name then v else ViewAt(before, s, n);
      if expected.Some? {
        FoundView(after, s, n, expected.value);
        FoundView(before, s, n, expected.value);
      } else if ViewAt(after, s, n).Some? {
        FoundView(after, s, n, ViewAt(after, s, n).value);
        FoundView(before, s, n, ViewAt(after, s, n).value);
      }
    }
  }

  lemma {:induction false} SortedMembers<T>(s: seq<T>, key: T -> string)
    ensures forall x :: x in Sort(s, key) <==> x in s
  {
    SortKeeps(s, key);
    assert forall x :: x in s <==> x in multiset(s);
    assert forall x :: x in Sort(s, key) <==> x in multiset(Sort(s, key));
  }

  // ----- what validation leaves of it -----

  /** Validation keeps the settings and the members of both lists. */
  lemma NormalKeeps(u: Configuration)
    requires ValidConfig(u)
    ensures var n := Normal(u);
            && ValidConfig(n) && n == u.(backends := n.backends, views := n.views)
            && (forall b :: b in n.backends <==> b in u.backends) && (forall v :: v in n.views <==> v in u.views)
  {
    ValidityOfNormal(u);
    SortedMembers(u.backends, BackendKey);
    SortedMembers(u.views, ViewKey);
  }

  lemma NormalBackends(c: Configuration)
    requires Validated(c) == Some(c)
    ensures Sort(c.backends, BackendKey) == c.backends && Sorted(c.backends, BackendKey)
    ensures Sort(c.views, ViewKey) == c.views && Sorted(c.views, ViewKey)
    ensures ValidConfig(c)
  {
    SortKeeps(c.backends, BackendKey);
    SortKeeps(c.views, ViewKey);
  }

  lemma AddBackendMeaning(c: Configuration, b: Backend, u: Configuration)
    requires Validated(c) == Some(c) && Mutate(AddBackend(b), c) == Changed(u) && ValidConfig(u)
    ensures Made(AddBackend(b), c, Normal(u))
  {
    NormalBackends(c);
    NormalKeeps(u);
    SortedMembers(c.backends + [b], BackendKey);
    assert forall x :: x in c.backends + [b] <==> x in c.backends || x == b;
    ExceptByMembers(c.backends, Normal(u).backends, b.name, Some(b));
  }

  lemma RemoveBackendMeaning(c: Configuration, name: string, u: Configuration)
    requires Validated(c) == Some(c) && Mutate(RemoveBackend(name), c) == Changed(u) && ValidConfig(u)
    ensures Made(RemoveBackend(name), c, Normal(u))
  {
    NormalBackends(c);
    NormalKeeps(u);
    var kept := Filter(OtherBackend(name), c.backends);
    SortedMembers(kept, BackendKey);
    ExceptByMembers(c.backends, Normal(u).backends, name, None);
  }

  lemma AddViewMeaning(c: Configuration, v: LogicalView, u: Configuration)
    requires Validated(c) == Some(c) && Mutate(AddView(v), c) == Changed(u) && ValidConfig(u)
    ensures Made(AddView(v), c, Normal(u))
  {
    NormalBackends(c);
    NormalKeeps(u);
    assert forall x :: x in c.views + [v] <==> x in c.views || x == v;
    AddedViewIsNew(c.views, v);
    ExceptViewByMembers(c.views, Normal(u).views, v.schema, v.name, Some(v));
  }

  lemma AddedViewIsNew(views: seq<LogicalView>, v: LogicalView)
    requires DistinctViews(views + [v])
    ensures ViewAt(views, v.schema, v.name).None?
    ensures forall x :: x in views ==> x.schema != v.schema || x.name != v.name
  {
    var all := views + [v];
    forall i | 0 <= i < |views| ensures views[i].schema != v.schema || views[i].name != v.name {
      assert all[i] == views[i] && all[|views|] == v;
    }
  }

  lemma RemoveViewMeaning(c: Configuration, schema: string, name: string, u: Configuration)
    requires Validated(c) == Some(c) && Mutate(RemoveView(schema, name), c) == Changed(u) && ValidConfig(u)
    ensures Made(RemoveView(schema, name), c, Normal(u))
  {
    NormalBackends(c);
    NormalKeeps(u);
    ExceptViewByMembers(c.views, Normal(u).views, schema, name, None);
  }

  lemma {:induction false} WithEnabledSwitches(backends: seq<Backend>, name: string, enabled: bool)
    requires DistinctKeys(backends, BackendKey)
    ensures BackendSwitched(backends, WithEnabled(backends, name, enabled), name, enabled)
  {
    if backends != [] {
      DistinctKeysOfTail(backends, BackendKey);
      if backends[0].name == name {
        assert forall i :: 1 <= i < |backends| ==> backends[i] == backends[1..][i - 1];
      } else {
        WithEnabledSwitches(backends[1..], name, enabled);
      }
    }
  }

  lemma SetEnabledMeaning(c: Configuration, name: string, enabled: bool, u: Configuration)
    requires Validated(c) == Some(c) && Mutate(SetEnabled(name, enabled), c) == Changed(u) && ValidConfig(u)
    ensures Made(SetEnabled(name, enabled), c, Normal(u))
  {
    NormalBackends(c);
    WithEnabledSwitches(c.backends, name, enabled);
    assert forall i :: 0 <= i < |u.backends| ==> BackendKey(u.backends[i]) == BackendKey(c.backends[i]);
    SortOfSorted(u.backends, BackendKey);
  }

  lemma OneViewSwitched(views: seq<LogicalView>, i: nat, enabled: bool)
    requires DistinctViews(views) && i < |views|
    ensures ViewSwitched(views, views[i := views[i].(enabled := enabled)], views[i].schema, views[i].name, enabled)
  {
  }

  lemma SetViewEnabledMeaning(c: Configuration, qualifiedName: string, enabled: bool, u: Configuration)
    requires Validated(c) == Some(c) && Mutate(SetViewEnabled(qualifiedName, enabled), c) == Changed(u)
    requires ValidConfig(u)
    ensures Made(SetViewEnabled(qualifiedName, enabled), c, Normal(u))
  {
    NormalBackends(c);
    var (schema, name) := ParseQualifiedViewName(qualifiedName).value;
    var i := FindView(c.views, schema, name).value;
    OneViewSwitched(c.views, i, enabled);
    assert forall k :: 0 <= k < |u.views| ==> ViewKey(u.views[k]) == ViewKey(c.views[k]);
    SortOfSorted(u.views, ViewKey);
  }

  /** What a command leaves on disk when it goes through. */
  lemma CommandMakes(command: Command, c: Configuration, u: Configuration)
    requires Validated(c) == Some(c) && Mutate(command, c) == Changed(u) && ValidConfig(u)
    ensures Made(command, c, Normal(u))
  {
    match command
    case AddBackend(b) => AddBackendMeaning(c, b, u);
    case RemoveBackend(name) => RemoveBackendMeaning(c, name, u);
    case RemoveAll => NormalBackends(c);
    case SetEnabled(name, enabled) => SetEnabledMeaning(c, name, enabled, u);
    case AddView(v) => AddViewMeaning(c, v, u);
    case RemoveView(schema, name) => RemoveViewMeaning(c, schema, name, u);
    case SetViewEnabled(qualifiedName, enabled) => SetViewEnabledMeaning(c, qualifiedName, enabled, u);
  }

  /** When a command is refused outright, and when there is nothing to do. */
  lemma CommandVerdict(command: Command, c: Configuration)
    ensures Mutate(command, c) == Refused <==>
            match command
            case AddBackend(b) => exists x :: x in c.backends && x.name == b.name
            case SetEnabled(name, _) => forall x :: x in c.backends ==> x.name != name
            case SetViewEnabled(q, _) =>
              ParseQualifiedViewName(q).None? ||
              forall v :: v in c.views ==> (v.schema, v.name) != ParseQualifiedViewName(q).value
            case _ => false
    ensures Mutate(command, c) == Unchanged <==>
            match command
            case RemoveAll => |c.backends| == 0
            case SetEnabled(name, enabled) =>
              FindBackend(c.backends, name).Some? && FindBackend(c.backends, name).value.enabled == enabled
            case SetViewEnabled(q, enabled) =>
              && ParseQualifiedViewName(q).Some?
              && var (schema, name) := ParseQualifiedViewName(q).value;
                 ViewAt(c.views, schema, name).Some? && ViewAt(c.views, schema, name).value.enabled == enabled
            case _ => false
  {
    match command
    case SetViewEnabled(q, _) =>
      if ParseQualifiedViewName(q).Some? {
        var (schema, name) := ParseQualifiedViewName(q).value;
        assert forall v :: IsView(v, schema, name) <==> (v.schema, v.name) == (schema, name);
      }
    case _ =>
  }
}
