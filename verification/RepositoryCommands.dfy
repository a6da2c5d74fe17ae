/** What the file holds, name by name, after the commands that have gone through. */
module RepositoryCommands {
  import opened Wrappers
  import opened Sorting
  import opened Commands
  import opened CommandMeaning
  import opened Config
  import opened Transactions
  import opened TransactionInvariant
  import opened TransactionProperties
  import opened RepositoryTransactions

  lemma EffectIsMade(opens: Configuration -> bool, command: Command, before: Configuration, after: Configuration)
    requires ValidConfig(before) && RepositoryRules(opens).Effect(command, Normal(before)) == Some(after)
    ensures ValidConfig(after) && Made(command, Normal(before), after)
  {
    RulesOfRepository(opens, command, Normal(before));
    var u := Mutate(command, Normal(before)).config;
    RulesOfRepository(opens, command, u);
    NormalFormIsFixed(before, Normal(before));
    ValidityOfNormal(u);
    CommandMakes(command, Normal(before), u);
  }

  /** What an entry of the log did to the file, for the repository's commands. */
  lemma EntryOfCommand(opens: Configuration -> bool, e: Entry)
    requires Means(RepositoryRules(opens), e.command, e.before, e.outcome, e.after)
    ensures ValidConfig(e.before) && ValidConfig(e.after)
    ensures if Kept(e.outcome) then Made(e.command, Normal(e.before), e.after)
            else e.after == e.before || e.after == Normal(e.before)
  {
    RulesOfRepository(opens, e.command, e.before);
    ValidityOfNormal(e.before);
    if Kept(e.outcome) { EffectIsMade(opens, e.command, e.before, e.after); }
  }

  /** A command that has gone through has done to the file what it says, and nothing else: the other backends, the
      other views and the settings are as its lock holder found them. */
  lemma CommittedIsMade(opens: Configuration -> bool, config: Configuration, s: System, i: nat)
    requires Reachable(RepositoryRules(opens), config, s) && i < |s.log| && Kept(s.log[i].outcome)
    ensures Made(s.log[i].command, Normal(s.log[i].before), s.log[i].after)
  {
    OutcomesAreTrue(RepositoryRules(opens), config, s, i);
    EntryOfCommand(opens, s.log[i]);
  }

  // ----- one backend through all commands -----

  /** What a command that goes through makes of the backend called `n`. */
  function BackendBy(command: Command, n: string, found: Option<Backend>): Option<Backend> {
    match command
    case AddBackend(b) => if b.name == n then Some(b) else found
    case RemoveBackend(name) => if name == n then None else found
    case RemoveAll => None
    case SetEnabled(name, enabled) =>
      if name == n && found.Some? then Some(found.value.(enabled := enabled)) else found
    case _ => found
  }

  function BackendAfter(log: seq<Entry>, n: string, first: Option<Backend>): Option<Backend> {
    if log == [] then first
    else
      var (found, e) := (BackendAfter(log[..|log| - 1], n, first), log[|log| - 1]);
      if Kept(e.outcome) then BackendBy(e.command, n, found) else found
  }

  lemma {:induction false} SameBackend(c: Configuration, n: string)
    requires ValidConfig(c)
    ensures FindBackend(Normal(c).backends, n) == FindBackend(c.backends, n)
  {
    SortKeeps(c.backends, BackendKey);
    FindBackendIgnoresOrder(c.backends, Normal(c).backends, n);
  }

  lemma {:induction false} SwitchedFound(before: seq<Backend>, after: seq<Backend>, name: string, enabled: bool,
                                         n: string, i: nat)
    requires DistinctKeys(after, BackendKey) && BackendSwitched(before, after, name, enabled)
    requires i < |before| && before[i].name == n
    ensures FindBackend(after, n) == Some(if n == name then before[i].(enabled := enabled) else before[i])
  {
    FoundBackend(after, n, after[i]);
  }

  lemma {:induction false} SwitchedAbsent(before: seq<Backend>, after: seq<Backend>, name: string, enabled: bool,
                                          n: string)
    requires BackendSwitched(before, after, name, enabled) && forall b :: b in before ==> b.name != n
    ensures FindBackend(after, n).None?
  {
    forall b | b in after ensures b.name != n {
      var i :| 0 <= i < |after| && after[i] == b;
      assert before[i] in before;
    }
  }

  lemma {:induction false} SwitchedBackend(before: seq<Backend>, after: seq<Backend>, name: string, enabled: bool,
                                           n: string)
    requires DistinctKeys(after, BackendKey) && BackendSwitched(before, after, name, enabled)
    ensures FindBackend(after, n) == BackendBy(SetEnabled(name, enabled), n, FindBackend(before, n))
  {
    if FindBackend(before, n).Some? {
      var i :| 0 <= i < |before| && before[i] == FindBackend(before, n).value;
      SwitchedFound(before, after, name, enabled, n, i);
    } else {
      SwitchedAbsent(before, after, name, enabled, n);
    }
  }

  lemma {:induction false} MadeBackend(command: Command, before: Configuration, after: Configuration, n: string)
    requires ValidConfig(before) && ValidConfig(after) && Made(command, before, after)
    ensures FindBackend(after.backends, n) == BackendBy(command, n, FindBackend(before.backends, n))
  {
    match command
    case SetEnabled(name, enabled) => SwitchedBackend(before.backends, after.backends, name, enabled, n);
    case _ =>
  }

  lemma {:induction false} ChainOfBackend(opens: Configuration -> bool, log: seq<Entry>, first: Configuration,
                                          last: Configuration, n: string)
    requires Chained(RepositoryRules(opens), log, first, last)
    ensures FindBackend(last.backends, n) == BackendAfter(log, n, FindBackend(first.backends, n))
  {
    if log != [] {
      var e := log[|log| - 1];
      ChainOfBackend(opens, log[..|log| - 1], first, e.before, n);
      EntryOfCommand(opens, e);
      SameBackend(e.before, n);
      ValidityOfNormal(e.before);
      if Kept(e.outcome) { MadeBackend(e.command, Normal(e.before), e.after, n); }
    }
  }

  /** No update of a backend is lost, and none is made up: whenever the lock is free, the file has the backend
      called `n` exactly as the commands about `n` that have gone through have left it, in lock order. */
  lemma {:induction false} BackendsAreKept(opens: Configuration -> bool, config: Configuration, s: System, n: string)
    requires Reachable(RepositoryRules(opens), config, s) && s.lock.None?
    ensures s.writes != []
    ensures FindBackend(Disk(s).backends, n) == BackendAfter(s.log, n, FindBackend(config.backends, n))
  {
    ReachableIsFine(RepositoryRules(opens), config, s);
    ChainOfBackend(opens, s.log, config, Disk(s), n);
  }

  // ----- one view through all commands -----

  /** What a command that goes through makes of the view `schema.n`. */
  function ViewBy(command: Command, schema: string, n: string, found: Option<LogicalView>): Option<LogicalView> {
    match command
    case AddView(v) => if v.schema == schema && v.name == n then Some(v) else found
    case RemoveView(itsSchema, name) => if itsSchema == schema && name == n then None else found
    case SetViewEnabled(qualifiedName, enabled) =>
      if ParseQualifiedViewName(qualifiedName) == Some((schema, n)) && found.Some?
      then Some(found.value.(enabled := enabled))
      else found
    case _ => found
  }

  function ViewAfter(log: seq<Entry>, schema: string, n: string, first: Option<LogicalView>): Option<LogicalView> {
    if log == [] then first
    else
      var (found, e) := (ViewAfter(log[..|log| - 1], schema, n, first), log[|log| - 1]);
      if Kept(e.outcome) then ViewBy(e.command, schema, n, found) else found
  }

  lemma SameView(c: Configuration, schema: string, n: string)
    requires ValidConfig(c)
    ensures ViewAt(Normal(c).views, schema, n) == ViewAt(c.views, schema, n)
  {
    NormalKeeps(c);
    if ViewAt(c.views, schema, n).Some? {
      var v := ViewAt(c.views, schema, n).value;
      FoundView(c.views, schema, n, v);
      FoundView(Normal(c).views, schema, n, v);
    } else if ViewAt(Normal(c).views, schema, n).Some? {
      var v := ViewAt(Normal(c).views, schema, n).value;
      FoundView(Normal(c).views, schema, n, v);
      FoundView(c.views, schema, n, v);
    }
  }

  lemma SwitchedView(before: seq<LogicalView>, after: seq<LogicalView>, itsSchema: string, name: string,
                     enabled: bool, schema: string, n: string)
    requires DistinctViews(before) && DistinctViews(after) && ViewSwitched(before, after, itsSchema, name, enabled)
    ensures ViewAt(after, schema, n) ==
            if itsSchema == schema && name == n && ViewAt(before, schema, n).Some?
            then Some(ViewAt(before, schema, n).value.(enabled := enabled))
            else ViewAt(before, schema, n)
  {
    if ViewAt(before, schema, n).Some? {
      var v := ViewAt(before, schema, n).value;
      FoundView(before, schema, n, v);
      var i :| 0 <= i < |before| && before[i] == v;
      FoundView(after, schema, n, after[i]);
    } else if ViewAt(after, schema, n).Some? {
      var v := ViewAt(after, schema, n).value;
      FoundView(after, schema, n, v);
      var i :| 0 <= i < |after| && after[i] == v;
      FoundView(before, schema, n, before[i]);
    }
  }

  lemma MadeView(command: Command, before: Configuration, after: Configuration, schema: string, n: string)
    requires ValidConfig(before) && ValidConfig(after) && Made(command, before, after)
    ensures ViewAt(after.views, schema, n) == ViewBy(command, schema, n, ViewAt(before.views, schema, n))
  {
    match command
    case SetViewEnabled(qualifiedName, enabled) =>
      var (itsSchema, name) := ParseQualifiedViewName(qualifiedName).value;
      SwitchedView(before.views, after.views, itsSchema, name, enabled, schema, n);
    case _ =>
  }

  lemma {:induction false} ChainOfView(opens: Configuration -> bool, log: seq<Entry>, first: Configuration,
                                       last: Configuration, schema: string, n: string)
    requires Chained(RepositoryRules(opens), log, first, last)
    ensures ViewAt(last.views, schema, n) == ViewAfter(log, schema, n, ViewAt(first.views, schema, n))
  {
    if log != [] {
      var e := log[|log| - 1];
      ChainOfView(opens, log[..|log| - 1], first, e.before, schema, n);
      EntryOfCommand(opens, e);
      SameView(e.before, schema, n);
      ValidityOfNormal(e.before);
      if Kept(e.outcome) { MadeView(e.command, Normal(e.before), e.after, schema, n); }
    }
  }

  /** The same for views. */
  lemma {:induction false} ViewsAreKept(opens: Configuration -> bool, config: Configuration, s: System,
                                        schema: string, n: string)
    requires Reachable(RepositoryRules(opens), config, s) && s.lock.None?
    ensures s.writes != []
    ensures ViewAt(Disk(s).views, schema, n) == ViewAfter(s.log, schema, n, ViewAt(config.views, schema, n))
  {
    ReachableIsFine(RepositoryRules(opens), config, s);
    ChainOfView(opens, s.log, config, Disk(s), schema, n);
  }
}
