/** How the set of available backends shapes a view: what is resolved and skipped, and what enabling
    and disabling a backend does to its rows. */
module ViewSources {
  import opened Wrappers
  import opened Lists
  import opened Sorting
  import opened Commands
  import opened Config
  import opened SqlGrammar
  import opened SqlMeaning
  import opened ViewCompiler
  import opened ViewDescription
  import opened ViewMeaning

  // ----- resolved and skipped sources -----

  /** `left` and `right` are two parts of `all`, each in its order. */
  ghost predicate Interleaves(all: seq<string>, left: seq<string>, right: seq<string>) {
    if all == [] then left == [] && right == []
    else
      var (last, init) := (all[|all| - 1], all[..|all| - 1]);
      || (left != [] && left[|left| - 1] == last && Interleaves(init, left[..|left| - 1], right))
      || (right != [] && right[|right| - 1] == last && Interleaves(init, left, right[..|right| - 1]))
  }

  function NamesOf(skipped: seq<SkippedSource>): (r: seq<string>)
    ensures |r| == |skipped| && forall i :: 0 <= i < |skipped| ==> r[i] == skipped[i].name
  {
    seq(|skipped|, i requires 0 <= i < |skipped| => skipped[i].name)
  }

  /** Resolved and skipped sources split the inputs, in order, and a source is resolved exactly if
      its backend is registered and enabled. */
  lemma {:induction false} SourcesSplitInputs(config: Configuration, inputs: seq<ViewInput>)
    ensures Interleaves(BackendsOf(inputs), BackendsOf(ResolvedInputs(config, inputs)),
                        NamesOf(SkippedInputs(config, inputs)))
    ensures forall i :: i in ResolvedInputs(config, inputs) <==> i in inputs && IsResolved(config, i)
    ensures forall s :: s in SkippedInputs(config, inputs) ==>
              exists i :: i in inputs && !IsResolved(config, i) && s == SkipOf(config, i)
  {
    if inputs != [] {
      var (init, last) := (inputs[..|inputs| - 1], inputs[|inputs| - 1]);
      SourcesSplitInputs(config, init);
      SplitOneMore(config, init, last);
      assert inputs == init + [last];
      assert forall i :: i in inputs <==> i in init || i == last;
      forall s | s in SkippedInputs(config, inputs)
        ensures exists i :: i in inputs && !IsResolved(config, i) && s == SkipOf(config, i)
      {
        if s in SkippedInputs(config, init) {
          var i :| i in init && !IsResolved(config, i) && s == SkipOf(config, i);
          assert i in inputs;
        } else {
          assert last in inputs && s == SkipOf(config, last);
        }
      }
    }
  }

  lemma {:induction false} SplitOneMore(config: Configuration, init: seq<ViewInput>, last: ViewInput)
    requires Interleaves(BackendsOf(init), BackendsOf(ResolvedInputs(config, init)),
                         NamesOf(SkippedInputs(config, init)))
    ensures Interleaves(BackendsOf(init + [last]), BackendsOf(ResolvedInputs(config, init + [last])),
                        NamesOf(SkippedInputs(config, init + [last])))
  {
    var inputs := init + [last];
    var (resolved, skipped) := (ResolvedInputs(config, init), SkippedInputs(config, init));
    var (left, right) := (BackendsOf(ResolvedInputs(config, inputs)), NamesOf(SkippedInputs(config, inputs)));
    assert inputs[..|inputs| - 1] == init;
    assert BackendsOf(inputs) == BackendsOf(init) + [last.backend];
    if IsResolved(config, last) {
      assert ResolvedInputs(config, inputs) == resolved + [last];
      assert SkippedInputs(config, inputs) == skipped;
      assert left == BackendsOf(resolved) + [last.backend];
      InterleavesOneMore(BackendsOf(init), BackendsOf(resolved), NamesOf(skipped), last.backend);
    } else {
      assert ResolvedInputs(config, inputs) == resolved;
      assert SkippedInputs(config, inputs) == skipped + [SkipOf(config, last)];
      assert right == NamesOf(skipped) + [last.backend];
      InterleavesOneMore(BackendsOf(init), BackendsOf(resolved), NamesOf(skipped), last.backend);
    }
  }

  lemma {:induction false} InterleavesOneMore(all: seq<string>, left: seq<string>, right: seq<string>, last: string)
    requires Interleaves(all, left, right)
    ensures Interleaves(all + [last], left + [last], right)
    ensures Interleaves(all + [last], left, right + [last])
  {
  }

  /** A statement exists exactly if the view is enabled and some input is resolved. */
  lemma StatementExists(config: Configuration, view: LogicalView)
    ensures Compiled(config, view).createSql.Some? <==>
            view.enabled && exists i :: i in view.inputs && IsResolved(config, i)
  {
    SourcesSplitInputs(config, view.inputs);
    var inputs := ResolvedInputs(config, view.inputs);
    if inputs != [] { assert inputs[0] in inputs; }
  }

  /** Compiling under the error policy means that every input is resolved. */
  lemma {:induction false} ErrorPolicyResolvesAll(config: Configuration, view: LogicalView)
    requires view.enabled && view.missingSourcePolicy == Error && Compiles(config, view)
    ensures ResolvedInputs(config, view.inputs) == view.inputs
    ensures SkippedInputs(config, view.inputs) == []
  {
    AllResolved(config, view.inputs);
  }

  lemma {:induction false} AllResolved(config: Configuration, inputs: seq<ViewInput>)
    requires forall i :: i in inputs ==> IsResolved(config, i)
    ensures ResolvedInputs(config, inputs) == inputs && SkippedInputs(config, inputs) == []
  {
    if inputs != [] {
      AllResolved(config, inputs[..|inputs| - 1]);
      assert inputs[|inputs| - 1] in inputs;
      assert inputs == inputs[..|inputs| - 1] + [inputs[|inputs| - 1]];
    }
  }

  // ----- disabling and enabling -----

  lemma {:induction false} FindAfter(backends: seq<Backend>, name: string, enabled: bool, other: string)
    ensures FindBackend(WithEnabled(backends, name, enabled), other) ==
            match FindBackend(backends, other)
            case None => None
            case Some(b) => Some(if other == name then b.(enabled := enabled) else b)
  {
    if backends != [] && backends[0].name != name { FindAfter(backends[1..], name, enabled, other); }
  }

  function WithoutBackend(inputs: seq<ViewInput>, name: string): seq<ViewInput> {
    Filter((i: ViewInput) => i.backend != name, inputs)
  }

  function OfBackend(inputs: seq<ViewInput>, name: string): seq<ViewInput> {
    Filter((i: ViewInput) => i.backend == name, inputs)
  }

  function Disabled(config: Configuration, name: string): Configuration {
    config.(backends := WithEnabled(config.backends, name, false))
  }

  lemma ResolvedAfterDisabling(config: Configuration, name: string, input: ViewInput)
    ensures IsResolved(Disabled(config, name), input) <==> IsResolved(config, input) && input.backend != name
  {
    FindAfter(config.backends, name, false, input.backend);
  }

  lemma {:induction false} DisablingFiltersInputs(config: Configuration, name: string, inputs: seq<ViewInput>)
    ensures ResolvedInputs(Disabled(config, name), inputs) == WithoutBackend(ResolvedInputs(config, inputs), name)
  {
    if inputs != [] {
      var (init, last) := (inputs[..|inputs| - 1], inputs[|inputs| - 1]);
      DisablingFiltersInputs(config, name, init);
      ResolvedAfterDisabling(config, name, last);
      var added := if IsResolved(config, last) then [last] else [];
      FilterOfConcat((i: ViewInput) => i.backend != name, ResolvedInputs(config, init), added);
      FilterOfOne((i: ViewInput) => i.backend != name, last);
    }
  }

  /** Under the skip policy disabling a backend never keeps a view from compiling. */
  lemma DisablingKeepsCompiling(config: Configuration, name: string, view: LogicalView)
    requires Compiles(config, view) && view.missingSourcePolicy == Skip
    ensures Compiles(Disabled(config, name), view)
  {
    forall i | i in view.inputs ensures InputOk(config, view, i) ==> InputOk(Disabled(config, name), view, i) {
      FindAfter(config.backends, name, false, i.backend);
    }
    if b :| b in WithEnabled(config.backends, name, false) && b.enabled && b.name == view.schema {
      EnabledBefore(config.backends, name, b);
    }
  }

  lemma {:induction false} EnabledBefore(backends: seq<Backend>, name: string, b: Backend)
    requires b in WithEnabled(backends, name, false) && b.enabled
    ensures b in backends
  {
    if backends[0].name != name && b != backends[0] { EnabledBefore(backends[1..], name, b); }
  }

  lemma {:induction false} RowsSplitByBackend(view: LogicalView, inputs: seq<ViewInput>, name: string, db: Database,
                                              cast: Caster)
    requires AllReadable(view, inputs, db)
    ensures AllReadable(view, WithoutBackend(inputs, name), db) && AllReadable(view, OfBackend(inputs, name), db)
    ensures multiset(ViewRows(view, inputs, db, cast)) ==
            multiset(ViewRows(view, WithoutBackend(inputs, name), db, cast))
            + multiset(ViewRows(view, OfBackend(inputs, name), db, cast))
  {
    if inputs != [] {
      var (first, rest) := (inputs[0], inputs[1..]);
      AllReadableSplits(view, inputs, db);
      RowsSplitByBackend(view, rest, name, db, cast);
      var (left, right) := (WithoutBackend(rest, name), OfBackend(rest, name));
      AddToBag(InputRows(view, first, db, cast), ViewRows(view, rest, db, cast), ViewRows(view, left, db, cast),
               ViewRows(view, right, db, cast));
      if first.backend == name {
        assert WithoutBackend(inputs, name) == left;
        FirstInputRows(view, first, right, db, cast);
      } else {
        assert OfBackend(inputs, name) == right;
        FirstInputRows(view, first, left, db, cast);
      }
    }
  }

  lemma AddToBag<T>(first: seq<T>, all: seq<T>, left: seq<T>, right: seq<T>)
    requires multiset(all) == multiset(left) + multiset(right)
    ensures multiset(first + all) == multiset(first + left) + multiset(right)
    ensures multiset(first + all) == multiset(left) + multiset(first + right)
  {
  }

  lemma {:induction false} FirstInputRows(view: LogicalView, first: ViewInput, rest: seq<ViewInput>, db: Database,
                                          cast: Caster)
    requires Readable(view, first, db) && AllReadable(view, rest, db)
    ensures AllReadable(view, [first] + rest, db)
    ensures ViewRows(view, [first] + rest, db, cast) ==
            InputRows(view, first, db, cast) + ViewRows(view, rest, db, cast)
  {
  }

  /** Disabling a backend takes exactly its rows out of every view: the view's rows are the rows it
      is left with and the rows of that backend's input. */
  lemma {:induction false} DisablingRemovesItsRows(config: Configuration, name: string, view: LogicalView,
                                                   db: Database, cast: Caster)
    requires AllReadable(view, ResolvedInputs(config, view.inputs), db)
    ensures var before := ResolvedInputs(config, view.inputs);
            var after := ResolvedInputs(Disabled(config, name), view.inputs);
            && AllReadable(view, after, db) && AllReadable(view, OfBackend(before, name), db)
            && multiset(ViewRows(view, before, db, cast)) ==
               multiset(ViewRows(view, after, db, cast)) + multiset(ViewRows(view, OfBackend(before, name), db, cast))
  {
    DisablingFiltersInputs(config, name, view.inputs);
    RowsSplitByBackend(view, ResolvedInputs(config, view.inputs), name, db, cast);
  }

  /** The bag of rows an emitted statement denotes: none without a statement, and undefined where it does not
      parse or does not bind. */
  ghost function StatementBag(sql: Option<string>, db: Database, cast: Caster): Option<multiset<Row>> {
    match sql
    case None => Some(multiset{})
    case Some(text) =>
      var script :- ParseText(text);
      var relation :- EvalScript(script, db, cast);
      if Rectangular(relation) then Some(Bag(relation)) else None
  }

  lemma {:induction false} StatementDenotes(config: Configuration, view: LogicalView, db: Database, cast: Caster)
    requires Declared(view) && BalancedTypes(view) && view.enabled
    requires AllReadable(view, ResolvedInputs(config, view.inputs), db)
    ensures StatementBag(Compiled(config, view).createSql, db, cast) ==
            Some(multiset(ViewRows(view, ResolvedInputs(config, view.inputs), db, cast)))
  {
    if ResolvedInputs(config, view.inputs) != [] {
      ResolvedAreUsable(config, view.inputs);
      CompilationPreservesMeaning(config, view, db, cast);
    }
  }

  /** In terms of the two emitted statements: the rows of the one before are the rows of the one after, and the
      rows of the disabled backend's inputs. */
  lemma {:induction false} DisablingShrinksStatement(config: Configuration, name: string, view: LogicalView,
                                                     db: Database, cast: Caster)
    requires Declared(view) && BalancedTypes(view) && view.enabled
    requires AllReadable(view, ResolvedInputs(config, view.inputs), db)
    ensures var before := StatementBag(Compiled(config, view).createSql, db, cast);
            var after := StatementBag(Compiled(Disabled(config, name), view).createSql, db, cast);
            var its := OfBackend(ResolvedInputs(config, view.inputs), name);
            && before.Some? && after.Some? && AllReadable(view, its, db)
            && before.value == after.value + multiset(ViewRows(view, its, db, cast))
  {
    DisablingRemovesItsRows(config, name, view, db, cast);
    StatementDenotes(config, view, db, cast);
    StatementDenotes(Disabled(config, name), view, db, cast);
  }

  // ----- one source of an emitted statement -----

  lemma {:induction false} ResolvedAreInputs(config: Configuration, inputs: seq<ViewInput>)
    ensures forall i :: i in ResolvedInputs(config, inputs) ==> i in inputs
  {
    if inputs != [] {
      ResolvedAreInputs(config, inputs[..|inputs| - 1]);
    }
  }

  lemma {:induction false} ResolvedAreDistinct(config: Configuration, inputs: seq<ViewInput>)
    requires DistinctInputs(inputs)
    ensures DistinctInputs(ResolvedInputs(config, inputs))
  {
    if inputs != [] {
      var (init, last) := (inputs[..|inputs| - 1], inputs[|inputs| - 1]);
      assert DistinctInputs(init);
      ResolvedAreDistinct(config, init);
      ResolvedAreInputs(config, init);
      OtherBackends(init, last);
    }
  }

  lemma OtherBackends(init: seq<ViewInput>, last: ViewInput)
    requires DistinctInputs(init + [last])
    ensures forall i :: i in init ==> i.backend != last.backend
  {
    var inputs := init + [last];
    assert inputs[|init|] == last && forall k :: 0 <= k < |init| ==> inputs[k] == init[k];
  }

  /** `part` holds what of `whole` satisfies the condition, each as often as `whole` does. */
  ghost predicate Selected<T(!new)>(p: T -> bool, whole: multiset<T>, part: multiset<T>) {
    forall x :: part[x] == if p(x) then whole[x] else 0
  }

  lemma {:induction false} BagOfFilter<T(!new)>(p: T -> bool, s: seq<T>)
    ensures Selected(p, multiset(s), multiset(Filter(p, s)))
  {
    if s != [] {
      BagOfFilter(p, s[1..]);
      assert s == [s[0]] + s[1..];
    }
  }

  lemma {:induction false} OneInputSelected(view: LogicalView, inputs: seq<ViewInput>, k: nat, db: Database,
                                            cast: Caster)
    requires view.sourceColumn.Some? && DistinctInputs(inputs) && AllReadable(view, inputs, db) && k < |inputs|
    ensures Readable(view, inputs[k], db)
    ensures Selected(FromBackend(view, inputs[k].backend), multiset(ViewRows(view, inputs, db, cast)),
                     multiset(InputRows(view, inputs[k], db, cast)))
  {
    SourceColumnSelectsOneInput(view, inputs, k, db, cast);
    BagOfFilter(FromBackend(view, inputs[k].backend), ViewRows(view, inputs, db, cast));
  }

  /** Filtering what the emitted statement denotes by the source column gives back exactly one input's rows, each as
      often as that input has it. */
  lemma {:induction false} SourceColumnSelectsFromStatement(config: Configuration, view: LogicalView, k: nat,
                                                            db: Database, cast: Caster)
    requires Declared(view) && BalancedTypes(view) && view.enabled && view.sourceColumn.Some?
    requires AllReadable(view, ResolvedInputs(config, view.inputs), db) && k < |ResolvedInputs(config, view.inputs)|
    ensures var bag := StatementBag(Compiled(config, view).createSql, db, cast);
            var input := ResolvedInputs(config, view.inputs)[k];
            && bag.Some? && Readable(view, input, db)
            && Selected(FromBackend(view, input.backend), bag.value, multiset(InputRows(view, input, db, cast)))
  {
    var inputs := ResolvedInputs(config, view.inputs);
    StatementDenotes(config, view, db, cast);
    ResolvedAreDistinct(config, view.inputs);
    OneInputSelected(view, inputs, k, db, cast);
  }

  // ----- disabling and enabling again -----

  lemma {:induction false} EnablingUndoesDisabling(backends: seq<Backend>, name: string)
    requires FindBackend(backends, name).Some? && FindBackend(backends, name).value.enabled
    ensures WithEnabled(WithEnabled(backends, name, false), name, true) == backends
  {
    var (first, rest) := (backends[0], backends[1..]);
    assert backends == [first] + rest;
    if first.name == name {
      AtFirst(first.(enabled := false), rest, name, true);
    } else {
      EnablingUndoesDisabling(rest, name);
      AfterFirst(first, WithEnabled(rest, name, false), name, true);
    }
  }

  lemma {:induction false} AtFirst(first: Backend, rest: seq<Backend>, name: string, enabled: bool)
    requires first.name == name
    ensures WithEnabled([first] + rest, name, enabled) == [first.(enabled := enabled)] + rest
  {
  }

  lemma {:induction false} AfterFirst(first: Backend, rest: seq<Backend>, name: string, enabled: bool)
    requires first.name != name
    ensures WithEnabled([first] + rest, name, enabled) == [first] + WithEnabled(rest, name, enabled)
  {
  }

  lemma {:induction false} WithEnabledElementwise(backends: seq<Backend>, name: string, enabled: bool)
    ensures |WithEnabled(backends, name, enabled)| == |backends|
    ensures forall i :: 0 <= i < |backends| ==>
              var b := WithEnabled(backends, name, enabled)[i]; b == backends[i].(enabled := b.enabled)
  {
    if backends != [] && backends[0].name != name {
      WithEnabledElementwise(backends[1..], name, enabled);
    }
  }

  lemma SameNames(before: seq<Backend>, after: seq<Backend>)
    requires |after| == |before|
    requires forall i :: 0 <= i < |before| ==> after[i] == before[i].(enabled := after[i].enabled)
    ensures Sorted(before, BackendKey) ==> Sorted(after, BackendKey)
    ensures DistinctKeys(before, BackendKey) ==> DistinctKeys(after, BackendKey)
    ensures (forall b :: b in before ==> ValidBackend(b)) ==> forall b :: b in after ==> ValidBackend(b)
  {
    assert forall i :: 0 <= i < |after| ==> BackendKey(after[i]) == BackendKey(before[i]);
    if forall b :: b in before ==> ValidBackend(b) {
      forall b | b in after ensures ValidBackend(b) {
        var i :| 0 <= i < |after| && after[i] == b;
        assert ValidBackend(before[i]);
      }
    }
  }

  lemma SortedBackends(config: Configuration)
    requires Validated(config) == Some(config)
    ensures Sorted(config.backends, BackendKey)
  {
    SortKeeps(config.backends, BackendKey);
  }

  /** What disabling leaves is saved and loaded as it is. */
  lemma DisabledIsNormal(config: Configuration, name: string)
    requires Validated(config) == Some(config)
    ensures Validated(Disabled(config, name)) == Some(Disabled(config, name))
  {
    var after := WithEnabled(config.backends, name, false);
    SortedBackends(config);
    WithEnabledElementwise(config.backends, name, false);
    SameNames(config.backends, after);
    SortOfSorted(after, BackendKey);
  }

  /** The two commands undo each other: disabling an enabled backend and enabling it again gives back
      the configuration, and with it every compiled statement. */
  lemma {:induction false} ToggleRestores(config: Configuration, name: string, view: LogicalView)
    requires FindBackend(config.backends, name).Some? && FindBackend(config.backends, name).value.enabled
    ensures var off := Mutate(SetEnabled(name, false), config);
            && off == Changed(Disabled(config, name))
            && Mutate(SetEnabled(name, true), off.config) == Changed(config)
    ensures var off := Disabled(config, name);
            Compiled(off.(backends := WithEnabled(off.backends, name, true)), view)
            == Compiled(config, view)
  {
    FindAfter(config.backends, name, false, name);
    EnablingUndoesDisabling(config.backends, name);
  }
}
