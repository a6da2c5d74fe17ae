/** What the outcomes of the mutators promise about the daemon: the condition, and why it is enough. */
module TransactionPromise {
  import opened Wrappers
  import opened Commands
  import opened Config
  import opened Transactions
  import opened TransactionInvariant
  import opened TransactionProperties
  import opened TransactionHistory

  // ----- outcomes -----

  /** The outcome without its version. */
  function Plain(outcome: Outcome): Outcome { if outcome.Committed? then Committed(0) else outcome }

  /** What the lock holders have returned, in lock order. */
  function OutcomesOf(log: seq<Entry>): (r: seq<Outcome>)
    ensures |r| == |log| && forall i :: 0 <= i < |log| ==> r[i] == Plain(log[i].outcome)
  {
    seq(|log|, i requires 0 <= i < |log| => Plain(log[i].outcome))
  }

  predicate AllPlain(outcomes: seq<Outcome>) { forall i :: 0 <= i < |outcomes| ==> Plain(outcomes[i]) == outcomes[i] }

  predicate LeavesBehind(outcome: Outcome) {
    outcome == PidUnknown || outcome == NotRolledBack || outcome == Died(AfterSave)
  }

  /** The outcomes of the holders that wrote the file. */
  function Writers(outcomes: seq<Outcome>): (r: seq<Outcome>)
    ensures forall o :: o in r ==> !Harmless(o)
  {
    if outcomes == [] then []
    else
      var last := outcomes[|outcomes| - 1];
      Writers(outcomes[..|outcomes| - 1]) + if Harmless(last) then [] else [last]
  }

  lemma {:induction false} WritersSnoc(outcomes: seq<Outcome>, outcome: Outcome)
    ensures Writers(outcomes + [outcome]) == Writers(outcomes) + if Harmless(outcome) then [] else [outcome]
  {
    assert (outcomes + [outcome])[..|outcomes|] == outcomes;
  }

  /** The last holder that wrote the file, if any, has committed. */
  predicate EndsWell(outcomes: seq<Outcome>) {
    var w := Writers(outcomes); w == [] || w[|w| - 1].Committed?
  }

  /** Every holder that wrote the file has taken its change back. */
  predicate Restored(outcomes: seq<Outcome>) {
    var w := Writers(outcomes); forall i :: 0 <= i < |w| ==> TakesBack(w[i])
  }

  /** The last holder that wrote the file has left its change there without the daemon; those before it have taken
      theirs back. */
  predicate LeftAfterRestores(outcomes: seq<Outcome>) {
    var w := Writers(outcomes);
    w != [] && LeavesBehind(w[|w| - 1]) && forall i :: 0 <= i < |w| - 1 ==> TakesBack(w[i])
  }

  lemma {:induction false} EndsWellOfLog(log: seq<Entry>)
    ensures EndsWell(OutcomesOf(log)) <==> EndsCommitted(log)
  {
    if log != [] {
      var (init, e) := (log[..|log| - 1], log[|log| - 1]);
      EndsWellOfLog(init);
      OutcomesSnoc(init, e);
      assert log == init + [e];
      WritersSnoc(OutcomesOf(init), Plain(e.outcome));
    }
  }

  lemma OutcomesSnoc(log: seq<Entry>, e: Entry)
    ensures OutcomesOf(log + [e]) == OutcomesOf(log) + [Plain(e.outcome)]
  {
  }

  // ----- the condition -----

  /** A single command gives a configuration that can be served. */
  ghost predicate Fixable(rules: Rules, n: Configuration) { exists k :: rules.Effect(k, n).Some? }

  ghost predicate FixableTwoWays(rules: Rules, n: Configuration) {
    exists k, l :: rules.Effect(k, n).Some? && rules.Effect(l, n).Some? && rules.Effect(k, n) != rules.Effect(l, n)
  }

  /** What the outcomes have to be like. Where the first configuration, whose normal form is `n`, can be served, the
      last holder that wrote the file has to have committed. Where it cannot, no daemon ever served it: then it is
      also enough that nothing can be saved at all, or that the first change that stayed is the last one and no
      other change was on disk before it. */
  ghost predicate KeepsPromise(rules: Rules, n: Configuration, outcomes: seq<Outcome>) {
    || EndsWell(outcomes)
    || (!rules.activates(n) &&
        (!Fixable(rules, n)
         || (LeftAfterRestores(outcomes) && (|Writers(outcomes)| == 1 || !FixableTwoWays(rules, n)))))
  }

  lemma OneWriter(outcome: Outcome)
    requires !Harmless(outcome)
    ensures Writers([outcome]) == [outcome]
  {
    WritersSnoc([], outcome);
    assert [] + [outcome] == [outcome];
  }

  /** Where the first configuration cannot be served, a single change left without a reload keeps the promise. */
  lemma LoneChangeKeepsPromise(rules: Rules, n: Configuration)
    requires !rules.activates(n)
    ensures !EndsWell([PidUnknown]) && KeepsPromise(rules, n, [PidUnknown])
  {
    OneWriter(PidUnknown);
  }

  /** A single change that is taken back never does, if there can be one. */
  lemma LoneRollbackBreaksPromise(rules: Rules, n: Configuration, k: Command)
    requires rules.Effect(k, n).Some?
    ensures !KeepsPromise(rules, n, [RolledBack])
  {
    OneWriter(RolledBack);
  }

  /** Whenever the lock is free and the mutators have returned these outcomes, a daemon that is up serves the
      file. */
  ghost predicate PromisesDisk(rules: Rules, config: Configuration, outcomes: seq<Outcome>) {
    forall s :: Reachable(rules, config, s) && s.lock.None? && OutcomesOf(s.log) == outcomes ==>
      s.writes != [] && ServesDisk(s)
  }

  // ----- where the promise is kept -----

  ghost predicate IsFix(rules: Rules, n: Configuration, c: Configuration) { exists k :: rules.Effect(k, n) == Some(c) }

  /** As long as every change has been taken back, the file has held the first configuration and fixes of it. */
  lemma {:induction false} RestoredHistory(rules: Rules, log: seq<Entry>, first: Configuration, last: Configuration,
                                           n: Configuration)
    requires rules.Sound() && rules.validated(first) == Some(n) && Chained(rules, log, first, last)
    requires Restored(OutcomesOf(log))
    ensures rules.validated(last) == Some(n)
    ensures forall c :: c in History(rules, first, log) ==> rules.validated(c) == Some(n) || IsFix(rules, n, c)
    ensures Writers(OutcomesOf(log)) == [] ==> History(rules, first, log) == [first] && last == first
  {
    if log != [] {
      var (init, e) := (log[..|log| - 1], log[|log| - 1]);
      OutcomesSnoc(init, e);
      assert log == init + [e];
      WritersSnoc(OutcomesOf(init), Plain(e.outcome));
      var (w, v) := (Writers(OutcomesOf(log)), Writers(OutcomesOf(init)));
      assert forall i :: 0 <= i < |v| ==> v[i] == w[i];
      RestoredHistory(rules, init, first, e.before, n);
      EntryOfRestored(rules, e, n);
      if Harmless(e.outcome) {
        assert History(rules, first, log) == History(rules, first, init) + [];
      } else {
        assert w[|v|] == Plain(e.outcome);
      }
    }
  }

  lemma EntryOfRestored(rules: Rules, e: Entry, n: Configuration)
    requires rules.Sound() && rules.validated(e.before) == Some(n)
    requires Means(rules, e.command, e.before, e.outcome, e.after)
    ensures Harmless(e.outcome) ==> e.after == e.before && WritesOf(rules, e) == []
    ensures TakesBack(e.outcome) ==> rules.validated(e.after) == Some(n)
    ensures !Harmless(e.outcome) && !TakesBack(e.outcome) ==>
              WritesOf(rules, e) == [e.after] && IsFix(rules, n, e.after)
    ensures forall c :: c in WritesOf(rules, e) ==> rules.validated(c) == Some(n) || IsFix(rules, n, c)
    ensures !Harmless(e.outcome) ==> Fixable(rules, n)
  {
  }

  /** If nothing can be saved, nobody has written. */
  lemma {:induction false} UnfixableIsUntouched(rules: Rules, log: seq<Entry>, first: Configuration,
                                                last: Configuration, n: Configuration)
    requires rules.Sound() && rules.validated(first) == Some(n) && Chained(rules, log, first, last)
    requires !Fixable(rules, n)
    ensures Writers(OutcomesOf(log)) == [] && last == first
  {
    if log != [] {
      var (init, e) := (log[..|log| - 1], log[|log| - 1]);
      UnfixableIsUntouched(rules, init, first, e.before, n);
      EntryOfRestored(rules, e, n);
      OutcomesSnoc(init, e);
      assert log == init + [e];
      WritersSnoc(OutcomesOf(init), Plain(e.outcome));
    }
  }

  /** Once the first change has stayed, the file has held the first configuration and fixes of it, and holds one of
      these fixes. */
  lemma {:induction false} LeftHistory(rules: Rules, log: seq<Entry>, first: Configuration, last: Configuration,
                                       n: Configuration)
    requires rules.Sound() && rules.validated(first) == Some(n) && Chained(rules, log, first, last)
    requires LeftAfterRestores(OutcomesOf(log))
    ensures IsFix(rules, n, last)
    ensures forall c :: c in History(rules, first, log) ==> rules.validated(c) == Some(n) || IsFix(rules, n, c)
    ensures |Writers(OutcomesOf(log))| == 1 ==> forall c :: c in History(rules, first, log) ==> c == first || c == last
  {
    var (init, e) := (log[..|log| - 1], log[|log| - 1]);
    OutcomesSnoc(init, e);
    assert log == init + [e];
    WritersSnoc(OutcomesOf(init), Plain(e.outcome));
    var (w, v) := (Writers(OutcomesOf(log)), Writers(OutcomesOf(init)));
    if Harmless(e.outcome) {
      assert w == v;
      LeftHistory(rules, init, first, e.before, n);
      assert History(rules, first, log) == History(rules, first, init) + [];
    } else {
      assert forall i :: 0 <= i < |v| ==> v[i] == w[i];
      RestoredHistory(rules, init, first, e.before, n);
      EntryOfRestored(rules, e, n);
    }
  }

  /** What is served is what the file holds, although nobody has committed. */
  lemma {:induction false} LeftIsServed(rules: Rules, log: seq<Entry>, first: Configuration, last: Configuration,
                                        n: Configuration, served: Configuration)
    requires rules.Sound() && rules.validated(first) == Some(n) && Chained(rules, log, first, last)
    requires !rules.activates(n) && LeftAfterRestores(OutcomesOf(log))
    requires |Writers(OutcomesOf(log))| == 1 || !FixableTwoWays(rules, n)
    requires served in History(rules, first, log) && rules.CanServe(served)
    ensures served == last
  {
    LeftHistory(rules, log, first, last, n);
    assert IsFix(rules, n, served) && IsFix(rules, n, last);
  }

  lemma PromiseIsKept(rules: Rules, config: Configuration, n: Configuration, s: System)
    requires Reachable(rules, config, s) && s.lock.None? && rules.validated(config) == Some(n)
    requires KeepsPromise(rules, n, OutcomesOf(s.log))
    ensures s.writes != [] && ServesDisk(s)
  {
    FileHistory(rules, config, s);
    if !rules.activates(n) && !Fixable(rules, n) { UnfixableIsUntouched(rules, s.log, config, Disk(s), n); }
    if EndsWell(OutcomesOf(s.log)) {
      EndsWellOfLog(s.log);
      DaemonIsCurrent(rules, config, s);
    } else if s.daemon.Up? {
      ServedVersionActivates(rules, config, s);
      LeftIsServed(rules, s.log, config, Disk(s), n, s.writes[s.daemon.version]);
    }
  }
}
