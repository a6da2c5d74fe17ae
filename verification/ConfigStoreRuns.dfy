/** The code of one transaction is a run of the protocol: whatever the world answers, some mutator of the step
    system ends with the same outcome and leaves the same file. */
module ConfigStoreRuns {
  import opened Wrappers
  import opened Commands
  import opened Config
  import opened Transactions
  import opened TransactionProperties
  import opened TransactionLimits
  import opened TransactionExactness
  import opened RepositoryTransactions
  import opened ConfigStore

  /** The pid file and the daemon are as the world says. */
  predicate Fits(s: System, w: World) {
    && Shows(s.pidFile, w.pid)
    && (w.pid.SomeDaemon? && w.reload ==> s.pidFile == Live && s.daemon.Up? && s.daemon.handler.None?)
  }

  /** Mutator `m` has run alone, from taking the lock to the outcome. */
  predicate Ran(s: System, t: System, m: nat, outcome: Outcome)
    requires s.writes != [] && m < |s.mutators|
  {
    && t.writes != [] && t.lock.None?
    && t.log == s.log + [Entry(m, s.mutators[m].command, Disk(s), Disk(t), outcome)]
    && m < |t.mutators| && t.mutators[m] == Mutator(s.mutators[m].command, Done(outcome))
  }

  /** The lock is free and mutator `m` has not started. */
  predicate Ready(s: System, m: nat) {
    s.writes != [] && s.lock.None? && m < |s.mutators| && s.mutators[m].stage == Fresh
  }

  lemma GoUnprobed(reached: System -> bool, s: System, m: nat, previous: Configuration, updated: Configuration)
    returns (t: System)
    requires Closed(reached, true) && reached(s) && Ready(s, m) && s.rules.validated(Disk(s)) == Some(previous)
    requires s.rules.mutate(s.mutators[m].command, previous) == Changed(updated)
    ensures reached(t) && t == Finish(s.(before := Disk(s)), m, Denied)
  {
    t := GoApply(reached, true, s, m, previous, updated);
    t := Go(reached, true, t, Probe(m, false));
  }

  lemma GoUnsaved(reached: System -> bool, s: System, m: nat, previous: Configuration, updated: Configuration)
    returns (t: System)
    requires Closed(reached, true) && reached(s) && Ready(s, m) && s.rules.validated(Disk(s)) == Some(previous)
    requires s.rules.mutate(s.mutators[m].command, previous) == Changed(updated) && s.rules.Passes(updated)
    ensures reached(t) && t == Finish(s.(before := Disk(s)), m, Denied)
  {
    t := GoProbe(reached, true, s, m, previous, updated);
    t := Go(reached, true, t, Save(m, false));
  }

  lemma GoRefused(reached: System -> bool, s: System, m: nat, previous: Configuration) returns (t: System)
    requires Closed(reached, true) && reached(s) && Ready(s, m) && s.rules.validated(Disk(s)) == Some(previous)
    requires s.rules.mutate(s.mutators[m].command, previous) == Refused
    ensures reached(t) && t == Finish(s.(before := Disk(s)), m, Denied)
  {
    t := Go(reached, true, s, Lock(m));
    t := Go(reached, true, t, Load(m, true));
    t := Go(reached, true, t, Apply(m, true));
  }

  /** From the save to the end of a reload that fails. */
  lemma GoFailedReload(reached: System -> bool, s: System, m: nat, previous: Configuration, version: nat)
    returns (t: System)
    requires Closed(reached, true) && reached(s) && s.writes != []
    requires m < |s.mutators| && s.mutators[m].stage == Saved(previous, version) && Shows(s.pidFile, SomeDaemon)
    ensures reached(t) && t == At(s, m, Reloading(previous, version, false, Replied(false)))
  {
    t := Go(reached, true, s, CheckPid(m, SomeDaemon));
    t := Go(reached, true, t, Send(m, false));
  }

  lemma GoGivenUpRollback(reached: System -> bool, s: System, m: nat, previous: Configuration, version: nat)
    returns (t: System)
    requires Closed(reached, true) && reached(s) && s.writes != []
    requires m < |s.mutators| && s.mutators[m].stage == Reloading(previous, version, false, Replied(false))
    requires s.rules.validated(previous).Some?
    ensures reached(t) && t == Finish(s, m, NotRolledBack)
  {
    t := Go(reached, true, s, TakeReply(m));
    t := Go(reached, true, t, Rollback(m, false));
  }

  /** From the save to the end, as the world answers. */
  lemma GoFromSaved(reached: System -> bool, s: System, m: nat, previous: Configuration, w: World) returns (t: System)
    requires Closed(reached, true) && reached(s) && s.writes != [] && m < |s.mutators| && Fits(s, w)
    requires s.mutators[m].stage == Saved(previous, Version(s)) && s.rules.validated(previous) == Some(previous)
    requires s.rules.CanServe(Disk(s)) && w.initSql && w.probe && w.writable
    ensures var outcome := ExpectedOutcome(true, w, Version(s));
            && reached(t)
            && t.(daemon := s.daemon) ==
               Finish(if outcome.RolledBack? then s.(writes := s.writes + [previous]) else s, m, outcome)
  {
    if w.pid.Unreadable? {
      t := Go(reached, true, s, CheckPid(m, Unreadable));
    } else if w.pid.NoDaemon? {
      t := Go(reached, true, s, CheckPid(m, NoDaemon));
    } else if w.reload {
      t := GoCommit(reached, true, s, m);
    } else {
      t := GoFailedReload(reached, s, m, previous, Version(s));
      if w.rewritable {
        t := GoRollBack(reached, true, t, m, previous, Version(s));
      } else {
        t := GoGivenUpRollback(reached, t, m, previous, Version(s));
      }
    }
  }

  lemma EndedEarly(s: System, m: nat, outcome: Outcome)
    requires Ready(s, m)
    ensures var t := Finish(s.(before := Disk(s)), m, outcome); Ran(s, t, m, outcome) && Disk(t) == Disk(s)
  {
  }

  /** The state once mutator `m` has saved. */
  function SavedState(s: System, m: nat, previous: Configuration, normal: Configuration): System
    requires Ready(s, m)
  {
    At(s, m, Saved(previous, |s.writes|)).(lock := Some(m), before := Disk(s), writes := s.writes + [normal])
  }

  lemma EndedSaved(s: System, m: nat, previous: Configuration, normal: Configuration, outcome: Outcome, t: System)
    requires Ready(s, m)
    requires var saved := SavedState(s, m, previous, normal);
             t.(daemon := saved.daemon) ==
             Finish(if outcome.RolledBack? then saved.(writes := saved.writes + [previous]) else saved, m, outcome)
    ensures Ran(s, t, m, outcome) && Disk(t) == if outcome.RolledBack? then previous else normal
  {
  }

  lemma GoSaved(reached: System -> bool, s: System, m: nat, previous: Configuration, normal: Configuration, w: World)
    returns (t: System)
    requires Closed(reached, true) && reached(s) && Ready(s, m) && Fits(s, w) && s.rules.Sound()
    requires s.rules.validated(Disk(s)) == Some(previous)
    requires s.rules.Effect(s.mutators[m].command, previous) == Some(normal) && w.initSql && w.probe && w.writable
    ensures var outcome := ExpectedOutcome(true, w, |s.writes|);
            reached(t) && Ran(s, t, m, outcome) && Disk(t) == if outcome.RolledBack? then previous else normal
  {
    EffectCanServe(s.rules, s.mutators[m].command, previous, normal);
    t := GoSave(reached, true, s, m, previous, normal);
    t := GoFromSaved(reached, t, m, previous, w);
    EndedSaved(s, m, previous, normal, ExpectedOutcome(true, w, |s.writes|), t);
  }

  /** Whatever the world answers, there is a run of the protocol in which the mutator, started alone, returns the
      outcome of `ConfigStore.Store.Transact` and leaves the file that it leaves. */
  lemma GoTransaction(reached: System -> bool, s: System, m: nat, w: World) returns (t: System)
    requires Closed(reached, true) && reached(s) && Ready(s, m) && Fits(s, w) && s.rules.Sound()
    ensures var command := s.mutators[m].command;
            var outcome := TransactionOutcome(s.rules, command, Disk(s), w, |s.writes|);
            reached(t) && Ran(s, t, m, outcome) && Disk(t) == FileAfter(s.rules, command, Disk(s), outcome)
  {
    var command := s.mutators[m].command;
    if s.rules.validated(Disk(s)).None? || !w.readable {
      t := GoDenied(reached, s, m);
      EndedEarly(s, m, Denied);
    } else {
      var previous := s.rules.validated(Disk(s)).value;
      match s.rules.mutate(command, previous) {
        case Refused =>
          t := GoRefused(reached, s, m, previous);
          EndedEarly(s, m, Denied);
        case Unchanged =>
          t := GoIdle(reached, s, m, previous);
          EndedEarly(s, m, AlreadySo);
        case Changed(updated) =>
          if !w.initSql || !w.probe || !s.rules.Passes(updated) {
            t := GoUnprobed(reached, s, m, previous, updated);
            EndedEarly(s, m, Denied);
          } else if !w.writable || s.rules.validated(updated).None? {
            t := GoUnsaved(reached, s, m, previous, updated);
            EndedEarly(s, m, Denied);
          } else {
            t := GoSaved(reached, s, m, previous, s.rules.validated(updated).value, w);
          }
      }
    }
  }

  /** From any reachable state with the lock free, for the repository's rules. */
  lemma TransactIsARun(config: Configuration, s: System, m: nat, w: World) returns (t: System)
    requires Reachable(RepositoryRules(w.opens), config, s) && Ready(s, m) && Fits(s, w)
    ensures var command := s.mutators[m].command;
            var outcome := TransactionOutcome(RepositoryRules(w.opens), command, Disk(s), w, |s.writes|);
            && Reachable(RepositoryRules(w.opens), config, t) && Ran(s, t, m, outcome)
            && Disk(t) == FileAfter(RepositoryRules(w.opens), command, Disk(s), outcome)
  {
    ReachableIsFine(RepositoryRules(w.opens), config, s);
    ReachableIsClosed(RepositoryRules(w.opens), config);
    t := GoTransaction(s => Reachable(RepositoryRules(w.opens), config, s), s, m, w);
  }
}
