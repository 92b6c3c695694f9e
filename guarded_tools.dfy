/**
 * The guarded tool aggregator: every discovered provider module is
 * imported and its `TOOLS` list appended in discovery order. Each
 * provider's failure is caught, reported by one warning, and skipped.
 */
module GuardedTools {
  import opened Providers

  const Attribute := "TOOLS"

  /** Why a provider was skipped with a warning. */
  datatype Reason = ImportFailed(message: string) | NotAList(typeName: string)

  /** One warning line on standard error, naming the discovered module. */
  datatype Warning = Warning(moduleName: string, reason: Reason)

  /** The provider's exported `TOOLS`, with a missing attribute read as None. */
  function Exports<T>(imported: Module<T>): Exported<T>
  {
    if Attribute in imported.attributes then imported.attributes[Attribute] else NoneValue
  }

  /** The warning a provider causes: one exactly when it failed, naming it. */
  function Complaint<T>(package: string, p: Discovered<T>): (r: seq<Warning>)
    ensures |r| == if Failed(package, p) then 1 else 0
    ensures forall w :: w in r ==> w.moduleName == p.name
  {
    match p.load
    case Raises(message) => [Warning(p.name, ImportFailed(message))]
    case Loads(imported) =>
      if imported.name == package then []
      else
        match Exports(imported)
        case NoneValue => []
        case ListOf(_) => []
        case OtherIterable(_, typeName) => [Warning(p.name, NotAList(typeName))]
        case NotIterable(typeName) => [Warning(p.name, NotAList(typeName))]
  }

  /** The tools a provider contributes. */
  function Contribution<T>(package: string, p: Discovered<T>): seq<T>
  {
    if p.load.Loads? && p.load.imported.name != package && Exports(p.load.imported).ListOf?
    then Exports(p.load.imported).items
    else []
  }

  /** The provider failed: its import raised, or its `TOOLS` is set but is not a list. */
  predicate Failed<T>(package: string, p: Discovered<T>)
  {
    match p.load
    case Raises(_) => true
    case Loads(imported) =>
      imported.name != package && (Exports(imported).OtherIterable? || Exports(imported).NotIterable?)
  }

  /** The aggregated tool list after visiting `ps`. */
  function Aggregated<T>(package: string, ps: seq<Discovered<T>>): seq<T>
    decreases |ps|
  {
    if ps == [] then []
    else Aggregated(package, ps[..|ps| - 1]) + Contribution(package, ps[|ps| - 1])
  }

  /** The warnings written while visiting `ps`. */
  function Warnings<T>(package: string, ps: seq<Discovered<T>>): seq<Warning>
    decreases |ps|
  {
    if ps == [] then []
    else Warnings(package, ps[..|ps| - 1]) + Complaint(package, ps[|ps| - 1])
  }

  /**
   * `_aggregate_tools`: the loop over the discovered providers of the
   * package named `package`. It never raises.
   */
  method AggregateTools<T>(package: string, ps: seq<Discovered<T>>) returns (aggregated: seq<T>, warnings: seq<Warning>)
    ensures aggregated == Aggregated(package, ps)
    ensures warnings == Warnings(package, ps)
  {
    aggregated, warnings := [], [];
    for i := 0 to |ps|
      invariant aggregated == Aggregated(package, ps[..i])
      invariant warnings == Warnings(package, ps[..i])
    {
      assert ps[..i + 1][..i] == ps[..i] && ps[..i + 1][i] == ps[i];
      var p := ps[i];
      match p.load {
        case Raises(message) =>
          warnings := warnings + [Warning(p.name, ImportFailed(message))];
        case Loads(imported) =>
          if imported.name == package {
            assert Contribution(package, p) == [] && Complaint(package, p) == [];
            assert aggregated + [] == aggregated && warnings + [] == warnings;
            continue;
          }
          var tools := Exports(imported);
          if tools.NoneValue? {
            assert aggregated + [] == aggregated && warnings + [] == warnings;
          } else if tools.ListOf? {
            aggregated := aggregated + tools.items;
            assert warnings + [] == warnings;
          } else {
            warnings := warnings + [Warning(p.name, NotAList(tools.typeName))];
            assert aggregated + [] == aggregated;
          }
      }
    }
    assert ps[..|ps|] == ps;
  }

  /**
   * Aggregation is a concatenation over the providers: the tools for
   * `ps + qs` are the tools for `ps` followed by the tools for `qs`.
   */
  lemma {:induction false} AggregatedSplits<T>(package: string, ps: seq<Discovered<T>>, qs: seq<Discovered<T>>)
    ensures Aggregated(package, ps + qs) == Aggregated(package, ps) + Aggregated(package, qs)
    decreases |qs|
  {
    if qs == [] {
      assert ps + qs == ps;
    } else {
      var init, last := qs[..|qs| - 1], qs[|qs| - 1];
      assert (ps + qs)[..|ps + qs| - 1] == ps + init;
      assert (ps + qs)[|ps + qs| - 1] == last;
      AggregatedSplits(package, ps, init);
      calc {
        Aggregated(package, ps + qs);
        Aggregated(package, ps + init) + Contribution(package, last);
        Aggregated(package, ps) + Aggregated(package, init) + Contribution(package, last);
        Aggregated(package, ps) + (Aggregated(package, init) + Contribution(package, last));
        Aggregated(package, ps) + Aggregated(package, qs);
      }
    }
  }

  /** The warnings for `ps + qs` are the warnings for `ps` followed by those for `qs`. */
  lemma {:induction false} WarningsSplit<T>(package: string, ps: seq<Discovered<T>>, qs: seq<Discovered<T>>)
    ensures Warnings(package, ps + qs) == Warnings(package, ps) + Warnings(package, qs)
    decreases |qs|
  {
    if qs == [] {
      assert ps + qs == ps;
    } else {
      var init, last := qs[..|qs| - 1], qs[|qs| - 1];
      assert (ps + qs)[..|ps + qs| - 1] == ps + init;
      assert (ps + qs)[|ps + qs| - 1] == last;
      WarningsSplit(package, ps, init);
      calc {
        Warnings(package, ps + qs);
        Warnings(package, ps + init) + Complaint(package, last);
        Warnings(package, ps) + Warnings(package, init) + Complaint(package, last);
        Warnings(package, ps) + (Warnings(package, init) + Complaint(package, last));
        Warnings(package, ps) + Warnings(package, qs);
      }
    }
  }

  /** Visiting `p` between `ps` and `qs` adds its contribution and its warning, if any, between theirs. */
  lemma Visit<T>(package: string, ps: seq<Discovered<T>>, p: Discovered<T>, qs: seq<Discovered<T>>)
    ensures Aggregated(package, ps + [p] + qs) == Aggregated(package, ps) + Contribution(package, p) + Aggregated(package, qs)
    ensures Warnings(package, ps + [p] + qs) == Warnings(package, ps) + Complaint(package, p) + Warnings(package, qs)
  {
    assert [p][..0] == [];
    assert Aggregated(package, [p]) == Contribution(package, p);
    assert Warnings(package, [p]) == Complaint(package, p);
    AggregatedSplits(package, ps + [p], qs);
    AggregatedSplits(package, ps, [p]);
    WarningsSplit(package, ps + [p], qs);
    WarningsSplit(package, ps, [p]);
  }

  /**
   * A failed provider contributes no tools and exactly one warning, naming
   * it, and leaves what the other providers contribute unchanged.
   */
  lemma FailureIsolated<T>(package: string, ps: seq<Discovered<T>>, p: Discovered<T>, qs: seq<Discovered<T>>)
    requires Failed(package, p)
    ensures Aggregated(package, ps + [p] + qs) == Aggregated(package, ps + qs)
    ensures exists reason :: Warnings(package, ps + [p] + qs) == Warnings(package, ps) + [Warning(p.name, reason)] + Warnings(package, qs)
  {
    Visit(package, ps, p, qs);
    AggregatedSplits(package, ps, qs);
    assert Aggregated(package, ps) + [] == Aggregated(package, ps);
    var w := Complaint(package, p);
    assert w == [Warning(p.name, w[0].reason)];
  }

  /**
   * A provider that is the package itself, or has no `TOOLS` (or `TOOLS`
   * set to None), changes neither the tools nor the warnings.
   */
  lemma QuietSkip<T>(package: string, ps: seq<Discovered<T>>, p: Discovered<T>, qs: seq<Discovered<T>>)
    requires p.load.Loads? && (p.load.imported.name == package || Exports(p.load.imported).NoneValue?)
    ensures Aggregated(package, ps + [p] + qs) == Aggregated(package, ps + qs)
    ensures Warnings(package, ps + [p] + qs) == Warnings(package, ps + qs)
  {
    Visit(package, ps, p, qs);
    AggregatedSplits(package, ps, qs);
    WarningsSplit(package, ps, qs);
    assert Aggregated(package, ps) + [] == Aggregated(package, ps);
    assert Warnings(package, ps) + [] == Warnings(package, ps);
  }

  /** A provider whose `TOOLS` is a list contributes that list whole, duplicates included, and no warning. */
  lemma ListAppended<T>(package: string, ps: seq<Discovered<T>>, p: Discovered<T>, qs: seq<Discovered<T>>)
    requires p.load.Loads? && p.load.imported.name != package && Exports(p.load.imported).ListOf?
    ensures Aggregated(package, ps + [p] + qs) == Aggregated(package, ps) + Exports(p.load.imported).items + Aggregated(package, qs)
    ensures Warnings(package, ps + [p] + qs) == Warnings(package, ps + qs)
  {
    Visit(package, ps, p, qs);
    WarningsSplit(package, ps, qs);
    assert Warnings(package, ps) + [] == Warnings(package, ps);
  }

  /** The indices of the providers in `ps` that failed. */
  function FailedIndices<T>(package: string, ps: seq<Discovered<T>>): set<int>
  {
    set i | 0 <= i < |ps| && Failed(package, ps[i])
  }

  /** The failed providers among `ps` are those of its prefix, and its last one if that failed. */
  lemma FailedIndicesStep<T>(package: string, ps: seq<Discovered<T>>)
    requires ps != []
    ensures FailedIndices(package, ps) ==
      FailedIndices(package, ps[..|ps| - 1]) + (if Failed(package, ps[|ps| - 1]) then {|ps| - 1} else {})
  {
    var n := |ps| - 1;
    forall i | 0 <= i < n
      ensures ps[..n][i] == ps[i]
    {
    }
  }

  /** Exactly one warning is written per failed provider. */
  lemma {:induction false} WarningPerFailure<T>(package: string, ps: seq<Discovered<T>>)
    ensures |Warnings(package, ps)| == |FailedIndices(package, ps)|
    decreases |ps|
  {
    if ps == [] {
      assert FailedIndices(package, ps) == {};
    } else {
      var n := |ps| - 1;
      WarningPerFailure(package, ps[..n]);
      FailedIndicesStep(package, ps);
      assert n !in FailedIndices(package, ps[..n]);
    }
  }
}
