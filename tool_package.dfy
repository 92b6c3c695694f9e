/**
 * The `tools` package that the agent imports: at import time it walks its
 * submodules in order and extends `tool_list` with each submodule's own
 * `tool_list`. Nothing is checked or caught, so the first failure aborts.
 */
module ToolPackage {
  import opened Results
  import opened Providers

  const Attribute := "tool_list"

  /** Why building `tool_list` raised. */
  datatype Abort =
    | ImportRaised(moduleName: string, message: string)  // the submodule's import raised
    | NotIterableList(moduleName: string)                // `extend` was given a non-iterable

  /** What one submodule adds to `tool_list`, or the exception it causes. */
  function Extension<T>(m: Discovered<T>): Result<seq<T>, Abort>
  {
    match m.load
    case Raises(message) => Err(ImportRaised(m.name, message))
    case Loads(loaded) =>
      if Attribute !in loaded.attributes then Ok([])
      else
        match loaded.attributes[Attribute]
        case ListOf(items) => Ok(items)
        case OtherIterable(items, _) => Ok(items)
        case NoneValue => Err(NotIterableList(m.name))
        case NotIterable(_) => Err(NotIterableList(m.name))
  }

  /** The package's `tool_list` after the loop over `ms`, or the exception that ended the import. */
  function Collected<T>(ms: seq<Discovered<T>>): Result<seq<T>, Abort>
    decreases |ms|
  {
    if ms == [] then Ok([])
    else
      match Collected(ms[..|ms| - 1])
      case Err(e) => Err(e)
      case Ok(prefix) =>
        match Extension(ms[|ms| - 1])
        case Err(e) => Err(e)
        case Ok(items) => Ok(prefix + items)
  }

  /** The module-level loop: extends `tool_list` submodule by submodule. */
  method BuildToolList<T>(ms: seq<Discovered<T>>) returns (r: Result<seq<T>, Abort>)
    ensures r == Collected(ms)
  {
    var toolList: seq<T> := [];
    for i := 0 to |ms|
      invariant Collected(ms[..i]) == Ok(toolList)
    {
      assert ms[..i + 1][..i] == ms[..i] && ms[..i + 1][i] == ms[i];
      var m := ms[i];
      match m.load {
        case Raises(message) =>
          CollectedKeepsError(ms[..i + 1], ms[i + 1..]);
          assert ms[..i + 1] + ms[i + 1..] == ms;
          return Err(ImportRaised(m.name, message));
        case Loads(loaded) =>
          if Attribute in loaded.attributes {
            var exported := loaded.attributes[Attribute];
            if exported.ListOf? || exported.OtherIterable? {
              assert Extension(m) == Ok(exported.items);
              toolList := toolList + exported.items;
            } else {
              CollectedKeepsError(ms[..i + 1], ms[i + 1..]);
              assert ms[..i + 1] + ms[i + 1..] == ms;
              return Err(NotIterableList(m.name));
            }
          } else {
            assert Extension(m) == Ok([]) && toolList + [] == toolList;
          }
      }
    }
    assert ms[..|ms|] == ms;
    return Ok(toolList);
  }

  /** Once a prefix of the submodules raises, the rest are never looked at. */
  lemma {:induction false} CollectedKeepsError<T>(ms: seq<Discovered<T>>, rest: seq<Discovered<T>>)
    requires Collected(ms).Err?
    ensures Collected(ms + rest) == Collected(ms)
    decreases |rest|
  {
    if rest != [] {
      var init := ms + rest[..|rest| - 1];
      assert (ms + rest)[..|ms + rest| - 1] == init;
      CollectedKeepsError(ms, rest[..|rest| - 1]);
      assert Collected(init).Err?;
      assert ms + rest != [];
      assert Collected(ms + rest) == Collected(init);
    } else {
      assert ms + rest == ms;
    }
  }

  /**
   * The loop is a concatenation: the list built from `ms + ns` succeeds
   * exactly when both parts do, and is then the first part's list followed
   * by the second's, duplicates and all.
   */
  lemma {:induction false} CollectedConcat<T>(ms: seq<Discovered<T>>, ns: seq<Discovered<T>>)
    ensures Collected(ms + ns).Ok? <==> Collected(ms).Ok? && Collected(ns).Ok?
    ensures Collected(ms + ns).Ok? ==> Collected(ms + ns).value == Collected(ms).value + Collected(ns).value
    ensures Collected(ms).Err? ==> Collected(ms + ns) == Collected(ms)
    decreases |ns|
  {
    if ns == [] {
      assert ms + ns == ms;
    } else if Collected(ms).Err? {
      CollectedKeepsError(ms, ns);
    } else {
      var init := ns[..|ns| - 1];
      var last := ns[|ns| - 1];
      assert (ms + ns)[..|ms + ns| - 1] == ms + init;
      assert (ms + ns)[|ms + ns| - 1] == last;
      CollectedConcat(ms, init);
      if Collected(ms + init).Ok? && Extension(last).Ok? {
        assert Collected(ms + ns).value == Collected(ms).value + Collected(init).value + Extension(last).value;
      }
    }
  }

  /**
   * Every submodule's contribution ends up in `tool_list` when no import
   * fails: the list succeeds exactly when every submodule's extension
   * does, and its length is then the sum of the extensions' lengths.
   */
  lemma {:induction false} CollectedSucceeds<T>(ms: seq<Discovered<T>>)
    ensures Collected(ms).Ok? <==> forall i :: 0 <= i < |ms| ==> Extension(ms[i]).Ok?
    ensures Collected(ms).Ok? ==> |Collected(ms).value| == TotalLength(ms)
    decreases |ms|
  {
    if ms != [] {
      var init := ms[..|ms| - 1];
      CollectedSucceeds(init);
      assert forall i :: 0 <= i < |init| ==> init[i] == ms[i];
    }
  }

  /** The summed lengths of the lists the submodules export (0 when one has none or fails). */
  function TotalLength<T>(ms: seq<Discovered<T>>): nat
    decreases |ms|
  {
    if ms == [] then 0
    else TotalLength(ms[..|ms| - 1]) + match Extension(ms[|ms| - 1]) { case Ok(items) => |items| case Err(_) => 0 }
  }

  /**
   * When the loop aborts, it aborts with the exception of the first
   * submodule that fails; every earlier submodule extended the list.
   */
  lemma {:induction false} CollectedFailsAtFirst<T>(ms: seq<Discovered<T>>)
    requires Collected(ms).Err?
    ensures exists k :: 0 <= k < |ms| && Extension(ms[k]) == Err(Collected(ms).error)
                        && forall j :: 0 <= j < k ==> Extension(ms[j]).Ok?
    decreases |ms|
  {
    var init := ms[..|ms| - 1];
    assert forall i :: 0 <= i < |init| ==> init[i] == ms[i];
    if Collected(init).Err? {
      CollectedFailsAtFirst(init);
      var k :| 0 <= k < |init| && Extension(init[k]) == Err(Collected(init).error)
                && forall j :: 0 <= j < k ==> Extension(init[j]).Ok?;
      assert Extension(ms[k]) == Err(Collected(ms).error);
    } else {
      CollectedSucceeds(init);
      assert Extension(ms[|ms| - 1]) == Err(Collected(ms).error);
    }
  }
}
