/** The runner's notion of "the program's answer matches the expected answer":
    a structural comparison with a numeric tolerance, whitespace-insensitive strings
    and a fallback on the text of the two values. */
module Comparator {
  import opened Text
  import opened JsValues

  /** The numeric tolerance: numbers closer than this are equal. */
  const Epsilon: real := 0.000000001

  function Abs(x: real): real {
    if x < 0.0 then -x else x
  }

  /** The property name of array position `i`. */
  function IndexKey(i: nat): string {
    NatText(i)
  }

  /** `Object.keys(a)` of an array of length `n`, as a set. */
  function IndexKeys(n: nat): set<string> {
    set i: nat | i < n :: IndexKey(i)
  }

  /** `compareResults(actual, expected)`. Two values that are both objects are compared
      by their key lists, each sorted; two sorted lists of distinct keys agree position by
      position exactly when they hold the same keys, so the model compares key sets.
      An array's keys are its index names, which is how an array can match a plain
      object. */
  predicate Compare(h: Host, actual: Value, expected: Value)
    decreases actual
    ensures IsNullish(actual) || IsNullish(expected) ==>
      (Compare(h, actual, expected) <==> IsNullish(actual) && IsNullish(expected))
  {
    if IsNullish(actual) then IsNullish(expected)
    else if IsNullish(expected) then false
    else if actual.Arr? && expected.Arr? then
      |actual.items| == |expected.items|
      && forall i :: 0 <= i < |actual.items| ==> Compare(h, actual.items[i], expected.items[i])
    else if IsObjectType(actual) && IsObjectType(expected) then
      match (actual, expected)
      case (Obj(f), Obj(g)) =>
        f.Keys == g.Keys && forall k :: k in f ==> Compare(h, f[k], g[k])
      case (Arr(items), Obj(g)) =>
        IndexKeys(|items|) == g.Keys
        && forall i :: 0 <= i < |items| ==> Compare(h, items[i], g[IndexKey(i)])
      case (Obj(f), Arr(items)) =>
        f.Keys == IndexKeys(|items|)
        && forall i :: 0 <= i < |items| ==> Compare(h, f[IndexKey(i)], items[i])
      case _ => false
    else if actual.Num? && expected.Num? then Abs(actual.n - expected.n) < Epsilon
    else if actual.Str? && expected.Str? then Trim(actual.s) == Trim(expected.s)
    else if actual.Bool? && expected.Bool? then actual.b == expected.b
    else Trim(ToJsString(h, actual)) == Trim(ToJsString(h, expected))
  }

  /** Every value matches itself; this is why the simulated languages, which answer with
      the expected value, pass. */
  lemma {:induction false} CompareReflexive(h: Host, v: Value)
    ensures Compare(h, v, v)
    decreases v
  {
    match v
    case Arr(items) =>
      forall i | 0 <= i < |items|
        ensures Compare(h, items[i], items[i])
      {
        CompareReflexive(h, items[i]);
      }
    case Obj(f) =>
      forall k | k in f
        ensures Compare(h, f[k], f[k])
      {
        CompareReflexive(h, f[k]);
      }
    case _ =>
  }

  /** The comparison does not depend on which side is the program's answer. */
  lemma {:induction false} CompareSymmetric(h: Host, a: Value, b: Value)
    ensures Compare(h, a, b) <==> Compare(h, b, a)
    decreases a
  {
    match (a, b)
    case (Arr(xs), Arr(ys)) =>
      if |xs| == |ys| {
        forall i | 0 <= i < |xs|
          ensures Compare(h, xs[i], ys[i]) <==> Compare(h, ys[i], xs[i])
        {
          CompareSymmetric(h, xs[i], ys[i]);
        }
      }
    case (Obj(f), Obj(g)) =>
      if f.Keys == g.Keys {
        forall k | k in f
          ensures Compare(h, f[k], g[k]) <==> Compare(h, g[k], f[k])
        {
          CompareSymmetric(h, f[k], g[k]);
        }
      }
    case (Arr(xs), Obj(g)) =>
      if IndexKeys(|xs|) == g.Keys {
        forall i | 0 <= i < |xs|
          ensures Compare(h, xs[i], g[IndexKey(i)]) <==> Compare(h, g[IndexKey(i)], xs[i])
        {
          assert IndexKey(i) in IndexKeys(|xs|);
          CompareSymmetric(h, xs[i], g[IndexKey(i)]);
        }
      }
    case (Obj(f), Arr(ys)) =>
      if f.Keys == IndexKeys(|ys|) {
        forall i | 0 <= i < |ys|
          ensures Compare(h, f[IndexKey(i)], ys[i]) <==> Compare(h, ys[i], f[IndexKey(i)])
        {
          assert IndexKey(i) in IndexKeys(|ys|);
          CompareSymmetric(h, f[IndexKey(i)], ys[i]);
        }
      }
    case _ =>
  }

  /** `null` and `undefined` match each other and nothing else. */
  lemma NullishMatchesOnlyNullish(h: Host, a: Value, b: Value)
    requires IsNullish(a) || IsNullish(b)
    ensures Compare(h, a, b) <==> IsNullish(a) && IsNullish(b)
  {
  }

  /** Arrays are compared in order: `[1, 2]` does not match `[2, 1]`. */
  lemma OrderMatters(h: Host)
    ensures !Compare(h, Arr([Num(1.0), Num(2.0)]), Arr([Num(2.0), Num(1.0)]))
  {
    var xs := [Num(1.0), Num(2.0)];
    var ys := [Num(2.0), Num(1.0)];
    assert Abs(xs[0].n - ys[0].n) == 1.0;
    assert !Compare(h, xs[0], ys[0]);
    assert !Compare(h, Arr(xs), Arr(ys));
  }

  /** Within the tolerance numbers match, and matching is not transitive:
      0 ~ 6e-10 and 6e-10 ~ 1.2e-9, yet 0 and 1.2e-9 do not match. */
  lemma ToleranceIsNotTransitive(h: Host)
    ensures Compare(h, Num(0.0), Num(0.0000000006))
    ensures Compare(h, Num(0.0000000006), Num(0.0000000012))
    ensures !Compare(h, Num(0.0), Num(0.0000000012))
  {
    assert Abs(0.0 - 0.0000000006) == 0.0000000006;
    assert Abs(0.0000000006 - 0.0000000012) == 0.0000000006;
    assert Abs(0.0 - 0.0000000012) == 0.0000000012;
  }

  /** A number matches its decimal text through the text fallback. */
  lemma NumberMatchesItsText(h: Host)
    ensures Compare(h, Num(6.0), Str("6"))
  {
    assert IsSmallInteger(6.0);
    assert NatText(6) == "6";
    assert ToJsString(h, Num(6.0)) == "6";
  }

  /** A one-element array matches its element through the text fallback. */
  lemma SingletonMatchesElement(h: Host)
    ensures Compare(h, Arr([Num(5.0)]), Num(5.0))
  {
    assert IsSmallInteger(5.0);
    assert ToJsString(h, Num(5.0)) == "5";
    assert ToJsString(h, Arr([Num(5.0)])) == "5";
  }

  /** An array and the plain object with the same index keys match:
      `[5]` matches `{"0": 5}`. */
  lemma ArrayMatchesIndexedObject(h: Host)
    ensures Compare(h, Arr([Num(5.0)]), Obj(map["0" := Num(5.0)]))
  {
    assert IndexKey(0) == "0";
    assert IndexKeys(1) == {"0"} by {
      forall k | k in IndexKeys(1)
        ensures k == "0"
      {
        var i: nat :| i < 1 && k == IndexKey(i);
        assert i == 0;
      }
    }
  }

  /** Strings match when they agree after trimming. */
  lemma StringsIgnoreSurroundingSpace(h: Host, s: string, t: string)
    requires Trim(s) == Trim(t)
    ensures Compare(h, Str(s), Str(t))
  {
  }
}
