/** `coalesce(...args)` from the koalas package, as the configuration uses it:
    the first argument that holds a value, else the last argument. */
module Koalas {
  import opened JsValues

  /** Holds a value: neither `undefined`, `null` nor NaN. */
  predicate HasValue(v: Value) {
    !(v.Undefined? || v.Null? || v == Number(NaN))
  }

  /** `coalesce(...args)` for any number of arguments. */
  function Coalesce(args: seq<Value>): (r: Value)
    requires |args| > 0
    ensures r in args
    ensures HasValue(r) <==> exists i :: 0 <= i < |args| && HasValue(args[i])
    decreases |args|
  {
    if HasValue(args[0]) || |args| == 1 then args[0] else Coalesce(args[1..])
  }

  /** The first argument that holds a value is the result, whatever follows it. */
  lemma {:induction false} CoalescePicksFirst(args: seq<Value>, i: nat)
    requires i < |args| && HasValue(args[i])
    requires forall j :: 0 <= j < i ==> !HasValue(args[j])
    ensures Coalesce(args) == args[i]
    decreases i
  {
    if i > 0 {
      assert !HasValue(args[0]);
      CoalescePicksFirst(args[1..], i - 1);
    }
  }

  /** When no argument holds a value, the last one is the result. */
  lemma {:induction false} CoalesceFallsThrough(args: seq<Value>)
    requires |args| > 0
    requires forall j :: 0 <= j < |args| ==> !HasValue(args[j])
    ensures Coalesce(args) == args[|args| - 1]
    decreases |args|
  {
    if |args| > 1 {
      assert !HasValue(args[0]);
      CoalesceFallsThrough(args[1..]);
    }
  }

  // The calls the configuration makes have two, three or four arguments;
  // each is written out below and proved equal to the general call.

  /** `coalesce(a, b)` */
  function Coalesce2(a: Value, b: Value): Value {
    if HasValue(a) then a else b
  }

  /** `coalesce(a, b, c)` */
  function Coalesce3(a: Value, b: Value, c: Value): Value {
    if HasValue(a) then a else Coalesce2(b, c)
  }

  /** `coalesce(a, b, c, d)` */
  function Coalesce4(a: Value, b: Value, c: Value, d: Value): Value {
    if HasValue(a) then a else Coalesce3(b, c, d)
  }

  lemma CoalesceOfTwo(a: Value, b: Value)
    ensures Coalesce2(a, b) == Coalesce([a, b])
  {
    assert [a, b][1..] == [b];
  }

  lemma CoalesceOfThree(a: Value, b: Value, c: Value)
    ensures Coalesce3(a, b, c) == Coalesce([a, b, c])
  {
    assert [a, b, c][1..] == [b, c];
    CoalesceOfTwo(b, c);
  }

  lemma CoalesceOfFour(a: Value, b: Value, c: Value, d: Value)
    ensures Coalesce4(a, b, c, d) == Coalesce([a, b, c, d])
  {
    assert [a, b, c, d][1..] == [b, c, d];
    CoalesceOfThree(b, c, d);
  }
}
