/**
  Task envelopes. Every pipeline stage may wrap the message it received under the
  key "original_task_data", so a task identifier can sit at any depth of that
  chain. This module defines the chain of nested dict levels and the two ways the
  stages look an identifier up in it: the Python or-chain of a fixed length
  (`d.get(k) or d.get("original_task_data", {}).get(k) or ... or fallback`) and, as
  the reference both are compared against, "the first truthy value along the chain".
 */
module Envelope {
  import opened Json

  const OriginalKey := "original_task_data"
  const TaskIdKey := "task_id"

  /** The sentinel every extractor returns when it finds no identifier. */
  const NoId: Value := Str("no-id")

  /**
    The wrapping done by the captain script under tests/ (tests/captain_agent.py):
    `{"original_task_data": task}`. The deployed captain forwards the task as it is.
   */
  function Wrap(task: Value): Value
  {
    Obj(map[OriginalKey := task])
  }

  /** The dict levels reached from `v` by following "original_task_data" while it holds a dict. */
  function Levels(v: Value): (ls: seq<map<string, Value>>)
    ensures v.Obj? <==> ls != []
    ensures v.Obj? ==> ls[0] == v.fields
  {
    match v
    case Obj(m) => [m] + (if OriginalKey in m then Levels(m[OriginalKey]) else [])
    case _ => []
  }

  /** The first level's truthy value under `key`, or `fallback` when no level has one. */
  function FirstTruthy(ls: seq<map<string, Value>>, key: string, fallback: Value): Value
  {
    if ls == [] then fallback
    else if key in ls[0] && Truthy(ls[0][key]) then ls[0][key]
    else FirstTruthy(ls[1..], key, fallback)
  }

  /** The first `n` elements of `ls`, or all of them. */
  function Take<T>(ls: seq<T>, n: nat): seq<T>
  {
    if |ls| <= n then ls else ls[..n]
  }

  /**
    The Python expression
      `d.get(key) or d.get(O, {}).get(key) or ... or fallback`
    reading `depth + 1` levels. It raises `AttributeError` when it calls `.get` on a value
    that is not a dict: `d` itself, or a present "original_task_data" that is not a dict.
   */
  function OrChain(d: Value, key: string, depth: nat, fallback: Value): Result<Value>
    decreases depth
  {
    if !d.Obj? then Err(AttributeError)
    else
      var v := GetOr(d.fields, key, Null);
      if Truthy(v) then Ok(v)
      else if depth == 0 then Ok(fallback)
      else OrChain(GetOr(d.fields, OriginalKey, EmptyObj), key, depth - 1, fallback)
  }

  /**
    The or-chain agrees with the reference: when it returns, it returns the first truthy
    value among the first `depth + 1` levels (or the fallback); when it raises, the
    reference over those levels yields the fallback.
   */
  lemma {:induction false} OrChainIsFirstTruthy(d: Value, key: string, depth: nat, fallback: Value)
    requires d.Obj?
    ensures OrChain(d, key, depth, fallback).Ok? ==>
              OrChain(d, key, depth, fallback).value == FirstTruthy(Take(Levels(d), depth + 1), key, fallback)
    ensures OrChain(d, key, depth, fallback).Err? ==>
              FirstTruthy(Take(Levels(d), depth + 1), key, fallback) == fallback
    decreases depth
  {
    var m := d.fields;
    var ls := Levels(d);
    if key in m && Truthy(m[key]) {
    } else if depth == 0 {
      assert Take(ls, 1) == [m];
    } else {
      var next := GetOr(m, OriginalKey, EmptyObj);
      var rest := if OriginalKey in m then Levels(m[OriginalKey]) else [];
      assert ls == [m] + rest;
      TakeCons(m, rest, depth);
      if next.Obj? {
        OrChainIsFirstTruthy(next, key, depth - 1, fallback);
        if OriginalKey !in m {
          assert next == EmptyObj;
          assert Levels(next) == [map[]];
          assert Take(rest, depth) == [];
        }
      } else {
        assert rest == [];
      }
    }
  }

  /** No level holds a truthy value under `key`. */
  predicate NoneTruthy(ls: seq<map<string, Value>>, key: string)
  {
    forall i :: 0 <= i < |ls| ==> !(key in ls[i] && Truthy(ls[i][key]))
  }

  /**
    The or-chain raises only where no level it read held a truthy value: every level
    before the value that is not a dict was looked at and found falsy.
   */
  lemma {:induction false} OrChainRaisesOnlyWithoutTruthy(d: Value, key: string, depth: nat, fallback: Value)
    requires d.Obj?
    ensures OrChain(d, key, depth, fallback).Err? ==> NoneTruthy(Take(Levels(d), depth + 1), key)
    decreases depth
  {
    var m := d.fields;
    if OrChain(d, key, depth, fallback).Err? {
      if OriginalKey !in m {
        EmptyChainFallsBack(key, depth - 1, fallback);
      }
      var next := m[OriginalKey];
      var rest := Levels(next);
      assert Levels(d) == [m] + rest;
      TakeCons(m, rest, depth);
      if next.Obj? {
        OrChainRaisesOnlyWithoutTruthy(next, key, depth - 1, fallback);
      } else {
        assert rest == [];
      }
    }
  }

  /** An absent "original_task_data" reads as `{}`, and the chain through it yields the fallback. */
  lemma {:induction false} EmptyChainFallsBack(key: string, depth: nat, fallback: Value)
    ensures OrChain(EmptyObj, key, depth, fallback) == Ok(fallback)
    decreases depth
  {
    if depth > 0 {
      EmptyChainFallsBack(key, depth - 1, fallback);
    }
  }

  /** Taking `n + 1` elements of a non-empty sequence keeps its head. */
  lemma TakeCons<T>(x: T, rest: seq<T>, n: nat)
    ensures Take([x] + rest, n + 1) == [x] + Take(rest, n)
  {
    if |rest| > n {
      assert ([x] + rest)[..n + 1] == [x] + rest[..n];
    }
  }

  /** The or-chain only ever returns a truthy value or the fallback. */
  lemma {:induction false} OrChainTruthy(d: Value, key: string, depth: nat, fallback: Value)
    ensures OrChain(d, key, depth, fallback).Ok? ==>
              Truthy(OrChain(d, key, depth, fallback).value) || OrChain(d, key, depth, fallback).value == fallback
    decreases depth
  {
    if d.Obj? && !Truthy(GetOr(d.fields, key, Null)) && depth > 0 {
      OrChainTruthy(GetOr(d.fields, OriginalKey, EmptyObj), key, depth - 1, fallback);
    }
  }

  /** A truthy value found among the first levels is also what the whole chain yields. */
  lemma {:induction false} FirstTruthyOfPrefix(ls: seq<map<string, Value>>, n: nat, key: string, fallback: Value)
    requires Truthy(FirstTruthy(Take(ls, n), key, Null))
    ensures FirstTruthy(ls, key, fallback) == FirstTruthy(Take(ls, n), key, Null)
  {
    if ls != [] && n > 0 {
      if key in ls[0] && Truthy(ls[0][key]) {
        assert Take(ls, n)[0] == ls[0];
      } else {
        assert Take(ls, n) == [ls[0]] + Take(ls[1..], n - 1);
        FirstTruthyOfPrefix(ls[1..], n - 1, key, fallback);
      }
    }
  }
}
