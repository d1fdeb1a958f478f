/** The value `json_decode($body, true)` hands to the library: JSON objects and
    arrays both become PHP arrays, integers are PHP's 64-bit `int`, and every
    other number is a `float`. Parsing JSON text itself is not modelled. */
module Json {
  import opened Wrappers

  /** PHP's `int` on a 64-bit build; a larger JSON integer decodes as a float. */
  type PhpInt = i: int | -0x8000_0000_0000_0000 <= i < 0x8000_0000_0000_0000

  datatype Json =
    | Null
    | Bool(b: bool)
    | Int(i: PhpInt)
      /** A JSON number that decodes to a PHP float; no code reads its value. */
    | Float(literal: string)
    | Str(s: string)
    | List(items: seq<Json>)
      /** Object members in document order. */
    | Object(members: seq<(string, Json)>)

  /** `$a[$key]` on an associative array given as ordered bindings: the value of
      the last binding for `key` (json_decode keeps the last of repeated keys),
      or `None` when there is none. */
  function Lookup<V>(bindings: seq<(string, V)>, key: string): Option<V> {
    if |bindings| == 0 then None
    else if bindings[|bindings| - 1].0 == key then Some(bindings[|bindings| - 1].1)
    else Lookup(bindings[..|bindings| - 1], key)
  }

  /** A lookup finds a value exactly when some binding has the key, and the
      value it finds is bound to the key. */
  lemma {:induction false} LookupFound<V>(bindings: seq<(string, V)>, key: string)
    ensures Lookup(bindings, key).Some? <==> exists i :: 0 <= i < |bindings| && bindings[i].0 == key
    ensures Lookup(bindings, key).Some? ==> (key, Lookup(bindings, key).value) in bindings
    decreases |bindings|
  {
    if |bindings| > 0 && bindings[|bindings| - 1].0 != key {
      var init := bindings[..|bindings| - 1];
      LookupFound(init, key);
      assert forall i :: 0 <= i < |init| ==> init[i] == bindings[i];
    }
  }

  /** The string keys of a PHP array: an object's member names; a JSON list has
      integer keys only, so no string key is ever found in it. */
  function Members(a: Json): seq<(string, Json)>
    requires a.Object? || a.List?
  {
    if a.Object? then a.members else []
  }

  /** `$a[$key]`: the value at `key`, and `null` when the key is absent. */
  function Get(a: seq<(string, Json)>, key: string): Json {
    Lookup(a, key).GetOr(Null)
  }

  /** `isset($a[$key])`: the key is present and its value is not `null`. */
  predicate IsSet(a: seq<(string, Json)>, key: string) {
    Get(a, key) != Null
  }

  /** The binding at `i` is the last one for its key, so a lookup finds it. */
  lemma {:induction false} LookupLastBinding<V>(bindings: seq<(string, V)>, key: string, i: int)
    requires 0 <= i < |bindings| && bindings[i].0 == key
    requires forall j :: i < j < |bindings| ==> bindings[j].0 != key
    ensures Lookup(bindings, key) == Some(bindings[i].1)
    decreases |bindings|
  {
    if i < |bindings| - 1 {
      var init := bindings[..|bindings| - 1];
      assert init[i] == bindings[i];
      LookupLastBinding(init, key, i);
    }
  }

  /** No binding has the key, so a lookup finds nothing. */
  lemma {:induction false} LookupAbsent<V>(bindings: seq<(string, V)>, key: string)
    requires forall j :: 0 <= j < |bindings| ==> bindings[j].0 != key
    ensures Lookup(bindings, key) == None
    decreases |bindings|
  {
    if |bindings| > 0 {
      var init := bindings[..|bindings| - 1];
      LookupAbsent(init, key);
    }
  }

  /** A lookup that finds a value finds the last binding for the key. */
  lemma {:induction false} LookupLast<V>(bindings: seq<(string, V)>, key: string)
    ensures Lookup(bindings, key).Some? ==>
              exists i :: && 0 <= i < |bindings| && bindings[i] == (key, Lookup(bindings, key).value)
                          && forall j :: i < j < |bindings| ==> bindings[j].0 != key
    decreases |bindings|
  {
    if |bindings| > 0 {
      var n := |bindings| - 1;
      if bindings[n].0 == key {
        assert bindings[n] == (key, Lookup(bindings, key).value);
      } else {
        var init := bindings[..n];
        LookupLast(init, key);
        if Lookup(bindings, key).Some? {
          var i :| && 0 <= i < |init| && init[i] == (key, Lookup(init, key).value)
                   && forall j :: i < j < |init| ==> init[j].0 != key;
          assert bindings[i] == init[i];
          assert forall j :: i < j < n ==> bindings[j] == init[j];
        }
      }
    }
  }

  /** `$a[$key] ?? null`: the value of the last binding for `key`, and null
      when no binding has it. */
  lemma GetLastBinding(a: seq<(string, Json)>, key: string)
    ensures (forall i :: 0 <= i < |a| ==> a[i].0 != key) ==> Get(a, key) == Null
    ensures forall i :: 0 <= i < |a| && a[i].0 == key && (forall j :: i < j < |a| ==> a[j].0 != key)
                        ==> Get(a, key) == a[i].1
  {
    if forall i :: 0 <= i < |a| ==> a[i].0 != key {
      LookupAbsent(a, key);
    }
    forall i | 0 <= i < |a| && a[i].0 == key && (forall j :: i < j < |a| ==> a[j].0 != key)
      ensures Get(a, key) == a[i].1
    {
      LookupLastBinding(a, key, i);
    }
  }

  /** `isset($a[$key])`: the last binding for `key` exists and is not null. */
  lemma IsSetLastBinding(a: seq<(string, Json)>, key: string)
    ensures IsSet(a, key) <==> exists i :: && 0 <= i < |a| && a[i].0 == key && a[i].1 != Null
                                           && forall j :: i < j < |a| ==> a[j].0 != key
  {
    LookupLast(a, key);
    GetLastBinding(a, key);
  }

  /** The keys of the PHP array `json_decode` builds from an object's members:
      each key once, where it first appears, since a repeated key overwrites
      the value in place. */
  function Keys<V>(bindings: seq<(string, V)>): seq<string> {
    if |bindings| == 0 then []
    else
      var keys := Keys(bindings[..|bindings| - 1]);
      if bindings[|bindings| - 1].0 in keys then keys else keys + [bindings[|bindings| - 1].0]
  }

  /** The array's keys are the members' names, without repetition. */
  lemma {:induction false} KeysFound<V>(bindings: seq<(string, V)>, key: string)
    ensures key in Keys(bindings) <==> exists i :: 0 <= i < |bindings| && bindings[i].0 == key
    decreases |bindings|
  {
    if |bindings| > 0 {
      var init := bindings[..|bindings| - 1];
      KeysFound(init, key);
      assert forall i :: 0 <= i < |init| ==> init[i] == bindings[i];
    }
  }

  /** No key appears twice in the array. */
  lemma {:induction false} KeysDistinct<V>(bindings: seq<(string, V)>)
    ensures forall i, j :: 0 <= i < j < |Keys(bindings)| ==> Keys(bindings)[i] != Keys(bindings)[j]
    decreases |bindings|
  {
    if |bindings| > 0 {
      KeysDistinct(bindings[..|bindings| - 1]);
    }
  }

  /** Members with distinct names give the array exactly those names, in order. */
  lemma {:induction false} KeysOfDistinct<V>(bindings: seq<(string, V)>)
    requires forall i, j :: 0 <= i < j < |bindings| ==> bindings[i].0 != bindings[j].0
    ensures |Keys(bindings)| == |bindings|
    ensures forall i :: 0 <= i < |bindings| ==> Keys(bindings)[i] == bindings[i].0
    decreases |bindings|
  {
    if |bindings| > 0 {
      var init := bindings[..|bindings| - 1];
      KeysOfDistinct(init);
      KeysFound(init, bindings[|bindings| - 1].0);
    }
  }

  /** The values `foreach`/`array_map` visit in a PHP array, in order. A list's
      items as they are; an object's values one per distinct key, at the place
      the key first appeared, holding the value its last binding gave it. */
  function ArrayValues(a: Json): (r: seq<Json>)
    requires a.Object? || a.List?
    ensures a.List? ==> r == a.items
    ensures a.Object? ==> |r| == |Keys(a.members)|
  {
    if a.List? then a.items
    else seq(|Keys(a.members)|, i requires 0 <= i < |Keys(a.members)| => Get(a.members, Keys(a.members)[i]))
  }

  /** Some member named after the `i`-th key comes before every member named
      after the `j`-th. */
  predicate KeyBefore<V>(m: seq<(string, V)>, i: int, j: int)
    requires 0 <= i < |Keys(m)| && 0 <= j < |Keys(m)|
  {
    exists p :: && 0 <= p < |m| && m[p].0 == Keys(m)[i]
                && forall q :: 0 <= q <= p ==> m[q].0 != Keys(m)[j]
  }

  /** A member named after an earlier key that precedes every member named
      after a later one. */
  lemma {:induction false} FirstBefore<V>(m: seq<(string, V)>, i: int, j: int) returns (p: int)
    requires 0 <= i < j < |Keys(m)|
    ensures 0 <= p < |m| && m[p].0 == Keys(m)[i]
    ensures forall q :: 0 <= q <= p ==> m[q].0 != Keys(m)[j]
    decreases |m|
  {
    var n := |m| - 1;
    var init := m[..n];
    var ki := Keys(init);
    assert Keys(m)[i] == ki[i];
    assert forall q :: 0 <= q < n ==> m[q] == init[q];
    if j < |ki| {
      assert Keys(m)[j] == ki[j];
      p := FirstBefore(init, i, j);
    } else {
      assert Keys(m)[j] == m[n].0 && m[n].0 !in ki;
      KeysFound(init, ki[i]);
      KeysFound(init, m[n].0);
      p :| 0 <= p < |init| && init[p].0 == ki[i];
    }
  }

  /** The array's keys keep the order in which names first occur among the
      members: an earlier key appears before any member carries a later one. */
  lemma KeysFirstOccurrenceOrder<V>(m: seq<(string, V)>)
    ensures forall i, j :: 0 <= i < j < |Keys(m)| ==> KeyBefore(m, i, j)
  {
    forall i, j | 0 <= i < j < |Keys(m)|
      ensures KeyBefore(m, i, j)
    {
      var p := FirstBefore(m, i, j);
    }
  }

  /** `array_map` over a decoded object visits one value per distinct name
      (in the order of `Keys`, see `KeysFirstOccurrenceOrder`), each the value
      of the last member with that name. */
  lemma ArrayValuesOfObject(m: seq<(string, Json)>)
    ensures |ArrayValues(Object(m))| == |Keys(m)|
    ensures forall i, p :: && 0 <= i < |Keys(m)| && 0 <= p < |m| && m[p].0 == Keys(m)[i]
                           && (forall q :: p < q < |m| ==> m[q].0 != Keys(m)[i])
                           ==> ArrayValues(Object(m))[i] == m[p].1
  {
    forall i, p | && 0 <= i < |Keys(m)| && 0 <= p < |m| && m[p].0 == Keys(m)[i]
                  && (forall q :: p < q < |m| ==> m[q].0 != Keys(m)[i])
      ensures ArrayValues(Object(m))[i] == m[p].1
    {
      LookupLastBinding(m, Keys(m)[i], p);
    }
  }

  /** An object without repeated names is visited member by member. */
  lemma ArrayValuesOfDistinct(members: seq<(string, Json)>)
    requires forall i, j :: 0 <= i < j < |members| ==> members[i].0 != members[j].0
    ensures |ArrayValues(Object(members))| == |members|
    ensures forall i :: 0 <= i < |members| ==> ArrayValues(Object(members))[i] == members[i].1
  {
    KeysOfDistinct(members);
    forall i | 0 <= i < |members|
      ensures ArrayValues(Object(members))[i] == members[i].1
    {
      LookupLastBinding(members, members[i].0, i);
    }
  }

  /** In `{"a": x, "b": y, "a": z}`, `a` keeps its first position and takes
      its last value. */
  lemma ArrayValuesRepeatedKey(x: Json, y: Json, z: Json)
    ensures ArrayValues(Object([("a", x), ("b", y), ("a", z)])) == [z, y]
  {
    var m := [("a", x), ("b", y), ("a", z)];
    assert m[..2] == [("a", x), ("b", y)];
    assert m[..2][..1] == [("a", x)];
    assert [("a", x)][..0] == [];
    assert Keys([("a", x)]) == ["a"];
    assert Keys(m[..2]) == ["a", "b"];
    LookupLastBinding(m, "a", 2);
    LookupLastBinding(m, "b", 1);
  }
}
