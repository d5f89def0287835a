/** The per-tool usage record (`Record<string, number>`) the agent accumulator fills: a
    dictionary from tool name to count that, like every JavaScript object with non-numeric
    keys, remembers the order in which its keys were first written. Tool names are taken to
    be neither integer-like nor names of `Object.prototype` properties, for which a
    JavaScript object behaves differently. */
module ToolCounts {

  datatype Counts = Counts(keys: seq<string>, value: map<string, nat>) {

    /** The keys are distinct and are exactly the dictionary's domain. */
    ghost predicate Valid() {
      (forall i, j :: 0 <= i < j < |keys| ==> keys[i] != keys[j]) &&
      (forall k :: k in value <==> k in keys)
    }

    /** `counts[k] || 0`. */
    function Get(k: string): nat {
      if k in value then value[k] else 0
    }

    /** `counts[k] = v`: a new key goes to the end of the key order. */
    function Set(k: string, v: nat): (c: Counts)
      ensures c.value == value[k := v] && c.Get(k) == v
      ensures k in value ==> c.keys == keys
      ensures k !in value ==> c.keys == keys + [k]
    {
      if k in value then Counts(keys, value[k := v]) else Counts(keys + [k], value[k := v])
    }

    /** `Object.values(counts)`, in key order. */
    function Values(): (vs: seq<nat>)
      ensures |vs| == |keys| && forall i :: 0 <= i < |keys| ==> vs[i] == Get(keys[i])
    {
      seq(|keys|, i requires 0 <= i < |keys| => Get(keys[i]))
    }

    /** `Object.entries(counts)`, in key order. */
    function Entries(): (es: seq<(string, nat)>)
      ensures |es| == |keys| && forall i :: 0 <= i < |keys| ==> es[i] == (keys[i], Get(keys[i]))
    {
      seq(|keys|, i requires 0 <= i < |keys| => (keys[i], Get(keys[i])))
    }
  }

  const Empty: Counts := Counts([], map[])

  /** Writing a count keeps the keys distinct and in step with the dictionary. */
  lemma SetValid(c: Counts, k: string, v: nat)
    requires c.Valid()
    ensures c.Set(k, v).Valid()
  {
  }

  function Sum(xs: seq<nat>): nat {
    if xs == [] then 0 else Sum(xs[..|xs| - 1]) + xs[|xs| - 1]
  }

  /** Raising one entry of a list by one raises its sum by one. */
  lemma {:induction false} SumIncrementAt(xs: seq<nat>, i: nat)
    requires i < |xs|
    ensures Sum(xs[i := xs[i] + 1]) == Sum(xs) + 1
  {
    var ys := xs[i := xs[i] + 1];
    if i < |xs| - 1 {
      assert ys[..|ys| - 1] == xs[..|xs| - 1][i := xs[i] + 1];
      SumIncrementAt(xs[..|xs| - 1], i);
    } else {
      assert ys[..|ys| - 1] == xs[..|xs| - 1];
    }
  }

  /** Adding one use of a tool raises the sum of the values by exactly one. */
  lemma IncrementRaisesSum(c: Counts, k: string)
    requires c.Valid()
    ensures Sum(c.Set(k, c.Get(k) + 1).Values()) == Sum(c.Values()) + 1
  {
    var d := c.Set(k, c.Get(k) + 1);
    var vs, ws := c.Values(), d.Values();
    if k in c.value {
      var i :| 0 <= i < |c.keys| && c.keys[i] == k;
      assert d.keys == c.keys;
      forall j | 0 <= j < |ws| ensures ws[j] == vs[i := vs[i] + 1][j] {
        if j != i {
          assert c.keys[j] != k;
        }
      }
      assert ws == vs[i := vs[i] + 1];
      SumIncrementAt(vs, i);
    } else {
      assert d.keys == c.keys + [k];
      forall j | 0 <= j < |vs| ensures ws[j] == vs[j] {
        assert d.keys[j] == c.keys[j] != k;
      }
      assert ws[..|ws| - 1] == vs;
      assert ws[|ws| - 1] == 1;
    }
  }

  function Occurrences(names: seq<string>, k: string): nat {
    if names == [] then 0
    else Occurrences(names[..|names| - 1], k) + (if names[|names| - 1] == k then 1 else 0)
  }

  /** The names in the order of their first occurrence, each once. */
  function FirstOccurrences(names: seq<string>): seq<string> {
    if names == [] then []
    else
      var init := names[..|names| - 1];
      FirstOccurrences(init) + (if names[|names| - 1] in init then [] else [names[|names| - 1]])
  }

  /** `counts[name] = (counts[name] || 0) + 1` for each name in turn. */
  function TallyFrom(c: Counts, names: seq<string>): Counts {
    if names == [] then c
    else
      var before := TallyFrom(c, names[..|names| - 1]);
      var name := names[|names| - 1];
      before.Set(name, before.Get(name) + 1)
  }

  function Tally(names: seq<string>): Counts {
    TallyFrom(Empty, names)
  }

  /** Tallying one name is one `counts[name] = (counts[name] || 0) + 1`. */
  lemma TallyOne(c: Counts, name: string)
    ensures TallyFrom(c, [name]) == c.Set(name, c.Get(name) + 1)
  {
    var names := [name];
    assert names[..|names| - 1] == [];
    assert TallyFrom(c, names[..|names| - 1]) == c;
  }

  /** Tallying two lists one after the other is tallying their concatenation. */
  lemma {:induction false} TallyFromAppend(c: Counts, a: seq<string>, b: seq<string>)
    ensures TallyFrom(c, a + b) == TallyFrom(TallyFrom(c, a), b)
  {
    if b == [] {
      assert a + b == a;
    } else {
      assert (a + b)[..|a + b| - 1] == a + b[..|b| - 1];
      TallyFromAppend(c, a, b[..|b| - 1]);
    }
  }

  /** A tally's keys are distinct and are its dictionary's domain. */
  lemma {:induction false} TallyValid(names: seq<string>)
    ensures Tally(names).Valid()
  {
    if names != [] {
      var init := names[..|names| - 1];
      TallyValid(init);
      SetValid(Tally(init), names[|names| - 1], Tally(init).Get(names[|names| - 1]) + 1);
    }
  }

  /** Each name's count in a tally is its number of occurrences, and the dictionary holds
      exactly the names that occur. */
  lemma {:induction false} TallyGet(names: seq<string>)
    ensures forall k :: Tally(names).Get(k) == Occurrences(names, k)
    ensures forall k :: k in Tally(names).value <==> k in names
  {
    if names != [] {
      var init := names[..|names| - 1];
      TallyGet(init);
      assert forall k :: k in names <==> k in init || k == names[|names| - 1];
    }
  }

  /** A tally's keys are the names in the order of their first occurrence. */
  lemma {:induction false} TallyKeys(names: seq<string>)
    ensures Tally(names).keys == FirstOccurrences(names)
  {
    if names != [] {
      var init := names[..|names| - 1];
      TallyKeys(init);
      TallyGet(init);
    }
  }

  /** Every count present in a tally is at least 1. */
  lemma {:induction false} TallyPositive(names: seq<string>)
    ensures forall k :: k in Tally(names).value ==> Tally(names).value[k] >= 1
  {
    if names != [] {
      var init, name := names[..|names| - 1], names[|names| - 1];
      TallyPositive(init);
      var before := Tally(init);
      assert Tally(names).value == before.value[name := before.Get(name) + 1];
    }
  }

  /** A tally's counts add up to the number of names tallied. */
  lemma {:induction false} TallySum(names: seq<string>)
    ensures Sum(Tally(names).Values()) == |names|
  {
    if names != [] {
      var init, name := names[..|names| - 1], names[|names| - 1];
      var before := Tally(init);
      assert Tally(names) == before.Set(name, before.Get(name) + 1);
      TallySum(init);
      TallyValid(init);
      IncrementRaisesSum(before, name);
    }
  }

  /** What a tally of a list of names holds: each name's count is its number of occurrences,
      the keys are the names in first-use order, every present key has a count of at least 1,
      and the counts add up to the length of the list. */
  lemma TallyCounts(names: seq<string>)
    ensures Tally(names).Valid()
    ensures forall k :: Tally(names).Get(k) == Occurrences(names, k)
    ensures forall k :: k in Tally(names).value <==> k in names
    ensures Tally(names).keys == FirstOccurrences(names)
    ensures forall k :: k in Tally(names).value ==> Tally(names).value[k] >= 1
    ensures Sum(Tally(names).Values()) == |names|
  {
    TallyValid(names);
    TallyGet(names);
    TallyKeys(names);
    TallyPositive(names);
    TallySum(names);
  }

  /** Tallying nothing leaves the record empty, with a zero total. */
  lemma TallyOfNothing()
    ensures Tally([]) == Empty && Sum(Empty.Values()) == 0
  {
  }
}
