/** The per-channel maps that the factory builds from its parallel arrays. */
module Channels {

  /** The map left behind by writing `m[keys[i]] := values[i]` for i = 0, 1, ... in turn,
      starting from an empty map. */
  function Assign(keys: seq<string>, values: seq<real>): (m: map<string, real>)
    requires |keys| <= |values|
    decreases |keys|
  {
    if keys == [] then map[]
    else
      var n := |keys| - 1;
      Assign(keys[..n], values)[keys[n] := values[n]]
  }

  /** The map has exactly the written keys. */
  lemma {:induction false} AssignKeys(keys: seq<string>, values: seq<real>)
    requires |keys| <= |values|
    ensures forall k :: k in Assign(keys, values) <==> k in keys
    decreases |keys|
  {
    if keys != [] {
      var n := |keys| - 1;
      AssignKeys(keys[..n], values);
      assert keys == keys[..n] + [keys[n]];
    }
  }

  /** Extending the prefix by one key writes that key's value last. */
  lemma AssignSnoc(keys: seq<string>, values: seq<real>, n: nat)
    requires n < |keys| <= |values|
    ensures Assign(keys[..n + 1], values) == Assign(keys[..n], values)[keys[n] := values[n]]
  {
    assert keys[..n + 1][..n] == keys[..n];
  }

  /** The per-channel differences `to[i] - from[i]` of the first n channels. */
  function Deltas(from: seq<real>, to: seq<real>, n: nat): (d: seq<real>)
    requires n <= |from| && n <= |to|
    ensures |d| == n
  {
    if n == 0 then [] else Deltas(from, to, n - 1) + [to[n - 1] - from[n - 1]]
  }

  lemma {:induction false} DeltasAt(from: seq<real>, to: seq<real>, n: nat, i: nat)
    requires n <= |from| && n <= |to| && i < n
    ensures Deltas(from, to, n)[i] == to[i] - from[i]
  {
    if i < n - 1 {
      DeltasAt(from, to, n - 1, i);
    }
  }

  /** A key written more than once keeps the value of its last occurrence. */
  lemma {:induction false} AssignLastWins(keys: seq<string>, values: seq<real>, i: nat)
    requires |keys| <= |values| && i < |keys|
    requires forall j :: i < j < |keys| ==> keys[j] != keys[i]
    ensures keys[i] in Assign(keys, values)
    ensures Assign(keys, values)[keys[i]] == values[i]
    decreases |keys|
  {
    var n := |keys| - 1;
    if i < n {
      AssignLastWins(keys[..n], values, i);
    }
  }

  /** The factory's channel maps: channel `props[i]` starts at `from[i]` and its change
      leads to `to[i]`, for every index that is the last one naming its channel
      (so for every index when the names are distinct). */
  lemma ChannelsFromArrays(props: seq<string>, from: seq<real>, to: seq<real>, i: nat)
    requires |props| <= |from| && |props| <= |to| && i < |props|
    requires forall j :: i < j < |props| ==> props[j] != props[i]
    ensures var initials := Assign(props, from);
            var changes := Assign(props, Deltas(from, to, |props|));
            props[i] in initials && props[i] in changes &&
            initials[props[i]] == from[i] &&
            initials[props[i]] + changes[props[i]] == to[i]
  {
    AssignLastWins(props, from, i);
    AssignLastWins(props, Deltas(from, to, |props|), i);
    DeltasAt(from, to, |props|, i);
  }
}
