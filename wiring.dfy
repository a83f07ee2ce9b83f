/** The dependency wiring performed by resolveDeps and dependsOn, stated on values.
    Units are positions 0..n-1 of the operation list, `index` maps each unit name
    to its position (the name map), a channel is a number, and each unit holds the
    channels it sends on (doneNotification) and the channels it receives from
    (waiting). The builders over objects are proved to compute these functions;
    the properties of the wiring are proved here once, for every revision. */
module Wiring {
  import opened TaktTypes

  datatype Status = Status(doneNotification: seq<nat>, waiting: seq<nat>)

  /** The status every unit starts with: no channels at all. */
  function Empty(n: nat): (st: seq<Status>)
    ensures |st| == n
    ensures forall i :: 0 <= i < n ==> st[i] == Status([], [])
  {
    seq(n, _ => Status([], []))
  }

  predicate IndexOk(index: map<string, nat>, n: nat) {
    forall k :: k in index ==> index[k] < n
  }

  predicate Injective(index: map<string, nat>) {
    forall k1, k2 :: k1 in index && k2 in index && index[k1] == index[k2] ==> k1 == k2
  }

  /** The name map `m[x.Name] = x` filled over a list of units: every listed name
      maps to the position of the last unit carrying it, so a later unit with the
      same name replaces an earlier one. */
  function Positions(names: seq<string>): (index: map<string, nat>)
    ensures forall k :: k in index <==> k in names
    ensures forall k :: k in index ==> index[k] < |names| && names[index[k]] == k
    decreases |names|
  {
    if names == [] then map[]
    else Positions(names[..|names| - 1])[names[|names| - 1] := |names| - 1]
  }

  /** Filling the name map one more unit. */
  lemma PositionsSnoc(names: seq<string>, i: nat)
    requires i < |names|
    ensures Positions(names[..i + 1]) == Positions(names[..i])[names[i] := i]
  {
    assert names[..i + 1][..i] == names[..i];
  }

  /** Different names never share a position. */
  lemma PositionsInjective(names: seq<string>)
    ensures Injective(Positions(names)) && IndexOk(Positions(names), |names|)
  {
  }

  /** Without duplicate names, each unit's name maps back to that unit. */
  lemma PositionsOfDistinct(names: seq<string>)
    requires NoDup(names)
    ensures forall i :: 0 <= i < |names| ==> names[i] in Positions(names) && Positions(names)[names[i]] == i
  {
    var index := Positions(names);
    forall i | 0 <= i < |names| ensures names[i] in index && index[names[i]] == i {
      assert names[i] in names;
      assert names[index[names[i]]] == names[i];
    }
  }

  /** A later unit with the same name replaces an earlier one in the name map. */
  lemma {:induction false} PositionsLast(names: seq<string>, j: nat)
    requires j < |names|
    ensures Positions(names)[names[j]] >= j
    decreases |names|
  {
    if j < |names| - 1 {
      PositionsLast(names[..|names| - 1], j);
    }
  }

  /** The effect of `t.dependsOn(d)` with fresh channel `c`: the channel is appended
      to the producer's outbound list and to the consumer's inbound list. */
  function Link(st: seq<Status>, t: nat, d: nat, c: nat): (r: seq<Status>)
    requires t < |st| && d < |st|
    ensures |r| == |st|
    ensures r[t].waiting == st[t].waiting + [c]
    ensures r[d].doneNotification == st[d].doneNotification + [c]
    ensures t != d ==> r[t].doneNotification == st[t].doneNotification && r[d].waiting == st[d].waiting
    ensures forall i :: 0 <= i < |st| && i != t && i != d ==> r[i] == st[i]
  {
    var s1 := st[d := st[d].(doneNotification := st[d].doneNotification + [c])];
    s1[t := s1[t].(waiting := s1[t].waiting + [c])]
  }

  /** Unit `t` depends on each name of `deps` in turn; channels are numbered from
      `next`. None when a name is not in the name map ("task not found"). */
  function WireDeps(st: seq<Status>, index: map<string, nat>, t: nat, deps: seq<string>, next: nat)
    : (r: Option<(seq<Status>, nat)>)
    requires t < |st| && IndexOk(index, |st|)
    ensures r.Some? ==> |r.value.0| == |st| && r.value.1 == next + |deps|
    decreases |deps|
  {
    if deps == [] then Some((st, next))
    else
      match WireDeps(st, index, t, deps[..|deps| - 1], next)
      case None => None
      case Some(w) =>
        var d := deps[|deps| - 1];
        if d in index then Some((Link(w.0, t, index[d], w.1), w.1 + 1)) else None
  }

  /** The outer loop of resolveDeps: the units named by `keys`, in that order,
      each resolve all their declared dependencies. */
  function WireAll(st: seq<Status>, index: map<string, nat>, depsOf: seq<seq<string>>, keys: seq<string>, next: nat)
    : (r: Option<(seq<Status>, nat)>)
    requires IndexOk(index, |st|) && |depsOf| == |st|
    requires forall p :: 0 <= p < |keys| ==> keys[p] in index
    ensures r.Some? ==> |r.value.0| == |st| && r.value.1 >= next
    decreases |keys|
  {
    if keys == [] then Some((st, next))
    else
      match WireAll(st, index, depsOf, keys[..|keys| - 1], next)
      case None => None
      case Some(w) =>
        var t := index[keys[|keys| - 1]];
        WireDeps(w.0, index, t, depsOf[t], w.1)
  }

  /** One more dependency name of unit t, when it is known: one more link. */
  lemma WireDepsStep(st: seq<Status>, index: map<string, nat>, t: nat, deps: seq<string>, k: nat, next: nat, w: (seq<Status>, nat))
    requires t < |st| && IndexOk(index, |st|) && k < |deps| && deps[k] in index
    requires WireDeps(st, index, t, deps[..k], next) == Some(w)
    ensures |w.0| == |st|
    ensures WireDeps(st, index, t, deps[..k + 1], next) == Some((Link(w.0, t, index[deps[k]], w.1), w.1 + 1))
  {
    assert deps[..k + 1][..k] == deps[..k];
  }

  /** One more visited unit: its dependency names are wired after the earlier units'. */
  lemma WireAllStep(st: seq<Status>, index: map<string, nat>, depsOf: seq<seq<string>>, keys: seq<string>, p: nat, next: nat, w: (seq<Status>, nat))
    requires IndexOk(index, |st|) && |depsOf| == |st|
    requires forall q :: 0 <= q < |keys| ==> keys[q] in index
    requires p < |keys| && WireAll(st, index, depsOf, keys[..p], next) == Some(w)
    ensures |w.0| == |st|
    ensures WireAll(st, index, depsOf, keys[..p + 1], next)
         == WireDeps(w.0, index, index[keys[p]], depsOf[index[keys[p]]], w.1)
  {
    assert keys[..p + 1][..p] == keys[..p];
  }

  // ---------------------------------------------------------------------------
  // When the build fails

  predicate Resolvable(index: map<string, nat>, deps: seq<string>) {
    forall k :: 0 <= k < |deps| ==> deps[k] in index
  }

  lemma {:induction false} WireDepsDefined(st: seq<Status>, index: map<string, nat>, t: nat, deps: seq<string>, next: nat)
    requires t < |st| && IndexOk(index, |st|)
    ensures WireDeps(st, index, t, deps, next).Some? <==> Resolvable(index, deps)
    decreases |deps|
  {
    if deps != [] {
      WireDepsDefined(st, index, t, deps[..|deps| - 1], next);
    }
  }

  /** The build fails exactly when some visited unit declares a name that is not a unit. */
  lemma {:induction false} WireAllDefined(st: seq<Status>, index: map<string, nat>, depsOf: seq<seq<string>>, keys: seq<string>, next: nat)
    requires IndexOk(index, |st|) && |depsOf| == |st|
    requires forall p :: 0 <= p < |keys| ==> keys[p] in index
    ensures WireAll(st, index, depsOf, keys, next).Some?
        <==> forall p :: 0 <= p < |keys| ==> Resolvable(index, depsOf[index[keys[p]]])
    decreases |keys|
  {
    if keys != [] {
      var keys' := keys[..|keys| - 1];
      WireAllDefined(st, index, depsOf, keys', next);
      var w := WireAll(st, index, depsOf, keys', next);
      if w.Some? {
        var t := index[keys[|keys| - 1]];
        WireDepsDefined(w.value.0, index, t, depsOf[t], w.value.1);
      }
    }
  }

  /** Once a visited unit cannot be wired, the whole build fails. */
  lemma WireAllFailsAt(st: seq<Status>, index: map<string, nat>, depsOf: seq<seq<string>>, keys: seq<string>, p: nat, next: nat, w: (seq<Status>, nat))
    requires IndexOk(index, |st|) && |depsOf| == |st|
    requires forall q :: 0 <= q < |keys| ==> keys[q] in index
    requires p < |keys| && |w.0| == |st|
    requires WireDeps(w.0, index, index[keys[p]], depsOf[index[keys[p]]], w.1).None?
    ensures WireAll(st, index, depsOf, keys, next).None?
  {
    WireDepsDefined(w.0, index, index[keys[p]], depsOf[index[keys[p]]], w.1);
    WireAllDefined(st, index, depsOf, keys, next);
  }

  // ---------------------------------------------------------------------------
  // Every channel has one producer slot and one consumer slot

  function Flatten(xss: seq<seq<nat>>): seq<nat> {
    if xss == [] then [] else xss[0] + Flatten(xss[1..])
  }

  function Dones(st: seq<Status>): (r: seq<seq<nat>>)
    ensures |r| == |st| && forall i :: 0 <= i < |st| ==> r[i] == st[i].doneNotification
  {
    seq(|st|, i requires 0 <= i < |st| => st[i].doneNotification)
  }

  function Waits(st: seq<Status>): (r: seq<seq<nat>>)
    ensures |r| == |st| && forall i :: 0 <= i < |st| ==> r[i] == st[i].waiting
  {
    seq(|st|, i requires 0 <= i < |st| => st[i].waiting)
  }

  /** The channels lo, lo+1, ..., hi-1. */
  function Range(lo: nat, hi: nat): (r: seq<nat>)
    requires lo <= hi
    ensures |r| == hi - lo && forall i :: 0 <= i < |r| ==> r[i] == lo + i
  {
    seq(hi - lo, i => lo + i)
  }

  lemma RangeSplit(lo: nat, mid: nat, hi: nat)
    requires lo <= mid <= hi
    ensures multiset(Range(lo, hi)) == multiset(Range(lo, mid)) + multiset(Range(mid, hi))
  {
    assert Range(lo, hi) == Range(lo, mid) + Range(mid, hi);
  }

  lemma RangeOne(c: nat)
    ensures multiset(Range(c, c + 1)) == multiset{c}
  {
    assert Range(c, c + 1) == [c];
  }

  lemma {:induction false} FlattenAppend(xs: seq<seq<nat>>, d: nat, c: nat)
    requires d < |xs|
    ensures multiset(Flatten(xs[d := xs[d] + [c]])) == multiset(Flatten(xs)) + multiset{c}
    decreases |xs|
  {
    var ys := xs[d := xs[d] + [c]];
    if d == 0 {
      assert ys[1..] == xs[1..];
    } else {
      assert ys[1..] == xs[1..][d - 1 := xs[d] + [c]];
      FlattenAppend(xs[1..], d - 1, c);
    }
  }

  lemma LinkChannels(st: seq<Status>, t: nat, d: nat, c: nat)
    requires t < |st| && d < |st|
    ensures multiset(Flatten(Dones(Link(st, t, d, c)))) == multiset(Flatten(Dones(st))) + multiset{c}
    ensures multiset(Flatten(Waits(Link(st, t, d, c)))) == multiset(Flatten(Waits(st))) + multiset{c}
  {
    var r := Link(st, t, d, c);
    assert Dones(r) == Dones(st)[d := Dones(st)[d] + [c]];
    FlattenAppend(Dones(st), d, c);
    assert Waits(r) == Waits(st)[t := Waits(st)[t] + [c]];
    FlattenAppend(Waits(st), t, c);
  }

  lemma {:induction false} WireDepsChannels(st: seq<Status>, index: map<string, nat>, t: nat, deps: seq<string>, next: nat)
    requires t < |st| && IndexOk(index, |st|)
    requires WireDeps(st, index, t, deps, next).Some?
    ensures var r := WireDeps(st, index, t, deps, next).value;
      && multiset(Flatten(Dones(r.0))) == multiset(Flatten(Dones(st))) + multiset(Range(next, r.1))
      && multiset(Flatten(Waits(r.0))) == multiset(Flatten(Waits(st))) + multiset(Range(next, r.1))
    decreases |deps|
  {
    if deps != [] {
      var deps' := deps[..|deps| - 1];
      var w := WireDeps(st, index, t, deps', next).value;
      var r := WireDeps(st, index, t, deps, next).value;
      assert r == (Link(w.0, t, index[deps[|deps| - 1]], w.1), w.1 + 1);
      WireDepsChannels(st, index, t, deps', next);
      LinkChannels(w.0, t, index[deps[|deps| - 1]], w.1);
      RangeSplit(next, w.1, w.1 + 1);
      RangeOne(w.1);
      assert multiset(Range(next, r.1)) == multiset(Range(next, w.1)) + multiset{w.1};
    }
  }

  /** Every channel the build allocates is appended to exactly one outbound list
      and exactly one inbound list, once each. */
  lemma {:induction false} WireAllChannels(st: seq<Status>, index: map<string, nat>, depsOf: seq<seq<string>>, keys: seq<string>, next: nat)
    requires IndexOk(index, |st|) && |depsOf| == |st|
    requires forall p :: 0 <= p < |keys| ==> keys[p] in index
    requires WireAll(st, index, depsOf, keys, next).Some?
    ensures var r := WireAll(st, index, depsOf, keys, next).value;
      && multiset(Flatten(Dones(r.0))) == multiset(Flatten(Dones(st))) + multiset(Range(next, r.1))
      && multiset(Flatten(Waits(r.0))) == multiset(Flatten(Waits(st))) + multiset(Range(next, r.1))
    decreases |keys|
  {
    if keys != [] {
      var keys' := keys[..|keys| - 1];
      var w := WireAll(st, index, depsOf, keys', next).value;
      WireAllChannels(st, index, depsOf, keys', next);
      var t := index[keys[|keys| - 1]];
      var r := WireAll(st, index, depsOf, keys, next).value;
      assert r == WireDeps(w.0, index, t, depsOf[t], w.1).value;
      WireDepsChannels(w.0, index, t, depsOf[t], w.1);
      RangeSplit(next, w.1, r.1);
    }
  }

  // ---------------------------------------------------------------------------
  // Each inbound channel comes from the unit the dependency name denotes

  /** Unit i has one inbound channel per declared name, and its k-th inbound
      channel is an outbound channel of the unit its k-th name denotes. */
  ghost predicate Resolved(st: seq<Status>, index: map<string, nat>, i: nat, deps: seq<string>)
    requires i < |st| && IndexOk(index, |st|)
  {
    && |st[i].waiting| == |deps|
    && forall k :: 0 <= k < |deps| ==>
         deps[k] in index && st[i].waiting[k] in st[index[deps[k]]].doneNotification
  }

  /** r only appended to the outbound lists of st. */
  ghost predicate Extends(st: seq<Status>, r: seq<Status>) {
    |r| == |st| && forall i :: 0 <= i < |st| ==> st[i].doneNotification <= r[i].doneNotification
  }

  lemma StillSent(w: seq<Status>, r: seq<Status>, j: nat, c: nat)
    requires j < |w| && Extends(w, r) && c in w[j].doneNotification
    ensures c in r[j].doneNotification
  {
    var m :| 0 <= m < |w[j].doneNotification| && w[j].doneNotification[m] == c;
    assert r[j].doneNotification[m] == c;
  }

  lemma ResolvedStable(w: seq<Status>, r: seq<Status>, index: map<string, nat>, i: nat, deps: seq<string>)
    requires i < |w| && IndexOk(index, |w|) && Extends(w, r)
    requires Resolved(w, index, i, deps) && r[i].waiting == w[i].waiting
    ensures Resolved(r, index, i, deps)
  {
    forall k | 0 <= k < |deps|
      ensures r[i].waiting[k] in r[index[deps[k]]].doneNotification
    {
      var j := index[deps[k]];
      var c := w[i].waiting[k];
      var m :| 0 <= m < |w[j].doneNotification| && w[j].doneNotification[m] == c;
      assert r[j].doneNotification[m] == c;
    }
  }

  lemma {:induction false} WireDepsResolves(st: seq<Status>, index: map<string, nat>, t: nat, deps: seq<string>, next: nat)
    requires t < |st| && IndexOk(index, |st|)
    requires WireDeps(st, index, t, deps, next).Some? && st[t].waiting == []
    ensures var r := WireDeps(st, index, t, deps, next).value.0;
      && Resolved(r, index, t, deps)
      && Extends(st, r)
      && forall i :: 0 <= i < |st| && i != t ==> r[i].waiting == st[i].waiting
    decreases |deps|
  {
    var r := WireDeps(st, index, t, deps, next).value.0;
    if deps == [] {
      assert Extends(st, r);
    } else {
      var n := |deps|;
      var deps' := deps[..n - 1];
      WireDepsResolves(st, index, t, deps', next);
      var w := WireDeps(st, index, t, deps', next).value;
      var j := index[deps[n - 1]];
      assert r == Link(w.0, t, j, w.1);
      assert Extends(w.0, r);
      forall k | 0 <= k < n
        ensures deps[k] in index && r[t].waiting[k] in r[index[deps[k]]].doneNotification
      {
        if k < n - 1 {
          assert deps'[k] == deps[k];
          StillSent(w.0, r, index[deps[k]], r[t].waiting[k]);
        }
      }
    }
  }

  /** Position i is not named by any of the keys. */
  ghost predicate Unvisited(index: map<string, nat>, keys: seq<string>, i: nat)
    requires forall p :: 0 <= p < |keys| ==> keys[p] in index
  {
    forall p :: 0 <= p < |keys| ==> index[keys[p]] != i
  }

  lemma UnvisitedPrefix(index: map<string, nat>, keys: seq<string>, i: nat)
    requires forall p :: 0 <= p < |keys| ==> keys[p] in index
    requires keys != [] && Unvisited(index, keys, i)
    ensures Unvisited(index, keys[..|keys| - 1], i)
  {
    var keys' := keys[..|keys| - 1];
    forall p | 0 <= p < |keys'| ensures index[keys'[p]] != i {
      assert keys'[p] == keys[p];
    }
  }

  /** The outer loop only appends to outbound lists, and leaves the inbound
      lists of unvisited units alone. */
  lemma {:induction false} WireAllExtends(st: seq<Status>, index: map<string, nat>, depsOf: seq<seq<string>>, keys: seq<string>, next: nat)
    requires IndexOk(index, |st|) && |depsOf| == |st|
    requires forall p :: 0 <= p < |keys| ==> keys[p] in index
    requires WireAll(st, index, depsOf, keys, next).Some?
    ensures Extends(st, WireAll(st, index, depsOf, keys, next).value.0)
    ensures forall i :: 0 <= i < |st| && Unvisited(index, keys, i) ==>
      WireAll(st, index, depsOf, keys, next).value.0[i].waiting == st[i].waiting
    decreases |keys|
  {
    var r := WireAll(st, index, depsOf, keys, next).value.0;
    if keys == [] {
      assert Extends(st, r);
    } else {
      var n := |keys|;
      var keys' := keys[..n - 1];
      WireAllExtends(st, index, depsOf, keys', next);
      var w := WireAll(st, index, depsOf, keys', next).value;
      var t := index[keys[n - 1]];
      if w.0[t].waiting == [] {
        WireDepsResolves(w.0, index, t, depsOf[t], w.1);
      } else {
        WireDepsShape(w.0, index, t, depsOf[t], w.1);
      }
      forall i | 0 <= i < |st| && Unvisited(index, keys, i) ensures r[i].waiting == st[i].waiting {
        UnvisitedPrefix(index, keys, i);
      }
      forall i | 0 <= i < |st| ensures st[i].doneNotification <= r[i].doneNotification {
        assert st[i].doneNotification <= w.0[i].doneNotification <= r[i].doneNotification;
      }
    }
  }

  lemma {:induction false} WireDepsShape(st: seq<Status>, index: map<string, nat>, t: nat, deps: seq<string>, next: nat)
    requires t < |st| && IndexOk(index, |st|)
    requires WireDeps(st, index, t, deps, next).Some?
    ensures var r := WireDeps(st, index, t, deps, next).value.0;
      && Extends(st, r)
      && forall i :: 0 <= i < |st| && i != t ==> r[i].waiting == st[i].waiting
    decreases |deps|
  {
    var r := WireDeps(st, index, t, deps, next).value.0;
    if deps == [] {
      assert Extends(st, r);
    } else {
      WireDepsShape(st, index, t, deps[..|deps| - 1], next);
      var w := WireDeps(st, index, t, deps[..|deps| - 1], next).value.0;
      forall i | 0 <= i < |st| ensures st[i].doneNotification <= r[i].doneNotification {
        assert st[i].doneNotification <= w[i].doneNotification <= r[i].doneNotification;
      }
    }
  }

  /** After the outer loop, every visited unit is resolved and the others still
      wait on nothing. */
  lemma {:induction false} WireAllResolves(st: seq<Status>, index: map<string, nat>, depsOf: seq<seq<string>>, keys: seq<string>, next: nat)
    requires IndexOk(index, |st|) && |depsOf| == |st| && Injective(index) && NoDup(keys)
    requires forall p :: 0 <= p < |keys| ==> keys[p] in index
    requires forall i :: 0 <= i < |st| ==> st[i].waiting == []
    requires WireAll(st, index, depsOf, keys, next).Some?
    ensures forall p :: 0 <= p < |keys| ==>
      Resolved(WireAll(st, index, depsOf, keys, next).value.0, index, index[keys[p]], depsOf[index[keys[p]]])
    decreases |keys|
  {
    if keys != [] {
      var r := WireAll(st, index, depsOf, keys, next).value.0;
      var n := |keys|;
      var keys' := keys[..n - 1];
      WireAllResolves(st, index, depsOf, keys', next);
      WireAllExtends(st, index, depsOf, keys', next);
      var w := WireAll(st, index, depsOf, keys', next).value;
      var t := index[keys[n - 1]];
      assert Unvisited(index, keys', t) by {
        forall p | 0 <= p < n - 1 ensures index[keys'[p]] != t {
          assert keys'[p] == keys[p] != keys[n - 1];
        }
      }
      WireDepsResolves(w.0, index, t, depsOf[t], w.1);
      forall p | 0 <= p < n
        ensures Resolved(r, index, index[keys[p]], depsOf[index[keys[p]]])
      {
        if p < n - 1 {
          assert keys'[p] == keys[p] != keys[n - 1];
          ResolvedStable(w.0, r, index, index[keys[p]], depsOf[index[keys[p]]]);
        }
      }
    }
  }

  // ---------------------------------------------------------------------------
  // Fan-out: how many outbound channels each unit receives

  /** How many names of deps denote unit j. */
  function Fan(index: map<string, nat>, j: nat, deps: seq<string>): nat
    decreases |deps|
  {
    if deps == [] then 0
    else Fan(index, j, deps[..|deps| - 1]) + (if deps[|deps| - 1] in index && index[deps[|deps| - 1]] == j then 1 else 0)
  }

  function DepsOf(index: map<string, nat>, depsOf: seq<seq<string>>, k: string): seq<string> {
    if k in index && index[k] < |depsOf| then depsOf[index[k]] else []
  }

  /** The sum of f over keys. */
  function SumOver(keys: seq<string>, f: string -> nat): nat
    decreases |keys|
  {
    if keys == [] then 0 else SumOver(keys[..|keys| - 1], f) + f(keys[|keys| - 1])
  }

  lemma {:induction false} SumOverConcat(a: seq<string>, b: seq<string>, f: string -> nat)
    ensures SumOver(a + b, f) == SumOver(a, f) + SumOver(b, f)
    decreases |b|
  {
    if b == [] {
      assert a + b == a;
    } else {
      assert (a + b)[..|a + b| - 1] == a + b[..|b| - 1];
      SumOverConcat(a, b[..|b| - 1], f);
    }
  }

  /** A sum over the keys does not depend on the order they are visited in. */
  lemma {:induction false} SumOverPermutation(keys1: seq<string>, keys2: seq<string>, f: string -> nat)
    requires multiset(keys1) == multiset(keys2)
    ensures SumOver(keys1, f) == SumOver(keys2, f)
    decreases |keys1|
  {
    if keys1 == [] {
      assert |keys2| == |multiset(keys2)| == 0;
    } else {
      var n := |keys1|;
      var x := keys1[n - 1];
      assert keys1 == keys1[..n - 1] + [x];
      assert x in multiset(keys2);
      var q :| 0 <= q < |keys2| && keys2[q] == x;
      var rest := keys2[..q] + keys2[q + 1..];
      assert keys2 == keys2[..q] + [x] + keys2[q + 1..];
      assert multiset(keys2) == multiset(keys2[..q]) + multiset{x} + multiset(keys2[q + 1..]);
      assert multiset(keys1) == multiset(keys1[..n - 1]) + multiset{x};
      assert multiset(rest) == multiset(keys2[..q]) + multiset(keys2[q + 1..]);
      assert multiset(rest) == multiset(keys2) - multiset{x};
      assert multiset(keys1[..n - 1]) == multiset(keys1) - multiset{x};
      SumOverPermutation(keys1[..n - 1], rest, f);
      SumOverConcat(keys2[..q] + [x], keys2[q + 1..], f);
      SumOverConcat(keys2[..q], [x], f);
      SumOverConcat(keys2[..q], keys2[q + 1..], f);
      assert SumOver([x], f) == f(x) by {
        assert [x][..0] == [];
      }
    }
  }

  lemma {:induction false} WireDepsFan(st: seq<Status>, index: map<string, nat>, t: nat, deps: seq<string>, next: nat, j: nat)
    requires t < |st| && IndexOk(index, |st|) && j < |st|
    requires WireDeps(st, index, t, deps, next).Some?
    ensures |WireDeps(st, index, t, deps, next).value.0[j].doneNotification|
         == |st[j].doneNotification| + Fan(index, j, deps)
    decreases |deps|
  {
    if deps != [] {
      WireDepsFan(st, index, t, deps[..|deps| - 1], next, j);
    }
  }

  /** The number of declared dependency names, over the keys, that denote unit j. */
  function FanOut(index: map<string, nat>, depsOf: seq<seq<string>>, j: nat): string -> nat {
    k => Fan(index, j, DepsOf(index, depsOf, k))
  }

  lemma {:induction false} WireAllFan(st: seq<Status>, index: map<string, nat>, depsOf: seq<seq<string>>, keys: seq<string>, next: nat, j: nat)
    requires IndexOk(index, |st|) && |depsOf| == |st| && j < |st|
    requires forall p :: 0 <= p < |keys| ==> keys[p] in index
    requires WireAll(st, index, depsOf, keys, next).Some?
    ensures |WireAll(st, index, depsOf, keys, next).value.0[j].doneNotification|
         == |st[j].doneNotification| + SumOver(keys, FanOut(index, depsOf, j))
    decreases |keys|
  {
    if keys != [] {
      var keys' := keys[..|keys| - 1];
      WireAllFan(st, index, depsOf, keys', next, j);
      var w := WireAll(st, index, depsOf, keys', next).value;
      var t := index[keys[|keys| - 1]];
      WireDepsFan(w.0, index, t, depsOf[t], w.1, j);
    }
  }

  /** The number of declared dependency names over the keys: one channel each. */
  function DepCount(index: map<string, nat>, depsOf: seq<seq<string>>): string -> nat {
    k => |DepsOf(index, depsOf, k)|
  }

  lemma {:induction false} WireAllCount(st: seq<Status>, index: map<string, nat>, depsOf: seq<seq<string>>, keys: seq<string>, next: nat)
    requires IndexOk(index, |st|) && |depsOf| == |st|
    requires forall p :: 0 <= p < |keys| ==> keys[p] in index
    requires WireAll(st, index, depsOf, keys, next).Some?
    ensures WireAll(st, index, depsOf, keys, next).value.1 == next + SumOver(keys, DepCount(index, depsOf))
    decreases |keys|
  {
    if keys != [] {
      WireAllCount(st, index, depsOf, keys[..|keys| - 1], next);
    }
  }

  // ---------------------------------------------------------------------------
  // From "each channel occurs once" to one producer and one consumer per channel

  lemma {:induction false} NoDupCount(s: seq<nat>, c: nat)
    requires NoDup(s)
    ensures multiset(s)[c] <= 1
    decreases |s|
  {
    if s != [] {
      var s' := s[..|s| - 1];
      assert s == s' + [s[|s| - 1]];
      assert s[|s| - 1] !in s';
      NoDupCount(s', c);
    }
  }

  lemma DupCount(s: seq<nat>, k1: nat, k2: nat)
    requires k1 < k2 < |s| && s[k1] == s[k2]
    ensures multiset(s)[s[k1]] >= 2
  {
    assert s == s[..k2] + s[k2..];
    assert s[k1] in s[..k2];
    assert s[k2] in s[k2..];
  }

  lemma {:induction false} FlattenConcat(a: seq<seq<nat>>, b: seq<seq<nat>>)
    ensures Flatten(a + b) == Flatten(a) + Flatten(b)
    decreases |a|
  {
    if a == [] {
      assert a + b == b;
    } else {
      assert (a + b)[1..] == a[1..] + b;
      FlattenConcat(a[1..], b);
    }
  }

  lemma {:induction false} FlattenHolds(xs: seq<seq<nat>>, i: nat)
    requires i < |xs|
    ensures multiset(xs[i]) <= multiset(Flatten(xs))
    decreases |xs|
  {
    if i > 0 {
      FlattenHolds(xs[1..], i - 1);
    }
  }

  lemma {:induction false} FlattenFrom(xs: seq<seq<nat>>, c: nat)
    requires c in Flatten(xs)
    ensures exists i :: 0 <= i < |xs| && c in xs[i]
    decreases |xs|
  {
    if c !in xs[0] {
      FlattenFrom(xs[1..], c);
      var i :| 0 <= i < |xs[1..]| && c in xs[1..][i];
      assert c in xs[i + 1];
    }
  }

  lemma FlattenHoldsTwo(xs: seq<seq<nat>>, i: nat, j: nat)
    requires i < j < |xs|
    ensures multiset(xs[i]) + multiset(xs[j]) <= multiset(Flatten(xs))
  {
    assert xs == xs[..j] + ([xs[j]] + xs[j + 1..]);
    FlattenConcat(xs[..j], [xs[j]] + xs[j + 1..]);
    assert Flatten([xs[j]] + xs[j + 1..]) == xs[j] + Flatten(xs[j + 1..]);
    FlattenHolds(xs[..j], i);
  }

  predicate Listed(xs: seq<seq<nat>>, c: nat) {
    exists i :: 0 <= i < |xs| && c in xs[i]
  }

  /** No list repeats a channel, no channel is in two lists, every listed channel
      is in lo..hi-1 and every channel in lo..hi-1 is listed. */
  ghost predicate Partition(xs: seq<seq<nat>>, lo: nat, hi: nat) {
    && (forall i :: 0 <= i < |xs| ==> NoDup(xs[i]))
    && (forall i, j, c :: 0 <= i < |xs| && 0 <= j < |xs| && c in xs[i] && c in xs[j] ==> i == j)
    && (forall i, c :: 0 <= i < |xs| && c in xs[i] ==> lo <= c < hi)
    && (forall c :: lo <= c < hi ==> Listed(xs, c))
  }

  /** A family of channel lists whose concatenation is, up to order, exactly the
      channels lo..hi-1: no list repeats a channel, no channel is in two lists,
      every listed channel is in range and every channel in range is listed. */
  lemma Exclusive(xs: seq<seq<nat>>, lo: nat, hi: nat)
    requires lo <= hi && multiset(Flatten(xs)) == multiset(Range(lo, hi))
    ensures Partition(xs, lo, hi)
  {
    var r := Range(lo, hi);
    assert NoDup(r);
    forall i | 0 <= i < |xs| ensures NoDup(xs[i]) {
      if !NoDup(xs[i]) {
        var k1, k2 :| 0 <= k1 < k2 < |xs[i]| && xs[i][k1] == xs[i][k2];
        DupCount(xs[i], k1, k2);
        FlattenHolds(xs, i);
        NoDupCount(r, xs[i][k1]);
        assert false;
      }
    }
    forall i, j, c | 0 <= i < |xs| && 0 <= j < |xs| && c in xs[i] && c in xs[j] ensures i == j {
      if i != j {
        if i < j { FlattenHoldsTwo(xs, i, j); } else { FlattenHoldsTwo(xs, j, i); }
        NoDupCount(r, c);
        assert false;
      }
    }
    forall i, c | 0 <= i < |xs| && c in xs[i] ensures lo <= c < hi {
      FlattenHolds(xs, i);
      assert c in multiset(r);
    }
    forall c | lo <= c < hi ensures Listed(xs, c) {
      assert r[c - lo] == c;
      assert c in multiset(Flatten(xs));
      FlattenFrom(xs, c);
    }
  }

  lemma {:induction false} FlattenNothing(xs: seq<seq<nat>>)
    requires forall i :: 0 <= i < |xs| ==> xs[i] == []
    ensures Flatten(xs) == []
    decreases |xs|
  {
    if xs != [] {
      FlattenNothing(xs[1..]);
    }
  }

  // ---------------------------------------------------------------------------
  // The build, from units that have no channels yet

  /** Every channel lo..hi-1 is in exactly one outbound list and exactly one inbound
      list, once; so the outbound and inbound lists have the same total length. */
  ghost predicate ChannelsOnce(r: seq<Status>, lo: nat, hi: nat) {
    && Partition(Dones(r), lo, hi)
    && Partition(Waits(r), lo, hi)
    && |Flatten(Dones(r))| == |Flatten(Waits(r))|
  }

  /** Every visited unit's k-th inbound channel is an outbound channel of the unit
      its k-th dependency name denotes. */
  ghost predicate AllResolved(r: seq<Status>, index: map<string, nat>, depsOf: seq<seq<string>>, keys: seq<string>)
    requires IndexOk(index, |r|) && |depsOf| == |r|
    requires forall p :: 0 <= p < |keys| ==> keys[p] in index
  {
    forall p :: 0 <= p < |keys| ==> Resolved(r, index, index[keys[p]], depsOf[index[keys[p]]])
  }

  /** Every unit has one outbound channel per declared name that denotes it. */
  ghost predicate FanOutIs(r: seq<Status>, index: map<string, nat>, depsOf: seq<seq<string>>, keys: seq<string>) {
    forall j :: 0 <= j < |r| ==> |r[j].doneNotification| == SumOver(keys, FanOut(index, depsOf, j))
  }

  lemma BuildChannels(n: nat, index: map<string, nat>, depsOf: seq<seq<string>>, keys: seq<string>, next: nat)
    requires IndexOk(index, n) && |depsOf| == n
    requires forall p :: 0 <= p < |keys| ==> keys[p] in index
    requires WireAll(Empty(n), index, depsOf, keys, next).Some?
    ensures var (r, hi) := WireAll(Empty(n), index, depsOf, keys, next).value;
      ChannelsOnce(r, next, hi) && hi == next + SumOver(keys, DepCount(index, depsOf))
  {
    var st := Empty(n);
    var (r, hi) := WireAll(st, index, depsOf, keys, next).value;
    WireAllCount(st, index, depsOf, keys, next);
    WireAllChannels(st, index, depsOf, keys, next);
    FlattenNothing(Dones(st));
    FlattenNothing(Waits(st));
    Exclusive(Dones(r), next, hi);
    Exclusive(Waits(r), next, hi);
    assert |Flatten(Dones(r))| == |multiset(Flatten(Dones(r)))| == |multiset(Flatten(Waits(r)))| == |Flatten(Waits(r))|;
  }

  lemma BuildWiring(n: nat, index: map<string, nat>, depsOf: seq<seq<string>>, keys: seq<string>, next: nat)
    requires IndexOk(index, n) && |depsOf| == n && Injective(index) && NoDup(keys)
    requires forall p :: 0 <= p < |keys| ==> keys[p] in index
    requires WireAll(Empty(n), index, depsOf, keys, next).Some?
    ensures var r := WireAll(Empty(n), index, depsOf, keys, next).value.0;
      && AllResolved(r, index, depsOf, keys)
      && (forall i :: 0 <= i < n && Unvisited(index, keys, i) ==> r[i].waiting == [])
      && FanOutIs(r, index, depsOf, keys)
  {
    var st := Empty(n);
    var r := WireAll(st, index, depsOf, keys, next).value.0;
    WireAllResolves(st, index, depsOf, keys, next);
    WireAllExtends(st, index, depsOf, keys, next);
    forall j | 0 <= j < n
      ensures |r[j].doneNotification| == SumOver(keys, FanOut(index, depsOf, j))
    {
      WireAllFan(st, index, depsOf, keys, next, j);
    }
  }

  /** What a build from scratch yields: it fails exactly when a visited unit names
      an unknown task; otherwise it allocates one channel per declared name, every
      channel has exactly one producer and one consumer, every visited unit has one
      inbound channel per declared name, coming from the unit that name denotes,
      and every unit has one outbound channel per name that denotes it. */
  lemma BuildFromScratch(n: nat, index: map<string, nat>, depsOf: seq<seq<string>>, keys: seq<string>, next: nat)
    requires IndexOk(index, n) && |depsOf| == n && Injective(index) && NoDup(keys)
    requires forall p :: 0 <= p < |keys| ==> keys[p] in index
    ensures WireAll(Empty(n), index, depsOf, keys, next).Some?
        <==> forall p :: 0 <= p < |keys| ==> Resolvable(index, depsOf[index[keys[p]]])
    ensures WireAll(Empty(n), index, depsOf, keys, next).Some? ==>
      var (r, hi) := WireAll(Empty(n), index, depsOf, keys, next).value;
      && hi == next + SumOver(keys, DepCount(index, depsOf))
      && ChannelsOnce(r, next, hi)
      && AllResolved(r, index, depsOf, keys)
      && (forall i :: 0 <= i < n && Unvisited(index, keys, i) ==> r[i].waiting == [])
      && FanOutIs(r, index, depsOf, keys)
  {
    WireAllDefined(Empty(n), index, depsOf, keys, next);
    if WireAll(Empty(n), index, depsOf, keys, next).Some? {
      BuildChannels(n, index, depsOf, keys, next);
      BuildWiring(n, index, depsOf, keys, next);
    }
  }

  lemma SameKeysResolvable(index: map<string, nat>, depsOf: seq<seq<string>>, keys1: seq<string>, keys2: seq<string>)
    requires IndexOk(index, |depsOf|) && multiset(keys1) == multiset(keys2)
    requires forall p :: 0 <= p < |keys1| ==> keys1[p] in index
    requires forall p :: 0 <= p < |keys2| ==> keys2[p] in index
    requires forall p :: 0 <= p < |keys1| ==> Resolvable(index, depsOf[index[keys1[p]]])
    ensures forall p :: 0 <= p < |keys2| ==> Resolvable(index, depsOf[index[keys2[p]]])
  {
    forall p | 0 <= p < |keys2| ensures Resolvable(index, depsOf[index[keys2[p]]]) {
      assert keys2[p] in multiset(keys1);
    }
  }

  lemma SameKeysVisited(index: map<string, nat>, keys1: seq<string>, keys2: seq<string>, i: nat)
    requires multiset(keys1) == multiset(keys2)
    requires forall p :: 0 <= p < |keys1| ==> keys1[p] in index
    requires forall p :: 0 <= p < |keys2| ==> keys2[p] in index
    requires Unvisited(index, keys1, i)
    ensures Unvisited(index, keys2, i)
  {
    forall p | 0 <= p < |keys2| ensures index[keys2[p]] != i {
      assert keys2[p] in multiset(keys1);
    }
  }

  /** Unit i has as many inbound channels in r1 as in r2, and its k-th inbound
      channel comes, in both, from the unit its k-th dependency name denotes. */
  ghost predicate SameInputs(r1: seq<Status>, r2: seq<Status>, index: map<string, nat>, depsOf: seq<seq<string>>, i: nat)
    requires |r1| == |r2| && IndexOk(index, |r1|) && i < |r1| && |depsOf| == |r1|
  {
    && |r1[i].waiting| == |r2[i].waiting|
    && forall k :: 0 <= k < |r1[i].waiting| ==>
         && 0 <= k < |depsOf[i]| && depsOf[i][k] in index
         && r1[i].waiting[k] in r1[index[depsOf[i][k]]].doneNotification
         && r2[i].waiting[k] in r2[index[depsOf[i][k]]].doneNotification
  }

  /** The order in which the name map is visited does not matter: two visiting
      orders of the same keys both succeed or both fail, allocate the same number of
      channels, give every unit the same number of inbound and outbound channels,
      and connect every unit's k-th inbound channel to the same producing unit,
      the one its k-th dependency name denotes. Only the channel numbers differ. */
  lemma OrderIndependent(n: nat, index: map<string, nat>, depsOf: seq<seq<string>>, keys1: seq<string>, keys2: seq<string>, next: nat)
    requires IndexOk(index, n) && |depsOf| == n && Injective(index)
    requires NoDup(keys1) && NoDup(keys2) && multiset(keys1) == multiset(keys2)
    requires forall p :: 0 <= p < |keys1| ==> keys1[p] in index
    requires forall p :: 0 <= p < |keys2| ==> keys2[p] in index
    ensures WireAll(Empty(n), index, depsOf, keys1, next).Some? <==> WireAll(Empty(n), index, depsOf, keys2, next).Some?
    ensures WireAll(Empty(n), index, depsOf, keys1, next).Some? ==>
      var (r1, hi1) := WireAll(Empty(n), index, depsOf, keys1, next).value;
      var (r2, hi2) := WireAll(Empty(n), index, depsOf, keys2, next).value;
      && hi1 == hi2
      && (forall i :: 0 <= i < n ==> |r1[i].doneNotification| == |r2[i].doneNotification|)
      && (forall i :: 0 <= i < n ==> SameInputs(r1, r2, index, depsOf, i))
  {
    SameSuccess(n, index, depsOf, keys1, keys2, next);
    if WireAll(Empty(n), index, depsOf, keys1, next).Some? {
      var (r1, hi1) := WireAll(Empty(n), index, depsOf, keys1, next).value;
      var (r2, hi2) := WireAll(Empty(n), index, depsOf, keys2, next).value;
      SameCounts(n, index, depsOf, keys1, keys2, next);
      forall i | 0 <= i < n ensures SameInputs(r1, r2, index, depsOf, i) {
        SameInbound(n, index, depsOf, keys1, keys2, next, i);
      }
    }
  }

  /** Two visiting orders of the same keys both succeed or both fail. */
  lemma SameSuccess(n: nat, index: map<string, nat>, depsOf: seq<seq<string>>, keys1: seq<string>, keys2: seq<string>, next: nat)
    requires IndexOk(index, n) && |depsOf| == n && multiset(keys1) == multiset(keys2)
    requires forall p :: 0 <= p < |keys1| ==> keys1[p] in index
    requires forall p :: 0 <= p < |keys2| ==> keys2[p] in index
    ensures WireAll(Empty(n), index, depsOf, keys1, next).Some? <==> WireAll(Empty(n), index, depsOf, keys2, next).Some?
  {
    WireAllDefined(Empty(n), index, depsOf, keys1, next);
    WireAllDefined(Empty(n), index, depsOf, keys2, next);
    if WireAll(Empty(n), index, depsOf, keys1, next).Some? {
      SameKeysResolvable(index, depsOf, keys1, keys2);
    }
    if WireAll(Empty(n), index, depsOf, keys2, next).Some? {
      SameKeysResolvable(index, depsOf, keys2, keys1);
    }
  }

  /** Two visiting orders allocate the same number of channels and give every unit
      the same number of outbound channels. */
  lemma SameCounts(n: nat, index: map<string, nat>, depsOf: seq<seq<string>>, keys1: seq<string>, keys2: seq<string>, next: nat)
    requires IndexOk(index, n) && |depsOf| == n && multiset(keys1) == multiset(keys2)
    requires forall p :: 0 <= p < |keys1| ==> keys1[p] in index
    requires forall p :: 0 <= p < |keys2| ==> keys2[p] in index
    requires WireAll(Empty(n), index, depsOf, keys1, next).Some? && WireAll(Empty(n), index, depsOf, keys2, next).Some?
    ensures var (r1, hi1) := WireAll(Empty(n), index, depsOf, keys1, next).value;
      var (r2, hi2) := WireAll(Empty(n), index, depsOf, keys2, next).value;
      && hi1 == hi2
      && (forall j :: 0 <= j < n ==> |r1[j].doneNotification| == |r2[j].doneNotification|)
  {
    var st := Empty(n);
    var (r1, hi1) := WireAll(st, index, depsOf, keys1, next).value;
    var (r2, hi2) := WireAll(st, index, depsOf, keys2, next).value;
    WireAllCount(st, index, depsOf, keys1, next);
    WireAllCount(st, index, depsOf, keys2, next);
    SumOverPermutation(keys1, keys2, DepCount(index, depsOf));
    forall j | 0 <= j < n ensures |r1[j].doneNotification| == |r2[j].doneNotification| {
      WireAllFan(st, index, depsOf, keys1, next, j);
      WireAllFan(st, index, depsOf, keys2, next, j);
      SumOverPermutation(keys1, keys2, FanOut(index, depsOf, j));
    }
  }

  /** Under two visiting orders, unit i gets the same number of inbound channels,
      each coming from the same producing unit. */
  lemma SameInbound(n: nat, index: map<string, nat>, depsOf: seq<seq<string>>, keys1: seq<string>, keys2: seq<string>, next: nat, i: nat)
    requires IndexOk(index, n) && |depsOf| == n && Injective(index) && i < n
    requires NoDup(keys1) && NoDup(keys2) && multiset(keys1) == multiset(keys2)
    requires forall p :: 0 <= p < |keys1| ==> keys1[p] in index
    requires forall p :: 0 <= p < |keys2| ==> keys2[p] in index
    requires WireAll(Empty(n), index, depsOf, keys1, next).Some? && WireAll(Empty(n), index, depsOf, keys2, next).Some?
    ensures var r1 := WireAll(Empty(n), index, depsOf, keys1, next).value.0;
      var r2 := WireAll(Empty(n), index, depsOf, keys2, next).value.0;
      SameInputs(r1, r2, index, depsOf, i)
  {
    var st := Empty(n);
    var r1 := WireAll(st, index, depsOf, keys1, next).value.0;
    var r2 := WireAll(st, index, depsOf, keys2, next).value.0;
    if Unvisited(index, keys1, i) {
      SameKeysVisited(index, keys1, keys2, i);
      WireAllExtends(st, index, depsOf, keys1, next);
      WireAllExtends(st, index, depsOf, keys2, next);
    } else {
      WireAllResolves(st, index, depsOf, keys1, next);
      WireAllResolves(st, index, depsOf, keys2, next);
      var p :| 0 <= p < |keys1| && index[keys1[p]] == i;
      assert keys1[p] in multiset(keys2);
      var q :| 0 <= q < |keys2| && keys2[q] == keys1[p];
      assert Resolved(r1, index, i, depsOf[i]);
      assert Resolved(r2, index, i, depsOf[i]);
    }
  }

  // ---------------------------------------------------------------------------
  // A build from scratch over distinct names

  /** `order` is one iteration order of a map whose keys are the entries of `names`:
      every key once. */
  ghost predicate IsOrderOf(order: seq<string>, names: seq<string>) {
    NoDup(order) && forall k :: k in order <==> k in names
  }

  /** What a successful build guarantees about the channel lists `st` of the units
      named `names`, declaring `depsOf`, resolved in `mapOrder` with channels lo..hi-1:
      every unit has one inbound channel per declared name, its k-th inbound channel
      is an outbound channel of the unit its k-th name denotes, and every channel
      has exactly one sender slot and one receiver slot. */
  ghost predicate Wired(st: seq<Status>, names: seq<string>, depsOf: seq<seq<string>>, mapOrder: seq<string>, lo: nat, hi: nat) {
    && |st| == |names| == |depsOf|
    && (forall p :: 0 <= p < |mapOrder| ==> mapOrder[p] in Positions(names))
    && (forall i :: 0 <= i < |st| ==> |st[i].waiting| == |depsOf[i]|)
    && AllResolved(st, Positions(names), depsOf, mapOrder)
    && ChannelsOnce(st, lo, hi)
  }

  /** Wiring units with distinct names and no channels yet, visiting every name
      once: it succeeds iff every visited unit's names all denote units, and then
      the result is wired. */
  lemma BuildWired(names: seq<string>, depsOf: seq<seq<string>>, mapOrder: seq<string>, next: nat)
    requires NoDup(names) && |depsOf| == |names| && IsOrderOf(mapOrder, names)
    ensures forall p :: 0 <= p < |mapOrder| ==> mapOrder[p] in Positions(names)
    ensures var w := WireAll(Empty(|names|), Positions(names), depsOf, mapOrder, next);
      && (w.Some? <==> forall p :: 0 <= p < |mapOrder| ==> Resolvable(Positions(names), depsOf[Positions(names)[mapOrder[p]]]))
      && (w.Some? ==> Wired(w.value.0, names, depsOf, mapOrder, next, w.value.1))
  {
    var index := Positions(names);
    PositionsInjective(names);
    PositionsOfDistinct(names);
    BuildFromScratch(|names|, index, depsOf, mapOrder, next);
    var w := WireAll(Empty(|names|), index, depsOf, mapOrder, next);
    if w.Some? {
      forall i | 0 <= i < |names| ensures |w.value.0[i].waiting| == |depsOf[i]| {
        assert names[i] in names;
        var p :| 0 <= p < |mapOrder| && mapOrder[p] == names[i];
        assert Resolved(w.value.0, index, index[mapOrder[p]], depsOf[index[mapOrder[p]]]);
      }
    }
  }
}
