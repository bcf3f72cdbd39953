// Futures contract-role derivation (OkexfRestApi.onQueryContract). The
// exchange lists dated instruments such as "BTC-USD-181228". The gateway
// groups the listed ids by their first seven characters, stopping at the
// first id that contains "BTG". In each group the largest date suffix
// (string order) becomes "<asset>_quarter", the smallest
// "<asset>_this_week", and the first of the remaining ones
// "<asset>_next_week". These names go into contractMap, and
// contractReverseMap maps each name back to its instrument id. Python's
// dicts keep insertion order and the algorithm depends on it, so ordered
// maps carry their key order explicitly.

module Contracts {
  import opened Common

  /** A dict from strings to strings with Python's insertion order. */
  datatype OMap = OMap(keys: seq<string>, m: map<string, string>)
  {
    ghost predicate Valid()
    {
      (forall i, j :: 0 <= i < j < |keys| ==> keys[i] != keys[j]) &&
      (forall k :: k in m <==> k in keys)
    }
  }

  const EmptyOMap := OMap([], map[])

  /** d[k] = v: a new key goes last, an existing key keeps its place. */
  function Put(d: OMap, k: string, v: string): (r: OMap)
    requires d.Valid()
    ensures r.Valid()
    ensures r.m == d.m[k := v]
    ensures r.keys == if k in d.m then d.keys else d.keys + [k]
  {
    OMap(if k in d.m then d.keys else d.keys + [k], d.m[k := v])
  }

  /** The keys of contractDict after listing `data`: an id not seen before is appended. */
  function ListingKeys(known: seq<string>, data: seq<string>): (keys: seq<string>)
    decreases |data|
  {
    if data == [] then known
    else
      var last := data[|data| - 1];
      var before := ListingKeys(known, data[..|data| - 1]);
      if last in before then before else before + [last]
  }

  /** The ids grouped before the loop meets the first id containing "BTG". */
  function BeforeBtg(keys: seq<string>): (r: seq<string>)
    ensures r <= keys
    ensures forall i :: 0 <= i < |r| ==> !Contains(r[i], "BTG")
    ensures |r| < |keys| ==> Contains(keys[|r|], "BTG")
  {
    if keys == [] || Contains(keys[0], "BTG") then []
    else [keys[0]] + BeforeBtg(keys[1..])
  }

  /** newcontractDict: an insertion-ordered dict from a 7-character prefix to its list of suffixes. */
  datatype Groups = Groups(order: seq<string>, members: map<string, seq<string>>)
  {
    ghost predicate Valid()
    {
      (forall i, j :: 0 <= i < j < |order| ==> order[i] != order[j]) &&
      (forall p :: p in members <==> p in order) &&
      (forall p :: p in members ==> |members[p]| >= 1)
    }
  }

  /** The prefix an id is grouped under: newcontract[:7]. */
  function Prefix(id: string): string { Take(id, 7) }

  /** The suffix an id contributes: newcontract[8:]. */
  function Suffix(id: string): string { Drop(id, 8) }

  function AddId(g: Groups, id: string): (r: Groups)
    requires g.Valid()
    ensures r.Valid()
  {
    var p := Prefix(id);
    if p in g.members then Groups(g.order, g.members[p := g.members[p] + [Suffix(id)]])
    else Groups(g.order + [p], g.members[p := [Suffix(id)]])
  }

  /** Grouping of a list of ids, one id after the other. */
  function GroupIds(ids: seq<string>): (g: Groups)
    ensures g.Valid()
    decreases |ids|
  {
    if ids == [] then Groups([], map[])
    else AddId(GroupIds(ids[..|ids| - 1]), ids[|ids| - 1])
  }

  /** key + '-' + suffix: the id a suffix of a group stands for. */
  function Key(prefix: string, suffix: string): string
  {
    prefix + "-" + suffix
  }

  /** lower(key[:3]) + tag. */
  function RoleName(prefix: string, tag: string): string
  {
    Lower(Take(prefix, 3)) + tag
  }

  /** Outcome of one group: the contract map afterwards, and whether Python got through the group. */
  datatype Step = Step(map_: OMap, ok: bool)

  /** The body of the loop over newcontractDict for one group. With one suffix
      min() of the emptied list raises; with two, value[0] of the emptied list does. */
  function AssignGroup(cm: OMap, prefix: string, value: seq<string>): (r: Step)
    requires cm.Valid() && |value| >= 1
    ensures r.map_.Valid()
  {
    var hi := MaxStr(value);
    var lo := MinStr(value);
    var cm1 := Put(cm, Key(prefix, hi), RoleName(prefix, "_quarter"));
    var cm2 := Put(cm1, Key(prefix, lo), RoleName(prefix, "_this_week"));
    var rest1 := RemoveFirst(value, hi);
    if rest1 == [] then Step(cm2, false)
    else
      var rest2 := RemoveFirst(rest1, MinStr(rest1));
      if rest2 == [] then Step(cm2, false)
      else Step(Put(cm2, Key(prefix, rest2[0]), RoleName(prefix, "_next_week")), true)
  }

  /** The loop over the groups, in insertion order; it stops at the first group that raises. */
  function AssignGroups(cm: OMap, g: Groups, n: nat): (r: Step)
    requires cm.Valid() && g.Valid() && n <= |g.order|
    ensures r.map_.Valid()
  {
    if n == 0 then Step(cm, true)
    else
      var prev := AssignGroups(cm, g, n - 1);
      if !prev.ok then prev else AssignGroup(prev.map_, g.order[n - 1], g.members[g.order[n - 1]])
  }

  /** The loop over contractMap that fills contractReverseMap; contractDict[key] raises for
      a name whose id was never listed. */
  function ReverseInto(rev: map<string, string>, cm: OMap, known: seq<string>, n: nat): (r: (map<string, string>, bool))
    requires n <= |cm.keys| && cm.Valid()
  {
    if n == 0 then (rev, true)
    else
      var prev := ReverseInto(rev, cm, known, n - 1);
      var k := cm.keys[n - 1];
      if !prev.1 then prev
      else if k !in known then (prev.0, false)
      else (prev.0[cm.m[k] := k], true)
  }

  // -----------------------------------------------------------------------
  // Facts the loops of onQueryContract rest on

  /** Grouping one more id of a list. */
  lemma GroupIdsNext(keys: seq<string>, j: nat)
    requires j < |keys|
    ensures GroupIds(keys[..j + 1]) == AddId(GroupIds(keys[..j]), keys[j])
  {
    assert keys[..j + 1][..j] == keys[..j];
  }

  /** Once a name's id is missing, the later names are not reached. */
  lemma {:induction false} ReverseIntoStuck(rev: map<string, string>, cm: OMap, known: seq<string>, n: nat, m: nat)
    requires cm.Valid() && n <= m <= |cm.keys|
    requires !ReverseInto(rev, cm, known, n).1
    ensures ReverseInto(rev, cm, known, m) == ReverseInto(rev, cm, known, n)
    decreases m
  {
    if m > n {
      ReverseIntoStuck(rev, cm, known, n, m - 1);
    }
  }

  // -----------------------------------------------------------------------
  // Properties

  /** Every listed id before the first "BTG" id is grouped under its prefix, and groups hold nothing else. */
  lemma {:induction false} GroupIdsContents(ids: seq<string>)
    ensures forall i :: 0 <= i < |ids| ==> Prefix(ids[i]) in GroupIds(ids).members &&
                                             Suffix(ids[i]) in GroupIds(ids).members[Prefix(ids[i])]
    ensures forall p, s :: p in GroupIds(ids).members && s in GroupIds(ids).members[p] ==>
              exists i :: 0 <= i < |ids| && Prefix(ids[i]) == p && Suffix(ids[i]) == s
  {
    if ids != [] {
      var init := ids[..|ids| - 1];
      GroupIdsContents(init);
      var g := GroupIds(init);
      var id := ids[|ids| - 1];
      forall i | 0 <= i < |ids| ensures Prefix(ids[i]) in GroupIds(ids).members &&
                                        Suffix(ids[i]) in GroupIds(ids).members[Prefix(ids[i])] {
        if i < |ids| - 1 { assert ids[i] == init[i]; }
      }
      forall p, s | p in GroupIds(ids).members && s in GroupIds(ids).members[p]
        ensures exists i :: 0 <= i < |ids| && Prefix(ids[i]) == p && Suffix(ids[i]) == s
      {
        if p == Prefix(id) && s == Suffix(id) {
          assert Prefix(ids[|ids| - 1]) == p && Suffix(ids[|ids| - 1]) == s;
        } else {
          assert p in g.members && s in g.members[p];
          var i :| 0 <= i < |init| && Prefix(init[i]) == p && Suffix(init[i]) == s;
          assert ids[i] == init[i];
        }
      }
    }
  }

  /** A group fails exactly when it has fewer than three suffixes. */
  lemma GroupFailsIffShort(cm: OMap, prefix: string, value: seq<string>)
    requires cm.Valid() && |value| >= 1
    ensures AssignGroup(cm, prefix, value).ok <==> |value| >= 3
  {
  }

  /** The suffixes a group has left once its largest, and then the smallest of the rest, are removed. */
  function Remaining(value: seq<string>): (r: seq<string>)
    requires |value| >= 2
    ensures |r| == |value| - 2
    ensures multiset(r) <= multiset(value)
  {
    var rest1 := RemoveFirst(value, MaxStr(value));
    RemoveFirst(rest1, MinStr(rest1))
  }

  /** The shape of a group that gets through, for any number of suffixes from three up:
      the largest is quarter, the smallest this-week, and the first of the remaining
      ones next-week. */
  lemma GroupShape(cm: OMap, prefix: string, value: seq<string>)
    requires cm.Valid() && |value| >= 3
    ensures var r := AssignGroup(cm, prefix, value);
            |Remaining(value)| >= 1 &&
            r.ok &&
            r.map_.m == cm.m[Key(prefix, MaxStr(value)) := RoleName(prefix, "_quarter")]
                            [Key(prefix, MinStr(value)) := RoleName(prefix, "_this_week")]
                            [Key(prefix, Remaining(value)[0]) := RoleName(prefix, "_next_week")]
  {
  }

  lemma MembersOfThree(value: seq<string>, a: string, b: string, c: string)
    requires multiset(value) == multiset{a, b, c}
    ensures forall x :: x in value <==> x == a || x == b || x == c
  {
    forall x ensures x in value <==> x in multiset(value) { }
  }

  lemma MembersOfTwo(value: seq<string>, a: string, b: string)
    requires multiset(value) == multiset{a, b}
    ensures forall x :: x in value <==> x == a || x == b
  {
    forall x ensures x in value <==> x in multiset(value) { }
  }

  lemma MaxOfThree(value: seq<string>, lo: string, mid: string, hi: string)
    requires StrLess(lo, mid) && StrLess(mid, hi)
    requires |value| >= 1 && multiset(value) == multiset{lo, mid, hi}
    ensures MaxStr(value) == hi
  {
    StrLessTransitive(lo, mid, hi);
    MembersOfThree(value, lo, mid, hi);
    assert hi in value;
    assert !StrLess(MaxStr(value), hi);
  }

  lemma MinOfThree(value: seq<string>, lo: string, mid: string, hi: string)
    requires StrLess(lo, mid) && StrLess(mid, hi)
    requires |value| >= 1 && multiset(value) == multiset{lo, mid, hi}
    ensures MinStr(value) == lo
  {
    StrLessTransitive(lo, mid, hi);
    MembersOfThree(value, lo, mid, hi);
    assert lo in value;
    assert !StrLess(lo, MinStr(value));
  }

  lemma MinOfTwo(value: seq<string>, lo: string, mid: string)
    requires StrLess(lo, mid)
    requires |value| >= 1 && multiset(value) == multiset{lo, mid}
    ensures MinStr(value) == lo
  {
    MembersOfTwo(value, lo, mid);
    assert lo in value;
    assert !StrLess(lo, MinStr(value));
  }

  lemma OnlyElement(value: seq<string>, x: string)
    requires multiset(value) == multiset{x}
    ensures value == [x]
  {
    assert |value| == 1;
    assert value[0] in multiset(value);
    assert value == [value[0]];
  }

  /** The removals AssignGroup performs on three distinct suffixes lo < mid < hi leave mid. */
  lemma ThreeRemovals(value: seq<string>, lo: string, mid: string, hi: string)
    requires StrLess(lo, mid) && StrLess(mid, hi)
    requires |value| == 3 && multiset(value) == multiset{lo, mid, hi}
    ensures MaxStr(value) == hi && MinStr(value) == lo
    ensures var rest1 := RemoveFirst(value, hi);
            |rest1| >= 1 && RemoveFirst(rest1, MinStr(rest1)) == [mid]
  {
    MaxOfThree(value, lo, mid, hi);
    MinOfThree(value, lo, mid, hi);
    TwoRemovals(RemoveFirst(value, hi), lo, mid, hi, value);
  }

  lemma TwoRemovals(rest1: seq<string>, lo: string, mid: string, hi: string, value: seq<string>)
    requires StrLess(lo, mid)
    requires multiset(value) == multiset{lo, mid, hi}
    requires multiset(rest1) == multiset(value) - multiset{hi} && |rest1| >= 1
    ensures RemoveFirst(rest1, MinStr(rest1)) == [mid]
  {
    RestOfThree(rest1, lo, mid, hi, value);
    RemoveMinOfTwo(rest1, lo, mid);
  }

  lemma RestOfThree(rest1: seq<string>, lo: string, mid: string, hi: string, value: seq<string>)
    requires multiset(value) == multiset{lo, mid, hi}
    requires multiset(rest1) == multiset(value) - multiset{hi}
    ensures multiset(rest1) == multiset{lo, mid}
  {
  }

  lemma RemoveMinOfTwo(rest1: seq<string>, lo: string, mid: string)
    requires StrLess(lo, mid) && |rest1| >= 1
    requires multiset(rest1) == multiset{lo, mid}
    ensures RemoveFirst(rest1, MinStr(rest1)) == [mid]
  {
    MinOfTwo(rest1, lo, mid);
    OnlyElement(RemoveFirst(rest1, lo), mid);
  }

  /** With exactly three distinct suffixes lo < mid < hi (in any list order) the
      three ids get the quarter, this-week and next-week names. */
  lemma {:induction false} ThreeSuffixRoles(cm: OMap, prefix: string, value: seq<string>, lo: string, mid: string, hi: string)
    requires cm.Valid()
    requires StrLess(lo, mid) && StrLess(mid, hi)
    requires |value| == 3 && multiset(value) == multiset{lo, mid, hi}
    ensures var r := AssignGroup(cm, prefix, value);
            r.ok &&
            r.map_.m == cm.m[Key(prefix, hi) := RoleName(prefix, "_quarter")]
                            [Key(prefix, lo) := RoleName(prefix, "_this_week")]
                            [Key(prefix, mid) := RoleName(prefix, "_next_week")]
  {
    ThreeRemovals(value, lo, mid, hi);
    assert Remaining(value) == [mid];
    GroupShape(cm, prefix, value);
  }

  /** The group a key built by Key belongs to: its first seven characters, or, for an
      id shorter than seven characters (whose suffix is empty), all but the final '-'. */
  function KeyPrefix(key: string): string
  {
    if |key| >= 8 then key[..7] else if key == [] then [] else key[..|key| - 1]
  }

  /** Every key built from a grouped id leads back to its group, so keys of different
      groups never collide. */
  lemma KeyPrefixOf(ids: seq<string>, p: string, s: string)
    requires p in GroupIds(ids).members && s in GroupIds(ids).members[p]
    ensures KeyPrefix(Key(p, s)) == p
  {
    GroupIdsContents(ids);
    var i :| 0 <= i < |ids| && Prefix(ids[i]) == p && Suffix(ids[i]) == s;
    if |ids[i]| >= 7 {
      assert Key(p, s)[..7] == p;
    } else {
      assert Key(p, s) == p + "-";
    }
  }

  /** Different suffixes of one group give different keys. */
  lemma KeysDiffer(p: string, a: string, b: string)
    requires a != b
    ensures Key(p, a) != Key(p, b)
  {
    assert Key(p, a)[|p| + 1..] == a;
    assert Key(p, b)[|p| + 1..] == b;
  }

  /** Keys of two different groups differ. */
  ghost predicate Separated(g: Groups)
  {
    forall p, a, q, b :: p in g.members && a in g.members[p] && q in g.members && b in g.members[q] && p != q ==>
      Key(p, a) != Key(q, b)
  }

  /** The grouping of listed ids is separated: a key leads back to its own group. */
  lemma GroupIdsSeparated(ids: seq<string>)
    ensures Separated(GroupIds(ids))
  {
    var g := GroupIds(ids);
    forall p, a, q, b | p in g.members && a in g.members[p] && q in g.members && b in g.members[q] && p != q
      ensures Key(p, a) != Key(q, b)
    {
      KeyPrefixOf(ids, p, a);
      KeyPrefixOf(ids, q, b);
    }
  }

  /** Naming one group leaves the names of keys outside that group alone. */
  lemma AssignGroupKeeps(cm: OMap, q: string, value: seq<string>, k: string)
    requires cm.Valid() && |value| >= 1
    requires forall s :: s in value ==> Key(q, s) != k
    requires k in cm.m
    ensures k in AssignGroup(cm, q, value).map_.m
    ensures AssignGroup(cm, q, value).map_.m[k] == cm.m[k]
  {
    if |value| >= 3 {
      GroupShape(cm, q, value);
      RemainingIn(value);
    }
  }

  lemma RemainingIn(value: seq<string>)
    requires |value| >= 3
    ensures Remaining(value)[0] in value
  {
    assert Remaining(value)[0] in multiset(Remaining(value));
  }

  /** The ids of group p with suffixes lo < mid < hi carry the this-week, next-week and quarter names. */
  ghost predicate Named(m: map<string, string>, p: string, lo: string, mid: string, hi: string)
  {
    Key(p, hi) in m && m[Key(p, hi)] == RoleName(p, "_quarter") &&
    Key(p, lo) in m && m[Key(p, lo)] == RoleName(p, "_this_week") &&
    Key(p, mid) in m && m[Key(p, mid)] == RoleName(p, "_next_week")
  }

  /** The names of a group with three distinct suffixes lo < mid < hi survive the whole
      naming loop: once the groups before it got through, its three ids have the quarter,
      this-week and next-week names after any number of later groups, even when one of
      those raises. */
  lemma AssignGroupsRoles(cm: OMap, g: Groups, i: nat, n: nat, lo: string, mid: string, hi: string)
    requires cm.Valid() && g.Valid() && Separated(g) && i < n <= |g.order|
    requires AssignGroups(cm, g, i).ok
    requires StrLess(lo, mid) && StrLess(mid, hi)
    requires |g.members[g.order[i]]| == 3 && multiset(g.members[g.order[i]]) == multiset{lo, mid, hi}
    ensures Named(AssignGroups(cm, g, n).map_.m, g.order[i], lo, mid, hi)
  {
    var k := i + 1;
    GroupReachedRoles(cm, g, i, k, lo, mid, hi);
    while k < n
      invariant i + 1 <= k <= n
      invariant Named(AssignGroups(cm, g, k).map_.m, g.order[i], lo, mid, hi)
    {
      RolesCarried(cm, g, i, k + 1, lo, mid, hi);
      k := k + 1;
    }
  }

  /** The step of AssignGroupsRoles: the n-th group keeps the names of the earlier group i. */
  lemma RolesCarried(cm: OMap, g: Groups, i: nat, n: nat, lo: string, mid: string, hi: string)
    requires cm.Valid() && g.Valid() && Separated(g) && i + 1 < n <= |g.order|
    requires multiset(g.members[g.order[i]]) == multiset{lo, mid, hi}
    requires Named(AssignGroups(cm, g, n - 1).map_.m, g.order[i], lo, mid, hi)
    ensures Named(AssignGroups(cm, g, n).map_.m, g.order[i], lo, mid, hi)
  {
    var p := g.order[i];
    MembersOfThree(g.members[p], lo, mid, hi);
    assert p in g.order[..n - 1] by { assert g.order[..n - 1][i] == p; }
    LaterGroupKeepsNamed(cm, g, n, p, lo, mid, hi);
  }

  /** One later group (the n-th) keeps the three names of an earlier group p. */
  lemma LaterGroupKeepsNamed(cm: OMap, g: Groups, n: nat, p: string, lo: string, mid: string, hi: string)
    requires cm.Valid() && g.Valid() && Separated(g) && 1 <= n <= |g.order|
    requires p in g.order[..n - 1] && lo in g.members[p] && mid in g.members[p] && hi in g.members[p]
    requires Named(AssignGroups(cm, g, n - 1).map_.m, p, lo, mid, hi)
    ensures Named(AssignGroups(cm, g, n).map_.m, p, lo, mid, hi)
  {
    LaterGroupKeeps(cm, g, n, p, hi);
    LaterGroupKeeps(cm, g, n, p, lo);
    LaterGroupKeeps(cm, g, n, p, mid);
  }

  /** One later group (the n-th) keeps the name of an id of an earlier group p. */
  lemma LaterGroupKeeps(cm: OMap, g: Groups, n: nat, p: string, a: string)
    requires cm.Valid() && g.Valid() && Separated(g) && 1 <= n <= |g.order|
    requires p in g.order[..n - 1] && a in g.members[p]
    requires Key(p, a) in AssignGroups(cm, g, n - 1).map_.m
    ensures Key(p, a) in AssignGroups(cm, g, n).map_.m
    ensures AssignGroups(cm, g, n).map_.m[Key(p, a)] == AssignGroups(cm, g, n - 1).map_.m[Key(p, a)]
  {
    var prev := AssignGroups(cm, g, n - 1);
    if prev.ok {
      var q := g.order[n - 1];
      assert q != p;
      AssignGroupKeeps(prev.map_, q, g.members[q], Key(p, a));
    }
  }

  /** A group the loop reaches is named as GroupRolesNamed says. */
  lemma GroupReachedRoles(cm: OMap, g: Groups, i: nat, n: nat, lo: string, mid: string, hi: string)
    requires cm.Valid() && g.Valid() && i < |g.order| && n == i + 1
    requires AssignGroups(cm, g, i).ok
    requires StrLess(lo, mid) && StrLess(mid, hi)
    requires |g.members[g.order[i]]| == 3 && multiset(g.members[g.order[i]]) == multiset{lo, mid, hi}
    ensures Named(AssignGroups(cm, g, n).map_.m, g.order[i], lo, mid, hi)
  {
    var prev := AssignGroups(cm, g, i);
    GroupRolesNamed(prev.map_, g.order[i], g.members[g.order[i]], lo, mid, hi);
  }

  /** The group itself: its three ids are named as ThreeSuffixRoles says, with no name overwritten. */
  lemma GroupRolesNamed(cm: OMap, p: string, value: seq<string>, lo: string, mid: string, hi: string)
    requires cm.Valid()
    requires StrLess(lo, mid) && StrLess(mid, hi)
    requires |value| == 3 && multiset(value) == multiset{lo, mid, hi}
    ensures Named(AssignGroup(cm, p, value).map_.m, p, lo, mid, hi)
  {
    StrLessIrreflexive(lo);
    StrLessIrreflexive(mid);
    StrLessTransitive(lo, mid, hi);
    KeysDiffer(p, lo, mid);
    KeysDiffer(p, lo, hi);
    KeysDiffer(p, mid, hi);
    ThreeSuffixRoles(cm, p, value, lo, mid, hi);
    ThreeUpdates(cm.m, Key(p, hi), Key(p, lo), Key(p, mid),
                 RoleName(p, "_quarter"), RoleName(p, "_this_week"), RoleName(p, "_next_week"));
  }

  lemma ThreeUpdates(m: map<string, string>, k1: string, k2: string, k3: string, v1: string, v2: string, v3: string)
    requires k1 != k2 && k1 != k3 && k2 != k3
    ensures var m' := m[k1 := v1][k2 := v2][k3 := v3];
            k1 in m' && m'[k1] == v1 && k2 in m' && m'[k2] == v2 && k3 in m' && m'[k3] == v3
  {
  }

  /** AssignGroupsRoles for the grouping of the listed ids, which is what onQueryContract
      names: every group with three distinct suffixes that the loop reaches keeps its
      three names in the final contractMap. */
  lemma ListedGroupRoles(cm: OMap, ids: seq<string>, i: nat, lo: string, mid: string, hi: string)
    requires cm.Valid() && i < |GroupIds(ids).order|
    requires AssignGroups(cm, GroupIds(ids), i).ok
    requires StrLess(lo, mid) && StrLess(mid, hi)
    requires |GroupIds(ids).members[GroupIds(ids).order[i]]| == 3
    requires multiset(GroupIds(ids).members[GroupIds(ids).order[i]]) == multiset{lo, mid, hi}
    ensures Named(AssignGroups(cm, GroupIds(ids), |GroupIds(ids).order|).map_.m, GroupIds(ids).order[i], lo, mid, hi)
  {
    var g := GroupIds(ids);
    GroupIdsSeparated(ids);
    AssignGroupsRoles(cm, g, i, |g.order|, lo, mid, hi);
  }

  /** Once a group raises, the later groups are not reached: contractMap stays as the
      failing group left it. */
  lemma {:induction false} AssignGroupsStuck(cm: OMap, g: Groups, n: nat, m: nat)
    requires cm.Valid() && g.Valid() && n <= m <= |g.order|
    requires !AssignGroups(cm, g, n).ok
    ensures AssignGroups(cm, g, m) == AssignGroups(cm, g, n)
    decreases m
  {
    if m > n {
      AssignGroupsStuck(cm, g, n, m - 1);
    }
  }

  lemma ExampleSuffixOrder()
    ensures StrLess("181228", "190329") && StrLess("190329", "190628")
  {
    assert "181228"[1..] == "81228" && "190329"[1..] == "90329";
    assert "190329"[1..] == "90329" && "190628"[1..] == "90628";
    assert "90329"[1..] == "0329" && "90628"[1..] == "0628";
    assert "0329"[1..] == "329" && "0628"[1..] == "628";
  }

  lemma ExampleNames()
    ensures RoleName("BTC-USD", "_quarter") == "btc_quarter"
    ensures RoleName("BTC-USD", "_this_week") == "btc_this_week"
    ensures RoleName("BTC-USD", "_next_week") == "btc_next_week"
  {
    assert Take("BTC-USD", 3) == "BTC";
    assert "BTC"[1..] == "TC" && "TC"[1..] == "C" && "C"[1..] == "";
    assert Lower("BTC") == "btc";
  }

  lemma ExampleIds()
    ensures Key("BTC-USD", "190628") == "BTC-USD-190628"
    ensures Key("BTC-USD", "181228") == "BTC-USD-181228"
    ensures Key("BTC-USD", "190329") == "BTC-USD-190329"
  {
  }

  /** The BTC-USD listing with suffixes 181228, 190329 and 190628. */
  lemma ExampleRoles(cm: OMap, value: seq<string>)
    requires cm.Valid() && value == ["190628", "181228", "190329"]
    ensures var r := AssignGroup(cm, "BTC-USD", value);
            r.ok &&
            r.map_.m == cm.m["BTC-USD-190628" := "btc_quarter"]
                            ["BTC-USD-181228" := "btc_this_week"]
                            ["BTC-USD-190329" := "btc_next_week"]
  {
    ExampleSuffixOrder();
    assert multiset(value) == multiset{"181228", "190329", "190628"};
    ThreeSuffixRoles(cm, "BTC-USD", value, "181228", "190329", "190628");
    ExampleNames();
    ExampleIds();
  }

  /** After a complete pass, contractReverseMap sends every new name back to an id
      that carries it, and covers every name of contractMap. */
  lemma {:induction false} ReverseIntoInverse(rev: map<string, string>, cm: OMap, known: seq<string>, n: nat)
    requires n <= |cm.keys| && cm.Valid()
    requires forall i :: 0 <= i < n ==> cm.keys[i] in known
    ensures var r := ReverseInto(rev, cm, known, n);
            r.1 &&
            (forall i :: 0 <= i < n ==> cm.m[cm.keys[i]] in r.0) &&
            (forall v :: v in r.0 ==> (v in rev && r.0[v] == rev[v]) ||
                                      (r.0[v] in cm.m && cm.m[r.0[v]] == v))
  {
    if n > 0 {
      ReverseIntoInverse(rev, cm, known, n - 1);
    }
  }

  /** A pass stops exactly at the first name whose id was never listed. */
  lemma {:induction false} ReverseIntoFails(rev: map<string, string>, cm: OMap, known: seq<string>, n: nat)
    requires n <= |cm.keys| && cm.Valid()
    ensures ReverseInto(rev, cm, known, n).1 <==> forall i :: 0 <= i < n ==> cm.keys[i] in known
  {
    if n > 0 {
      ReverseIntoFails(rev, cm, known, n - 1);
    }
  }

  ghost predicate Injective(m: map<string, string>)
  {
    forall a, b :: a in m && b in m && a != b ==> m[a] != m[b]
  }

  /** When no two ids share a name, contractReverseMap is the exact inverse of contractMap. */
  lemma {:induction false} ReverseIsInverse(cm: OMap, known: seq<string>)
    requires cm.Valid() && Injective(cm.m)
    requires forall k :: k in cm.m ==> k in known
    ensures var r := ReverseInto(map[], cm, known, |cm.keys|);
            r.1 &&
            (forall k :: k in cm.m ==> cm.m[k] in r.0 && r.0[cm.m[k]] == k) &&
            (forall v :: v in r.0 ==> r.0[v] in cm.m && cm.m[r.0[v]] == v)
  {
    ReverseIntoInverse(map[], cm, known, |cm.keys|);
    var r := ReverseInto(map[], cm, known, |cm.keys|);
    forall k | k in cm.m ensures cm.m[k] in r.0 && r.0[cm.m[k]] == k {
      var i :| 0 <= i < |cm.keys| && cm.keys[i] == k;
      assert cm.m[cm.keys[i]] in r.0;
      var k' := r.0[cm.m[k]];
      assert k' in cm.m && cm.m[k'] == cm.m[k];
    }
  }
}
