/**
 * Grouping of the instance list in the left menu of cloud.core.instance.js: the
 * instances returned by listVirtualMachines are grouped by their group label, an
 * absent or empty group standing for "(no group name)", and the groups are listed in
 * the order their first instance appears.
 *
 * `GroupOrder` and `Members` say what the grouping is; `GroupInstances` is the loop of
 * the source that builds the array and the map in place, proved to build exactly that
 * unless a label is a name every JavaScript object inherits, on which the source throws.
 */
module InstanceGrouping {
  import opened Options

  const NoGroupName: string := "(no group name)"

  /** The fields of a listVirtualMachines entry the panel uses; `name` is the text getVmName chose. */
  datatype Vm = Vm(id: string, name: string, group: Option<string>, state: string)

  /** The group an instance is listed under. */
  function GroupLabel(vm: Vm): (g: string)
    ensures (vm.group == None || vm.group == Some("")) ==> g == NoGroupName
    ensures (vm.group.Some? && vm.group.value != "") ==> g == vm.group.value
    ensures g != ""
  {
    if vm.group.None? || vm.group.value == "" then NoGroupName else vm.group.value
  }

  /** The group names, each once, in the order their first instance appears. */
  function GroupOrder(vms: seq<Vm>): (order: seq<string>)
    ensures forall a, b :: 0 <= a < b < |order| ==> order[a] != order[b]
    decreases |vms|
  {
    if vms == [] then []
    else
      var o := GroupOrder(vms[..|vms| - 1]);
      var g := GroupLabel(vms[|vms| - 1]);
      if g in o then o else o + [g]
  }

  /** A name is listed exactly when some instance carries it as its group label. */
  lemma {:induction false} GroupOrderMembers(vms: seq<Vm>)
    ensures forall g :: g in GroupOrder(vms) <==> exists i :: 0 <= i < |vms| && GroupLabel(vms[i]) == g
    decreases |vms|
  {
    if vms != [] {
      var prefix := vms[..|vms| - 1];
      GroupOrderMembers(prefix);
      assert forall i :: 0 <= i < |prefix| ==> prefix[i] == vms[i];
      forall g | g in GroupOrder(vms)
        ensures exists i :: 0 <= i < |vms| && GroupLabel(vms[i]) == g
      {
        if g in GroupOrder(prefix) {
          var i :| 0 <= i < |prefix| && GroupLabel(prefix[i]) == g;
          assert GroupLabel(vms[i]) == g;
        } else {
          assert GroupLabel(vms[|vms| - 1]) == g;
        }
      }
      forall g | exists i :: 0 <= i < |vms| && GroupLabel(vms[i]) == g
        ensures g in GroupOrder(vms)
      {
        var i :| 0 <= i < |vms| && GroupLabel(vms[i]) == g;
        if i < |prefix| {
          assert GroupLabel(prefix[i]) == g;
        }
      }
    }
  }

  /** The instances of group `g`, in list order. */
  function Members(vms: seq<Vm>, g: string): (r: seq<Vm>)
    ensures |r| <= |vms|
    decreases |vms|
  {
    if vms == [] then []
    else
      var last := vms[|vms| - 1];
      Members(vms[..|vms| - 1], g) + (if GroupLabel(last) == g then [last] else [])
  }

  /** The members of `g` are the instances whose label is `g`. */
  lemma {:induction false} MembersAre(vms: seq<Vm>, g: string)
    ensures forall v :: v in Members(vms, g) <==> v in vms && GroupLabel(v) == g
    decreases |vms|
  {
    if vms != [] {
      var prefix := vms[..|vms| - 1];
      var last := vms[|vms| - 1];
      assert vms == prefix + [last];
      MembersAre(prefix, g);
    }
  }

  /** Grouping keeps the list order: the members of a concatenation are the members of each part, in turn. */
  lemma {:induction false} MembersAppend(a: seq<Vm>, b: seq<Vm>, g: string)
    ensures Members(a + b, g) == Members(a, g) + Members(b, g)
    decreases |b|
  {
    if b == [] {
      assert a + b == a;
    } else {
      var b' := b[..|b| - 1];
      var last := b[|b| - 1];
      var t := if GroupLabel(last) == g then [last] else [];
      assert (a + b)[..|a + b| - 1] == a + b';
      assert (a + b)[|a + b| - 1] == last;
      MembersAppend(a, b', g);
      calc {
        Members(a + b, g);
        Members(a + b', g) + t;
        (Members(a, g) + Members(b', g)) + t;
        Members(a, g) + (Members(b', g) + t);
        Members(a, g) + Members(b, g);
      }
    }
  }

  /** The sizes of the groups named in `order`, added up. */
  function GroupSizes(vms: seq<Vm>, order: seq<string>): nat
    decreases |order|
  {
    if order == [] then 0
    else GroupSizes(vms, order[..|order| - 1]) + |Members(vms, order[|order| - 1])|
  }

  /**
   * Every listed instance lands in exactly one group: the group of its label is listed,
   * it is a member of that group and of no other, and the group sizes add up to the
   * number of instances.
   */
  lemma EveryInstanceInOneGroup(vms: seq<Vm>)
    ensures forall v :: v in vms ==> GroupLabel(v) in GroupOrder(vms) && v in Members(vms, GroupLabel(v))
    ensures forall v, g :: v in vms && g != GroupLabel(v) ==> v !in Members(vms, g)
    ensures GroupSizes(vms, GroupOrder(vms)) == |vms|
  {
    GroupOrderMembers(vms);
    forall v | v in vms
      ensures GroupLabel(v) in GroupOrder(vms) && v in Members(vms, GroupLabel(v))
    {
      var i :| 0 <= i < |vms| && vms[i] == v;
      MembersAre(vms, GroupLabel(v));
    }
    forall v, g | v in vms && g != GroupLabel(v)
      ensures v !in Members(vms, g)
    {
      MembersAre(vms, g);
    }
    SizesAddUp(vms);
  }

  lemma {:induction false} SizesAddUp(vms: seq<Vm>)
    ensures GroupSizes(vms, GroupOrder(vms)) == |vms|
    decreases |vms|
  {
    if vms != [] {
      var prefix := vms[..|vms| - 1];
      var last := vms[|vms| - 1];
      var o := GroupOrder(prefix);
      var g := GroupLabel(last);
      assert vms == prefix + [last];
      SizesAddUp(prefix);
      SizesStep(prefix, last, o);
      if g !in o {
        var order := o + [g];
        assert order[..|order| - 1] == o;
        NoInstanceNoMembers(prefix, g);
      }
    }
  }

  lemma {:induction false} SizesStep(prefix: seq<Vm>, last: Vm, order: seq<string>)
    requires forall a, b :: 0 <= a < b < |order| ==> order[a] != order[b]
    ensures GroupSizes(prefix + [last], order) == GroupSizes(prefix, order) + (if GroupLabel(last) in order then 1 else 0)
    decreases |order|
  {
    var vms := prefix + [last];
    assert vms[..|vms| - 1] == prefix;
    if order != [] {
      var init := order[..|order| - 1];
      assert forall a, b :: 0 <= a < b < |init| ==> init[a] != init[b];
      SizesStep(prefix, last, init);
      assert GroupLabel(last) in order <==> GroupLabel(last) in init || GroupLabel(last) == order[|order| - 1];
    }
  }

  lemma NoInstanceNoMembers(vms: seq<Vm>, g: string)
    requires g !in GroupOrder(vms)
    ensures Members(vms, g) == []
  {
    GroupOrderMembers(vms);
    MembersAre(vms, g);
    var m := Members(vms, g);
    if m != [] {
      FirstVmIsMember(m);
      assert false;
    }
  }

  lemma FirstVmIsMember(s: seq<Vm>)
    requires |s| > 0
    ensures s[0] in s
  {
  }

  /**
   * Groups keep the order of first appearance: every instance of a later group is
   * preceded in the list by an instance of each earlier group.
   */
  lemma GroupOrderIsFirstAppearance(vms: seq<Vm>)
    ensures forall a, b, j :: (0 <= a < b < |GroupOrder(vms)| && 0 <= j < |vms| && GroupLabel(vms[j]) == GroupOrder(vms)[b]
      ==> exists i :: 0 <= i < j && GroupLabel(vms[i]) == GroupOrder(vms)[a])
  {
    forall a, b, j | 0 <= a < b < |GroupOrder(vms)| && 0 <= j < |vms| && GroupLabel(vms[j]) == GroupOrder(vms)[b]
      ensures exists i :: 0 <= i < j && GroupLabel(vms[i]) == GroupOrder(vms)[a]
    {
      FirstAppearanceAt(vms, a, b, j);
    }
    assert forall a, b, j :: (0 <= a < b < |GroupOrder(vms)| && 0 <= j < |vms| && GroupLabel(vms[j]) == GroupOrder(vms)[b]
      ==> exists i :: 0 <= i < j && GroupLabel(vms[i]) == GroupOrder(vms)[a]);
  }

  lemma {:induction false} FirstAppearanceAt(vms: seq<Vm>, a: int, b: int, j: int)
    requires 0 <= a < b < |GroupOrder(vms)| && 0 <= j < |vms| && GroupLabel(vms[j]) == GroupOrder(vms)[b]
    ensures exists i :: 0 <= i < j && GroupLabel(vms[i]) == GroupOrder(vms)[a]
    decreases |vms|, 1
  {
    var n := |vms| - 1;
    if GroupLabel(vms[n]) in GroupOrder(vms[..n]) {
      AppearanceKnownGroup(vms, a, b, j);
    } else if b < |GroupOrder(vms[..n])| {
      AppearanceEarlierGroup(vms, a, b, j);
    } else {
      AppearanceNewGroup(vms, a, b, j);
    }
  }

  /** The last instance's group was already listed: the order is the prefix's. */
  lemma {:induction false} AppearanceKnownGroup(vms: seq<Vm>, a: int, b: int, j: int)
    requires 0 <= a < b < |GroupOrder(vms)| && 0 <= j < |vms| && GroupLabel(vms[j]) == GroupOrder(vms)[b]
    requires GroupLabel(vms[|vms| - 1]) in GroupOrder(vms[..|vms| - 1])
    ensures exists i :: 0 <= i < j && GroupLabel(vms[i]) == GroupOrder(vms)[a]
    decreases |vms|, 0
  {
    var n := |vms| - 1;
    var prefix := vms[..n];
    var o := GroupOrder(prefix);
    assert GroupOrder(vms) == o;
    var j' := j;
    if j == n {
      GroupOrderMembers(prefix);
      assert o[b] in o;
      j' :| 0 <= j' < n && GroupLabel(prefix[j']) == o[b];
    } else {
      assert prefix[j] == vms[j];
    }
    FirstAppearanceAt(prefix, a, b, j');
    var i :| 0 <= i < j' && GroupLabel(prefix[i]) == o[a];
    assert prefix[i] == vms[i];
  }

  /** The last instance opened a new group, and group `b` is an earlier one. */
  lemma {:induction false} AppearanceEarlierGroup(vms: seq<Vm>, a: int, b: int, j: int)
    requires 0 <= a < b < |GroupOrder(vms)| && 0 <= j < |vms| && GroupLabel(vms[j]) == GroupOrder(vms)[b]
    requires GroupLabel(vms[|vms| - 1]) !in GroupOrder(vms[..|vms| - 1])
    requires b < |GroupOrder(vms[..|vms| - 1])|
    ensures exists i :: 0 <= i < j && GroupLabel(vms[i]) == GroupOrder(vms)[a]
    decreases |vms|, 0
  {
    var n := |vms| - 1;
    var prefix := vms[..n];
    var o := GroupOrder(prefix);
    assert GroupOrder(vms) == o + [GroupLabel(vms[n])];
    assert j != n by {
      assert o[b] in o;
    }
    assert prefix[j] == vms[j];
    FirstAppearanceAt(prefix, a, b, j);
    var i :| 0 <= i < j && GroupLabel(prefix[i]) == o[a];
    assert prefix[i] == vms[i];
  }

  /** The last instance opened group `b`: every earlier group was seen in the prefix. */
  lemma AppearanceNewGroup(vms: seq<Vm>, a: int, b: int, j: int)
    requires 0 <= a < b < |GroupOrder(vms)| && 0 <= j < |vms| && GroupLabel(vms[j]) == GroupOrder(vms)[b]
    requires GroupLabel(vms[|vms| - 1]) !in GroupOrder(vms[..|vms| - 1])
    requires b >= |GroupOrder(vms[..|vms| - 1])|
    ensures exists i :: 0 <= i < j && GroupLabel(vms[i]) == GroupOrder(vms)[a]
  {
    var n := |vms| - 1;
    var prefix := vms[..n];
    var o := GroupOrder(prefix);
    assert GroupOrder(vms) == o + [GroupLabel(vms[n])];
    if j < n {
      assert prefix[j] == vms[j];
      LabelListed(prefix, j);
      assert false;
    }
    ListedHasInstance(prefix, a);
    var i :| 0 <= i < n && GroupLabel(prefix[i]) == o[a];
    assert prefix[i] == vms[i];
  }

  lemma LabelListed(vms: seq<Vm>, j: int)
    requires 0 <= j < |vms|
    ensures GroupLabel(vms[j]) in GroupOrder(vms)
  {
    GroupOrderMembers(vms);
  }

  lemma ListedHasInstance(vms: seq<Vm>, a: int)
    requires 0 <= a < |GroupOrder(vms)|
    ensures exists i :: 0 <= i < |vms| && GroupLabel(vms[i]) == GroupOrder(vms)[a]
  {
    GroupOrderMembers(vms);
    assert GroupOrder(vms)[a] in GroupOrder(vms);
  }

  /**
   * The property names every plain JavaScript object inherits from Object.prototype.
   * `name in {}` already holds for each of them, so the grouping loop takes such a label
   * for a group it has seen and calls `push` on the inherited property, which throws.
   */
  const InheritedNames: set<string> := {
    "constructor", "hasOwnProperty", "isPrototypeOf", "propertyIsEnumerable", "toLocaleString",
    "toString", "valueOf", "__proto__", "__defineGetter__", "__defineSetter__",
    "__lookupGetter__", "__lookupSetter__"}

  /** The grouping loop runs to its end: no instance is labelled with an inherited name. */
  predicate GroupsAll(vms: seq<Vm>)
  {
    forall i :: 0 <= i < |vms| ==> GroupLabel(vms[i]) !in InheritedNames
  }

  /**
   * The grouping loop: walk the instances, pushing each onto its group's list and
   * appending a group name the first time it is seen.  `completed` is false when the
   * loop throws on an inherited label; the success callback then stops there, before any
   * group header is drawn, and `order` and `groups` are the grouping of the instances
   * before that one.
   */
  method GroupInstances(vms: seq<Vm>) returns (completed: bool, order: seq<string>, groups: map<string, seq<Vm>>)
    ensures completed <==> GroupsAll(vms)
    ensures completed ==> order == GroupOrder(vms)
    ensures completed ==> forall g :: g in groups <==> g in order
    ensures completed ==> forall g :: g in groups ==> groups[g] == Members(vms, g)
    ensures !completed ==> exists k :: 0 <= k < |vms| && GroupLabel(vms[k]) in InheritedNames
                                       && GroupsAll(vms[..k]) && Grouped(vms[..k], order, groups)
  {
    order := [];
    groups := map[];
    var i := 0;
    while i < |vms|
      invariant 0 <= i <= |vms|
      invariant GroupsAll(vms[..i])
      invariant Grouped(vms[..i], order, groups)
    {
      var g := GroupLabel(vms[i]);
      if g in InheritedNames {
        assert !GroupsAll(vms);
        return false, order, groups;
      }
      assert vms[..i + 1] == vms[..i] + [vms[i]];
      if g in groups {
        GroupedOld(vms[..i], vms[i], order, groups);
        groups := groups[g := groups[g] + [vms[i]]];
      } else {
        GroupedNew(vms[..i], vms[i], order, groups);
        groups := groups[g := [vms[i]]];
        order := order + [g];
      }
      i := i + 1;
    }
    assert vms[..i] == vms;
    completed := true;
  }

  /** `order` and `groups` are the grouping of `vms`. */
  ghost predicate Grouped(vms: seq<Vm>, order: seq<string>, groups: map<string, seq<Vm>>)
  {
    && order == GroupOrder(vms)
    && (forall g :: g in groups <==> g in order)
    && (forall g :: g in groups ==> groups[g] == Members(vms, g))
  }

  lemma GroupedOld(vms: seq<Vm>, v: Vm, order: seq<string>, groups: map<string, seq<Vm>>)
    requires Grouped(vms, order, groups) && GroupLabel(v) in groups
    ensures Grouped(vms + [v], order, groups[GroupLabel(v) := groups[GroupLabel(v)] + [v]])
  {
    var all := vms + [v];
    assert all[..|all| - 1] == vms;
    assert GroupOrder(all) == order;
  }

  lemma GroupedNew(vms: seq<Vm>, v: Vm, order: seq<string>, groups: map<string, seq<Vm>>)
    requires Grouped(vms, order, groups) && GroupLabel(v) !in groups
    ensures Grouped(vms + [v], order + [GroupLabel(v)], groups[GroupLabel(v) := [v]])
  {
    var all := vms + [v];
    assert all[..|all| - 1] == vms;
    var g := GroupLabel(v);
    assert GroupOrder(all) == order + [g];
    NoInstanceNoMembers(vms, g);
    assert Members(all, g) == [v];
  }
}
