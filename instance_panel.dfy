/**
 * The middle-menu instance list and the right panel of cloud.core.instance.js: the list
 * items (one per virtual machine, plus the placeholder a deployment appends), the set of
 * selected instance ids, the Stop and Start actions dispatched on that set, the polling
 * of the asynchronous jobs they start, and the after-action box of the right panel.
 *
 * Elements are identified as jQuery does: an id selector finds the FIRST item carrying that
 * id (`FindItem`), while a handler that captured an element keeps acting on that element
 * (`tag`) even after the list was emptied and the element detached.
 */
module InstancePanel {
  import opened Options
  import opened InstanceGrouping
  import opened InstanceDisplay

  /** The entries of the action menu. */
  datatype Action = Stop | Start

  function ActionLabel(a: Action): string
  {
    match a
    case Stop => "Stop"
    case Start => "Start"
  }

  function ActionApi(a: Action): string
  {
    match a
    case Stop => "stopVirtualMachine"
    case Start => "startVirtualMachine"
  }

  /** The actions in menu order; both are asynchronous jobs. */
  const ActionMenu: seq<Action> := [Stop, Start]

  /** A request `command=<api>&id=<vmId>&response=json`. */
  datatype Request = Request(action: Action, vmId: string)

  /** What the poll of an action job remembers: the instance it acts on and the action's verb. */
  datatype JobRef = JobRef(vmId: string, action: Action)

  /**
   * An element of the middle menu. `tag` is the element's identity; `domId` its id
   * attribute; `vm` the instance bound by setMidmenuItemVm (which also binds the click
   * handler that selects it); `failClick` whether the handler of a failed deployment is bound.
   */
  datatype Item = Item(
    tag: nat,
    domId: string,
    vm: Option<Vm>,
    name: string,
    spinner: bool,
    infoIcon: bool,
    error: bool,
    afterActionInfo: string,
    statusIcon: string,
    contentSelected: bool,
    failClick: bool)

  /** The right panel's after-action box: its text, whether it is shown, whether it has the `errorbox` class. */
  datatype AfterActionBox = AfterActionBox(text: string, visible: bool, errorBox: bool)

  function VmDomId(id: string): string
  {
    "midmenuItemVm_" + id
  }

  function AsyncTimer(jobId: string): string
  {
    "asyncJob_" + jobId
  }

  function DeployTimer(jobId: string): string
  {
    "vmNew" + jobId
  }

  const PendingDomId: string := "midmenu_item_vm"

  /** The timers of action jobs and of deployments never share a key. */
  lemma TimerKeysDiffer(a: string, b: string)
    ensures AsyncTimer(a) != DeployTimer(b)
  {
    assert AsyncTimer(a)[0] == 'a' && DeployTimer(b)[0] == 'v';
  }

  /** A clone of the item template filled in by setMidmenuItemVm. */
  function VmItem(tag: nat, v: Vm): Item
  {
    Item(tag, VmDomId(v.id), Some(v), v.name, false, false, false, "", StatusIcon(v.state), false, false)
  }

  /** The items appended for a listVirtualMachines response, with fresh tags from `firstTag` on. */
  function NewItems(vms: seq<Vm>, firstTag: nat): (r: seq<Item>)
    ensures |r| == |vms|
    ensures forall i :: 0 <= i < |r| ==> r[i].domId == VmDomId(vms[i].id) && r[i].vm == Some(vms[i])
    ensures forall i :: 0 <= i < |r| ==> r[i].statusIcon == StatusIcon(vms[i].state)
    ensures forall i :: 0 <= i < |r| ==> r[i].tag == firstTag + i
  {
    if vms == [] then []
    else [VmItem(firstTag, vms[0])] + NewItems(vms[1..], firstTag + 1)
  }

  /** The placeholder a deployment appends: spinner shown and "Adding....". */
  function PendingItem(tag: nat): Item
  {
    Item(tag, PendingDomId, None, "Adding....", true, false, false, "", "", false, false)
  }

  /** No earlier item carries the id of item `k`. */
  ghost predicate IsFirst(items: seq<Item>, k: int)
    requires 0 <= k < |items|
  {
    forall j :: 0 <= j < k ==> items[j].domId != items[k].domId
  }

  /** `$("#" + domId)`: the first item with that id, if any. */
  function FindItem(items: seq<Item>, domId: string): (r: Option<nat>)
    ensures r.Some? ==> r.value < |items| && items[r.value].domId == domId && IsFirst(items, r.value)
    ensures r.None? ==> forall j :: 0 <= j < |items| ==> items[j].domId != domId
    decreases |items|
  {
    if items == [] then None
    else if items[0].domId == domId then Some(0)
    else match FindItem(items[1..], domId)
      case None => None
      case Some(k) => Some(k + 1)
  }

  /** The item that is element `tag`, if it is still in the list. */
  function FindTag(items: seq<Item>, tag: nat): (r: Option<nat>)
    ensures r.Some? ==> r.value < |items| && items[r.value].tag == tag
    ensures r.None? ==> forall j :: 0 <= j < |items| ==> items[j].tag != tag
    decreases |items|
  {
    if items == [] then None
    else if items[0].tag == tag then Some(0)
    else match FindTag(items[1..], tag)
      case None => None
      case Some(k) => Some(k + 1)
  }

  /** Apply `f` to the first item with id `domId`; every other item is left as it was. */
  function UpdateFirst(items: seq<Item>, domId: string, f: Item -> Item): (r: seq<Item>)
    ensures |r| == |items|
    ensures forall k :: 0 <= k < |items| ==>
      r[k] == if items[k].domId == domId && IsFirst(items, k) then f(items[k]) else items[k]
  {
    match FindItem(items, domId)
    case None => items
    case Some(k) => items[k := f(items[k])]
  }

  /** Apply `f` to element `tag` if it is still listed. */
  function UpdateTag(items: seq<Item>, tag: nat, f: Item -> Item): (r: seq<Item>)
    ensures |r| == |items|
    ensures FindTag(items, tag).None? ==> r == items
    ensures FindTag(items, tag).Some? ==> r == items[FindTag(items, tag).value := f(items[FindTag(items, tag).value])]
  {
    match FindTag(items, tag)
    case None => items
    case Some(k) => items[k := f(items[k])]
  }

  /** What an action does to an item before its request: spinner shown, info icon hidden. */
  function MarkBusy(it: Item): (r: Item)
    ensures r.spinner && !r.infoIcon
    ensures r.(spinner := it.spinner, infoIcon := it.infoIcon) == it
  {
    it.(spinner := true, infoIcon := false)
  }

  /** `after` is `before` with the first item of every id in `doms` marked busy. */
  ghost predicate BusyMarked(before: seq<Item>, after: seq<Item>, doms: set<string>)
  {
    && |after| == |before|
    && forall k :: 0 <= k < |before| ==>
      after[k] == if before[k].domId in doms && IsFirst(before, k) then MarkBusy(before[k]) else before[k]
  }

  /** Marking one more id busy extends the marking; an id marked twice is marked once. */
  lemma BusyMarkedStep(before: seq<Item>, after: seq<Item>, doms: set<string>, d: string)
    requires BusyMarked(before, after, doms)
    ensures BusyMarked(before, UpdateFirst(after, d, MarkBusy), doms + {d})
  {
    var r := UpdateFirst(after, d, MarkBusy);
    forall k | 0 <= k < |before|
      ensures r[k] == if before[k].domId in doms + {d} && IsFirst(before, k) then MarkBusy(before[k]) else before[k]
    {
      assert after[k].domId == before[k].domId;
      assert IsFirst(after, k) == IsFirst(before, k) by {
        forall j | 0 <= j < k
          ensures after[j].domId == before[j].domId
        {
        }
      }
    }
  }

  /** The ids of the items an action on `ids` looks up. */
  function Doms(ids: seq<string>): set<string>
  {
    set id | id in ids :: VmDomId(id)
  }

  /** The jobs an action on `ids` registers, in that order (a later one wins a shared job id). */
  function JobsFor(ids: seq<string>, action: Action, jobIdFor: string -> string): map<string, JobRef>
    decreases |ids|
  {
    if ids == [] then map[]
    else
      var last := ids[|ids| - 1];
      JobsFor(ids[..|ids| - 1], action, jobIdFor)[jobIdFor(last) := JobRef(last, action)]
  }

  /** With distinct job ids, every instance acted on has its own job, and no other job is registered. */
  lemma {:induction false} JobsForEach(ids: seq<string>, action: Action, jobIdFor: string -> string)
    requires forall a, b :: a in ids && b in ids && jobIdFor(a) == jobIdFor(b) ==> a == b
    ensures forall id :: id in ids ==>
      jobIdFor(id) in JobsFor(ids, action, jobIdFor) && JobsFor(ids, action, jobIdFor)[jobIdFor(id)] == JobRef(id, action)
    ensures forall j :: j in JobsFor(ids, action, jobIdFor) <==> exists id :: id in ids && jobIdFor(id) == j
    decreases |ids|
  {
    if ids != [] {
      var init := ids[..|ids| - 1];
      var last := ids[|ids| - 1];
      assert ids == init + [last];
      JobsForEach(init, action, jobIdFor);
      forall j | j in JobsFor(ids, action, jobIdFor)
        ensures exists id :: id in ids && jobIdFor(id) == j
      {
        if j != jobIdFor(last) {
          var id :| id in init && jobIdFor(id) == j;
          assert id in ids;
        }
      }
    }
  }

  /** The requests an action on `ids` sends, in that order. */
  function Requests(action: Action, ids: seq<string>): (r: seq<Request>)
    ensures |r| == |ids|
    ensures forall i :: 0 <= i < |ids| ==> r[i] == Request(action, ids[i])
  {
    seq(|ids|, i requires 0 <= i < |ids| => Request(action, ids[i]))
  }

  /** The timers an action on `ids` starts. */
  function AsyncTimers(ids: seq<string>, jobIdFor: string -> string): set<string>
  {
    set id | id in ids :: AsyncTimer(jobIdFor(id))
  }

  /**
   * The poll of an action job that has completed (status not 0): spinner hidden; on
   * success (1) the info icon shown without error, "<verb> action succeeded." and, when
   * the response carries the instance, the status icon of its state; on failure (2) the
   * info icon shown as an error with the sanitized reason; any other status only hides
   * the spinner.
   */
  function AfterPoll(it: Item, verb: string, status: int, vmState: Option<string>, jobResult: string,
                     sanitize: string -> string): (r: Item)
    ensures !r.spinner && r.tag == it.tag && r.domId == it.domId && r.vm == it.vm && r.name == it.name
    ensures status == 1 ==> r.infoIcon && !r.error && r.afterActionInfo == verb + " action succeeded."
    ensures status == 1 ==> r.statusIcon == if vmState.Some? then StatusIcon(vmState.value) else it.statusIcon
    ensures status == 2 ==> r.infoIcon && r.error && r.afterActionInfo == verb + " action failed. Reason: " + sanitize(jobResult)
    ensures status != 1 ==> r.statusIcon == it.statusIcon
    ensures status != 1 && status != 2 ==> r == it.(spinner := false)
  {
    var it := it.(spinner := false);
    if status == 1 then
      it.(infoIcon := true, error := false, afterActionInfo := verb + " action succeeded.",
          statusIcon := if vmState.Some? then StatusIcon(vmState.value) else it.statusIcon)
    else if status == 2 then
      it.(infoIcon := true, error := true, afterActionInfo := verb + " action failed. Reason: " + sanitize(jobResult))
    else it
  }

  /** The poll of a deployment's job; on success with the instance, the item becomes that instance's item. */
  function AfterDeployPoll(it: Item, status: int, vm: Option<Vm>, jobResult: string, sanitize: string -> string): (r: Item)
    ensures !r.spinner && r.tag == it.tag
    ensures status == 1 ==> r.infoIcon && !r.error && r.afterActionInfo == "Adding succeeded."
    ensures status == 1 && vm.Some? ==>
      r.vm == vm && r.domId == VmDomId(vm.value.id) && r.name == vm.value.name && r.statusIcon == StatusIcon(vm.value.state)
    ensures status == 1 && vm.None? ==> r.vm == it.vm && r.domId == it.domId && r.name == it.name
    ensures status == 2 ==> r.infoIcon && r.error && r.name == "Adding failed" && r.failClick
    ensures status == 2 ==> r.afterActionInfo == "Adding failed. Reason: " + sanitize(jobResult)
    ensures status == 2 ==> r.vm == it.vm && r.domId == it.domId
    ensures status != 1 && status != 2 ==> r == it.(spinner := false)
  {
    var it := it.(spinner := false);
    if status == 1 then
      var ok := it.(infoIcon := true, error := false, afterActionInfo := "Adding succeeded.");
      if vm.Some? then
        ok.(vm := vm, domId := VmDomId(vm.value.id), name := vm.value.name, statusIcon := StatusIcon(vm.value.state))
      else ok
    else if status == 2 then
      it.(name := "Adding failed", infoIcon := true, error := true,
          afterActionInfo := "Adding failed. Reason: " + sanitize(jobResult), failClick := true)
    else it
  }

  /** A deployment whose request or poll fails outright: error icon and "Adding failed"; the spinner stays. */
  function DeployFailed(it: Item): (r: Item)
    ensures r.infoIcon && r.error && r.name == "Adding failed" && r.spinner == it.spinner
    ensures r.tag == it.tag && r.domId == it.domId && r.vm == it.vm && r.afterActionInfo == it.afterActionInfo
  {
    it.(infoIcon := true, error := true, name := "Adding failed")
  }

  /** The after-action box when an instance item is clicked. */
  function SelectedBox(it: Item, box: AfterActionBox): (r: AfterActionBox)
    ensures r.visible <==> it.infoIcon
    ensures it.infoIcon ==> r.text == it.afterActionInfo && r.errorBox == it.error
    ensures !it.infoIcon ==> r.text == "" && r.errorBox == box.errorBox
  {
    if it.infoIcon then AfterActionBox(it.afterActionInfo, true, it.error)
    else AfterActionBox("", false, box.errorBox)
  }

  /** After a successful action, clicking the item shows its message without the error style. */
  lemma SuccessShownOnSelect(it: Item, verb: string, vmState: Option<string>, jobResult: string,
                             sanitize: string -> string, box: AfterActionBox)
    ensures SelectedBox(AfterPoll(it, verb, 1, vmState, jobResult, sanitize), box)
         == AfterActionBox(verb + " action succeeded.", true, false)
  {
  }

  /** After a failed action, clicking the item shows the reason with the error style. */
  lemma FailureShownOnSelect(it: Item, verb: string, vmState: Option<string>, jobResult: string,
                             sanitize: string -> string, box: AfterActionBox)
    ensures SelectedBox(AfterPoll(it, verb, 2, vmState, jobResult, sanitize), box)
         == AfterActionBox(verb + " action failed. Reason: " + sanitize(jobResult), true, true)
  {
  }

  /** While its action runs (and after a completion other than 1 or 2), a click shows no after-action text. */
  lemma BusyShowsNothing(it: Item, verb: string, status: int, vmState: Option<string>, jobResult: string,
                         sanitize: string -> string, box: AfterActionBox)
    requires status != 1 && status != 2
    ensures !SelectedBox(MarkBusy(it), box).visible && SelectedBox(MarkBusy(it), box).text == ""
    ensures !SelectedBox(AfterPoll(MarkBusy(it), verb, status, vmState, jobResult, sanitize), box).visible
  {
  }

  /** A deployment that succeeds with its instance is found again, by the instance's id, by a later action. */
  lemma DeployedItemIsActionTarget(items: seq<Item>, k: nat, vm: Vm, jobResult: string, sanitize: string -> string)
    requires k < |items|
    requires forall j :: 0 <= j < |items| ==> items[j].domId != VmDomId(vm.id)
    ensures FindItem(items[k := AfterDeployPoll(items[k], 1, Some(vm), jobResult, sanitize)], VmDomId(vm.id)) == Some(k)
  {
    var r := items[k := AfterDeployPoll(items[k], 1, Some(vm), jobResult, sanitize)];
    assert r[k].domId == VmDomId(vm.id);
  }

  /** Every tag is below `n` and no two items share one. */
  ghost predicate TagsFresh(items: seq<Item>, n: nat)
  {
    && (forall k :: 0 <= k < |items| ==> items[k].tag < n)
    && (forall i, j :: 0 <= i < j < |items| ==> items[i].tag != items[j].tag)
  }

  lemma SameTagsFresh(items: seq<Item>, r: seq<Item>, n: nat)
    requires TagsFresh(items, n) && |r| == |items|
    requires forall k :: 0 <= k < |items| ==> r[k].tag == items[k].tag
    ensures TagsFresh(r, n)
  {
  }

  /** The order in which `for (var id in selectedItemIds)` visits the selection: each id once. */
  method Enumerate(s: set<string>) returns (order: seq<string>)
    ensures forall x :: x in order <==> x in s
    ensures forall i, j :: 0 <= i < j < |order| ==> order[i] != order[j]
  {
    order := [];
    var rest := s;
    while rest != {}
      invariant forall x :: x in s <==> x in order || x in rest
      invariant forall x :: x in order ==> x !in rest
      invariant forall i, j :: 0 <= i < j < |order| ==> order[i] != order[j]
      decreases |rest|
    {
      var x :| x in rest;
      order := order + [x];
      rest := rest - {x};
    }
  }

  /** What the first `i` rounds of the action loop have done. */
  ghost predicate DispatchInv(items0: seq<Item>, jobs0: map<string, JobRef>, timers0: set<string>, requests0: seq<Request>,
                              order: seq<string>, i: nat, action: Action, jobIdFor: string -> string,
                              items: seq<Item>, jobs: map<string, JobRef>, timers: set<string>, requests: seq<Request>)
  {
    && i <= |order|
    && BusyMarked(items0, items, Doms(order[..i]))
    && requests == requests0 + Requests(action, order[..i])
    && jobs == jobs0 + JobsFor(order[..i], action, jobIdFor)
    && timers == timers0 + AsyncTimers(order[..i], jobIdFor)
  }

  lemma DispatchStart(items0: seq<Item>, jobs0: map<string, JobRef>, timers0: set<string>, requests0: seq<Request>,
                      order: seq<string>, action: Action, jobIdFor: string -> string)
    ensures DispatchInv(items0, jobs0, timers0, requests0, order, 0, action, jobIdFor, items0, jobs0, timers0, requests0)
  {
    assert order[..0] == [];
    assert jobs0 + map[] == jobs0;
  }

  lemma DispatchStep(items0: seq<Item>, jobs0: map<string, JobRef>, timers0: set<string>, requests0: seq<Request>,
                     order: seq<string>, i: nat, action: Action, jobIdFor: string -> string,
                     items: seq<Item>, jobs: map<string, JobRef>, timers: set<string>, requests: seq<Request>)
    requires i < |order|
    requires DispatchInv(items0, jobs0, timers0, requests0, order, i, action, jobIdFor, items, jobs, timers, requests)
    ensures var id := order[i];
      DispatchInv(items0, jobs0, timers0, requests0, order, i + 1, action, jobIdFor,
                  UpdateFirst(items, VmDomId(id), MarkBusy), jobs[jobIdFor(id) := JobRef(id, action)],
                  timers + {AsyncTimer(jobIdFor(id))}, requests + [Request(action, id)])
  {
    var id := order[i];
    var pre, post := order[..i], order[..i + 1];
    assert post == pre + [id];
    BusyMarkedStep(items0, items, Doms(pre), VmDomId(id));
    DomsSnoc(pre, id);
    RequestsSnoc(action, pre, id);
    JobsForSnoc(jobs0, pre, id, action, jobIdFor);
    AsyncTimersSnoc(pre, id, jobIdFor);
  }

  lemma DomsSnoc(pre: seq<string>, id: string)
    ensures Doms(pre + [id]) == Doms(pre) + {VmDomId(id)}
  {
  }

  lemma RequestsSnoc(action: Action, pre: seq<string>, id: string)
    ensures Requests(action, pre + [id]) == Requests(action, pre) + [Request(action, id)]
  {
  }

  lemma JobsForSnoc(jobs0: map<string, JobRef>, pre: seq<string>, id: string, action: Action, jobIdFor: string -> string)
    ensures jobs0 + JobsFor(pre + [id], action, jobIdFor) == (jobs0 + JobsFor(pre, action, jobIdFor))[jobIdFor(id) := JobRef(id, action)]
  {
    assert (pre + [id])[..|pre|] == pre;
  }

  lemma AsyncTimersSnoc(pre: seq<string>, id: string, jobIdFor: string -> string)
    ensures AsyncTimers(pre + [id], jobIdFor) == AsyncTimers(pre, jobIdFor) + {AsyncTimer(jobIdFor(id))}
  {
  }

  lemma DispatchDone(items0: seq<Item>, jobs0: map<string, JobRef>, timers0: set<string>, requests0: seq<Request>,
                     order: seq<string>, action: Action, jobIdFor: string -> string,
                     items: seq<Item>, jobs: map<string, JobRef>, timers: set<string>, requests: seq<Request>)
    requires DispatchInv(items0, jobs0, timers0, requests0, order, |order|, action, jobIdFor, items, jobs, timers, requests)
    ensures BusyMarked(items0, items, Doms(order))
    ensures forall k :: 0 <= k < |items| ==> items[k].tag == items0[k].tag
    ensures requests == requests0 + Requests(action, order)
    ensures jobs == jobs0 + JobsFor(order, action, jobIdFor)
    ensures timers == timers0 + AsyncTimers(order, jobIdFor)
  {
    assert order[..|order|] == order;
  }

  /** The loop of the action handler over the visiting order `order`. */
  method RunAction(items0: seq<Item>, jobs0: map<string, JobRef>, timers0: set<string>, requests0: seq<Request>,
                   order: seq<string>, action: Action, jobIdFor: string -> string, n: nat)
    returns (items: seq<Item>, jobs: map<string, JobRef>, timers: set<string>, requests: seq<Request>)
    ensures BusyMarked(items0, items, Doms(order))
    ensures TagsFresh(items0, n) ==> TagsFresh(items, n)
    ensures requests == requests0 + Requests(action, order)
    ensures jobs == jobs0 + JobsFor(order, action, jobIdFor)
    ensures timers == timers0 + AsyncTimers(order, jobIdFor)
  {
    items, jobs, timers, requests := items0, jobs0, timers0, requests0;
    DispatchStart(items0, jobs0, timers0, requests0, order, action, jobIdFor);
    for i := 0 to |order|
      invariant DispatchInv(items0, jobs0, timers0, requests0, order, i, action, jobIdFor, items, jobs, timers, requests)
    {
      var id := order[i];
      var jobId := jobIdFor(id);
      DispatchStep(items0, jobs0, timers0, requests0, order, i, action, jobIdFor, items, jobs, timers, requests);
      items := UpdateFirst(items, VmDomId(id), MarkBusy);
      requests := requests + [Request(action, id)];
      jobs := jobs[jobId := JobRef(id, action)];
      timers := timers + {AsyncTimer(jobId)};
    }
    DispatchDone(items0, jobs0, timers0, requests0, order, action, jobIdFor, items, jobs, timers, requests);
    if TagsFresh(items0, n) {
      SameTagsFresh(items0, items, n);
    }
  }

  class InstanceList {
    var items: seq<Item>
    var nextTag: nat
    var selected: set<string>
    var timers: set<string>
    var jobs: map<string, JobRef>
    var deployJobs: map<string, nat>
    var requests: seq<Request>
    var box: AfterActionBox
    var stateClasses: set<string>

    ghost predicate Valid()
      reads this
    {
      TagsFresh(items, nextTag)
    }

    constructor ()
      ensures Valid() && items == [] && selected == {} && timers == {} && jobs == map[] && deployJobs == map[]
      ensures requests == []
    {
      items, nextTag := [], 0;
      selected, timers := {}, {};
      jobs, deployJobs := map[], map[];
      requests := [];
      box := AfterActionBox("", false, false);
      stateClasses := {};
    }

    /** A click on a group header: the middle menu is emptied for the listing to come. */
    method ClearList()
      requires Valid()
      modifies this
      ensures Valid() && items == []
      ensures nextTag == old(nextTag) && selected == old(selected) && timers == old(timers)
      ensures jobs == old(jobs) && deployJobs == old(deployJobs) && requests == old(requests)
      ensures box == old(box) && stateClasses == old(stateClasses)
    {
      items := [];
    }

    /** The listVirtualMachines response after a group header click: one item per instance, in list order. */
    method ShowInstances(vms: seq<Vm>)
      requires Valid()
      modifies this
      ensures Valid()
      ensures items == old(items) + NewItems(vms, old(nextTag)) && nextTag == old(nextTag) + |vms|
      ensures selected == old(selected) && timers == old(timers)
      ensures jobs == old(jobs) && deployJobs == old(deployJobs) && requests == old(requests)
      ensures box == old(box) && stateClasses == old(stateClasses)
    {
      var added := NewItems(vms, nextTag);
      items := items + added;
      nextTag := nextTag + |vms|;
    }

    /**
     * A click on an instance item: the item is highlighted, its instance joins the
     * selection, the after-action box shows the item's last message (or is hidden) and the
     * state text takes the colour of the instance's state.
     */
    method SelectItem(k: nat)
      requires Valid() && k < |items| && items[k].vm.Some?
      modifies this
      ensures Valid()
      ensures items == old(items)[k := old(items)[k].(contentSelected := true)]
      ensures selected == old(selected) + {old(items)[k].vm.value.id}
      ensures box == SelectedBox(old(items)[k], old(box))
      ensures stateClasses == RightPanelStateClasses(old(stateClasses), old(items)[k].vm.value.state)
      ensures nextTag == old(nextTag) && timers == old(timers)
      ensures jobs == old(jobs) && deployJobs == old(deployJobs) && requests == old(requests)
    {
      var it := items[k];
      items := items[k := it.(contentSelected := true)];
      selected := selected + {it.vm.value.id};
      box := SelectedBox(it, box);
      stateClasses := RightPanelStateClasses(stateClasses, it.vm.value.state);
    }

    /** A click on a failed deployment: its reason in the error box, and the instance details cleared. */
    method SelectFailedDeploy(k: nat)
      requires Valid() && k < |items| && items[k].failClick
      modifies this
      ensures Valid()
      ensures box == AfterActionBox(old(items)[k].afterActionInfo, true, true)
      ensures stateClasses == RightPanelStateClasses(old(stateClasses), "")
      ensures items == old(items) && nextTag == old(nextTag) && selected == old(selected) && timers == old(timers)
      ensures jobs == old(jobs) && deployJobs == old(deployJobs) && requests == old(requests)
    {
      box := AfterActionBox(items[k].afterActionInfo, true, true);
      stateClasses := RightPanelStateClasses(stateClasses, "");
    }

    /**
     * A click on an action of the menu: for every selected instance, in the order returned,
     * the first item with its id is marked busy, the request is sent and the job the server
     * names (`jobIdFor`) gets a polling timer; then the selection is cleared.
     */
    method Dispatch(action: Action, jobIdFor: string -> string) returns (order: seq<string>)
      requires Valid()
      modifies this
      ensures Valid()
      ensures forall x :: x in order <==> x in old(selected)
      ensures forall i, j :: 0 <= i < j < |order| ==> order[i] != order[j]
      ensures BusyMarked(old(items), items, Doms(order))
      ensures requests == old(requests) + Requests(action, order)
      ensures jobs == old(jobs) + JobsFor(order, action, jobIdFor)
      ensures timers == old(timers) + AsyncTimers(order, jobIdFor)
      ensures selected == {}
      ensures nextTag == old(nextTag) && deployJobs == old(deployJobs)
      ensures box == old(box) && stateClasses == old(stateClasses)
    {
      order := Enumerate(selected);
      var its, js, ts, rs := RunAction(items, jobs, timers, requests, order, action, jobIdFor, nextTag);
      items, jobs, timers, requests := its, js, ts, rs;
      selected := {};
    }

    /**
     * One tick of the timer of action job `jobId`: nothing while the job runs (status 0);
     * otherwise the timer stops and the first item with the instance's id shows the outcome.
     */
    method Poll(jobId: string, status: int, vmState: Option<string>, jobResult: string, sanitize: string -> string)
      requires Valid() && AsyncTimer(jobId) in timers && jobId in jobs
      modifies this
      ensures Valid()
      ensures status == 0 ==> items == old(items) && timers == old(timers)
      ensures status != 0 ==> timers == old(timers) - {AsyncTimer(jobId)}
      ensures status != 0 ==>
        var ref := old(jobs)[jobId];
        items == UpdateFirst(old(items), VmDomId(ref.vmId),
                             it => AfterPoll(it, ActionLabel(ref.action), status, vmState, jobResult, sanitize))
      ensures nextTag == old(nextTag) && selected == old(selected)
      ensures jobs == old(jobs) && deployJobs == old(deployJobs) && requests == old(requests)
      ensures box == old(box) && stateClasses == old(stateClasses)
    {
      if status != 0 {
        timers := timers - {AsyncTimer(jobId)};
        var ref := jobs[jobId];
        var items0 := items;
        items := UpdateFirst(items, VmDomId(ref.vmId),
                             it => AfterPoll(it, ActionLabel(ref.action), status, vmState, jobResult, sanitize));
        SameTagsFresh(items0, items, nextTag);
      }
    }

    /** The last wizard step appends the "Adding...." placeholder; the result is its element. */
    method BeginDeploy() returns (tag: nat)
      requires Valid()
      modifies this
      ensures Valid()
      ensures tag == old(nextTag) && items == old(items) + [PendingItem(tag)] && nextTag == old(nextTag) + 1
      ensures selected == old(selected) && timers == old(timers)
      ensures jobs == old(jobs) && deployJobs == old(deployJobs) && requests == old(requests)
      ensures box == old(box) && stateClasses == old(stateClasses)
    {
      tag := nextTag;
      items := items + [PendingItem(tag)];
      nextTag := nextTag + 1;
    }

    /** deployVirtualMachine answered with `jobId`: the element takes the id "vmNew<jobId>" and its timer starts. */
    method DeploySubmitted(tag: nat, jobId: string)
      requires Valid()
      modifies this
      ensures Valid()
      ensures items == UpdateTag(old(items), tag, (it: Item) => it.(domId := DeployTimer(jobId)))
      ensures deployJobs == old(deployJobs)[jobId := tag] && timers == old(timers) + {DeployTimer(jobId)}
      ensures nextTag == old(nextTag) && selected == old(selected)
      ensures jobs == old(jobs) && requests == old(requests)
      ensures box == old(box) && stateClasses == old(stateClasses)
    {
      var items0 := items;
      items := UpdateTag(items, tag, (it: Item) => it.(domId := DeployTimer(jobId)));
      SameTagsFresh(items0, items, nextTag);
      deployJobs := deployJobs[jobId := tag];
      timers := timers + {DeployTimer(jobId)};
    }

    /** deployVirtualMachine failed: the element shows the error. */
    method DeploySubmitFailed(tag: nat)
      requires Valid()
      modifies this
      ensures Valid()
      ensures items == UpdateTag(old(items), tag, DeployFailed)
      ensures nextTag == old(nextTag) && selected == old(selected) && timers == old(timers)
      ensures jobs == old(jobs) && deployJobs == old(deployJobs) && requests == old(requests)
      ensures box == old(box) && stateClasses == old(stateClasses)
    {
      var items0 := items;
      items := UpdateTag(items, tag, DeployFailed);
      SameTagsFresh(items0, items, nextTag);
    }

    /** One tick of a deployment's timer: nothing while it runs; otherwise the timer stops and the element shows the outcome. */
    method PollDeploy(jobId: string, status: int, vm: Option<Vm>, jobResult: string, sanitize: string -> string)
      requires Valid() && DeployTimer(jobId) in timers && jobId in deployJobs
      modifies this
      ensures Valid()
      ensures status == 0 ==> items == old(items) && timers == old(timers)
      ensures status != 0 ==> timers == old(timers) - {DeployTimer(jobId)}
      ensures status != 0 ==>
        items == UpdateTag(old(items), old(deployJobs)[jobId], it => AfterDeployPoll(it, status, vm, jobResult, sanitize))
      ensures nextTag == old(nextTag) && selected == old(selected)
      ensures jobs == old(jobs) && deployJobs == old(deployJobs) && requests == old(requests)
      ensures box == old(box) && stateClasses == old(stateClasses)
    {
      if status != 0 {
        timers := timers - {DeployTimer(jobId)};
        var items0 := items;
        items := UpdateTag(items, deployJobs[jobId], it => AfterDeployPoll(it, status, vm, jobResult, sanitize));
        SameTagsFresh(items0, items, nextTag);
      }
    }

    /** The poll request of a deployment failed: the timer stops and the element shows the error. */
    method DeployPollError(jobId: string)
      requires Valid() && DeployTimer(jobId) in timers && jobId in deployJobs
      modifies this
      ensures Valid()
      ensures timers == old(timers) - {DeployTimer(jobId)}
      ensures items == UpdateTag(old(items), old(deployJobs)[jobId], DeployFailed)
      ensures nextTag == old(nextTag) && selected == old(selected)
      ensures jobs == old(jobs) && deployJobs == old(deployJobs) && requests == old(requests)
      ensures box == old(box) && stateClasses == old(stateClasses)
    {
      timers := timers - {DeployTimer(jobId)};
      var items0 := items;
      items := UpdateTag(items, deployJobs[jobId], DeployFailed);
      SameTagsFresh(items0, items, nextTag);
    }
  }
}
