/**
 * The decisions the New VM wizard of cloud.core.instance.js makes on plain values: the
 * icon for an OS type, the template filter a filter button selects, the listTemplates /
 * listIsos request and its paging controls, the template grid and its selection rule,
 * and the parameter list of deployVirtualMachine.
 *
 * Requests are modelled as lists of key/value parameters in the order the source writes
 * them, each key with the name it is written under.
 */
module WizardRules {
  import opened Options

  // ---------------------------------------------------------------- parameters

  /** A request parameter: its name (of type K) and the text written after `=`. */
  datatype Param<K> = Param(key: K, value: string)

  /** The value of the first parameter named `key`. */
  function Lookup<K(==)>(ps: seq<Param<K>>, key: K): Option<string>
  {
    if ps == [] then None
    else if ps[0].key == key then Some(ps[0].value)
    else Lookup(ps[1..], key)
  }

  /** `Lookup` finds a parameter exactly when one has the key, and its value is the first such parameter's. */
  lemma {:induction false} LookupFindsFirst<K>(ps: seq<Param<K>>, key: K)
    ensures Lookup(ps, key).None? <==> forall k :: 0 <= k < |ps| ==> ps[k].key != key
    ensures Lookup(ps, key).Some? ==> exists k :: (0 <= k < |ps| && ps[k] == Param(key, Lookup(ps, key).value)
                                        && forall j :: 0 <= j < k ==> ps[j].key != key)
    decreases |ps|
  {
    if ps != [] && ps[0].key != key {
      LookupFindsFirst(ps[1..], key);
      assert forall k :: 1 <= k < |ps| ==> ps[k] == ps[1..][k - 1];
      if Lookup(ps, key).Some? {
        var k :| 0 <= k < |ps[1..]| && ps[1..][k] == Param(key, Lookup(ps, key).value)
                 && forall j :: 0 <= j < k ==> ps[1..][j].key != key;
        assert ps[k + 1] == Param(key, Lookup(ps, key).value);
      }
    }
  }

  function Keys<K>(ps: seq<Param<K>>): (ks: seq<K>)
    ensures |ks| == |ps|
  {
    if ps == [] then [] else [ps[0].key] + Keys(ps[1..])
  }

  lemma {:induction false} KeysIndex<K>(ps: seq<Param<K>>, i: int)
    requires 0 <= i < |ps|
    ensures Keys(ps)[i] == ps[i].key
    decreases i
  {
    if i > 0 {
      KeysIndex(ps[1..], i - 1);
    }
  }

  lemma {:induction false} KeysAppend<K>(a: seq<Param<K>>, b: seq<Param<K>>)
    ensures Keys(a + b) == Keys(a) + Keys(b)
    decreases |a|
  {
    if a != [] {
      assert (a + b)[1..] == a[1..] + b;
      KeysAppend(a[1..], b);
    } else {
      assert a + b == b;
    }
  }

  /** Every parameter carries the value `f` gives its key. */
  predicate ValuesFrom<K>(ps: seq<Param<K>>, f: K -> string)
  {
    forall k :: 0 <= k < |ps| ==> ps[k].value == f(ps[k].key)
  }

  lemma ValuesAppend<K>(a: seq<Param<K>>, b: seq<Param<K>>, f: K -> string)
    requires ValuesFrom(a, f) && ValuesFrom(b, f)
    ensures ValuesFrom(a + b, f)
  {
    forall k | 0 <= k < |a + b| ensures (a + b)[k].value == f((a + b)[k].key) {
      if k >= |a| {
        assert (a + b)[k] == b[k - |a|];
      }
    }
  }

  /** No element occurs twice. */
  predicate Distinct<K(==)>(ks: seq<K>)
  {
    forall i, j :: 0 <= i < j < |ks| ==> ks[i] != ks[j]
  }

  predicate DistinctKeys<K(==)>(ps: seq<Param<K>>)
  {
    forall i, j :: 0 <= i < j < |ps| ==> ps[i].key != ps[j].key
  }

  /** In a list with distinct keys, looking up a parameter's key gives that parameter's value. */
  lemma LookupDistinct<K>(ps: seq<Param<K>>, k: int)
    requires DistinctKeys(ps) && 0 <= k < |ps|
    ensures Lookup(ps, ps[k].key) == Some(ps[k].value)
  {
    LookupFindsFirst(ps, ps[k].key);
    var j :| 0 <= j < |ps| && ps[j] == Param(ps[k].key, Lookup(ps, ps[k].key).value)
             && forall m :: 0 <= m < j ==> ps[m].key != ps[k].key;
    assert j == k;
  }

  /**
   * In a list whose keys are distinct and whose values come from `f`, every key that is
   * present is found with the value `f` gives it.
   */
  lemma LookupGivesValue<K>(ps: seq<Param<K>>, f: K -> string, key: K)
    requires DistinctKeys(ps) && ValuesFrom(ps, f)
    ensures Lookup(ps, key).Some? <==> key in Keys(ps)
    ensures Lookup(ps, key).Some? ==> Lookup(ps, key) == Some(f(key))
  {
    LookupFindsFirst(ps, key);
    if Lookup(ps, key).Some? {
      var j :| 0 <= j < |ps| && ps[j] == Param(key, Lookup(ps, key).value) && forall m :: 0 <= m < j ==> ps[m].key != key;
      KeysIndex(ps, j);
    }
    if key in Keys(ps) {
      var i :| 0 <= i < |Keys(ps)| && Keys(ps)[i] == key;
      KeysIndex(ps, i);
    }
  }

  /** The parameter `p` when `c` holds, nothing otherwise. */
  function When<K>(c: bool, p: Param<K>): (r: seq<Param<K>>)
    ensures Keys(r) == if c then [p.key] else []
    ensures forall k :: 0 <= k < |r| ==> r[k] == p
  {
    if c then [p] else []
  }

  function Digit(d: nat): char
    requires d < 10
  {
    "0123456789"[d]
  }

  /** JavaScript's decimal text of an integer. */
  function IntText(i: int): string
    decreases if i < 0 then -i + 1 else i
  {
    if i < 0 then "-" + IntText(-i)
    else if i < 10 then [Digit(i)]
    else IntText(i / 10) + [Digit(i % 10)]
  }

  /** What string concatenation makes of a value that may be null or undefined. */
  function JsText(v: Option<string>, absent: string): string
  {
    if v.Some? then v.value else absent
  }

  // ---------------------------------------------------------------- OS icon

  const CentOSIcon: string := "rev_wiztemo_centosicons"
  const WindowsIcon: string := "rev_wiztemo_windowsicons"
  const LinuxIcon: string := "rev_wiztemo_linuxicons"

  /** getIconForOS: no icon without an OS type, otherwise chosen by the prefix of the OS type. */
  function IconForOS(osType: Option<string>): (r: string)
    ensures r in {"", CentOSIcon, WindowsIcon, LinuxIcon}
    ensures r == "" <==> (osType.None? || osType.value == "")
    ensures r == CentOSIcon <==> (osType.Some? && "CentOS" <= osType.value)
    ensures r == WindowsIcon <==> (osType.Some? && !("CentOS" <= osType.value) && "Windows" <= osType.value)
    ensures r == LinuxIcon <==>
      (osType.Some? && osType.value != "" && !("CentOS" <= osType.value) && !("Windows" <= osType.value))
  {
    if osType.None? || |osType.value| == 0 then ""
    else if |osType.value| >= 6 && osType.value[..6] == "CentOS" then CentOSIcon
    else if |osType.value| >= 7 && osType.value[..7] == "Windows" then WindowsIcon
    else LinuxIcon
  }

  // ---------------------------------------------------------------- template filter

  datatype TemplateFilter = Featured | SelfExecutable | Community | Blank

  /** The value sent as `templatefilter`. */
  function FilterName(f: TemplateFilter): string
  {
    match f
    case Featured => "featured"
    case SelfExecutable => "selfexecutable"
    case Community => "community"
    case Blank => "blank"
  }

  /** The id of the filter button that selects `f`. */
  function ButtonId(f: TemplateFilter): string
  {
    match f
    case Featured => "wiz_featured"
    case SelfExecutable => "wiz_my"
    case Community => "wiz_community"
    case Blank => "wiz_blank"
  }

  /** The filter a click on the element with id `targetId` selects, when it is one of the four buttons. */
  function FilterForButton(targetId: string): (r: Option<TemplateFilter>)
    ensures r.Some? <==> targetId in {"wiz_featured", "wiz_my", "wiz_community", "wiz_blank"}
    ensures r.Some? ==> ButtonId(r.value) == targetId
  {
    if targetId == "wiz_featured" then Some(Featured)
    else if targetId == "wiz_my" then Some(SelfExecutable)
    else if targetId == "wiz_community" then Some(Community)
    else if targetId == "wiz_blank" then Some(Blank)
    else None
  }

  /** Each button selects its own filter, and the filters are sent under distinct names. */
  lemma ButtonRoundTrip(f: TemplateFilter, g: TemplateFilter)
    ensures FilterForButton(ButtonId(f)) == Some(f)
    ensures FilterName(f) == FilterName(g) ==> f == g
  {
  }

  datatype DiskKind = DataDisk | RootDisk

  /** displayDiskOffering: a blank template (an ISO) takes a root disk offering, the others a data disk. */
  function DiskKindFor(f: TemplateFilter): (d: DiskKind)
    ensures d == RootDisk <==> f == Blank
  {
    if f == Blank then RootDisk else DataDisk
  }

  // ---------------------------------------------------------------- listing and paging

  const PageSize: nat := 11

  /** The parameters of listTemplates and listIsos. */
  datatype ListingKey = Command | TemplateFilterKey | IsReady | Bootable | ZoneIdKey | Keyword | Page | Response

  function ListingKeyName(k: ListingKey): string
  {
    match k
    case Command => "command"
    case TemplateFilterKey => "templatefilter"
    case IsReady => "isReady"
    case Bootable => "bootable"
    case ZoneIdKey => "zoneid"
    case Keyword => "keyword"
    case Page => "page"
    case Response => "response"
  }

  /** The value listTemplatesInVmPopup writes for each parameter. */
  function ListingValue(key: ListingKey, filter: TemplateFilter, zoneId: string, search: string, page: int): string
  {
    match key
    case Command => if filter == Blank then "listIsos" else "listTemplates"
    case TemplateFilterKey => FilterName(filter)
    case IsReady => "true"
    case Bootable => "true"
    case ZoneIdKey => zoneId
    case Keyword => search
    case Page => IntText(page)
    case Response => "json"
  }

  /** The command part of the listing: listIsos (ready and bootable) for the blank filter, else listTemplates with the filter. */
  function ListingHead(filter: TemplateFilter, f: ListingKey -> string): (r: seq<Param<ListingKey>>)
    ensures Keys(r) == if filter == Blank then [Command, IsReady, Bootable] else [Command, TemplateFilterKey]
    ensures ValuesFrom(r, f)
  {
    var command := [Param(Command, f(Command))];
    var rest :=
      if filter != Blank then [Param(TemplateFilterKey, f(TemplateFilterKey))]
      else [Param(IsReady, f(IsReady))] + [Param(Bootable, f(Bootable))];
    KeysAppend([Param(IsReady, f(IsReady))], [Param(Bootable, f(Bootable))]);
    KeysAppend(command, rest);
    ValuesAppend(command, rest, f);
    command + rest
  }

  /**
   * listTemplatesInVmPopup's request: none without a zone; listIsos (ready, bootable) for
   * the blank filter, listTemplates with the filter otherwise; the keyword only when the
   * search text is not empty; then the page.
   */
  function ListingQuery(zoneId: Option<string>, filter: TemplateFilter, search: string, page: int)
    : (q: Option<seq<Param<ListingKey>>>)
    ensures q.None? <==> (zoneId.None? || zoneId.value == "")
    ensures q.Some? ==> (Keys(q.value) ==
      (if filter == Blank then [Command, IsReady, Bootable] else [Command, TemplateFilterKey])
      + [ZoneIdKey] + (if search != "" then [Keyword] else []) + [Page, Response])
    ensures q.Some? ==> ValuesFrom(q.value, k => ListingValue(k, filter, zoneId.value, search, page))
  {
    if zoneId.None? || zoneId.value == "" then None
    else
      var f := k => ListingValue(k, filter, zoneId.value, search, page);
      var head := ListingHead(filter, f);
      var tail := [Param(ZoneIdKey, f(ZoneIdKey))] + When(search != "", Param(Keyword, f(Keyword)))
                  + [Param(Page, f(Page)), Param(Response, f(Response))];
      ListingTailFacts(f, search);
      KeysAppend(head, tail);
      ValuesAppend(head, tail, f);
      Some(head + tail)
  }

  lemma ListingTailFacts(f: ListingKey -> string, search: string)
    ensures var tail := [Param(ZoneIdKey, f(ZoneIdKey))] + When(search != "", Param(Keyword, f(Keyword)))
                        + [Param(Page, f(Page)), Param(Response, f(Response))];
      Keys(tail) == [ZoneIdKey] + (if search != "" then [Keyword] else []) + [Page, Response] && ValuesFrom(tail, f)
  {
    var a := [Param(ZoneIdKey, f(ZoneIdKey))];
    var b := When(search != "", Param(Keyword, f(Keyword)));
    var c := [Param(Page, f(Page)), Param(Response, f(Response))];
    KeysAppend(a + b, c);
    KeysAppend(a, b);
    ValuesAppend(a, b, f);
    ValuesAppend(a + b, c, f);
  }

  /** Parameters whose key list never repeats have distinct keys. */
  lemma DistinctFromKeys<K>(ps: seq<Param<K>>)
    requires Distinct(Keys(ps))
    ensures DistinctKeys(ps)
  {
    forall i, j | 0 <= i < j < |ps| ensures ps[i].key != ps[j].key {
      KeysIndex(ps, i);
      KeysIndex(ps, j);
    }
  }

  /** The listing request's parameter names, in order, never repeat. */
  lemma ListingKeysDistinct(blank: bool, hasSearch: bool)
    ensures var ks := (if blank then [Command, IsReady, Bootable] else [Command, TemplateFilterKey])
      + [ZoneIdKey] + (if hasSearch then [Keyword] else []) + [Page, Response];
      Distinct(ks)
  {
    if blank {
      if hasSearch {
        assert [Command, IsReady, Bootable] + [ZoneIdKey] + [Keyword] + [Page, Response]
          == [Command, IsReady, Bootable, ZoneIdKey, Keyword, Page, Response];
      } else {
        assert [Command, IsReady, Bootable] + [ZoneIdKey] + [] + [Page, Response]
          == [Command, IsReady, Bootable, ZoneIdKey, Page, Response];
      }
    } else {
      if hasSearch {
        assert [Command, TemplateFilterKey] + [ZoneIdKey] + [Keyword] + [Page, Response]
          == [Command, TemplateFilterKey, ZoneIdKey, Keyword, Page, Response];
      } else {
        assert [Command, TemplateFilterKey] + [ZoneIdKey] + [] + [Page, Response]
          == [Command, TemplateFilterKey, ZoneIdKey, Page, Response];
      }
    }
  }

  /** Each listing parameter appears once, so looking one up finds the value the source writes. */
  lemma ListingQueryLookup(zoneId: Option<string>, filter: TemplateFilter, search: string, page: int, key: ListingKey)
    requires ListingQuery(zoneId, filter, search, page).Some?
    ensures var q := ListingQuery(zoneId, filter, search, page).value;
      (Lookup(q, key).Some? <==> key in Keys(q)) &&
      (Lookup(q, key).Some? ==> Lookup(q, key) == Some(ListingValue(key, filter, zoneId.value, search, page)))
  {
    var q := ListingQuery(zoneId, filter, search, page).value;
    ListingKeysDistinct(filter == Blank, search != "");
    DistinctFromKeys(q);
    LookupGivesValue(q, k => ListingValue(k, filter, zoneId.value, search, page), key);
  }

  /** Distinct parameters are written under distinct names. */
  lemma ListingKeyNamesDistinct(k1: ListingKey, k2: ListingKey)
    ensures ListingKeyName(k1) == ListingKeyName(k2) ==> k1 == k2
  {
  }

  /** The previous-page link is hidden exactly on the first page. */
  function PrevPageHidden(page: int): (hidden: bool)
    ensures hidden <==> page == 1
  {
    page == 1
  }

  /** The next-page link is hidden when the page came back short or empty. */
  function NextPageHidden(count: nat): (hidden: bool)
    ensures hidden <==> (count == 0 || count < PageSize)
  {
    count < PageSize
  }

  // ---------------------------------------------------------------- template grid

  /** The fields of a template or ISO listing entry the grid uses. */
  datatype TemplateItem = TemplateItem(id: string, osTypeName: Option<string>, displayText: string, account: string)

  /** A box of the grid: its element id, icon class, texts and whether it has the selected class. */
  datatype Box = Box(id: string, icon: string, text: string, owner: string, selected: bool)

  const PlaceholderId: string := "-2"

  function Placeholder(filter: TemplateFilter): Box
  {
    Box(PlaceholderId, "", if filter == Blank then "No ISOs available" else "No templates available", "", false)
  }

  /** The grid for a page of items: one box per item with the first one selected, or the placeholder. */
  function RenderGrid(items: seq<TemplateItem>, filter: TemplateFilter, sanitize: string -> string)
    : (boxes: seq<Box>)
    ensures items == [] ==> boxes == [Placeholder(filter)]
    ensures items != [] ==> |boxes| == |items| && forall k :: 0 <= k < |items| ==>
      && boxes[k].id == items[k].id
      && boxes[k].icon == IconForOS(items[k].osTypeName)
      && boxes[k].text == sanitize(items[k].displayText)
      && boxes[k].owner == sanitize(items[k].account)
      && (boxes[k].selected <==> k == 0)
  {
    if items == [] then [Placeholder(filter)]
    else
      seq(|items|, k requires 0 <= k < |items| =>
        Box(items[k].id, IconForOS(items[k].osTypeName), sanitize(items[k].displayText), sanitize(items[k].account), k == 0))
  }

  predicate AtMostOneSelected(boxes: seq<Box>)
  {
    forall i, j :: 0 <= i < |boxes| && 0 <= j < |boxes| && boxes[i].selected && boxes[j].selected ==> i == j
  }

  /**
   * A click on the grid, resolved to the box it landed in (`target` outside the grid:
   * the click missed every box). The placeholder ignores clicks; an unselected box
   * becomes the only selected one; a selected box is deselected.
   */
  function ClickBox(boxes: seq<Box>, target: int): (r: seq<Box>)
    ensures |r| == |boxes|
    ensures forall k :: 0 <= k < |boxes| ==> r[k] == boxes[k].(selected := r[k].selected)
    ensures (!(0 <= target < |boxes|) || boxes[target].id == PlaceholderId) ==> r == boxes
    ensures (0 <= target < |boxes| && boxes[target].id != PlaceholderId && !boxes[target].selected) ==>
      forall k :: 0 <= k < |r| ==> (r[k].selected <==> k == target)
    ensures (0 <= target < |boxes| && boxes[target].id != PlaceholderId && boxes[target].selected) ==>
      forall k :: 0 <= k < |r| ==> r[k].selected == (boxes[k].selected && k != target)
  {
    if !(0 <= target < |boxes|) || boxes[target].id == PlaceholderId then boxes
    else if !boxes[target].selected then
      seq(|boxes|, k requires 0 <= k < |boxes| => boxes[k].(selected := k == target))
    else
      boxes[target := boxes[target].(selected := false)]
  }

  /** A rendered grid has at most one selected box, and clicks keep it so. */
  lemma RenderedGridAtMostOne(items: seq<TemplateItem>, filter: TemplateFilter, sanitize: string -> string)
    ensures AtMostOneSelected(RenderGrid(items, filter, sanitize))
    ensures items != [] ==> RenderGrid(items, filter, sanitize)[0].selected
  {
  }

  lemma ClickKeepsAtMostOne(boxes: seq<Box>, target: int)
    requires AtMostOneSelected(boxes)
    ensures AtMostOneSelected(ClickBox(boxes, target))
  {
  }

  /** A click never selects the placeholder. */
  lemma PlaceholderNeverSelected(boxes: seq<Box>, target: int)
    ensures forall k :: 0 <= k < |boxes| && boxes[k].id == PlaceholderId ==>
      (ClickBox(boxes, target)[k].selected ==> boxes[k].selected)
  {
  }

  /** Clicking the same unselected box twice leaves nothing selected. */
  lemma ClickTwiceClears(boxes: seq<Box>, target: int)
    requires 0 <= target < |boxes| && boxes[target].id != PlaceholderId && !boxes[target].selected
    ensures forall k :: 0 <= k < |boxes| ==> !ClickBox(ClickBox(boxes, target), target)[k].selected
  {
    var once := ClickBox(boxes, target);
    assert once[target].id == boxes[target].id && once[target].selected;
  }

  /** The id of the first selected box: `.attr("id")` of the selection, absent when nothing is selected. */
  function SelectedTemplateId(boxes: seq<Box>): (r: Option<string>)
    ensures r.None? <==> forall k :: 0 <= k < |boxes| ==> !boxes[k].selected
    ensures r.Some? ==> exists k :: 0 <= k < |boxes| && boxes[k].selected && boxes[k].id == r.value
                          && forall j :: 0 <= j < k ==> !boxes[j].selected
  {
    if boxes == [] then None
    else if boxes[0].selected then Some(boxes[0].id)
    else
      var r := SelectedTemplateId(boxes[1..]);
      assert forall k :: 1 <= k < |boxes| ==> boxes[k] == boxes[1..][k - 1];
      r
  }

  // ---------------------------------------------------------------- deployVirtualMachine

  /** The wizard's inputs read at the last step (the values of the form elements). */
  datatype DeployForm = DeployForm(
    zoneId: Option<string>,
    name: string,
    group: string,
    serviceOfferingId: Option<string>,
    rootDiskOfferingId: Option<string>,
    dataDiskOfferingId: Option<string>)



  /** The criteria of deployVirtualMachine. */
  datatype DeployKey = ZoneId | DisplayName | Group | TemplateId | ServiceOfferingId | DiskOfferingId

  function DeployKeyName(k: DeployKey): string
  {
    match k
    case ZoneId => "zoneId"
    case DisplayName => "displayname"
    case Group => "group"
    case TemplateId => "templateId"
    case ServiceOfferingId => "serviceOfferingId"
    case DiskOfferingId => "diskOfferingId"
  }

  /** The value the last step writes for each criterion. */
  function DeployValue(key: DeployKey, form: DeployForm, templateId: Option<string>, isIso: bool,
                       trim: string -> string, encode: string -> string): string
  {
    match key
    case ZoneId => JsText(form.zoneId, "null")
    case DisplayName => encode(trim(form.name))
    case Group => encode(trim(form.group))
    case TemplateId => JsText(templateId, "undefined")
    case ServiceOfferingId => JsText(form.serviceOfferingId, "undefined")
    case DiskOfferingId => JsText(if isIso then form.rootDiskOfferingId else form.dataDiskOfferingId, "undefined")
  }

  /** Whether a disk offering is sent: always for an ISO, for a template only when one is chosen. */
  predicate SendsDiskOffering(form: DeployForm, isIso: bool)
  {
    isIso || (form.dataDiskOfferingId.Some? && form.dataDiskOfferingId.value != "")
  }

  /**
   * The criteria of deployVirtualMachine, in the order the source pushes them: zone; name and
   * group only when not empty after trimming; template; service offering; the disk offering
   * always for an ISO and, for a template, only when one is chosen.
   */
  function DeployCriteria(form: DeployForm, templateId: Option<string>, isIso: bool,
                          trim: string -> string, encode: string -> string): (r: seq<Param<DeployKey>>)
    ensures Keys(r) == [ZoneId]
      + (if trim(form.name) != "" then [DisplayName] else [])
      + (if trim(form.group) != "" then [Group] else [])
      + [TemplateId, ServiceOfferingId]
      + (if SendsDiskOffering(form, isIso) then [DiskOfferingId] else [])
    ensures ValuesFrom(r, k => DeployValue(k, form, templateId, isIso, trim, encode))
  {
    var f := k => DeployValue(k, form, templateId, isIso, trim, encode);
    var head := DeployHead(f, trim(form.name) != "", trim(form.group) != "");
    var tail := DeployTail(f, SendsDiskOffering(form, isIso));
    KeysAppend(head, tail);
    ValuesAppend(head, tail, f);
    head + tail
  }

  /** Zone, then name and group when given. */
  function DeployHead(f: DeployKey -> string, hasName: bool, hasGroup: bool): (r: seq<Param<DeployKey>>)
    ensures Keys(r) == [ZoneId] + (if hasName then [DisplayName] else []) + (if hasGroup then [Group] else [])
    ensures ValuesFrom(r, f)
  {
    var a := [Param(ZoneId, f(ZoneId))];
    var b := When(hasName, Param(DisplayName, f(DisplayName)));
    var c := When(hasGroup, Param(Group, f(Group)));
    KeysAppend(a + b, c);
    KeysAppend(a, b);
    ValuesAppend(a, b, f);
    ValuesAppend(a + b, c, f);
    a + b + c
  }

  /** Template, service offering, then the disk offering when sent. */
  function DeployTail(f: DeployKey -> string, hasDisk: bool): (r: seq<Param<DeployKey>>)
    ensures Keys(r) == [TemplateId, ServiceOfferingId] + (if hasDisk then [DiskOfferingId] else [])
    ensures ValuesFrom(r, f)
  {
    var a := [Param(TemplateId, f(TemplateId)), Param(ServiceOfferingId, f(ServiceOfferingId))];
    var b := When(hasDisk, Param(DiskOfferingId, f(DiskOfferingId)));
    KeysAppend(a, b);
    ValuesAppend(a, b, f);
    a + b
  }

  /** The criteria are written under distinct names. */
  lemma DeployKeyNamesDistinct(k1: DeployKey, k2: DeployKey)
    ensures DeployKeyName(k1) == DeployKeyName(k2) ==> k1 == k2
  {
  }

  lemma DistinctAppend<K>(a: seq<K>, b: seq<K>)
    requires Distinct(a) && Distinct(b)
    requires forall x :: x in a ==> x !in b
    ensures Distinct(a + b)
  {
    var c := a + b;
    forall i, j | 0 <= i < j < |c| ensures c[i] != c[j] {
      if i < |a| && j >= |a| {
        assert c[i] in a && c[j] == b[j - |a|] && b[j - |a|] in b;
      } else if i >= |a| {
        assert c[i] == b[i - |a|] && c[j] == b[j - |a|];
      }
    }
  }

  /** The criteria's names, in order, never repeat. */
  lemma DeployKeysDistinct(hasName: bool, hasGroup: bool, hasDisk: bool)
    ensures Distinct([ZoneId] + (if hasName then [DisplayName] else []) + (if hasGroup then [Group] else [])
                     + [TemplateId, ServiceOfferingId] + (if hasDisk then [DiskOfferingId] else []))
  {
    var n: seq<DeployKey> := if hasName then [DisplayName] else [];
    var g: seq<DeployKey> := if hasGroup then [Group] else [];
    var d: seq<DeployKey> := if hasDisk then [DiskOfferingId] else [];
    DistinctAppend([ZoneId], n);
    DistinctAppend([ZoneId] + n, g);
    DistinctAppend([ZoneId] + n + g, [TemplateId, ServiceOfferingId]);
    DistinctAppend([ZoneId] + n + g + [TemplateId, ServiceOfferingId], d);
  }

  /** Each criterion is pushed at most once, so the server reads the value the wizard wrote. */
  lemma DeployCriteriaLookup(form: DeployForm, templateId: Option<string>, isIso: bool,
                             trim: string -> string, encode: string -> string, key: DeployKey)
    ensures var r := DeployCriteria(form, templateId, isIso, trim, encode);
      (Lookup(r, key).Some? <==> key in Keys(r)) &&
      (Lookup(r, key).Some? ==> Lookup(r, key) == Some(DeployValue(key, form, templateId, isIso, trim, encode)))
  {
    var r := DeployCriteria(form, templateId, isIso, trim, encode);
    DeployKeysDistinct(trim(form.name) != "", trim(form.group) != "", SendsDiskOffering(form, isIso));
    DistinctFromKeys(r);
    LookupGivesValue(r, k => DeployValue(k, form, templateId, isIso, trim, encode), key);
  }
}
