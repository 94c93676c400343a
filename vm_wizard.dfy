/**
 * The New VM wizard's state in cloud.core.instance.js: the step counter, the page of the
 * template grid, the selected template filter, which filter button is highlighted, which
 * disk offering list is shown, the search text, and the grid itself.
 *
 * `WizardState` and the transition functions say what each handler does to the counters
 * and the filter; the class `VmWizard` holds the same state in fields and its methods are
 * the handlers.
 */
module VmWizardState {
  import opened Options
  import opened WizardRules

  datatype WizardState = WizardState(
    step: int,
    page: int,
    filter: TemplateFilter,
    highlighted: TemplateFilter,
    disk: DiskKind,
    container: DiskKind,
    search: string)

  /** vmWizardCleanup: first step, first page, the featured filter selected and highlighted; the disk list and search text stay. */
  function Cleanup(s: WizardState): (t: WizardState)
    ensures t.step == 1 && t.page == 1 && t.filter == Featured && t.highlighted == Featured
    ensures t.disk == s.disk && t.search == s.search
  {
    s.(step := 1, page := 1, filter := Featured, highlighted := Featured)
  }

  /**
   * The next-step handler: leaving step 1 it shows the root disk container when the blank
   * button is highlighted and the data disk container otherwise; it ends by moving to the
   * following step, whatever the current one.
   */
  function NextStep(s: WizardState): (t: WizardState)
    ensures t.step == s.step + 1
    ensures s.step == 1 ==> (t.container == RootDisk <==> s.highlighted == Blank)
    ensures s.step != 1 ==> t.container == s.container
    ensures t == s.(step := t.step, container := t.container)
  {
    s.(step := s.step + 1, container := if s.step == 1 then DiskKindFor(s.highlighted) else s.container)
  }

  function PrevStep(s: WizardState): (t: WizardState)
    ensures t.step == s.step - 1 && t == s.(step := t.step)
  {
    s.(step := s.step - 1)
  }

  function NextPage(s: WizardState): (t: WizardState)
    ensures t.page == s.page + 1 && t == s.(page := t.page)
  {
    s.(page := s.page + 1)
  }

  function PrevPage(s: WizardState): (t: WizardState)
    ensures t.page == s.page - 1 && t == s.(page := t.page)
  {
    s.(page := s.page - 1)
  }

  /** The search button goes back to the first page. */
  function SearchClick(s: WizardState): (t: WizardState)
    ensures t.page == 1 && t == s.(page := 1)
  {
    s.(page := 1)
  }

  /**
   * A click in the filter container: the filter falls back to featured; a click on one of
   * the four buttons then selects and highlights its filter, shows its disk offering list,
   * clears the search and goes back to the first page.
   */
  function FilterClick(s: WizardState, targetId: string): (t: WizardState)
    ensures FilterForButton(targetId).None? ==> t == s.(filter := Featured)
    ensures FilterForButton(targetId).Some? ==>
      var f := FilterForButton(targetId).value;
      && t.filter == f && t.highlighted == f && t.disk == DiskKindFor(f)
      && t.page == 1 && t.search == "" && t.step == s.step
  {
    match FilterForButton(targetId)
    case None => s.(filter := Featured)
    case Some(f) => s.(filter := f, highlighted := f, disk := DiskKindFor(f), page := 1, search := "")
  }

  /** The listing, the highlighted button and the disk list agree. */
  predicate Consistent(s: WizardState)
  {
    s.highlighted == s.filter && s.disk == DiskKindFor(s.filter)
  }

  /** Next followed by Prev gives back the same step, and the same state away from step 1. */
  lemma StepsUndo(s: WizardState)
    ensures PrevStep(NextStep(s)).step == s.step
    ensures s.step != 1 ==> PrevStep(NextStep(s)) == s
    ensures s.step != 2 ==> NextStep(PrevStep(s)) == s
  {
  }

  /** The same holds for the page counter. */
  lemma PagesUndo(s: WizardState)
    ensures PrevPage(NextPage(s)) == s && NextPage(PrevPage(s)) == s
  {
  }

  /** A click on a button leaves the wizard consistent, whatever it was before. */
  lemma ButtonClickConsistent(s: WizardState, f: TemplateFilter)
    ensures Consistent(FilterClick(s, ButtonId(f)))
    ensures FilterClick(s, ButtonId(f)).filter == f
  {
    ButtonRoundTrip(f, f);
  }

  /** Counters, steps and searches keep the wizard consistent. */
  lemma CountersKeepConsistent(s: WizardState)
    requires Consistent(s)
    ensures Consistent(NextStep(s)) && Consistent(PrevStep(s)) && Consistent(NextPage(s))
    ensures Consistent(PrevPage(s)) && Consistent(SearchClick(s))
  {
  }

  /**
   * A click in the filter container that misses the four buttons, after the blank button:
   * the listing falls back to featured templates while the blank button stays highlighted
   * (which the last step reads as "ISO") and the root disk list stays shown.
   */
  lemma MissedButtonLeavesIsoHighlighted(s: WizardState, targetId: string)
    requires FilterForButton(targetId).None?
    ensures var t := FilterClick(FilterClick(s, ButtonId(Blank)), targetId);
      t.filter == Featured && t.highlighted == Blank && t.disk == RootDisk && !Consistent(t)
  {
    ButtonRoundTrip(Blank, Blank);
  }

  /** Reopening the wizard after the blank filter keeps the root disk list while featured templates are listed. */
  lemma CleanupKeepsRootDisk(s: WizardState)
    ensures var t := Cleanup(FilterClick(s, ButtonId(Blank)));
      t.filter == Featured && t.disk == RootDisk && !Consistent(t)
  {
    ButtonRoundTrip(Blank, Blank);
  }

  /** The wizard: its counters and filter state, and the template grid with its paging links. */
  class VmWizard {
    var step: int
    var page: int
    var filter: TemplateFilter
    var highlighted: TemplateFilter
    var disk: DiskKind
    var container: DiskKind
    var search: string
    var boxes: seq<Box>
    var prevHidden: bool
    var nextHidden: bool

    function State(): WizardState
      reads this
    {
      WizardState(step, page, filter, highlighted, disk, container, search)
    }

    /** At most one template box is selected. */
    ghost predicate Valid()
      reads this
    {
      AtMostOneSelected(boxes)
    }

    /** The page as loaded: `displayDiskOffering("data")`, an empty grid; the counters are set by vmWizardCleanup on opening. */
    constructor ()
      ensures Valid() && boxes == [] && disk == DataDisk && search == ""
    {
      step, page := 1, 1;
      filter, highlighted, disk, container := Featured, Featured, DataDisk, DataDisk;
      search := "";
      boxes := [];
      prevHidden, nextHidden := false, false;
    }

    method SetState(s: WizardState)
      modifies this
      ensures State() == s
      ensures boxes == old(boxes) && prevHidden == old(prevHidden) && nextHidden == old(nextHidden)
    {
      step, page, filter, highlighted := s.step, s.page, s.filter, s.highlighted;
      disk, container, search := s.disk, s.container, s.search;
    }

    /** vmWizardOpen. */
    method Open()
      requires Valid()
      modifies this
      ensures Valid()
      ensures State() == Cleanup(old(State()))
      ensures boxes == old(boxes) && prevHidden == old(prevHidden) && nextHidden == old(nextHidden)
    {
      SetState(Cleanup(State()));
    }

    /** Typing into the search box. */
    method SetSearch(text: string)
      requires Valid()
      modifies this
      ensures Valid()
      ensures State() == old(State()).(search := text)
      ensures boxes == old(boxes) && prevHidden == old(prevHidden) && nextHidden == old(nextHidden)
    {
      search := text;
    }

    /**
     * listTemplatesInVmPopup, up to the request: nothing without a zone; otherwise the
     * request for the current filter, search and page, and the previous-page link shown
     * except on the first page.
     */
    method RequestTemplates(zoneId: Option<string>) returns (q: Option<seq<Param<ListingKey>>>)
      requires Valid()
      modifies this
      ensures Valid()
      ensures q == ListingQuery(zoneId, filter, search, page)
      ensures State() == old(State()) && boxes == old(boxes) && nextHidden == old(nextHidden)
      ensures prevHidden == if q.Some? then PrevPageHidden(page) else old(prevHidden)
    {
      q := ListingQuery(zoneId, filter, search, page);
      if q.Some? {
        prevHidden := PrevPageHidden(page);
      }
    }

    /** listTemplatesInVmPopup's response: the grid is rebuilt and the next-page link hidden when the page is short. */
    method ShowTemplates(items: seq<TemplateItem>, sanitize: string -> string)
      requires Valid()
      modifies this
      ensures Valid()
      ensures boxes == RenderGrid(items, filter, sanitize)
      ensures nextHidden == NextPageHidden(|items|)
      ensures State() == old(State()) && prevHidden == old(prevHidden)
    {
      RenderedGridAtMostOne(items, filter, sanitize);
      boxes := RenderGrid(items, filter, sanitize);
      nextHidden := NextPageHidden(|items|);
    }

    /** A click in the template grid. */
    method ClickTemplate(target: int)
      requires Valid()
      modifies this
      ensures Valid()
      ensures boxes == ClickBox(old(boxes), target)
      ensures State() == old(State()) && prevHidden == old(prevHidden) && nextHidden == old(nextHidden)
    {
      ClickKeepsAtMostOne(boxes, target);
      boxes := ClickBox(boxes, target);
    }

    /** The search button (or Enter in the search box). */
    method Search(zoneId: Option<string>) returns (q: Option<seq<Param<ListingKey>>>)
      requires Valid()
      modifies this
      ensures Valid()
      ensures State() == SearchClick(old(State()))
      ensures q == ListingQuery(zoneId, filter, search, page)
      ensures boxes == old(boxes) && nextHidden == old(nextHidden)
    {
      SetState(SearchClick(State()));
      q := RequestTemplates(zoneId);
    }

    method NextPageClick(zoneId: Option<string>) returns (q: Option<seq<Param<ListingKey>>>)
      requires Valid()
      modifies this
      ensures Valid()
      ensures State() == NextPage(old(State()))
      ensures q == ListingQuery(zoneId, filter, search, page)
      ensures boxes == old(boxes) && nextHidden == old(nextHidden)
    {
      SetState(NextPage(State()));
      q := RequestTemplates(zoneId);
    }

    method PrevPageClick(zoneId: Option<string>) returns (q: Option<seq<Param<ListingKey>>>)
      requires Valid()
      modifies this
      ensures Valid()
      ensures State() == PrevPage(old(State()))
      ensures q == ListingQuery(zoneId, filter, search, page)
      ensures boxes == old(boxes) && nextHidden == old(nextHidden)
    {
      SetState(PrevPage(State()));
      q := RequestTemplates(zoneId);
    }

    /** A click in the filter container, then the listing. */
    method FilterContainerClick(targetId: string, zoneId: Option<string>) returns (q: Option<seq<Param<ListingKey>>>)
      requires Valid()
      modifies this
      ensures Valid()
      ensures State() == FilterClick(old(State()), targetId)
      ensures q == ListingQuery(zoneId, filter, search, page)
      ensures boxes == old(boxes) && nextHidden == old(nextHidden)
    {
      SetState(FilterClick(State(), targetId));
      q := RequestTemplates(zoneId);
    }

    /**
     * The next-step handler: on the last step (5) it builds the deploy criteria, treating the
     * request as an ISO when the blank button is highlighted and taking the selected
     * template box; on every step it then moves to the following one.
     */
    method NextStepClick(form: DeployForm, trim: string -> string, encode: string -> string)
      returns (deploy: Option<seq<Param<DeployKey>>>)
      requires Valid()
      modifies this
      ensures Valid()
      ensures State() == NextStep(old(State()))
      ensures deploy.Some? <==> old(step) == 5
      ensures deploy.Some? ==>
        deploy.value == DeployCriteria(form, SelectedTemplateId(boxes), old(highlighted) == Blank, trim, encode)
      ensures boxes == old(boxes) && prevHidden == old(prevHidden) && nextHidden == old(nextHidden)
    {
      deploy := None;
      if step == 5 {
        deploy := Some(DeployCriteria(form, SelectedTemplateId(boxes), highlighted == Blank, trim, encode));
      }
      SetState(NextStep(State()));
    }

    method PrevStepClick()
      requires Valid()
      modifies this
      ensures Valid()
      ensures State() == PrevStep(old(State()))
      ensures boxes == old(boxes) && prevHidden == old(prevHidden) && nextHidden == old(nextHidden)
    {
      SetState(PrevStep(State()));
    }
  }
}
