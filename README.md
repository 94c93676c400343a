# Instance panel and template-in-store table, in Dafny

This project models two parts of a CloudStack management server and proves properties of the model.

- **The instance panel of the web UI** (`ui/new/scripts/cloud.core.instance.js`):
  - the left-menu grouping of virtual machines by group label;
  - the state colour of the right panel and the status icon of the middle menu;
  - the selection set and the Stop/Start actions dispatched on it;
  - the polling of asynchronous jobs, for actions and for deployments;
  - the New VM wizard: step and page counters, template filter buttons, the template/ISO listing request with its paging links, the template grid and its selection rule, and the `deployVirtualMachine` criteria.
- **The DAO of the `template_store_ref` table** (`TemplateDataStoreDaoImpl.java`):
  - the SearchBuilder filters defined in `configure`;
  - every `list*`/`find*` query;
  - the optimistic compare-and-set of `updateState`;
  - the two deletes, the bulk role rewrite, and the duplication of image-cache records onto a region-wide store.

Layout, one module per file:

| file | module | form |
|---|---|---|
| `options.dfy` | `Options` | the `Option` datatype |
| `instance_display.dfy` | `InstanceDisplay` | pure: state to colour, class list and icon |
| `instance_grouping.dfy` | `InstanceGrouping` | pure specification of the grouping, plus the grouping loop as a method |
| `instance_panel.dfy` | `InstancePanel` | item functions, plus the class `InstanceList` (items, selection, timers, job maps, right-panel box) |
| `wizard_rules.dfy` | `WizardRules` | pure: OS icon, filter buttons, listing request, paging, template grid, deploy criteria |
| `vm_wizard.dfy` | `VmWizardState` | transition functions, plus the class `VmWizard` (counters, filter, grid) |
| `template_store_records.dfy` | `TemplateStoreRecords` | records, and the meaning of a SearchBuilder with its bindings |
| `template_store_queries.dfy` | `TemplateStoreQueries` | queries as functions; zone-wide loops as read-only methods |
| `template_store_dao.dfy` | `TemplateStoreDao` | each mutator's effect as a function of the old rows, plus the class `TemplateDataStoreDao` |

How the model represents the UI:
- The middle menu is a sequence of `Item` records with these fields:
  - the element identity `tag`, and the id attribute `domId`;
  - the bound instance, the name text, spinner visible, info icon visible, error class;
  - the after-action text, the status icon, whether the content is selected, and whether the failed-deploy click handler is bound.
- `$("#id")` finds the first item with that id (`FindItem`). A handler holding a captured element (`$t`) acts on that element by tag (`FindTag`).
- Timers are a set of active keys.
- Server answers are parameters of the methods. So are the helpers defined outside the file (`sanitizeXSS`, `trim`, `encodeURIComponent`) and the job id the server returns (`jobIdFor`).
- The job-to-instance map is one field, `jobs`, for the whole panel. In the source each click of an action link has its own local `jobIdMap`, and that click's timers read only it. The two agree as long as the server never hands out the same job id twice.
- `for (var id in selectedItemIds)` visits the set in some order. `Enumerate` returns such an order, and `Dispatch` is proved for every order it may return.

How the model represents the DAO:
- The table is a sequence of `TemplateStoreRef` rows in table order.
- A SearchBuilder is a list of named conditions. A condition whose name the caller does not bind is dropped from the WHERE clause, as the DAO framework does. This is why `listOnCache` returns destroyed records too, and why both deletes remove live and destroyed records alike.
- An `IN` condition bound to an empty list matches nothing.
- The store lists of the data-store manager and the template lookup of the template DAO are inputs: `Option<seq<int>>` for a list that may be null, and `int -> bool` for the lookup.

Behaviour of the code as written that the model keeps:
- **Filter click outside the buttons.** A click in the filter container that hits none of the four buttons sets the filter to featured. It leaves the highlighted button, the disk list, the page and the search as they were (`MissedButtonLeavesIsoHighlighted`). After the blank filter, the next deploy is still sent as an ISO while featured templates are listed.
- **Cleanup keeps the disk list.** `vmWizardCleanup` does not call `displayDiskOffering`, so reopening the wizard after the blank filter keeps the root disk list (`CleanupKeepsRootDisk`).
- **Group headers list every instance.** A click on a group header empties the middle menu and lists every instance, not only that group's. The selection is not cleared (`ClearList`, `ShowInstances`).
- **Inherited names as group labels.** The grouping tests `group1 in instanceGroupMap` on a plain object. That test already holds for the names every object inherits (`constructor`, `toString`, `valueOf`, `__proto__`, …), so the first instance with such a label makes the loop call `push` on an inherited property, which throws. The success callback stops there: no group header is drawn and the action menu is not built (`GroupInstances` returns `completed == false`).
- **Unbounded counters.** The step and page counters are not bounded: Next and Prev always add or subtract one.
- **Failed deployments keep the spinner.** When a deployment's request or its poll fails, the item shows the error but the spinner stays shown.

## Model

| member | source | states |
|---|---|---|
| InstanceDisplay.StateColour | ui/new/scripts/cloud.core.instance.js:33-40 | Running is green, Stopped is red, and every other state (the empty text included) is gray, each as an if-and-only-if |
| InstanceDisplay.RightPanelStateClasses | ui/new/scripts/cloud.core.instance.js:33-40 | after the update exactly one of green/red/gray is present, the state's colour, and every other class is as before |
| InstanceDisplay.StatusIcon | ui/new/scripts/cloud.core.instance.js:42-49 | the status icon is `images/status_<colour>.png`, with the colour the right panel uses for the same state |
| InstanceDisplay.StatusIconMatchesPanel | ui/new/scripts/cloud.core.instance.js:33-49 | two states get the same status icon exactly when they get the same right-panel class |
| InstanceGrouping.GroupLabel | ui/new/scripts/cloud.core.instance.js:140-142 | a null or empty group gives "(no group name)", any other group gives itself; the label is never empty, so the non-empty check before a header is drawn always passes |
| InstanceGrouping.GroupOrder | ui/new/scripts/cloud.core.instance.js:143-149 | no group name is listed twice |
| InstanceGrouping.GroupOrderMembers | ui/new/scripts/cloud.core.instance.js:139-150 | a name is listed exactly when some instance has it as its label |
| InstanceGrouping.Members | ui/new/scripts/cloud.core.instance.js:143-148 | a group never holds more instances than the list |
| InstanceGrouping.MembersAre | ui/new/scripts/cloud.core.instance.js:143-148 | an instance is in group g exactly when it is listed and its label is g |
| InstanceGrouping.MembersAppend | ui/new/scripts/cloud.core.instance.js:139-150 | within a group the input order is kept: the members of a concatenation are the members of each part, in turn |
| InstanceGrouping.EveryInstanceInOneGroup | ui/new/scripts/cloud.core.instance.js:135-151 | every instance is in its own label's group, which is listed, and in no other group; the group sizes add up to the number of instances |
| InstanceGrouping.GroupOrderIsFirstAppearance | ui/new/scripts/cloud.core.instance.js:143-149 | groups are ordered by first appearance: any instance of a later group comes after some instance of each earlier group |
| InstanceGrouping.GroupInstances | ui/new/scripts/cloud.core.instance.js:135-151 | the loop completes exactly when no label is a name a plain JavaScript object inherits (`constructor`, `toString`, `__proto__`, …); then `instanceGroupArray` equals GroupOrder and `instanceGroupMap` has exactly the listed names as keys, each mapped to its group's members in order; otherwise it stops at the first such instance with the grouping of the instances before it, and no header is drawn |
| InstancePanel.TimerKeysDiffer | ui/new/scripts/cloud.core.instance.js:214-217 | an action job's timer key ("asyncJob_"…) never equals a deployment's ("vmNew"…) |
| InstancePanel.NewItems | ui/new/scripts/cloud.core.instance.js:166-173 | one item per instance, in list order: id "midmenuItemVm_"+id, the instance bound, the status icon of its state, and consecutive tags from the first free one |
| InstancePanel.FindItem | ui/new/scripts/cloud.core.instance.js:229 | an id selector finds the first item with that id, or none when no item has it |
| InstancePanel.FindTag | ui/new/scripts/cloud.core.instance.js:836 | a captured element is found when it is still listed, and not otherwise |
| InstancePanel.UpdateFirst | ui/new/scripts/cloud.core.instance.js:229-238 | only the first item with the id is changed; every other item is left as it was |
| InstancePanel.UpdateTag | ui/new/scripts/cloud.core.instance.js:836-861 | only the captured element is changed, and nothing changes when it is gone |
| InstancePanel.MarkBusy | ui/new/scripts/cloud.core.instance.js:204-205 | spinner shown and info icon hidden, every other field unchanged |
| InstancePanel.JobsForEach | ui/new/scripts/cloud.core.instance.js:202-213 | with distinct job ids, each instance acted on has its own job entry pointing back at it with the action, and there are no other entries |
| InstancePanel.AfterPoll | ui/new/scripts/cloud.core.instance.js:222-239 | completed job: spinner hidden. Status 1: no error, "<label> action succeeded.", and the status icon of the returned state when present. Status 2: error, "<label> action failed. Reason: "+sanitized result. Any other status: nothing but the spinner changes |
| InstancePanel.AfterDeployPoll | ui/new/scripts/cloud.core.instance.js:830-868 | completed deployment: spinner hidden. Status 1: "Adding succeeded." and, with the instance, the instance's id, name and icon. Status 2: "Adding failed", error, "Adding failed. Reason: "+sanitized result, and the failure click handler bound. Other statuses: only the spinner changes |
| InstancePanel.DeployFailed | ui/new/scripts/cloud.core.instance.js:884-899 | a failed deploy request or poll shows the error icon and "Adding failed" and keeps the spinner and the message |
| InstancePanel.SelectedBox | ui/new/scripts/cloud.core.instance.js:67-78 | the after-action box is shown exactly when the item's info icon is, with the item's text and its error style; otherwise it is emptied and hidden |
| InstancePanel.SuccessShownOnSelect | ui/new/scripts/cloud.core.instance.js:231-233 | after a successful action, selecting the item shows "<label> action succeeded." without the error style |
| InstancePanel.FailureShownOnSelect | ui/new/scripts/cloud.core.instance.js:236-238 | after a failed action, selecting the item shows the sanitized reason with the error style |
| InstancePanel.BusyShowsNothing | ui/new/scripts/cloud.core.instance.js:204-205 | while an action runs, and after a completion other than 1 or 2, selecting the item hides the after-action box |
| InstancePanel.DeployedItemIsActionTarget | ui/new/scripts/cloud.core.instance.js:841-842 | a deployment that succeeds with its instance becomes the item a later action on that instance's id finds |
| InstancePanel.Enumerate | ui/new/scripts/cloud.core.instance.js:203 | the action loop visits every selected id exactly once and nothing else |
| InstancePanel.RunAction | ui/new/scripts/cloud.core.instance.js:203-262 | the loop marks busy the first item of every visited id, sends one request per id in visiting order, records each job and starts its timer, and keeps the tags fresh |
| InstancePanel.InstanceList.constructor | ui/new/scripts/cloud.core.instance.js:19 | the panel starts with no items, no selection, no timers and no jobs |
| InstancePanel.InstanceList.ClearList | ui/new/scripts/cloud.core.instance.js:159 | a group header click empties the middle menu and changes nothing else (the selection stays) |
| InstancePanel.InstanceList.ShowInstances | ui/new/scripts/cloud.core.instance.js:166-173 | the listing appends one fresh item per instance and changes nothing else |
| InstancePanel.InstanceList.SelectItem | ui/new/scripts/cloud.core.instance.js:59-80 | selecting an item highlights it, adds its id to the selection (an idempotent insert that removes nothing), sets the after-action box, and colours the state text |
| InstancePanel.InstanceList.SelectFailedDeploy | ui/new/scripts/cloud.core.instance.js:862-868 | clicking a failed deployment shows its reason in the error box and clears the right panel's state |
| InstancePanel.InstanceList.Dispatch | ui/new/scripts/cloud.core.instance.js:195-265 | each selected id, visited once, gets its first item marked busy, one request, a job entry and a timer; afterwards the selection is empty whatever the jobs' outcomes |
| InstancePanel.InstanceList.Poll | ui/new/scripts/cloud.core.instance.js:215-240 | status 0 changes nothing and the timer keeps running; any other status stops "asyncJob_"+jobId and applies AfterPoll to the first item with the job's instance id |
| InstancePanel.InstanceList.BeginDeploy | ui/new/scripts/cloud.core.instance.js:808-812 | the last wizard step appends an "Adding...." item with its spinner shown |
| InstancePanel.InstanceList.DeploySubmitted | ui/new/scripts/cloud.core.instance.js:817-826 | the accepted deployment's element takes the id "vmNew"+jobId, is recorded under the job, and its timer starts |
| InstancePanel.InstanceList.DeploySubmitFailed | ui/new/scripts/cloud.core.instance.js:895-899 | a refused deployment's element shows the error and nothing else changes |
| InstancePanel.InstanceList.PollDeploy | ui/new/scripts/cloud.core.instance.js:826-868 | status 0 changes nothing; any other status stops "vmNew"+jobId and applies AfterDeployPoll to the captured element |
| InstancePanel.InstanceList.DeployPollError | ui/new/scripts/cloud.core.instance.js:884-889 | a failed poll request stops the deployment's timer and shows the error on its element |
| WizardRules.IconForOS | ui/new/scripts/cloud.core.instance.js:480-492 | null or empty gives ""; prefix CentOS gives the centos icon; else prefix Windows gives the windows icon; else the linux icon; always one of these four, each as an if-and-only-if |
| WizardRules.FilterForButton | ui/new/scripts/cloud.core.instance.js:646-679 | a filter is chosen exactly for the four button ids, and it is the filter of that button |
| WizardRules.ButtonRoundTrip | ui/new/scripts/cloud.core.instance.js:646-679 | each button selects its own filter (featured, selfexecutable, community, blank), and distinct filters are sent under distinct names |
| WizardRules.DiskKindFor | ui/new/scripts/cloud.core.instance.js:623-636 | the root disk list is shown exactly for the blank filter |
| WizardRules.ListingQuery | ui/new/scripts/cloud.core.instance.js:521-540 | no request without a zone (null or empty); otherwise the parameters in order: listIsos with isReady and bootable for blank, listTemplates with the filter otherwise; the zone; the keyword only when the search text is not empty; the page; the json response type |
| WizardRules.ListingQueryLookup | ui/new/scripts/cloud.core.instance.js:530-540 | every listing parameter appears once in the parameter list, so looking a key up in that list gives exactly the value the wizard wrote for it |
| WizardRules.ListingKeyNamesDistinct | ui/new/scripts/cloud.core.instance.js:532-539 | distinct listing parameters are written under distinct names |
| WizardRules.PrevPageHidden | ui/new/scripts/cloud.core.instance.js:543-546 | the previous-page link is hidden exactly on page 1 |
| WizardRules.NextPageHidden | ui/new/scripts/cloud.core.instance.js:576-579 | the next-page link is hidden exactly when fewer than 11 items, or none, come back |
| WizardRules.RenderGrid | ui/new/scripts/cloud.core.instance.js:559-593 | an empty page shows only the placeholder "-2" with the no-templates or no-ISOs text; otherwise one box per item with its id, OS icon and sanitized texts, and exactly the first box selected |
| WizardRules.ClickBox | ui/new/scripts/cloud.core.instance.js:598-613 | the placeholder and clicks outside the boxes change nothing; an unselected box becomes the only selected one; a selected box is deselected; only selection flags change |
| WizardRules.RenderedGridAtMostOne | ui/new/scripts/cloud.core.instance.js:560-567 | a rendered grid has at most one selected box, the first one when the page is not empty |
| WizardRules.ClickKeepsAtMostOne | ui/new/scripts/cloud.core.instance.js:605-611 | a click keeps at most one box selected |
| WizardRules.PlaceholderNeverSelected | ui/new/scripts/cloud.core.instance.js:605 | a click never selects the placeholder |
| WizardRules.ClickTwiceClears | ui/new/scripts/cloud.core.instance.js:606-611 | clicking the same unselected box twice leaves nothing selected |
| WizardRules.SelectedTemplateId | ui/new/scripts/cloud.core.instance.js:791 | the template id sent is that of the first selected box, and absent exactly when no box is selected |
| WizardRules.DeployCriteria | ui/new/scripts/cloud.core.instance.js:774-804 | criteria in order: zoneId; displayname and group only when not empty after trim; templateId; serviceOfferingId; diskOfferingId always for an ISO and, for a template, only when chosen and not empty; each with the value the wizard reads |
| WizardRules.DeployCriteriaLookup | ui/new/scripts/cloud.core.instance.js:774-804 | every criterion appears at most once in the parameter list, so looking a key up in that list gives exactly the value the wizard wrote for it |
| WizardRules.DeployKeyNamesDistinct | ui/new/scripts/cloud.core.instance.js:775-803 | distinct criteria are written under distinct names |
| VmWizardState.Cleanup | ui/new/scripts/cloud.core.instance.js:441-451 | back to step 1 and page 1, with the featured filter selected and highlighted; the disk list and search text are kept |
| VmWizardState.NextStep | ui/new/scripts/cloud.core.instance.js:689-719 | the step goes up by one from any step; leaving step 1 shows the root disk container exactly when the blank button is highlighted; nothing else changes |
| VmWizardState.PrevStep | ui/new/scripts/cloud.core.instance.js:909-911 | the step goes down by one and nothing else changes |
| VmWizardState.NextPage | ui/new/scripts/cloud.core.instance.js:508-509 | the page goes up by one and nothing else changes |
| VmWizardState.PrevPage | ui/new/scripts/cloud.core.instance.js:514-515 | the page goes down by one and nothing else changes |
| VmWizardState.SearchClick | ui/new/scripts/cloud.core.instance.js:495-496 | a search goes back to page 1 and nothing else changes |
| VmWizardState.FilterClick | ui/new/scripts/cloud.core.instance.js:641-679 | any other target only sets the filter to featured (the page is not reset); a button selects and highlights its filter, shows its disk list, resets the page to 1 and clears the search |
| VmWizardState.StepsUndo | ui/new/scripts/cloud.core.instance.js:905-911 | Next then Prev restores the step, and the whole state away from step 1; Prev then Next restores the state away from step 2 |
| VmWizardState.PagesUndo | ui/new/scripts/cloud.core.instance.js:508-518 | next page then previous page, and the reverse, restore the state |
| VmWizardState.ButtonClickConsistent | ui/new/scripts/cloud.core.instance.js:646-679 | after a button click the filter, the highlighted button and the disk list agree, whatever they were before |
| VmWizardState.CountersKeepConsistent | ui/new/scripts/cloud.core.instance.js:495-518 | step, page and search handlers keep filter, highlight and disk list in agreement |
| VmWizardState.MissedButtonLeavesIsoHighlighted | ui/new/scripts/cloud.core.instance.js:641-679 | after the blank button, a click that misses the buttons lists featured templates but leaves blank highlighted and the root disk list shown |
| VmWizardState.CleanupKeepsRootDisk | ui/new/scripts/cloud.core.instance.js:441-451 | reopening the wizard after the blank filter lists featured templates while the root disk list stays shown |
| VmWizardState.VmWizard.constructor | ui/new/scripts/cloud.core.instance.js:283-284 | the page loads with the data disk list shown, an empty grid and no search text |
| VmWizardState.VmWizard.Open | ui/new/scripts/cloud.core.instance.js:453-457 | opening the wizard applies Cleanup and leaves the grid as it was |
| VmWizardState.VmWizard.SetSearch | ui/new/scripts/cloud.core.instance.js:529 | typing changes only the search text the next listing reads |
| VmWizardState.VmWizard.RequestTemplates | ui/new/scripts/cloud.core.instance.js:521-546 | the listing request is ListingQuery of the current filter, search text and page; the previous-page link is updated only when a request is made |
| VmWizardState.VmWizard.ShowTemplates | ui/new/scripts/cloud.core.instance.js:552-593 | the grid becomes RenderGrid of the page, the next-page link follows NextPageHidden, and at most one box stays selected |
| VmWizardState.VmWizard.ClickTemplate | ui/new/scripts/cloud.core.instance.js:598-613 | the grid becomes ClickBox of the old grid, and at most one box stays selected |
| VmWizardState.VmWizard.Search | ui/new/scripts/cloud.core.instance.js:495-506 | a search goes back to page 1 and then lists |
| VmWizardState.VmWizard.NextPageClick | ui/new/scripts/cloud.core.instance.js:508-512 | the page goes up by one and then the wizard lists |
| VmWizardState.VmWizard.PrevPageClick | ui/new/scripts/cloud.core.instance.js:514-518 | the page goes down by one and then the wizard lists |
| VmWizardState.VmWizard.FilterContainerClick | ui/new/scripts/cloud.core.instance.js:641-682 | FilterClick, then the listing, even when the click missed every button |
| VmWizardState.VmWizard.NextStepClick | ui/new/scripts/cloud.core.instance.js:684-907 | exactly on step 5 the deploy criteria are built, from the selected box, as an ISO exactly when blank is highlighted; on every step the wizard then moves on |
| VmWizardState.VmWizard.PrevStepClick | ui/new/scripts/cloud.core.instance.js:909-916 | the wizard goes back one step |
| TemplateStoreRecords.Select | engine/storage/src/org/apache/cloudstack/storage/image/db/TemplateDataStoreDaoImpl.java:186-190 | a search returns exactly the rows that satisfy every bound condition, never more rows than the table |
| TemplateStoreRecords.Reject | engine/storage/src/org/apache/cloudstack/storage/image/db/TemplateDataStoreDaoImpl.java:213-229 | a delete by a search leaves exactly the rows the search does not match |
| TemplateStoreRecords.FindOne | engine/storage/src/org/apache/cloudstack/storage/image/db/TemplateDataStoreDaoImpl.java:297-302 | a find returns a matching row, and null exactly when no row matches |
| TemplateStoreRecords.SelectAppend | engine/storage/src/org/apache/cloudstack/storage/image/db/TemplateDataStoreDaoImpl.java:186-190 | a search keeps table order: searching a concatenation concatenates the searches |
| TemplateStoreRecords.SelectRejectPartition | engine/storage/src/org/apache/cloudstack/storage/image/db/TemplateDataStoreDaoImpl.java:213-229 | a search and the delete by the same search split the table: together they hold each row exactly once |
| TemplateStoreRecords.SelectSplit | engine/storage/src/org/apache/cloudstack/storage/image/db/TemplateDataStoreDaoImpl.java:186-199 | two searches that split one search's matches return between them each of its rows exactly once |
| TemplateStoreRecords.RejectKeepsUniqueIds | engine/storage/src/org/apache/cloudstack/storage/image/db/TemplateDataStoreDaoImpl.java:213-229 | deleting rows keeps the table keyed by id |
| TemplateStoreRecords.StateValues | engine/storage/src/org/apache/cloudstack/storage/image/db/TemplateDataStoreDaoImpl.java:246 | the IN list holds exactly the given states |
| TemplateStoreRecords.StatusValues | engine/storage/src/org/apache/cloudstack/storage/image/db/TemplateDataStoreDaoImpl.java:256 | the IN list holds exactly the given download states |
| TemplateStoreQueries.StoreOnlyMatches | engine/storage/src/org/apache/cloudstack/storage/image/db/TemplateDataStoreDaoImpl.java:78-81 | with only `store_id` bound, `storeSearch` matches exactly the store's records, destroyed or not |
| TemplateStoreQueries.StoreRecords | engine/storage/src/org/apache/cloudstack/storage/image/db/TemplateDataStoreDaoImpl.java:213-215 | the records `deletePrimaryRecordsForStore` targets: exactly the store's records |
| TemplateStoreQueries.ListByStoreId | engine/storage/src/org/apache/cloudstack/storage/image/db/TemplateDataStoreDaoImpl.java:185-191 | exactly the store's records that are not destroyed |
| TemplateStoreQueries.ListDestroyed | engine/storage/src/org/apache/cloudstack/storage/image/db/TemplateDataStoreDaoImpl.java:193-199 | exactly the store's destroyed records |
| TemplateStoreQueries.ListActiveOnCache | engine/storage/src/org/apache/cloudstack/storage/image/db/TemplateDataStoreDaoImpl.java:202-209 | exactly the store's records that are not destroyed and have a reference count other than 0 |
| TemplateStoreQueries.StoreListingsPartition | engine/storage/src/org/apache/cloudstack/storage/image/db/TemplateDataStoreDaoImpl.java:185-199 | listByStoreId and listDestroyed partition the store's records: together they hold each exactly once |
| TemplateStoreQueries.ListByTemplateStore | engine/storage/src/org/apache/cloudstack/storage/image/db/TemplateDataStoreDaoImpl.java:232-239 | exactly the records of the template on the store that are not destroyed |
| TemplateStoreQueries.ListByTemplateStoreStatus | engine/storage/src/org/apache/cloudstack/storage/image/db/TemplateDataStoreDaoImpl.java:241-249 | as ListByTemplateStore, with the state one of the given states |
| TemplateStoreQueries.ListByTemplateStoreDownloadStatus | engine/storage/src/org/apache/cloudstack/storage/image/db/TemplateDataStoreDaoImpl.java:251-259 | as ListByTemplateStore, with the download state one of the given ones |
| TemplateStoreQueries.FindByStoreTemplate | engine/storage/src/org/apache/cloudstack/storage/image/db/TemplateDataStoreDaoImpl.java:296-316 | a live record of the template on the store, and null exactly when there is none |
| TemplateStoreQueries.FindByTemplate | engine/storage/src/org/apache/cloudstack/storage/image/db/TemplateDataStoreDaoImpl.java:318-325 | a live record of the template with the given role, in any state, and null exactly when there is none |
| TemplateStoreQueries.FindReadyOnCache | engine/storage/src/org/apache/cloudstack/storage/image/db/TemplateDataStoreDaoImpl.java:327-335 | a live, Ready image-cache record of the template, and null exactly when there is none |
| TemplateStoreQueries.ListOnCache | engine/storage/src/org/apache/cloudstack/storage/image/db/TemplateDataStoreDaoImpl.java:337-343 | every image-cache record of the template, destroyed ones included, because `destroyed` and `state` are left unbound |
| TemplateStoreQueries.ListByTemplate | engine/storage/src/org/apache/cloudstack/storage/image/db/TemplateDataStoreDaoImpl.java:345-351 | exactly the live records of the template |
| TemplateStoreQueries.ZoneDownloadListMembers | engine/storage/src/org/apache/cloudstack/storage/image/db/TemplateDataStoreDaoImpl.java:261-277 | the zone-wide list holds exactly the matching live records that sit on one of the zone's stores |
| TemplateStoreQueries.ListByTemplateZoneDownloadStatus | engine/storage/src/org/apache/cloudstack/storage/image/db/TemplateDataStoreDaoImpl.java:261-277 | null exactly when the store list is null; otherwise the per-store results concatenated in store order |
| TemplateStoreQueries.FindByTemplateZoneDownloadStatus | engine/storage/src/org/apache/cloudstack/storage/image/db/TemplateDataStoreDaoImpl.java:279-294 | null exactly when the store list is null or every per-store list is empty; otherwise some record of the first non-empty per-store list |
| TemplateStoreQueries.FindByTemplateZone | engine/storage/src/org/apache/cloudstack/storage/image/db/TemplateDataStoreDaoImpl.java:353-371 | null for roles other than Image and ImageCache; otherwise the first record of the first store with a live record of the template, and null exactly when there is none |
| TemplateStoreDao.CasRows | engine/storage/src/org/apache/cloudstack/storage/image/db/TemplateDataStoreDaoImpl.java:149-152 | the UPDATE touches exactly the rows with the object's id, the expected state and the object's count before the call |
| TemplateStoreDao.CasApply | engine/storage/src/org/apache/cloudstack/storage/image/db/TemplateDataStoreDaoImpl.java:154-163 | each matching row gets the new state and its count plus one, and `destroyed` set only when the new state is Destroyed; every other row and field is unchanged |
| TemplateStoreDao.CasSucceedsIffMatch | engine/storage/src/org/apache/cloudstack/storage/image/db/TemplateDataStoreDaoImpl.java:163-182 | the result is true exactly when some row has the id, the expected state and the expected count |
| TemplateStoreDao.CasFailureLeavesTable | engine/storage/src/org/apache/cloudstack/storage/image/db/TemplateDataStoreDaoImpl.java:163-182 | when no row matches, the table is unchanged |
| TemplateStoreDao.CasChangesOneRow | engine/storage/src/org/apache/cloudstack/storage/image/db/TemplateDataStoreDaoImpl.java:101-105 | on a table keyed by id, at most one row changes, and the ids stay unique |
| TemplateStoreDao.CasStaleRetryFails | engine/storage/src/org/apache/cloudstack/storage/image/db/TemplateDataStoreDaoImpl.java:146-163 | once an update with a given count has succeeded, another update presenting the same stale count fails |
| TemplateStoreDao.AfterStoreDelete | engine/storage/src/org/apache/cloudstack/storage/image/db/TemplateDataStoreDaoImpl.java:212-220 | exactly the records of other stores remain; together with the removed records they are the old table; ids stay unique |
| TemplateStoreDao.AfterTemplateDelete | engine/storage/src/org/apache/cloudstack/storage/image/db/TemplateDataStoreDaoImpl.java:222-230 | exactly the records of other templates remain; ids stay unique |
| TemplateStoreDao.StoreDeleteRemovesDestroyedToo | engine/storage/src/org/apache/cloudstack/storage/image/db/TemplateDataStoreDaoImpl.java:213-218 | after the delete, neither listDestroyed nor listByStoreId finds anything on that store |
| TemplateStoreDao.RoleToCache | engine/storage/src/org/apache/cloudstack/storage/image/db/TemplateDataStoreDaoImpl.java:420-434 | exactly the store's live records get role ImageCache; every other record, and every other field, is unchanged |
| TemplateStoreDao.RoleToCacheKeepsDestroyed | engine/storage/src/org/apache/cloudstack/storage/image/db/TemplateDataStoreDaoImpl.java:422-431 | the store's destroyed records are exactly as before, in the same order |
| TemplateStoreDao.RoleToCacheLiveAreCache | engine/storage/src/org/apache/cloudstack/storage/image/db/TemplateDataStoreDaoImpl.java:420-434 | afterwards every live record of the store is an ImageCache record |
| TemplateStoreDao.CacheRecords | engine/storage/src/org/apache/cloudstack/storage/image/db/TemplateDataStoreDaoImpl.java:379-382 | the records copied: exactly the live image-cache records |
| TemplateStoreDao.RegionCopies | engine/storage/src/org/apache/cloudstack/storage/image/db/TemplateDataStoreDaoImpl.java:386-400 | one new record per original, in order: the given store, role Image, the copied fields, reference count plus one, consecutive new ids |
| TemplateStoreDao.OneCopyPerCacheRecord | engine/storage/src/org/apache/cloudstack/storage/image/db/TemplateDataStoreDaoImpl.java:377-400 | every live image-cache record gets exactly one copy, and every copy comes from such a record |
| TemplateStoreDao.RegionCopiesKeepIdsUnique | engine/storage/src/org/apache/cloudstack/storage/image/db/TemplateDataStoreDaoImpl.java:399 | copies numbered from the table's next id keep the table keyed by id |
| TemplateStoreDao.FirstMissingTemplate | engine/storage/src/org/apache/cloudstack/storage/image/db/TemplateDataStoreDaoImpl.java:403-408 | none exactly when every copied record's template exists; otherwise the template of a copied record whose template is missing |
| TemplateStoreDao.FirstMissingIsFirst | engine/storage/src/org/apache/cloudstack/storage/image/db/TemplateDataStoreDaoImpl.java:403-408 | when every earlier record's template exists and record j's does not, the failure names record j's template |
| TemplateStoreDao.FindMissingTemplate | engine/storage/src/org/apache/cloudstack/storage/image/db/TemplateDataStoreDaoImpl.java:403-408 | the lookup loop stops at exactly the template FirstMissingTemplate names |
| TemplateStoreDao.SetRoleById | engine/storage/src/org/apache/cloudstack/storage/image/db/TemplateDataStoreDaoImpl.java:429-430 | `update(id, entity)` changes only the role of the row with that id |
| TemplateStoreDao.TemplateDataStoreDao.Persist | engine/storage/src/org/apache/cloudstack/storage/image/db/TemplateDataStoreDaoImpl.java:399 | persist appends the record under the next id and keeps the ids unique |
| TemplateStoreDao.TemplateDataStoreDao.UpdateState | engine/storage/src/org/apache/cloudstack/storage/image/db/TemplateDataStoreDaoImpl.java:143-183 | the object's count goes up by exactly one whatever happens; the table becomes CasApply; the result is true exactly when a row matched, and on false the table is unchanged |
| TemplateStoreDao.TemplateDataStoreDao.DeletePrimaryRecordsForStore | engine/storage/src/org/apache/cloudstack/storage/image/db/TemplateDataStoreDaoImpl.java:212-220 | the table becomes AfterStoreDelete |
| TemplateStoreDao.TemplateDataStoreDao.DeletePrimaryRecordsForTemplate | engine/storage/src/org/apache/cloudstack/storage/image/db/TemplateDataStoreDaoImpl.java:222-230 | the table becomes AfterTemplateDelete |
| TemplateStoreDao.TemplateDataStoreDao.UpdateStoreRoleToCache | engine/storage/src/org/apache/cloudstack/storage/image/db/TemplateDataStoreDaoImpl.java:420-434 | listing the store's live records and updating each by id gives exactly RoleToCache |
| TemplateStoreDao.TemplateDataStoreDao.DuplicateCacheRecordsOnRegionStore | engine/storage/src/org/apache/cloudstack/storage/image/db/TemplateDataStoreDaoImpl.java:376-417 | the originals are untouched and the copies are appended; all copies are persisted before the missing-template failure, which names the first missing template |

## Left out

- Rendering: DOM manipulation, HTML strings, cloning of templates, the Safari `html()` rewrite, and the right panel's field-by-field copying. `vmClearRightPanel` and `vmJsonToRightPanel` are represented only by the state colour they set.
- The zone, service-offering and disk-offering lists loaded when the wizard opens. The wizard's form values are inputs (`DeployForm`).
- Network and timers: `$.ajax`, and the periodic scheduling of `everyTime`. Each tick of a timer is a method call. Interleavings of different jobs are not modelled.
- The error callbacks of action requests and action polls. They call `hide()` on the undefined `$spinningWheel`, so what else they do, including whether the timer stops, is not well defined.
- The empty branch for synchronous actions. Both menu actions are asynchronous.
- The helpers defined outside the file: `sanitizeXSS`, `createURL`, `encodeURIComponent`, `trim`, `unescape`, `getVmName`, `handleError`. They are uninterpreted parameters, and an instance's `name` is already the text `getVmName` chose.
- The text of a request: request parameters are key/value lists with a name per key, not URL strings.
- `WizardRules.ListingQueryLookup`: speaks of the parameter list, not of what the server parses. The keyword is put into the URL without `encodeURIComponent`, unlike the deploy name and group. A search text holding `&`, `=`, `#`, `+` or `%` therefore reaches the server changed, or as extra parameters: "a&page=3" adds a second `page`, and "C++" arrives as "C  ". The model does not capture this.
- `WizardRules.DeployCriteriaLookup`: likewise speaks of the parameter list. The zone, template, service-offering and disk-offering ids go into the URL unencoded, which matters only for ids holding URL-reserved characters.
- The action menu's dependence on the grouping: when the grouping throws on an inherited label, the menu links are never created, but `InstanceList.Dispatch` does not model that link.
- The left-menu arrow toggle, and clearing the group container.
- `InstancePanel.InstanceList.SelectItem`: requires an item with a bound instance, because only `setMidmenuItemVm` binds the selecting click handler.
- `InstancePanel.InstanceList.Poll` and `PollDeploy`: require an active timer with its job recorded, because the timer plugin only runs the callbacks of registered timers.
- DAO wiring (`configure` as code), the `updated` timestamps, debug logging and transactions.
- The difference between `remove` (which may soft-delete) and `expunge`. Both deletes take the rows out of the table. The code for this lives in the generic DAO base class, which is not part of this model.
- The `removed` filtering that `search` may apply. It also lives in the generic DAO base class.
- `lockOneRandomRow`, the locking variant of `findByStoreTemplate`.
- `Collections.shuffle` in `findByTemplateZoneDownloadStatus`. The `pick` parameter stands for its choice.
- The template DAO's cross-zone update and the template-to-zone association in `duplicateCacheRecordsOnRegionStore`: they are foreign calls. Only the missing-template lookup is modelled.
- Fields a new `TemplateDataStoreVO` gets by default: no install path, not destroyed, update count 0.
