/**
 * generateImportPlan: turns the parsed bookmarks into a plan of menus, groups and cards to
 * create or reuse, checked against what the database already holds.
 *
 * The source keeps its working state in local variables shared by three closures
 * (ensureMenu, ensureGroup, addCard); here that state is a Planner object and the closures
 * are its methods, each proved to change the state as the matching function of PlanSteps
 * does.
 */
module ImportPlanner {
  import opened Options
  import opened Strings
  import BookmarkParser
  import opened ImportPlan
  import opened PlanSteps

  class Planner {
    const existing: Existing
    var plan: Plan
    /** menuKey to the index of its menu in plan.menus. */
    var menuKeyMap: map<MenuKey, nat>
    /** groupKey to the index of its group in plan.groups. */
    var groupKeyMap: map<GroupKey, nat>
    /** For each track, the URLs planned in it so far. */
    var urlTracker: map<TrackKey, set<string>>
    var menuOrder: nat
    /** menuKey to the number of groups planned under it. */
    var groupOrderMap: map<MenuKey, nat>
    /** Scope to the number of cards planned in it. */
    var cardOrderMap: map<CardScope, nat>

    function State(): PlanState
      reads this
    {
      PlanState(plan, menuKeyMap, groupKeyMap, urlTracker, menuOrder, groupOrderMap, cardOrderMap)
    }

    /** Every key in the tables points into the plan's lists. */
    ghost predicate Valid()
      reads this
    {
      Indexed(State())
    }

    constructor (existing: Existing)
      ensures this.existing == existing && State() == Start
      ensures Valid()
    {
      this.existing := existing;
      plan := Plan([], [], [], ZeroStats);
      menuKeyMap, groupKeyMap, urlTracker := map[], map[], map[];
      menuOrder, groupOrderMap, cardOrderMap := 0, map[], map[];
    }

    /** ensureMenu: the key of the menu of this name, planned now if it is not yet. */
    method EnsureMenu(menuName: string) returns (menuKey: MenuKey)
      requires Valid()
      modifies this
      ensures State() == EnsuredMenu(old(State()), existing, menuName)
      ensures Valid() && menuKey == MenuKey(menuName) && menuKey in menuKeyMap
    {
      menuKey := MenuKey(menuName);
      if menuKey in menuKeyMap {
        return;
      }
      EnsuredMenuIndexed(State(), existing, menuName);
      var existingId: Option<nat> := if menuName in existing.menuIds then Some(existing.menuIds[menuName]) else None;
      var menuPlan := MenuPlan(menuKey, menuName, ActionFor(existingId), OrNull(existingId), menuOrder);
      menuOrder := menuOrder + 1;
      plan := plan.(menus := plan.menus + [menuPlan]);
      menuKeyMap := menuKeyMap[menuKey := |plan.menus| - 1];
      if Truthy(existingId) {
        plan := plan.(stats := plan.stats.(menusToReuse := plan.stats.menusToReuse + 1));
      } else {
        plan := plan.(stats := plan.stats.(menusToCreate := plan.stats.menusToCreate + 1));
      }
      groupOrderMap := groupOrderMap[menuKey := 0];
    }

    /** ensureGroup: the key of the group of this name under menu `menuKey`, planned now if it is not yet. */
    method EnsureGroup(menuKey: MenuKey, groupName: string) returns (groupKey: GroupKey)
      requires Valid() && menuKey in menuKeyMap
      modifies this
      ensures State() == EnsuredGroup(old(State()), existing, menuKey, groupName)
      ensures Valid() && groupKey == GroupKey(menuKey, groupName) && groupKey in groupKeyMap
      ensures menuKeyMap == old(menuKeyMap)
    {
      EnsuredGroupIndexed(State(), existing, menuKey, groupName);
      groupKey := GroupKey(menuKey, groupName);
      if groupKey in groupKeyMap {
        return;
      }
      PlanGroup(menuKey, groupName);
    }

    /** The rest of ensureGroup once the key is new: the group, reused when the database has it. */
    method PlanGroup(menuKey: MenuKey, groupName: string)
      requires menuKey in menuKeyMap && menuKeyMap[menuKey] < |plan.menus|
      modifies this
      ensures State() == GroupPlanned(old(State()), NewGroup(old(State()), existing, menuKey, groupName))
    {
      var groupKey := GroupKey(menuKey, groupName);
      var menuPlan := plan.menus[menuKeyMap[menuKey]];
      var menuId := menuPlan.existingId;
      var existingId: Option<nat> := None;
      if Truthy(menuId) && menuId.value in existing.groupIds {
        var names := existing.groupIds[menuId.value];
        existingId := if groupName in names then OrNull(Some(names[groupName])) else None;
      }
      var groupPlan := GroupPlan(groupKey, menuKey, groupName, ActionFor(existingId), OrNull(existingId),
                                 Get0(groupOrderMap, menuKey));
      groupOrderMap := groupOrderMap[menuKey := Get0(groupOrderMap, menuKey) + 1];
      plan := plan.(groups := plan.groups + [groupPlan]);
      groupKeyMap := groupKeyMap[groupKey := |plan.groups| - 1];
      if Truthy(existingId) {
        plan := plan.(stats := plan.stats.(groupsToReuse := plan.stats.groupsToReuse + 1));
      } else {
        plan := plan.(stats := plan.stats.(groupsToCreate := plan.stats.groupsToCreate + 1));
      }
      cardOrderMap := cardOrderMap[GroupScope(groupKey) := 0];
    }

    /** addCard: plans a card for the bookmark unless its track already has its URL. */
    method AddCard(menuKey: MenuKey, groupKey: Option<GroupKey>, title: string, url: string)
      requires Valid() && menuKey in menuKeyMap && (groupKey.Some? ==> groupKey.value in groupKeyMap)
      modifies this
      ensures State() == CardAdded(old(State()), existing, menuKey, groupKey, title, url)
      ensures Valid() && menuKeyMap == old(menuKeyMap)
    {
      CardAddedIndexed(State(), existing, menuKey, groupKey, title, url);
      ghost var s0 := State();
      var trackKey := TrackKey(menuKey, groupKey);
      if trackKey !in urlTracker {
        urlTracker := urlTracker[trackKey := {}];
      }
      assert State() == s0.(urlTracker := OpenTrack(s0.urlTracker, trackKey));
      if url in urlTracker[trackKey] {
        plan := plan.(stats := plan.stats.(cardsToSkip := plan.stats.cardsToSkip + 1));
        return;
      }
      PlanCard(menuKey, groupKey, title, url);
      OpenedThenPlanned(s0, existing, menuKey, groupKey, title, url);
    }

    /** The rest of addCard once the URL is new to its track: the database check and the card. */
    method PlanCard(menuKey: MenuKey, groupKey: Option<GroupKey>, title: string, url: string)
      requires menuKey in menuKeyMap && menuKeyMap[menuKey] < |plan.menus|
      requires groupKey.Some? ==> groupKey.value in groupKeyMap && groupKeyMap[groupKey.value] < |plan.groups|
      requires TrackKey(menuKey, groupKey) in urlTracker
      modifies this
      ensures State() == CardPlanned(old(State()), NewCard(old(State()), existing, menuKey, groupKey, title, url))
    {
      var trackKey := TrackKey(menuKey, groupKey);
      var menuId := plan.menus[menuKeyMap[menuKey]].existingId;
      var groupId: Option<nat> := None;
      if groupKey.Some? {
        groupId := plan.groups[groupKeyMap[groupKey.value]].existingId;
      }
      var urlSetKey := Bucket(menuId, groupId);
      var scope := ScopeOf(menuKey, groupKey);
      if urlSetKey in existing.urls && url in existing.urls[urlSetKey] {
        plan := plan.(cards := plan.cards + [CardPlan(menuKey, groupKey, title, url, SkipCard, Get0(cardOrderMap, scope))]);
        plan := plan.(stats := plan.stats.(cardsToSkip := plan.stats.cardsToSkip + 1));
      } else {
        plan := plan.(cards := plan.cards + [CardPlan(menuKey, groupKey, title, url, CreateCard, Get0(cardOrderMap, scope))]);
        plan := plan.(stats := plan.stats.(cardsToCreate := plan.stats.cardsToCreate + 1));
      }
      cardOrderMap := cardOrderMap[scope := Get0(cardOrderMap, scope) + 1];
      urlTracker := urlTracker[trackKey := urlTracker[trackKey] + {url}];
    }

    /** One pass of auto mode's loop over the bookmarks. */
    method FileAuto(bm: BookmarkParser.Bookmark)
      requires Valid()
      modifies this
      ensures State() == AutoFiled(old(State()), existing, bm)
      ensures Valid()
    {
      if bm.rootFolder.None? {
        var menuKey := EnsureMenu("Home");
        AddCard(menuKey, None, bm.title, bm.url);
      } else {
        var menuKey := EnsureMenu(bm.rootFolder.value);
        if bm.folderPath == [] {
          AddCard(menuKey, None, bm.title, bm.url);
        } else {
          var groupName := Join(bm.folderPath, GroupSeparator);
          var groupKey := EnsureGroup(menuKey, groupName);
          AddCard(menuKey, Some(groupKey), bm.title, bm.url);
        }
      }
    }

    /** One pass of menu mode's loop: the bookmark goes under menu `menuKey`. */
    method FileUnderMenu(menuKey: MenuKey, bm: BookmarkParser.Bookmark)
      requires Valid() && menuKey in menuKeyMap
      modifies this
      ensures State() == MenuFiled(old(State()), existing, menuKey, bm)
      ensures Valid() && menuKey in menuKeyMap
    {
      if bm.rootFolder.None? && bm.folderPath == [] {
        AddCard(menuKey, None, bm.title, bm.url);
      } else {
        var fullPath := if bm.rootFolder.Some? && bm.rootFolder.value != "" then [bm.rootFolder.value] + bm.folderPath
                        else bm.folderPath;
        if fullPath == [] {
          AddCard(menuKey, None, bm.title, bm.url);
        } else {
          var groupName := Join(fullPath, GroupSeparator);
          var groupKey := EnsureGroup(menuKey, groupName);
          AddCard(menuKey, Some(groupKey), bm.title, bm.url);
        }
      }
    }

    /** Menu mode: plans the target menu as menu 0, reused under the id the caller gives. */
    method AddTargetMenu(menuName: string, menuId: Option<nat>)
      requires State() == Start
      modifies this
      ensures State() == TargetMenuAdded(Start, menuName, menuId)
      ensures Valid() && MenuKey(menuName) in menuKeyMap
    {
      var menuKey := MenuKey(menuName);
      var menuPlan := MenuPlan(menuKey, menuName, Reuse, menuId, 0);
      plan := plan.(menus := plan.menus + [menuPlan]);
      menuKeyMap := menuKeyMap[menuKey := 0];
      plan := plan.(stats := plan.stats.(menusToReuse := plan.stats.menusToReuse + 1));
      groupOrderMap := groupOrderMap[menuKey := 0];
    }
  }

  /**
   * generateImportPlan: auto mode files each bookmark under the menu of its root folder
   * ("Home" for loose bookmarks) and the group of its folder path; menu mode files all of
   * them under the target menu, grouped by the full path. The plan is the one GeneratedPlan
   * describes; PlanLemmas.GeneratedPlanSpec proves what that plan satisfies.
   */
  method GenerateImportPlan(bookmarks: seq<BookmarkParser.Bookmark>, targetType: string, targetMenuId: Option<nat>,
                            targetMenuName: string, existing: Existing)
    returns (plan: Plan)
    ensures plan == GeneratedPlan(existing, targetType, targetMenuId, targetMenuName, bookmarks)
  {
    var p := new Planner(existing);
    if targetType == "auto" {
      for i := 0 to |bookmarks|
        invariant p.existing == existing
        invariant p.State() == Planned(existing, targetType, targetMenuId, targetMenuName, bookmarks[..i])
        invariant p.Valid()
      {
        assert bookmarks[..i + 1][..i] == bookmarks[..i];
        p.FileAuto(bookmarks[i]);
      }
    } else {
      p.AddTargetMenu(targetMenuName, targetMenuId);
      for i := 0 to |bookmarks|
        invariant p.existing == existing
        invariant p.State() == Planned(existing, targetType, targetMenuId, targetMenuName, bookmarks[..i])
        invariant p.Valid() && MenuKey(targetMenuName) in p.menuKeyMap
      {
        assert bookmarks[..i + 1][..i] == bookmarks[..i];
        p.FileUnderMenu(MenuKey(targetMenuName), bookmarks[i]);
      }
    }
    assert bookmarks[..|bookmarks|] == bookmarks;
    plan := p.plan;
  }
}
