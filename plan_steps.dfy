/**
 * The working state of generateImportPlan (the plan under construction and its lookup
 * tables), what each of its closures does to that state, and the invariant they keep.
 */
module PlanSteps {
  import opened Options
  import opened ImportPlan
  import Strings
  import BookmarkParser

  /** The count stored for k, or 0 when there is none. */
  function Get0<K>(m: map<K, nat>, k: K): nat {
    if k in m then m[k] else 0
  }

  /** The URL set of a track, empty when the track has none yet. */
  function TrackedUrls(m: map<TrackKey, set<string>>, tk: TrackKey): set<string> {
    if tk in m then m[tk] else {}
  }

  /** The plan and the lookup tables the closures share. */
  datatype PlanState = PlanState(
    plan: Plan,
    menuKeyMap: map<MenuKey, nat>,
    groupKeyMap: map<GroupKey, nat>,
    urlTracker: map<TrackKey, set<string>>,
    menuOrder: nat,
    groupOrderMap: map<MenuKey, nat>,
    cardOrderMap: map<CardScope, nat>)

  const Start := PlanState(Plan([], [], [], ZeroStats), map[], map[], map[], 0, map[], map[])

  // ----- The closures, on values -----

  /** The menu ensureMenu plans for a name whose key is not planned yet. */
  function NewMenu(s: PlanState, ex: Existing, name: string): MenuPlan {
    var id := MenuLookup(ex, name);
    MenuPlan(MenuKey(name), name, ActionFor(id), id, s.menuOrder)
  }

  /** Menu m is planned, counted, indexed by its key, and given an empty group count. */
  function MenuPlanned(s: PlanState, m: MenuPlan): PlanState {
    s.(plan := s.plan.(menus := s.plan.menus + [m], stats := MenuCounted(s.plan.stats, m.action)),
       menuKeyMap := s.menuKeyMap[m.key := |s.plan.menus|],
       menuOrder := s.menuOrder + 1,
       groupOrderMap := s.groupOrderMap[m.key := 0])
  }

  /** ensureMenu: plans the menu of this name unless its key is planned already. */
  function EnsuredMenu(s: PlanState, ex: Existing, name: string): PlanState {
    if MenuKey(name) in s.menuKeyMap then s else MenuPlanned(s, NewMenu(s, ex, name))
  }

  /** The planned menu a key stands for. */
  function MenuOf(s: PlanState, mk: MenuKey): MenuPlan
    requires mk in s.menuKeyMap && s.menuKeyMap[mk] < |s.plan.menus|
  {
    s.plan.menus[s.menuKeyMap[mk]]
  }

  /** The planned group a key stands for. */
  function GroupOf(s: PlanState, gk: GroupKey): GroupPlan
    requires gk in s.groupKeyMap && s.groupKeyMap[gk] < |s.plan.groups|
  {
    s.plan.groups[s.groupKeyMap[gk]]
  }

  /** The group ensureGroup plans for a name under menu `mk` whose key is not planned yet. */
  function NewGroup(s: PlanState, ex: Existing, mk: MenuKey, name: string): GroupPlan
    requires mk in s.menuKeyMap && s.menuKeyMap[mk] < |s.plan.menus|
  {
    var id := GroupLookup(ex, MenuOf(s, mk).existingId, name);
    GroupPlan(GroupKey(mk, name), mk, name, ActionFor(id), id, Get0(s.groupOrderMap, mk))
  }

  /** Group g is planned, counted, indexed by its key, and given an empty card count. */
  function GroupPlanned(s: PlanState, g: GroupPlan): PlanState {
    s.(plan := s.plan.(groups := s.plan.groups + [g], stats := GroupCounted(s.plan.stats, g.action)),
       groupKeyMap := s.groupKeyMap[g.key := |s.plan.groups|],
       groupOrderMap := s.groupOrderMap[g.menuKey := Get0(s.groupOrderMap, g.menuKey) + 1],
       cardOrderMap := s.cardOrderMap[GroupScope(g.key) := 0])
  }

  /** ensureGroup: plans the group of this name under menu `mk` unless its key is planned already. */
  function EnsuredGroup(s: PlanState, ex: Existing, mk: MenuKey, name: string): PlanState
    requires mk in s.menuKeyMap && s.menuKeyMap[mk] < |s.plan.menus|
  {
    if GroupKey(mk, name) in s.groupKeyMap then s else GroupPlanned(s, NewGroup(s, ex, mk, name))
  }

  /** addCard drops the card as an in-batch duplicate. */
  predicate IsDuplicate(s: PlanState, mk: MenuKey, gk: Option<GroupKey>, url: string) {
    url in TrackedUrls(s.urlTracker, TrackKey(mk, gk))
  }

  /** Whether addCard skips a card because the database already has its URL in its bucket. */
  function CardActionFor(s: PlanState, ex: Existing, mk: MenuKey, gk: Option<GroupKey>, url: string): CardAction
    requires mk in s.menuKeyMap && s.menuKeyMap[mk] < |s.plan.menus|
    requires gk.Some? ==> gk.value in s.groupKeyMap && s.groupKeyMap[gk.value] < |s.plan.groups|
  {
    var groupId := if gk.Some? then GroupOf(s, gk.value).existingId else None;
    if KnownUrl(ex, Bucket(MenuOf(s, mk).existingId, groupId), url) then SkipCard else CreateCard
  }

  /** Gives track tk an empty URL set when it has none yet. */
  function OpenTrack(ut: map<TrackKey, set<string>>, tk: TrackKey): (ut': map<TrackKey, set<string>>) {
    if tk in ut then ut else ut[tk := {}]
  }

  /** The card addCard plans when the bookmark is not a duplicate. */
  function NewCard(s: PlanState, ex: Existing, mk: MenuKey, gk: Option<GroupKey>, title: string, url: string): CardPlan
    requires mk in s.menuKeyMap && s.menuKeyMap[mk] < |s.plan.menus|
    requires gk.Some? ==> gk.value in s.groupKeyMap && s.groupKeyMap[gk.value] < |s.plan.groups|
  {
    CardPlan(mk, gk, title, url, CardActionFor(s, ex, mk, gk, url), Get0(s.cardOrderMap, ScopeOf(mk, gk)))
  }

  /** addCard on a duplicate: counted as skipped, and its track's URL set created if missing. */
  function DuplicateCounted(s: PlanState, tk: TrackKey): PlanState {
    s.(plan := s.plan.(stats := s.plan.stats.(cardsToSkip := s.plan.stats.cardsToSkip + 1)),
       urlTracker := OpenTrack(s.urlTracker, tk))
  }

  /** addCard on a new URL: card c is planned, counted, numbered in its scope and tracked. */
  function CardPlanned(s: PlanState, c: CardPlan): PlanState {
    var tracker := OpenTrack(s.urlTracker, Track(c));
    s.(plan := s.plan.(cards := s.plan.cards + [c], stats := CardCounted(s.plan.stats, c.action)),
       cardOrderMap := s.cardOrderMap[Scope(c) := Get0(s.cardOrderMap, Scope(c)) + 1],
       urlTracker := tracker[Track(c) := tracker[Track(c)] + {c.url}])
  }

  /** addCard: plans a card for the bookmark, or counts it as skipped when it is a duplicate. */
  function CardAdded(s: PlanState, ex: Existing, mk: MenuKey, gk: Option<GroupKey>, title: string, url: string): PlanState
    requires mk in s.menuKeyMap && s.menuKeyMap[mk] < |s.plan.menus|
    requires gk.Some? ==> gk.value in s.groupKeyMap && s.groupKeyMap[gk.value] < |s.plan.groups|
  {
    if IsDuplicate(s, mk, gk, url) then DuplicateCounted(s, TrackKey(mk, gk))
    else CardPlanned(s, NewCard(s, ex, mk, gk, title, url))
  }

  /** Menu mode: the target menu, reused under the id the caller gives, as menu 0. */
  function TargetMenuAdded(s: PlanState, name: string, id: Option<nat>): PlanState {
    var key := MenuKey(name);
    s.(plan := s.plan.(menus := s.plan.menus + [MenuPlan(key, name, Reuse, id, 0)],
                       stats := s.plan.stats.(menusToReuse := s.plan.stats.menusToReuse + 1)),
       menuKeyMap := s.menuKeyMap[key := 0],
       groupOrderMap := s.groupOrderMap[key := 0])
  }

  // ----- The loop over the bookmarks -----

  /** The key tables point into the plan's lists, as every lookup the closures make needs. */
  predicate Indexed(s: PlanState) {
    && (forall mk :: mk in s.menuKeyMap ==> s.menuKeyMap[mk] < |s.plan.menus|)
    && (forall gk :: gk in s.groupKeyMap ==> s.groupKeyMap[gk] < |s.plan.groups|)
  }

  lemma EnsuredMenuIndexed(s: PlanState, ex: Existing, name: string)
    requires Indexed(s)
    ensures Indexed(EnsuredMenu(s, ex, name)) && MenuKey(name) in EnsuredMenu(s, ex, name).menuKeyMap
    ensures s.menuKeyMap.Keys <= EnsuredMenu(s, ex, name).menuKeyMap.Keys
  {
  }

  lemma EnsuredGroupIndexed(s: PlanState, ex: Existing, mk: MenuKey, name: string)
    requires Indexed(s) && mk in s.menuKeyMap
    ensures Indexed(EnsuredGroup(s, ex, mk, name)) && GroupKey(mk, name) in EnsuredGroup(s, ex, mk, name).groupKeyMap
    ensures EnsuredGroup(s, ex, mk, name).menuKeyMap == s.menuKeyMap
  {
  }

  lemma CardAddedIndexed(s: PlanState, ex: Existing, mk: MenuKey, gk: Option<GroupKey>, title: string, url: string)
    requires Indexed(s) && mk in s.menuKeyMap && (gk.Some? ==> gk.value in s.groupKeyMap)
    ensures Indexed(CardAdded(s, ex, mk, gk, title, url)) && CardAdded(s, ex, mk, gk, title, url).menuKeyMap == s.menuKeyMap
  {
  }

  /** Opening the card's track first changes nothing about the card addCard then plans. */
  lemma OpenedThenPlanned(s: PlanState, ex: Existing, mk: MenuKey, gk: Option<GroupKey>, title: string, url: string)
    requires mk in s.menuKeyMap && s.menuKeyMap[mk] < |s.plan.menus|
    requires gk.Some? ==> gk.value in s.groupKeyMap && s.groupKeyMap[gk.value] < |s.plan.groups|
    ensures var s1 := s.(urlTracker := OpenTrack(s.urlTracker, TrackKey(mk, gk)));
      CardPlanned(s1, NewCard(s1, ex, mk, gk, title, url)) == CardPlanned(s, NewCard(s, ex, mk, gk, title, url))
  {
    var s1 := s.(urlTracker := OpenTrack(s.urlTracker, TrackKey(mk, gk)));
    assert NewCard(s1, ex, mk, gk, title, url) == NewCard(s, ex, mk, gk, title, url);
  }

  /** ensureGroup for the bookmark's group under menu mk, then addCard into that group. */
  function FiledInGroup(s: PlanState, ex: Existing, mk: MenuKey, groupName: string, b: BookmarkParser.Bookmark): (r: PlanState)
    requires Indexed(s) && mk in s.menuKeyMap
    ensures Indexed(r) && s.menuKeyMap.Keys <= r.menuKeyMap.Keys
  {
    EnsuredGroupIndexed(s, ex, mk, groupName);
    var s1 := EnsuredGroup(s, ex, mk, groupName);
    CardAddedIndexed(s1, ex, mk, Some(GroupKey(mk, groupName)), b.title, b.url);
    CardAdded(s1, ex, mk, Some(GroupKey(mk, groupName)), b.title, b.url)
  }

  /** One pass of auto mode's loop: the root folder is the menu, the folder path the group. */
  function AutoFiled(s: PlanState, ex: Existing, b: BookmarkParser.Bookmark): (r: PlanState)
    requires Indexed(s)
    ensures Indexed(r) && s.menuKeyMap.Keys <= r.menuKeyMap.Keys
  {
    var name := if b.rootFolder.None? then "Home" else b.rootFolder.value;
    EnsuredMenuIndexed(s, ex, name);
    var s1 := EnsuredMenu(s, ex, name);
    if b.rootFolder.None? then
      CardAddedIndexed(s1, ex, MenuKey(name), None, b.title, b.url);
      CardAdded(s1, ex, MenuKey(name), None, b.title, b.url)
    else
      var mk := MenuKey(b.rootFolder.value);
      if b.folderPath == [] then
        CardAddedIndexed(s1, ex, mk, None, b.title, b.url);
        CardAdded(s1, ex, mk, None, b.title, b.url)
      else FiledInGroup(s1, ex, mk, Strings.Join(b.folderPath, GroupSeparator), b)
  }

  /** One pass of menu mode's loop: everything goes under menu mk, grouped by the full path. */
  function MenuFiled(s: PlanState, ex: Existing, mk: MenuKey, b: BookmarkParser.Bookmark): (r: PlanState)
    requires Indexed(s) && mk in s.menuKeyMap
    ensures Indexed(r) && s.menuKeyMap.Keys <= r.menuKeyMap.Keys
  {
    CardAddedIndexed(s, ex, mk, None, b.title, b.url);
    if b.rootFolder.None? && b.folderPath == [] then CardAdded(s, ex, mk, None, b.title, b.url)
    else if FullPath(b) == [] then CardAdded(s, ex, mk, None, b.title, b.url)
    else FiledInGroup(s, ex, mk, Strings.Join(FullPath(b), GroupSeparator), b)
  }

  /** The state before the loop: empty in auto mode; holding the target menu in menu mode. */
  function Initial(targetType: string, targetMenuId: Option<nat>, targetMenuName: string): (r: PlanState)
    ensures Indexed(r) && (targetType != "auto" ==> MenuKey(targetMenuName) in r.menuKeyMap)
  {
    if targetType == "auto" then Start else TargetMenuAdded(Start, targetMenuName, targetMenuId)
  }

  /** The state after the loop has handled bookmarks bs, in order. */
  function Planned(ex: Existing, targetType: string, targetMenuId: Option<nat>, targetMenuName: string,
                   bs: seq<BookmarkParser.Bookmark>): (r: PlanState)
    ensures Indexed(r) && (targetType != "auto" ==> MenuKey(targetMenuName) in r.menuKeyMap)
  {
    if bs == [] then Initial(targetType, targetMenuId, targetMenuName)
    else
      var s := Planned(ex, targetType, targetMenuId, targetMenuName, bs[..|bs| - 1]);
      if targetType == "auto" then AutoFiled(s, ex, bs[|bs| - 1])
      else MenuFiled(s, ex, MenuKey(targetMenuName), bs[|bs| - 1])
  }

  /** The plan generateImportPlan returns. */
  function GeneratedPlan(ex: Existing, targetType: string, targetMenuId: Option<nat>, targetMenuName: string,
                         bs: seq<BookmarkParser.Bookmark>): Plan {
    Planned(ex, targetType, targetMenuId, targetMenuName, bs).plan
  }

  // ----- The invariant -----

  /** menuKeyMap gives each planned menu's index, and only those. */
  ghost predicate MenuIndex(ms: seq<MenuPlan>, m: map<MenuKey, nat>) {
    && (forall mk :: mk in m ==> m[mk] < |ms| && ms[m[mk]].key == mk)
    && (forall i :: 0 <= i < |ms| ==> ms[i].key in m)
  }

  /** groupKeyMap gives each planned group's index, and only those. */
  ghost predicate GroupIndex(gs: seq<GroupPlan>, m: map<GroupKey, nat>) {
    && (forall gk :: gk in m ==> m[gk] < |gs| && gs[m[gk]].key == gk)
    && (forall i :: 0 <= i < |gs| ==> gs[i].key in m)
  }

  /** groupOrderMap counts the groups planned under each menu. */
  ghost predicate GroupOrders(gs: seq<GroupPlan>, m: map<MenuKey, nat>) {
    forall mk :: Get0(m, mk) == GroupsUnder(gs, mk)
  }

  /** cardOrderMap counts the cards planned in each scope. */
  ghost predicate CardOrders(cs: seq<CardPlan>, m: map<CardScope, nat>) {
    forall sc :: Get0(m, sc) == CardsIn(cs, sc)
  }

  /** urlTracker holds the URLs of the cards planned in each track. */
  ghost predicate Tracked(cs: seq<CardPlan>, m: map<TrackKey, set<string>>) {
    forall tk :: TrackedUrls(m, tk) == UrlsIn(AsRequests(cs), tk)
  }

  /**
   * The closures' invariant: the plan is well formed, `duplicates` of its skipped cards are
   * in-batch duplicates, and the tables agree with the plan.
   */
  ghost predicate Inv(ex: Existing, s: PlanState, duplicates: nat) {
    && WellFormedPlan(ex, s.plan, duplicates)
    && MenuIndex(s.plan.menus, s.menuKeyMap) && GroupIndex(s.plan.groups, s.groupKeyMap)
    && GroupOrders(s.plan.groups, s.groupOrderMap) && CardOrders(s.plan.cards, s.cardOrderMap)
    && Tracked(s.plan.cards, s.urlTracker)
  }
}
