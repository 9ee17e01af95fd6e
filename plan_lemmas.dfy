/**
 * Proofs that ensureMenu, ensureGroup and addCard keep the planner's invariant, and that the
 * cards they plan are the de-duplicated requests.
 */
module PlanLemmas {
  import opened Options
  import opened ImportPlan
  import opened PlanSteps
  import BookmarkParser
  import Strings

  // ----- Appending to the plan -----

  lemma AsRequestsAppend(cs: seq<CardPlan>, c: CardPlan)
    ensures AsRequests(cs + [c]) == AsRequests(cs) + [AsRequest(c)]
  {
  }

  lemma EmptyPlanWellFormed(ex: Existing)
    ensures WellFormedPlan(ex, Plan([], [], [], ZeroStats), 0)
  {
  }

  /** Planning a menu under a new key leaves every group and card as it was. */
  lemma AppendMenu(ex: Existing, p: Plan, m: MenuPlan, d: nat)
    requires WellFormedPlan(ex, p, d)
    requires !HasMenu(p.menus, m.key)
    requires m.key == MenuKey(m.name) && m.order == |p.menus|
    ensures WellFormedPlan(ex, p.(menus := p.menus + [m], stats := MenuCounted(p.stats, m.action)), d)
  {
    var ms := p.menus + [m];
    AppendMenuMenus(p.menus, m);
    AppendMenuGroups(ex, p.menus, p.groups, m);
    AppendMenuCards(ex, p.menus, p.groups, p.cards, m);
    assert ms[..|p.menus|] == p.menus;
  }

  lemma AppendMenuHasMenu(ms: seq<MenuPlan>, m: MenuPlan, mk: MenuKey)
    requires HasMenu(ms, mk)
    ensures HasMenu(ms + [m], mk)
  {
    var j :| 0 <= j < |ms| && ms[j].key == mk;
    assert (ms + [m])[j].key == mk;
  }

  lemma AppendMenuMenus(ms: seq<MenuPlan>, m: MenuPlan)
    requires MenusOk(ms) && !HasMenu(ms, m.key)
    requires m.key == MenuKey(m.name) && m.order == |ms|
    ensures MenusOk(ms + [m])
  {
    var ms' := ms + [m];
    forall i | 0 <= i < |ms'|
      ensures MenuOk(ms', i)
    {
      if i < |ms| {
        assert MenuOk(ms, i);
      }
    }
    forall i, j | 0 <= i < j < |ms'|
      ensures ms'[i].key != ms'[j].key
    {
      if j < |ms| {
        assert MenuKeysDistinct(ms);
      }
    }
  }

  lemma AppendMenuGroups(ex: Existing, ms: seq<MenuPlan>, gs: seq<GroupPlan>, m: MenuPlan)
    requires GroupsOk(ms, gs) && GroupsResolved(ex, ms, gs) && !HasMenu(ms, m.key)
    ensures GroupsOk(ms + [m], gs) && GroupsResolved(ex, ms + [m], gs)
  {
    var ms' := ms + [m];
    forall i | 0 <= i < |gs|
      ensures GroupOk(ms', gs, i)
    {
      assert GroupOk(ms, gs, i);
      AppendMenuHasMenu(ms, m, gs[i].menuKey);
    }
    forall i, j | 0 <= i < |gs| && 0 <= j < |ms'|
      ensures GroupResolved(ex, ms', gs, i, j)
    {
      if j < |ms| {
        assert GroupResolved(ex, ms, gs, i, j);
      } else {
        assert GroupOk(ms, gs, i);
      }
    }
  }

  lemma AppendMenuCards(ex: Existing, ms: seq<MenuPlan>, gs: seq<GroupPlan>, cs: seq<CardPlan>, m: MenuPlan)
    requires CardsOk(ms, gs, cs) && CardsChecked(ex, ms, gs, cs) && !HasMenu(ms, m.key)
    ensures CardsOk(ms + [m], gs, cs) && CardsChecked(ex, ms + [m], gs, cs)
  {
    var ms' := ms + [m];
    forall k | 0 <= k < |cs|
      ensures CardOk(ms', gs, cs, k)
    {
      assert CardOk(ms, gs, cs, k);
      AppendMenuHasMenu(ms, m, cs[k].menuKey);
    }
    forall k, j | 0 <= k < |cs| && 0 <= j < |ms'|
      ensures UngroupedCardChecked(ex, ms', cs, k, j)
    {
      if j < |ms| {
        assert UngroupedCardChecked(ex, ms, cs, k, j);
      } else {
        assert CardOk(ms, gs, cs, k);
      }
    }
    forall k, j, g | 0 <= k < |cs| && 0 <= j < |ms'| && 0 <= g < |gs|
      ensures CardChecked(ex, ms', gs, cs, k, j, g)
    {
      if j < |ms| {
        assert CardChecked(ex, ms, gs, cs, k, j, g);
      } else {
        assert CardOk(ms, gs, cs, k);
      }
    }
  }

  lemma NoGroupsUnderNewMenu(ms: seq<MenuPlan>, gs: seq<GroupPlan>, mk: MenuKey)
    requires GroupsOk(ms, gs) && !HasMenu(ms, mk)
    ensures GroupsUnder(gs, mk) == 0
  {
    if gs != [] {
      var n := |gs| - 1;
      assert GroupOk(ms, gs, n);
      forall i | 0 <= i < n
        ensures GroupOk(ms, gs[..n], i)
      {
        assert GroupOk(ms, gs, i);
        assert gs[..n][..i] == gs[..i];
      }
      NoGroupsUnderNewMenu(ms, gs[..n], mk);
    }
  }

  /** Planning a group under a new key, under menu j, leaves every menu and card as it was. */
  lemma AppendGroup(ex: Existing, p: Plan, g: GroupPlan, j: int, d: nat)
    requires WellFormedPlan(ex, p, d)
    requires 0 <= j < |p.menus| && p.menus[j].key == g.menuKey
    requires !HasGroup(p.groups, g.key)
    requires g.key == GroupKey(g.menuKey, g.name) && g.order == GroupsUnder(p.groups, g.menuKey)
    requires g.existingId == GroupLookup(ex, p.menus[j].existingId, g.name) && g.action == ActionFor(g.existingId)
    ensures WellFormedPlan(ex, p.(groups := p.groups + [g], stats := GroupCounted(p.stats, g.action)), d)
  {
    var gs := p.groups + [g];
    AppendGroupGroups(ex, p.menus, p.groups, g, j);
    AppendGroupCards(ex, p.menus, p.groups, p.cards, g);
    assert gs[..|p.groups|] == p.groups;
  }

  lemma AppendGroupHasGroup(gs: seq<GroupPlan>, g: GroupPlan, gk: GroupKey)
    requires HasGroup(gs, gk)
    ensures HasGroup(gs + [g], gk)
  {
    var i :| 0 <= i < |gs| && gs[i].key == gk;
    assert (gs + [g])[i].key == gk;
  }

  lemma AppendGroupGroups(ex: Existing, ms: seq<MenuPlan>, gs: seq<GroupPlan>, g: GroupPlan, j: int)
    requires MenusOk(ms) && GroupsOk(ms, gs) && GroupsResolved(ex, ms, gs)
    requires 0 <= j < |ms| && ms[j].key == g.menuKey
    requires !HasGroup(gs, g.key)
    requires g.key == GroupKey(g.menuKey, g.name) && g.order == GroupsUnder(gs, g.menuKey)
    requires g.existingId == GroupLookup(ex, ms[j].existingId, g.name) && g.action == ActionFor(g.existingId)
    ensures GroupsOk(ms, gs + [g]) && GroupsResolved(ex, ms, gs + [g])
  {
    var gs' := gs + [g];
    var n := |gs|;
    forall i | 0 <= i < |gs'|
      ensures GroupOk(ms, gs', i)
    {
      if i < n {
        assert GroupOk(ms, gs, i);
        assert gs'[..i] == gs[..i];
      } else {
        assert gs'[..i] == gs;
        assert ms[j].key == gs'[i].menuKey;
      }
    }
    forall i, i' | 0 <= i < i' < |gs'|
      ensures gs'[i].key != gs'[i'].key
    {
      if i' < n {
        assert GroupKeysDistinct(gs);
      }
    }
    forall i, j' | 0 <= i < |gs'| && 0 <= j' < |ms|
      ensures GroupResolved(ex, ms, gs', i, j')
    {
      if i < n {
        assert GroupResolved(ex, ms, gs, i, j');
      } else if ms[j'].key == g.menuKey {
        assert MenuKeysDistinct(ms);
        assert j' == j;
      }
    }
  }

  lemma AppendGroupCards(ex: Existing, ms: seq<MenuPlan>, gs: seq<GroupPlan>, cs: seq<CardPlan>, g: GroupPlan)
    requires CardsOk(ms, gs, cs) && CardsChecked(ex, ms, gs, cs) && !HasGroup(gs, g.key)
    ensures CardsOk(ms, gs + [g], cs) && CardsChecked(ex, ms, gs + [g], cs)
  {
    var gs' := gs + [g];
    forall k | 0 <= k < |cs|
      ensures CardOk(ms, gs', cs, k)
    {
      assert CardOk(ms, gs, cs, k);
      if cs[k].groupKey.Some? {
        AppendGroupHasGroup(gs, g, cs[k].groupKey.value);
      }
    }
    forall k, j, gi | 0 <= k < |cs| && 0 <= j < |ms| && 0 <= gi < |gs'|
      ensures CardChecked(ex, ms, gs', cs, k, j, gi)
    {
      if gi < |gs| {
        assert CardChecked(ex, ms, gs, cs, k, j, gi);
      } else {
        assert CardOk(ms, gs, cs, k);
      }
    }
  }

  /** Planning card c under menu j and group gi (when it has a group) keeps the plan well formed. */
  lemma AppendCard(ex: Existing, p: Plan, c: CardPlan, j: int, gi: int, d: nat)
    requires WellFormedPlan(ex, p, d)
    requires 0 <= j < |p.menus| && p.menus[j].key == c.menuKey
    requires c.groupKey.None? ==> (c.action == SkipCard <==> KnownUrl(ex, Bucket(p.menus[j].existingId, None), c.url))
    requires c.groupKey.Some? ==>
      && 0 <= gi < |p.groups| && p.groups[gi].key == c.groupKey.value && c.groupKey.value.menu == c.menuKey
      && (c.action == SkipCard <==> KnownUrl(ex, Bucket(p.menus[j].existingId, p.groups[gi].existingId), c.url))
    requires c.order == CardsIn(p.cards, Scope(c))
    requires c.url !in UrlsIn(AsRequests(p.cards), Track(c))
    ensures WellFormedPlan(ex, p.(cards := p.cards + [c], stats := CardCounted(p.stats, c.action)), d)
  {
    var cs := p.cards + [c];
    AppendCardOk(p.menus, p.groups, p.cards, c, j, gi);
    AppendCardChecked(ex, p.menus, p.groups, p.cards, c, j, gi);
    assert cs[..|p.cards|] == p.cards;
  }

  lemma AppendCardOk(ms: seq<MenuPlan>, gs: seq<GroupPlan>, cs: seq<CardPlan>, c: CardPlan, j: int, gi: int)
    requires CardsOk(ms, gs, cs)
    requires 0 <= j < |ms| && ms[j].key == c.menuKey
    requires c.groupKey.Some? ==> 0 <= gi < |gs| && gs[gi].key == c.groupKey.value && c.groupKey.value.menu == c.menuKey
    requires c.order == CardsIn(cs, Scope(c))
    requires c.url !in UrlsIn(AsRequests(cs), Track(c))
    ensures CardsOk(ms, gs, cs + [c])
  {
    var cs' := cs + [c];
    var n := |cs|;
    forall k | 0 <= k < |cs'|
      ensures CardOk(ms, gs, cs', k)
    {
      if k < n {
        assert CardOk(ms, gs, cs, k);
        assert cs'[..k] == cs[..k];
      } else {
        assert cs'[..k] == cs;
      }
    }
  }

  lemma AppendCardChecked(ex: Existing, ms: seq<MenuPlan>, gs: seq<GroupPlan>, cs: seq<CardPlan>, c: CardPlan, j: int, gi: int)
    requires MenusOk(ms) && GroupsOk(ms, gs) && CardsChecked(ex, ms, gs, cs)
    requires 0 <= j < |ms| && ms[j].key == c.menuKey
    requires c.groupKey.None? ==> (c.action == SkipCard <==> KnownUrl(ex, Bucket(ms[j].existingId, None), c.url))
    requires c.groupKey.Some? ==>
      && 0 <= gi < |gs| && gs[gi].key == c.groupKey.value
      && (c.action == SkipCard <==> KnownUrl(ex, Bucket(ms[j].existingId, gs[gi].existingId), c.url))
    ensures CardsChecked(ex, ms, gs, cs + [c])
  {
    var cs' := cs + [c];
    var n := |cs|;
    forall k, j' | 0 <= k < |cs'| && 0 <= j' < |ms|
      ensures UngroupedCardChecked(ex, ms, cs', k, j')
    {
      if k < n {
        assert UngroupedCardChecked(ex, ms, cs, k, j');
      } else if ms[j'].key == c.menuKey {
        assert MenuKeysDistinct(ms);
        assert j' == j;
      }
    }
    forall k, j', g' | 0 <= k < |cs'| && 0 <= j' < |ms| && 0 <= g' < |gs|
      ensures CardChecked(ex, ms, gs, cs', k, j', g')
    {
      if k < n {
        assert CardChecked(ex, ms, gs, cs, k, j', g');
      } else if ms[j'].key == c.menuKey && c.groupKey == Some(gs[g'].key) {
        assert MenuKeysDistinct(ms) && GroupKeysDistinct(gs);
        assert j' == j && g' == gi;
      }
    }
  }

  /** Dropping a card as an in-batch duplicate counts it as skipped and changes nothing else. */
  lemma DropDuplicate(ex: Existing, p: Plan, d: nat)
    requires WellFormedPlan(ex, p, d)
    ensures WellFormedPlan(ex, p.(stats := p.stats.(cardsToSkip := p.stats.cardsToSkip + 1)), d + 1)
  {
  }

  lemma NoCardsInNewGroup(ms: seq<MenuPlan>, gs: seq<GroupPlan>, cs: seq<CardPlan>, gk: GroupKey)
    requires CardsOk(ms, gs, cs) && !HasGroup(gs, gk)
    ensures CardsIn(cs, GroupScope(gk)) == 0
  {
    if cs != [] {
      var n := |cs| - 1;
      assert CardOk(ms, gs, cs, n);
      forall k | 0 <= k < n
        ensures CardOk(ms, gs, cs[..n], k)
      {
        assert CardOk(ms, gs, cs, k);
        assert cs[..n][..k] == cs[..k];
      }
      NoCardsInNewGroup(ms, gs, cs[..n], gk);
    }
  }

  // ----- The closures keep the invariant -----

  lemma StartInv(ex: Existing)
    ensures Inv(ex, Start, 0)
  {
    EmptyPlanWellFormed(ex);
  }

  /** The tables after ensureMenu plans menu m under a new key agree with the plan. */
  lemma NewMenuTables(ms: seq<MenuPlan>, gs: seq<GroupPlan>, mkm: map<MenuKey, nat>, gom: map<MenuKey, nat>, m: MenuPlan)
    requires MenuIndex(ms, mkm) && GroupOrders(gs, gom) && GroupsOk(ms, gs) && m.key !in mkm
    ensures !HasMenu(ms, m.key)
    ensures MenuIndex(ms + [m], mkm[m.key := |ms|]) && GroupOrders(gs, gom[m.key := 0])
  {
    NoGroupsUnderNewMenu(ms, gs, m.key);
    var ms' := ms + [m];
    var mkm' := mkm[m.key := |ms|];
    forall mk | mk in mkm'
      ensures mkm'[mk] < |ms'| && ms'[mkm'[mk]].key == mk
    {
    }
    forall i | 0 <= i < |ms'|
      ensures ms'[i].key in mkm'
    {
    }
    var gom' := gom[m.key := 0];
    forall mk
      ensures Get0(gom', mk) == GroupsUnder(gs, mk)
    {
      if mk != m.key {
        assert Get0(gom', mk) == Get0(gom, mk);
      }
    }
  }

  /**
   * ensureMenu keeps the invariant, leaves the menu's key planned, numbers menus in
   * creation order and, when every planned menu reuses the id the database has for its
   * name, keeps that so.
   */
  lemma EnsureMenuKeepsInv(ex: Existing, s: PlanState, d: nat, name: string)
    requires Inv(ex, s, d) && s.menuOrder == |s.plan.menus|
    ensures Inv(ex, EnsuredMenu(s, ex, name), d)
    ensures EnsuredMenu(s, ex, name).menuOrder == |EnsuredMenu(s, ex, name).plan.menus|
    ensures MenuKey(name) in EnsuredMenu(s, ex, name).menuKeyMap
    ensures MenusResolved(ex, s.plan.menus) ==> MenusResolved(ex, EnsuredMenu(s, ex, name).plan.menus)
  {
    if MenuKey(name) !in s.menuKeyMap {
      var m := NewMenu(s, ex, name);
      NewMenuTables(s.plan.menus, s.plan.groups, s.menuKeyMap, s.groupOrderMap, m);
      AppendMenu(ex, s.plan, m, d);
    }
  }

  /** groupKeyMap after ensureGroup plans group g under a new key. */
  lemma NewGroupIndex(gs: seq<GroupPlan>, gkm: map<GroupKey, nat>, g: GroupPlan)
    requires GroupIndex(gs, gkm) && g.key !in gkm
    ensures !HasGroup(gs, g.key) && GroupIndex(gs + [g], gkm[g.key := |gs|])
  {
    var gs' := gs + [g];
    var gkm' := gkm[g.key := |gs|];
    forall k | k in gkm'
      ensures gkm'[k] < |gs'| && gs'[gkm'[k]].key == k
    {
    }
    forall i | 0 <= i < |gs'|
      ensures gs'[i].key in gkm'
    {
    }
  }

  /** groupOrderMap after ensureGroup plans group g. */
  lemma NewGroupOrders(gs: seq<GroupPlan>, gom: map<MenuKey, nat>, g: GroupPlan)
    requires GroupOrders(gs, gom)
    ensures GroupOrders(gs + [g], gom[g.menuKey := Get0(gom, g.menuKey) + 1])
  {
    var gs' := gs + [g];
    var gom' := gom[g.menuKey := Get0(gom, g.menuKey) + 1];
    assert gs'[..|gs|] == gs;
    forall mk
      ensures Get0(gom', mk) == GroupsUnder(gs', mk)
    {
      assert GroupsUnder(gs', mk) == GroupsUnder(gs, mk) + (if g.menuKey == mk then 1 else 0);
    }
  }

  /** cardOrderMap after ensureGroup starts the count of a new group's cards. */
  lemma NewGroupCardOrders(ms: seq<MenuPlan>, gs: seq<GroupPlan>, cs: seq<CardPlan>, com: map<CardScope, nat>, gk: GroupKey)
    requires CardOrders(cs, com) && CardsOk(ms, gs, cs) && !HasGroup(gs, gk)
    ensures CardOrders(cs, com[GroupScope(gk) := 0])
  {
    NoCardsInNewGroup(ms, gs, cs, gk);
    var com' := com[GroupScope(gk) := 0];
    forall sc
      ensures Get0(com', sc) == CardsIn(cs, sc)
    {
      if sc != GroupScope(gk) {
        assert Get0(com', sc) == Get0(com, sc);
      }
    }
  }

  /** ensureGroup keeps the invariant and leaves the group's key planned. */
  lemma EnsureGroupKeepsInv(ex: Existing, s: PlanState, d: nat, mk: MenuKey, name: string)
    requires Inv(ex, s, d) && mk in s.menuKeyMap
    ensures Inv(ex, EnsuredGroup(s, ex, mk, name), d)
    ensures GroupKey(mk, name) in EnsuredGroup(s, ex, mk, name).groupKeyMap
  {
    if GroupKey(mk, name) !in s.groupKeyMap {
      var g := NewGroup(s, ex, mk, name);
      NewGroupIndex(s.plan.groups, s.groupKeyMap, g);
      NewGroupOrders(s.plan.groups, s.groupOrderMap, g);
      NewGroupCardOrders(s.plan.menus, s.plan.groups, s.plan.cards, s.cardOrderMap, g.key);
      AppendGroup(ex, s.plan, g, s.menuKeyMap[mk], d);
    }
  }

  /** Creating a track's URL set leaves every track's URLs as they were. */
  lemma TrackerOpened(cs: seq<CardPlan>, ut: map<TrackKey, set<string>>, tk: TrackKey)
    requires Tracked(cs, ut)
    ensures Tracked(cs, OpenTrack(ut, tk))
  {
    forall tk'
      ensures TrackedUrls(OpenTrack(ut, tk), tk') == UrlsIn(AsRequests(cs), tk')
    {
      assert TrackedUrls(OpenTrack(ut, tk), tk') == TrackedUrls(ut, tk');
    }
  }

  /** cardOrderMap and urlTracker after addCard plans card c. */
  lemma NewCardTables(s: PlanState, c: CardPlan)
    requires CardOrders(s.plan.cards, s.cardOrderMap) && Tracked(s.plan.cards, s.urlTracker)
    ensures CardOrders(CardPlanned(s, c).plan.cards, CardPlanned(s, c).cardOrderMap)
    ensures Tracked(CardPlanned(s, c).plan.cards, CardPlanned(s, c).urlTracker)
  {
    var cs := s.plan.cards;
    var cs' := cs + [c];
    assert cs'[..|cs|] == cs;
    var com' := s.cardOrderMap[Scope(c) := Get0(s.cardOrderMap, Scope(c)) + 1];
    forall sc
      ensures Get0(com', sc) == CardsIn(cs', sc)
    {
      assert CardsIn(cs', sc) == CardsIn(cs, sc) + (if Scope(c) == sc then 1 else 0);
    }
    var tracker := OpenTrack(s.urlTracker, Track(c));
    TrackerOpened(cs, s.urlTracker, Track(c));
    var ut' := tracker[Track(c) := tracker[Track(c)] + {c.url}];
    AsRequestsAppend(cs, c);
    forall tk
      ensures TrackedUrls(ut', tk) == UrlsIn(AsRequests(cs'), tk)
    {
      UrlsInAppend(AsRequests(cs), AsRequest(c), tk);
    }
  }

  /**
   * addCard keeps the invariant; a card it drops as a duplicate is counted among the
   * dropped ones.
   */
  lemma AddCardKeepsInv(ex: Existing, s: PlanState, d: nat, mk: MenuKey, gk: Option<GroupKey>, title: string, url: string)
    requires Inv(ex, s, d) && mk in s.menuKeyMap
    requires gk.Some? ==> gk.value in s.groupKeyMap && gk.value.menu == mk
    ensures Inv(ex, CardAdded(s, ex, mk, gk, title, url), if IsDuplicate(s, mk, gk, url) then d + 1 else d)
  {
    if IsDuplicate(s, mk, gk, url) {
      DuplicateKeepsInv(ex, s, d, TrackKey(mk, gk));
    } else {
      NewCardKeepsInv(ex, s, d, NewCard(s, ex, mk, gk, title, url), s.menuKeyMap[mk],
                      if gk.Some? then s.groupKeyMap[gk.value] else 0);
    }
  }

  lemma DuplicateKeepsInv(ex: Existing, s: PlanState, d: nat, tk: TrackKey)
    requires Inv(ex, s, d)
    ensures Inv(ex, DuplicateCounted(s, tk), d + 1)
  {
    TrackerOpened(s.plan.cards, s.urlTracker, tk);
    DropDuplicate(ex, s.plan, d);
  }

  /** Planning card c, under menu j and group gi, keeps the invariant. */
  lemma NewCardKeepsInv(ex: Existing, s: PlanState, d: nat, c: CardPlan, j: int, gi: int)
    requires Inv(ex, s, d)
    requires 0 <= j < |s.plan.menus| && s.plan.menus[j].key == c.menuKey
    requires c.groupKey.None? ==> (c.action == SkipCard <==> KnownUrl(ex, Bucket(s.plan.menus[j].existingId, None), c.url))
    requires c.groupKey.Some? ==>
      && 0 <= gi < |s.plan.groups| && s.plan.groups[gi].key == c.groupKey.value && c.groupKey.value.menu == c.menuKey
      && (c.action == SkipCard <==> KnownUrl(ex, Bucket(s.plan.menus[j].existingId, s.plan.groups[gi].existingId), c.url))
    requires c.order == Get0(s.cardOrderMap, Scope(c))
    requires c.url !in TrackedUrls(s.urlTracker, Track(c))
    ensures Inv(ex, CardPlanned(s, c), d)
  {
    AppendCard(ex, s.plan, c, j, gi, d);
    NewCardTables(s, c);
  }

  /**
   * addCard extends the cards' requests exactly as de-duplication does: by the new
   * request, unless a planned card of its track has its URL.
   */
  lemma AddCardDedups(ex: Existing, s: PlanState, mk: MenuKey, gk: Option<GroupKey>, title: string, url: string)
    requires Indexed(s) && mk in s.menuKeyMap && (gk.Some? ==> gk.value in s.groupKeyMap)
    requires Tracked(s.plan.cards, s.urlTracker)
    ensures AsRequests(CardAdded(s, ex, mk, gk, title, url).plan.cards)
         == DedupStep(AsRequests(s.plan.cards), Request(TrackKey(mk, gk), title, url))
  {
    var cs := s.plan.cards;
    assert TrackedUrls(s.urlTracker, TrackKey(mk, gk)) == UrlsIn(AsRequests(cs), TrackKey(mk, gk));
    if !IsDuplicate(s, mk, gk, url) {
      var c := CardAdded(s, ex, mk, gk, title, url).plan.cards[|cs|];
      assert CardAdded(s, ex, mk, gk, title, url).plan.cards == cs + [c];
      AsRequestsAppend(cs, c);
    }
  }

  /** Menu mode's target menu, planned first, keeps the invariant. */
  lemma TargetMenuKeepsInv(ex: Existing, name: string, id: Option<nat>)
    ensures Inv(ex, TargetMenuAdded(Start, name, id), 0)
  {
    EmptyPlanWellFormed(ex);
    var m := MenuPlan(MenuKey(name), name, Reuse, id, 0);
    AppendMenu(ex, Start.plan, m, 0);
    var s' := TargetMenuAdded(Start, name, id);
    forall mk
      ensures Get0(s'.groupOrderMap, mk) == GroupsUnder(s'.plan.groups, mk)
    {
    }
  }

  // ----- The loop over the bookmarks -----

  // Facts about one pass that do not need the invariant.

  lemma EnsuredMenuFrame(s: PlanState, ex: Existing, name: string)
    ensures EnsuredMenu(s, ex, name).plan.cards == s.plan.cards
    ensures EnsuredMenu(s, ex, name).urlTracker == s.urlTracker
    ensures s.menuOrder == |s.plan.menus| ==> EnsuredMenu(s, ex, name).menuOrder == |EnsuredMenu(s, ex, name).plan.menus|
    ensures MenusResolved(ex, s.plan.menus) ==> MenusResolved(ex, EnsuredMenu(s, ex, name).plan.menus)
  {
  }

  lemma EnsuredGroupFrame(s: PlanState, ex: Existing, mk: MenuKey, name: string)
    requires mk in s.menuKeyMap && s.menuKeyMap[mk] < |s.plan.menus|
    ensures EnsuredGroup(s, ex, mk, name).plan.cards == s.plan.cards
    ensures EnsuredGroup(s, ex, mk, name).urlTracker == s.urlTracker
    ensures EnsuredGroup(s, ex, mk, name).plan.menus == s.plan.menus
    ensures EnsuredGroup(s, ex, mk, name).menuOrder == s.menuOrder
  {
  }

  lemma CardAddedFrame(s: PlanState, ex: Existing, mk: MenuKey, gk: Option<GroupKey>, title: string, url: string)
    requires mk in s.menuKeyMap && s.menuKeyMap[mk] < |s.plan.menus|
    requires gk.Some? ==> gk.value in s.groupKeyMap && s.groupKeyMap[gk.value] < |s.plan.groups|
    ensures CardAdded(s, ex, mk, gk, title, url).plan.menus == s.plan.menus
    ensures CardAdded(s, ex, mk, gk, title, url).menuOrder == s.menuOrder
    ensures |CardAdded(s, ex, mk, gk, title, url).plan.cards| == |s.plan.cards| + (if IsDuplicate(s, mk, gk, url) then 0 else 1)
  {
  }

  /** ensureGroup then addCard extend the requests as de-duplication does. */
  lemma FiledInGroupDedups(s: PlanState, ex: Existing, mk: MenuKey, name: string, b: BookmarkParser.Bookmark)
    requires Indexed(s) && mk in s.menuKeyMap && Tracked(s.plan.cards, s.urlTracker)
    ensures AsRequests(FiledInGroup(s, ex, mk, name, b).plan.cards)
         == DedupStep(AsRequests(s.plan.cards), Request(TrackKey(mk, Some(GroupKey(mk, name))), b.title, b.url))
  {
    EnsuredGroupIndexed(s, ex, mk, name);
    EnsuredGroupFrame(s, ex, mk, name);
    AddCardDedups(ex, EnsuredGroup(s, ex, mk, name), mk, Some(GroupKey(mk, name)), b.title, b.url);
  }

  /** One pass of auto mode's loop extends the requests by the bookmark's, de-duplicated. */
  lemma AutoFiledDedups(s: PlanState, ex: Existing, targetMenuName: string, b: BookmarkParser.Bookmark)
    requires Indexed(s) && Tracked(s.plan.cards, s.urlTracker)
    ensures AsRequests(AutoFiled(s, ex, b).plan.cards)
         == DedupStep(AsRequests(s.plan.cards), Request(Destination("auto", targetMenuName, b), b.title, b.url))
  {
    var name := if b.rootFolder.None? then "Home" else b.rootFolder.value;
    EnsuredMenuIndexed(s, ex, name);
    EnsuredMenuFrame(s, ex, name);
    var s1 := EnsuredMenu(s, ex, name);
    if b.rootFolder.Some? && b.folderPath != [] {
      FiledInGroupDedups(s1, ex, MenuKey(name), Strings.Join(b.folderPath, GroupSeparator), b);
    } else {
      AddCardDedups(ex, s1, MenuKey(name), None, b.title, b.url);
    }
  }

  /** One pass of menu mode's loop extends the requests by the bookmark's, de-duplicated. */
  lemma MenuFiledDedups(s: PlanState, ex: Existing, targetType: string, targetMenuName: string, b: BookmarkParser.Bookmark)
    requires targetType != "auto"
    requires Indexed(s) && MenuKey(targetMenuName) in s.menuKeyMap && Tracked(s.plan.cards, s.urlTracker)
    ensures AsRequests(MenuFiled(s, ex, MenuKey(targetMenuName), b).plan.cards)
         == DedupStep(AsRequests(s.plan.cards), Request(Destination(targetType, targetMenuName, b), b.title, b.url))
  {
    var mk := MenuKey(targetMenuName);
    if FullPath(b) != [] {
      FiledInGroupDedups(s, ex, mk, Strings.Join(FullPath(b), GroupSeparator), b);
    } else {
      AddCardDedups(ex, s, mk, None, b.title, b.url);
    }
  }

  /** One pass of auto mode's loop keeps menus numbered in order and resolved against the database. */
  lemma AutoFiledMenus(s: PlanState, ex: Existing, b: BookmarkParser.Bookmark)
    requires Indexed(s)
    ensures s.menuOrder == |s.plan.menus| ==> AutoFiled(s, ex, b).menuOrder == |AutoFiled(s, ex, b).plan.menus|
    ensures MenusResolved(ex, s.plan.menus) ==> MenusResolved(ex, AutoFiled(s, ex, b).plan.menus)
  {
    var name := if b.rootFolder.None? then "Home" else b.rootFolder.value;
    EnsuredMenuIndexed(s, ex, name);
    EnsuredMenuFrame(s, ex, name);
    var s1 := EnsuredMenu(s, ex, name);
    if b.rootFolder.Some? && b.folderPath != [] {
      var g := Strings.Join(b.folderPath, GroupSeparator);
      EnsuredGroupIndexed(s1, ex, MenuKey(name), g);
      EnsuredGroupFrame(s1, ex, MenuKey(name), g);
      CardAddedFrame(EnsuredGroup(s1, ex, MenuKey(name), g), ex, MenuKey(name), Some(GroupKey(MenuKey(name), g)), b.title, b.url);
    } else {
      CardAddedFrame(s1, ex, MenuKey(name), None, b.title, b.url);
    }
  }

  /** One pass of menu mode's loop plans no menu. */
  lemma MenuFiledMenus(s: PlanState, ex: Existing, mk: MenuKey, b: BookmarkParser.Bookmark)
    requires Indexed(s) && mk in s.menuKeyMap
    ensures MenuFiled(s, ex, mk, b).plan.menus == s.plan.menus
  {
    if FullPath(b) != [] {
      var g := Strings.Join(FullPath(b), GroupSeparator);
      EnsuredGroupIndexed(s, ex, mk, g);
      EnsuredGroupFrame(s, ex, mk, g);
      CardAddedFrame(EnsuredGroup(s, ex, mk, g), ex, mk, Some(GroupKey(mk, g)), b.title, b.url);
    } else {
      CardAddedFrame(s, ex, mk, None, b.title, b.url);
    }
  }

  // The invariant across one pass.

  /** After n bookmarks: at most n cards, the others dropped as duplicates, and Inv holds. */
  ghost predicate Handled(ex: Existing, s: PlanState, n: nat) {
    |s.plan.cards| <= n && Inv(ex, s, n - |s.plan.cards|)
  }

  lemma AddCardHandled(ex: Existing, s: PlanState, n: nat, mk: MenuKey, gk: Option<GroupKey>, title: string, url: string)
    requires Handled(ex, s, n) && mk in s.menuKeyMap
    requires gk.Some? ==> gk.value in s.groupKeyMap && gk.value.menu == mk
    ensures Handled(ex, CardAdded(s, ex, mk, gk, title, url), n + 1)
  {
    CardAddedFrame(s, ex, mk, gk, title, url);
    AddCardKeepsInv(ex, s, n - |s.plan.cards|, mk, gk, title, url);
  }

  lemma FiledInGroupHandled(ex: Existing, s: PlanState, n: nat, mk: MenuKey, name: string, b: BookmarkParser.Bookmark)
    requires Handled(ex, s, n) && mk in s.menuKeyMap
    ensures Handled(ex, FiledInGroup(s, ex, mk, name, b), n + 1)
  {
    EnsureGroupKeepsInv(ex, s, n - |s.plan.cards|, mk, name);
    EnsuredGroupFrame(s, ex, mk, name);
    AddCardHandled(ex, EnsuredGroup(s, ex, mk, name), n, mk, Some(GroupKey(mk, name)), b.title, b.url);
  }

  lemma AutoFiledHandled(ex: Existing, s: PlanState, n: nat, b: BookmarkParser.Bookmark)
    requires Handled(ex, s, n) && s.menuOrder == |s.plan.menus|
    ensures Handled(ex, AutoFiled(s, ex, b), n + 1)
  {
    var name := if b.rootFolder.None? then "Home" else b.rootFolder.value;
    EnsureMenuKeepsInv(ex, s, n - |s.plan.cards|, name);
    EnsuredMenuFrame(s, ex, name);
    var s1 := EnsuredMenu(s, ex, name);
    if b.rootFolder.Some? && b.folderPath != [] {
      FiledInGroupHandled(ex, s1, n, MenuKey(name), Strings.Join(b.folderPath, GroupSeparator), b);
    } else {
      AddCardHandled(ex, s1, n, MenuKey(name), None, b.title, b.url);
    }
  }

  lemma MenuFiledHandled(ex: Existing, s: PlanState, n: nat, mk: MenuKey, b: BookmarkParser.Bookmark)
    requires Handled(ex, s, n) && mk in s.menuKeyMap
    ensures Handled(ex, MenuFiled(s, ex, mk, b), n + 1)
  {
    if FullPath(b) != [] {
      FiledInGroupHandled(ex, s, n, mk, Strings.Join(FullPath(b), GroupSeparator), b);
    } else {
      AddCardHandled(ex, s, n, mk, None, b.title, b.url);
    }
  }

  // ----- The whole loop -----

  /** The planned menus: numbered in order and resolved in auto mode; only the target menu in menu mode. */
  lemma {:induction false} PlannedMenus(ex: Existing, targetType: string, targetMenuId: Option<nat>, targetMenuName: string,
                                        bs: seq<BookmarkParser.Bookmark>)
    ensures var r := Planned(ex, targetType, targetMenuId, targetMenuName, bs);
      && (targetType == "auto" ==> r.menuOrder == |r.plan.menus| && MenusResolved(ex, r.plan.menus))
      && (targetType != "auto" ==> r.plan.menus == [MenuPlan(MenuKey(targetMenuName), targetMenuName, Reuse, targetMenuId, 0)])
  {
    if bs != [] {
      var s := Planned(ex, targetType, targetMenuId, targetMenuName, bs[..|bs| - 1]);
      PlannedMenus(ex, targetType, targetMenuId, targetMenuName, bs[..|bs| - 1]);
      if targetType == "auto" {
        AutoFiledMenus(s, ex, bs[|bs| - 1]);
      } else {
        MenuFiledMenus(s, ex, MenuKey(targetMenuName), bs[|bs| - 1]);
      }
    }
  }

  /** The invariant holds after the loop, with every bookmark either planned as a card or dropped as a duplicate. */
  lemma {:induction false} PlannedHandled(ex: Existing, targetType: string, targetMenuId: Option<nat>, targetMenuName: string,
                                          bs: seq<BookmarkParser.Bookmark>)
    ensures Handled(ex, Planned(ex, targetType, targetMenuId, targetMenuName, bs), |bs|)
  {
    if bs == [] {
      InitialHandled(ex, targetType, targetMenuId, targetMenuName);
    } else {
      PlannedHandled(ex, targetType, targetMenuId, targetMenuName, bs[..|bs| - 1]);
      PlannedMenus(ex, targetType, targetMenuId, targetMenuName, bs[..|bs| - 1]);
      LastHandled(ex, targetType, targetMenuId, targetMenuName, bs);
    }
  }

  lemma InitialHandled(ex: Existing, targetType: string, targetMenuId: Option<nat>, targetMenuName: string)
    ensures Handled(ex, Initial(targetType, targetMenuId, targetMenuName), 0)
  {
    if targetType == "auto" {
      StartInv(ex);
    } else {
      TargetMenuKeepsInv(ex, targetMenuName, targetMenuId);
    }
  }

  /** The loop's last pass keeps the invariant. */
  lemma LastHandled(ex: Existing, targetType: string, targetMenuId: Option<nat>, targetMenuName: string,
                    bs: seq<BookmarkParser.Bookmark>)
    requires bs != []
    requires Handled(ex, Planned(ex, targetType, targetMenuId, targetMenuName, bs[..|bs| - 1]), |bs| - 1)
    requires targetType == "auto" ==>
      Planned(ex, targetType, targetMenuId, targetMenuName, bs[..|bs| - 1]).menuOrder
      == |Planned(ex, targetType, targetMenuId, targetMenuName, bs[..|bs| - 1]).plan.menus|
    ensures Handled(ex, Planned(ex, targetType, targetMenuId, targetMenuName, bs), |bs|)
  {
    var s := Planned(ex, targetType, targetMenuId, targetMenuName, bs[..|bs| - 1]);
    if targetType == "auto" {
      AutoFiledHandled(ex, s, |bs| - 1, bs[|bs| - 1]);
    } else {
      MenuFiledHandled(ex, s, |bs| - 1, MenuKey(targetMenuName), bs[|bs| - 1]);
    }
  }

  /** The planned cards are exactly the bookmarks' requests with in-batch duplicates removed. */
  lemma {:induction false} PlannedDedups(ex: Existing, targetType: string, targetMenuId: Option<nat>, targetMenuName: string,
                                         bs: seq<BookmarkParser.Bookmark>)
    ensures AsRequests(Planned(ex, targetType, targetMenuId, targetMenuName, bs).plan.cards)
         == Dedup(Requests(targetType, targetMenuName, bs))
  {
    if bs != [] {
      PlannedDedups(ex, targetType, targetMenuId, targetMenuName, bs[..|bs| - 1]);
      PlannedTracked(ex, targetType, targetMenuId, targetMenuName, bs[..|bs| - 1]);
      LastDedups(ex, targetType, targetMenuId, targetMenuName, bs);
    }
  }

  /** After the loop the tracker holds each track's planned URLs. */
  lemma PlannedTracked(ex: Existing, targetType: string, targetMenuId: Option<nat>, targetMenuName: string,
                       bs: seq<BookmarkParser.Bookmark>)
    ensures var r := Planned(ex, targetType, targetMenuId, targetMenuName, bs); Tracked(r.plan.cards, r.urlTracker)
  {
    PlannedHandled(ex, targetType, targetMenuId, targetMenuName, bs);
  }

  /** The loop's last pass extends the requests by the last bookmark's, de-duplicated. */
  lemma LastDedups(ex: Existing, targetType: string, targetMenuId: Option<nat>, targetMenuName: string,
                   bs: seq<BookmarkParser.Bookmark>)
    requires bs != []
    requires var s := Planned(ex, targetType, targetMenuId, targetMenuName, bs[..|bs| - 1]);
      && Tracked(s.plan.cards, s.urlTracker)
      && AsRequests(s.plan.cards) == Dedup(Requests(targetType, targetMenuName, bs[..|bs| - 1]))
    ensures AsRequests(Planned(ex, targetType, targetMenuId, targetMenuName, bs).plan.cards)
         == Dedup(Requests(targetType, targetMenuName, bs))
  {
    var front, b := bs[..|bs| - 1], bs[|bs| - 1];
    var s := Planned(ex, targetType, targetMenuId, targetMenuName, front);
    if targetType == "auto" {
      AutoFiledDedups(s, ex, targetMenuName, b);
    } else {
      MenuFiledDedups(s, ex, targetType, targetMenuName, b);
    }
    DedupRequestsSnoc(targetType, targetMenuName, bs);
  }

  /**
   * What generateImportPlan promises: a well-formed plan whose counters add up to the number
   * of bookmarks, whose cards are the bookmarks' requests de-duplicated per track, and whose
   * menus are resolved against the database (auto mode) or are just the target (menu mode).
   */
  lemma GeneratedPlanSpec(ex: Existing, targetType: string, targetMenuId: Option<nat>, targetMenuName: string,
                          bs: seq<BookmarkParser.Bookmark>)
    ensures var p := GeneratedPlan(ex, targetType, targetMenuId, targetMenuName, bs);
      |p.cards| <= |bs| && WellFormedPlan(ex, p, |bs| - |p.cards|)
    ensures var p := GeneratedPlan(ex, targetType, targetMenuId, targetMenuName, bs);
      p.stats.cardsToCreate + p.stats.cardsToSkip == |bs|
    ensures AsRequests(GeneratedPlan(ex, targetType, targetMenuId, targetMenuName, bs).cards)
         == Dedup(Requests(targetType, targetMenuName, bs))
    ensures targetType == "auto" ==> MenusResolved(ex, GeneratedPlan(ex, targetType, targetMenuId, targetMenuName, bs).menus)
    ensures targetType != "auto" ==> GeneratedPlan(ex, targetType, targetMenuId, targetMenuName, bs).menus
                                     == [MenuPlan(MenuKey(targetMenuName), targetMenuName, Reuse, targetMenuId, 0)]
  {
    var p := GeneratedPlan(ex, targetType, targetMenuId, targetMenuName, bs);
    PlannedHandled(ex, targetType, targetMenuId, targetMenuName, bs);
    StatsAddUp(ex, p, |bs| - |p.cards|);
    PlannedDedups(ex, targetType, targetMenuId, targetMenuName, bs);
    PlannedMenus(ex, targetType, targetMenuId, targetMenuName, bs);
  }
}
