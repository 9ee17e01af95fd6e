/**
 * The import plan generateImportPlan produces, and the reference definitions it is proved
 * against: where each bookmark is meant to go, and which of those cards survive the
 * in-batch de-duplication.
 *
 * The source identifies menus, groups and de-duplication buckets by strings built by
 * concatenation; here each is a datatype, so that distinct names give distinct keys (the
 * module KeyText models the strings as written).
 */
module ImportPlan {
  import opened Options
  import opened Strings
  import opened BookmarkParser

  /** A menu's key; the source spells it as text, as KeyText.MenuKeyText does. */
  datatype MenuKey = MenuKey(menuName: string)

  /** A group's key: its menu's key and its name (spelt as text in the source, see KeyText.GroupKeyText). */
  datatype GroupKey = GroupKey(menu: MenuKey, groupName: string)

  /** What cards are numbered within: their group, or their menu when they have no group. */
  datatype CardScope = MenuScope(menuKey: MenuKey) | GroupScope(groupKey: GroupKey)

  /** What in-batch de-duplication is per: a menu together with a group or with no group. */
  datatype TrackKey = TrackKey(menu: MenuKey, group: Option<GroupKey>)

  /** The bucket of the existing-URL index: a menu id and a group id, each absent when falsy. */
  datatype UrlBucket = UrlBucket(menuId: Option<nat>, groupId: Option<nat>)

  datatype EntityAction = Create | Reuse
  datatype CardAction = CreateCard | SkipCard

  datatype MenuPlan = MenuPlan(key: MenuKey, name: string, action: EntityAction, existingId: Option<nat>, order: nat)

  datatype GroupPlan = GroupPlan(
    key: GroupKey, menuKey: MenuKey, name: string, action: EntityAction, existingId: Option<nat>, order: nat)

  datatype CardPlan = CardPlan(
    menuKey: MenuKey, groupKey: Option<GroupKey>, title: string, url: string, action: CardAction, order: nat)

  datatype Stats = Stats(
    menusToCreate: nat, menusToReuse: nat,
    groupsToCreate: nat, groupsToReuse: nat,
    cardsToCreate: nat, cardsToSkip: nat)

  datatype Plan = Plan(menus: seq<MenuPlan>, groups: seq<GroupPlan>, cards: seq<CardPlan>, stats: Stats)

  /**
   * What the database already holds: menu name to id, menu id to (group name to id), and
   * bucket to the URLs of its cards.
   */
  datatype Existing = Existing(
    menuIds: map<string, nat>,
    groupIds: map<nat, map<string, nat>>,
    urls: map<UrlBucket, set<string>>)

  const ZeroStats := Stats(0, 0, 0, 0, 0, 0)

  // ----- Ids -----

  /** JavaScript truthiness of an id that may be null: 0 counts as absent. */
  predicate Truthy(id: Option<nat>) {
    id.Some? && id.value != 0
  }

  /** The id when it is truthy, otherwise none. */
  function OrNull(id: Option<nat>): Option<nat> {
    if Truthy(id) then id else None
  }

  /** Reuse when the id is truthy, otherwise create. */
  function ActionFor(id: Option<nat>): EntityAction {
    if Truthy(id) then Reuse else Create
  }

  /** The id a menu of this name reuses, if any. */
  function MenuLookup(ex: Existing, name: string): Option<nat> {
    if name in ex.menuIds then OrNull(Some(ex.menuIds[name])) else None
  }

  /** The id a group of this name reuses under the menu with id `menuId`, if any. */
  function GroupLookup(ex: Existing, menuId: Option<nat>, name: string): Option<nat> {
    if Truthy(menuId) && menuId.value in ex.groupIds && name in ex.groupIds[menuId.value] then
      OrNull(Some(ex.groupIds[menuId.value][name]))
    else None
  }

  function Bucket(menuId: Option<nat>, groupId: Option<nat>): UrlBucket {
    UrlBucket(OrNull(menuId), OrNull(groupId))
  }

  /** The database already has a card with this URL in this bucket. */
  predicate KnownUrl(ex: Existing, bucket: UrlBucket, url: string) {
    bucket in ex.urls && url in ex.urls[bucket]
  }

  // ----- Where a bookmark goes -----

  const GroupSeparator := " / "

  /** The menu and group a bookmark is filed under, in auto mode or in menu mode. */
  function Destination(targetType: string, targetMenuName: string, b: Bookmark): TrackKey {
    if targetType == "auto" then
      if b.rootFolder.None? then TrackKey(MenuKey("Home"), None)
      else
        var mk := MenuKey(b.rootFolder.value);
        if b.folderPath == [] then TrackKey(mk, None)
        else TrackKey(mk, Some(GroupKey(mk, Join(b.folderPath, GroupSeparator))))
    else
      var mk := MenuKey(targetMenuName);
      if FullPath(b) == [] then TrackKey(mk, None)
      else TrackKey(mk, Some(GroupKey(mk, Join(FullPath(b), GroupSeparator))))
  }

  /** Menu mode's group path: the root folder, when it is a non-empty name, then the folder path. */
  function FullPath(b: Bookmark): seq<string> {
    if b.rootFolder.Some? && b.rootFolder.value != "" then [b.rootFolder.value] + b.folderPath else b.folderPath
  }

  /** A card as far as de-duplication is concerned. */
  datatype Request = Request(track: TrackKey, title: string, url: string)

  /** The card each bookmark asks for, in bookmark order. */
  function Requests(targetType: string, targetMenuName: string, bs: seq<Bookmark>): (rs: seq<Request>)
    ensures |rs| == |bs|
  {
    seq(|bs|, i requires 0 <= i < |bs| => Request(Destination(targetType, targetMenuName, bs[i]), bs[i].title, bs[i].url))
  }

  /** The URLs of the requests in one track. */
  function UrlsIn(rs: seq<Request>, track: TrackKey): set<string> {
    if rs == [] then {}
    else UrlsIn(rs[..|rs| - 1], track) + (if rs[|rs| - 1].track == track then {rs[|rs| - 1].url} else {})
  }

  /** `kept` extended by r, unless a kept request of r's track already has r's URL. */
  function DedupStep(kept: seq<Request>, r: Request): seq<Request> {
    if r.url in UrlsIn(kept, r.track) then kept else kept + [r]
  }

  /** The requests left after dropping each one whose URL an earlier kept request of its track has. */
  function Dedup(rs: seq<Request>): seq<Request> {
    if rs == [] then [] else DedupStep(Dedup(rs[..|rs| - 1]), rs[|rs| - 1])
  }

  function Track(c: CardPlan): TrackKey {
    TrackKey(c.menuKey, c.groupKey)
  }

  /** A card is numbered within its group, or within its menu when it has none. */
  function ScopeOf(mk: MenuKey, gk: Option<GroupKey>): CardScope {
    if gk.Some? then GroupScope(gk.value) else MenuScope(mk)
  }

  function Scope(c: CardPlan): CardScope {
    ScopeOf(c.menuKey, c.groupKey)
  }

  function AsRequest(c: CardPlan): Request {
    Request(Track(c), c.title, c.url)
  }

  function AsRequests(cs: seq<CardPlan>): (rs: seq<Request>)
    ensures |rs| == |cs|
  {
    seq(|cs|, i requires 0 <= i < |cs| => AsRequest(cs[i]))
  }

  // ----- Counting -----

  function MenusWith(ms: seq<MenuPlan>, a: EntityAction): nat {
    if ms == [] then 0 else MenusWith(ms[..|ms| - 1], a) + (if ms[|ms| - 1].action == a then 1 else 0)
  }

  function GroupsWith(gs: seq<GroupPlan>, a: EntityAction): nat {
    if gs == [] then 0 else GroupsWith(gs[..|gs| - 1], a) + (if gs[|gs| - 1].action == a then 1 else 0)
  }

  function GroupsUnder(gs: seq<GroupPlan>, mk: MenuKey): nat {
    if gs == [] then 0 else GroupsUnder(gs[..|gs| - 1], mk) + (if gs[|gs| - 1].menuKey == mk then 1 else 0)
  }

  function CardsWith(cs: seq<CardPlan>, a: CardAction): nat {
    if cs == [] then 0 else CardsWith(cs[..|cs| - 1], a) + (if cs[|cs| - 1].action == a then 1 else 0)
  }

  function CardsIn(cs: seq<CardPlan>, sc: CardScope): nat {
    if cs == [] then 0 else CardsIn(cs[..|cs| - 1], sc) + (if Scope(cs[|cs| - 1]) == sc then 1 else 0)
  }

  /** The counters after planning a menu with this action. */
  function MenuCounted(st: Stats, a: EntityAction): Stats {
    if a == Reuse then st.(menusToReuse := st.menusToReuse + 1) else st.(menusToCreate := st.menusToCreate + 1)
  }

  function GroupCounted(st: Stats, a: EntityAction): Stats {
    if a == Reuse then st.(groupsToReuse := st.groupsToReuse + 1) else st.(groupsToCreate := st.groupsToCreate + 1)
  }

  function CardCounted(st: Stats, a: CardAction): Stats {
    if a == SkipCard then st.(cardsToSkip := st.cardsToSkip + 1) else st.(cardsToCreate := st.cardsToCreate + 1)
  }

  // ----- What every plan satisfies -----
  // Each predicate takes only the parts of the plan it is about.

  /** Menu i is keyed by its name and numbered i, in creation order. */
  ghost predicate MenuOk(ms: seq<MenuPlan>, i: int)
    requires 0 <= i < |ms|
  {
    ms[i].key == MenuKey(ms[i].name) && ms[i].order == i
  }

  /** One menu per key. */
  ghost predicate MenuKeysDistinct(ms: seq<MenuPlan>) {
    forall i, j :: 0 <= i < j < |ms| ==> ms[i].key != ms[j].key
  }

  /** `mk` is the key of a planned menu. */
  ghost predicate HasMenu(ms: seq<MenuPlan>, mk: MenuKey) {
    exists j :: 0 <= j < |ms| && ms[j].key == mk
  }

  /** `gk` is the key of a planned group. */
  ghost predicate HasGroup(gs: seq<GroupPlan>, gk: GroupKey) {
    exists g :: 0 <= g < |gs| && gs[g].key == gk
  }

  /**
   * Group i is keyed by its menu and name, lies under a planned menu, and is numbered by
   * the groups of its menu before it.
   */
  ghost predicate GroupOk(ms: seq<MenuPlan>, gs: seq<GroupPlan>, i: int)
    requires 0 <= i < |gs|
  {
    && gs[i].key == GroupKey(gs[i].menuKey, gs[i].name)
    && gs[i].order == GroupsUnder(gs[..i], gs[i].menuKey)
    && HasMenu(ms, gs[i].menuKey)
  }

  /** One group per key. */
  ghost predicate GroupKeysDistinct(gs: seq<GroupPlan>) {
    forall i, j :: 0 <= i < j < |gs| ==> gs[i].key != gs[j].key
  }

  /** Group i reuses the id the database has for its name under the id of menu j, its menu. */
  ghost predicate GroupResolved(ex: Existing, ms: seq<MenuPlan>, gs: seq<GroupPlan>, i: int, j: int)
    requires 0 <= i < |gs| && 0 <= j < |ms|
  {
    ms[j].key == gs[i].menuKey ==>
      && gs[i].existingId == GroupLookup(ex, ms[j].existingId, gs[i].name)
      && gs[i].action == ActionFor(gs[i].existingId)
  }

  /**
   * Card k lies under a planned menu and, if it has one, a planned group of that menu; it is
   * numbered by the cards of its scope before it, and no card of its track before it has its URL.
   */
  ghost predicate CardOk(ms: seq<MenuPlan>, gs: seq<GroupPlan>, cs: seq<CardPlan>, k: int)
    requires 0 <= k < |cs|
  {
    && HasMenu(ms, cs[k].menuKey)
    && (cs[k].groupKey.Some? ==> cs[k].groupKey.value.menu == cs[k].menuKey && HasGroup(gs, cs[k].groupKey.value))
    && cs[k].order == CardsIn(cs[..k], Scope(cs[k]))
    && cs[k].url !in UrlsIn(AsRequests(cs[..k]), Track(cs[k]))
  }

  /**
   * Card k, under menu j and group g, is skipped exactly when the database has its URL in
   * that menu's and group's bucket.
   */
  ghost predicate CardChecked(ex: Existing, ms: seq<MenuPlan>, gs: seq<GroupPlan>, cs: seq<CardPlan>, k: int, j: int, g: int)
    requires 0 <= k < |cs| && 0 <= j < |ms| && 0 <= g < |gs|
  {
    ms[j].key == cs[k].menuKey && cs[k].groupKey == Some(gs[g].key) ==>
      (cs[k].action == SkipCard <==> KnownUrl(ex, Bucket(ms[j].existingId, gs[g].existingId), cs[k].url))
  }

  /** The same for a card under menu j without a group. */
  ghost predicate UngroupedCardChecked(ex: Existing, ms: seq<MenuPlan>, cs: seq<CardPlan>, k: int, j: int)
    requires 0 <= k < |cs| && 0 <= j < |ms|
  {
    ms[j].key == cs[k].menuKey && cs[k].groupKey.None? ==>
      (cs[k].action == SkipCard <==> KnownUrl(ex, Bucket(ms[j].existingId, None), cs[k].url))
  }

  /** The counters count the plan's entries; skipped cards also count `duplicates` dropped ones. */
  ghost predicate StatsCount(p: Plan, duplicates: nat) {
    && p.stats.menusToCreate == MenusWith(p.menus, Create)
    && p.stats.menusToReuse == MenusWith(p.menus, Reuse)
    && p.stats.groupsToCreate == GroupsWith(p.groups, Create)
    && p.stats.groupsToReuse == GroupsWith(p.groups, Reuse)
    && p.stats.cardsToCreate == CardsWith(p.cards, CreateCard)
    && p.stats.cardsToSkip == CardsWith(p.cards, SkipCard) + duplicates
  }

  ghost predicate MenusOk(ms: seq<MenuPlan>) {
    (forall i :: 0 <= i < |ms| ==> MenuOk(ms, i)) && MenuKeysDistinct(ms)
  }

  ghost predicate GroupsOk(ms: seq<MenuPlan>, gs: seq<GroupPlan>) {
    (forall i :: 0 <= i < |gs| ==> GroupOk(ms, gs, i)) && GroupKeysDistinct(gs)
  }

  ghost predicate GroupsResolved(ex: Existing, ms: seq<MenuPlan>, gs: seq<GroupPlan>) {
    forall i, j :: 0 <= i < |gs| && 0 <= j < |ms| ==> GroupResolved(ex, ms, gs, i, j)
  }

  ghost predicate CardsOk(ms: seq<MenuPlan>, gs: seq<GroupPlan>, cs: seq<CardPlan>) {
    forall k :: 0 <= k < |cs| ==> CardOk(ms, gs, cs, k)
  }

  ghost predicate CardsChecked(ex: Existing, ms: seq<MenuPlan>, gs: seq<GroupPlan>, cs: seq<CardPlan>) {
    && (forall k, j :: 0 <= k < |cs| && 0 <= j < |ms| ==> UngroupedCardChecked(ex, ms, cs, k, j))
    && (forall k, j, g :: 0 <= k < |cs| && 0 <= j < |ms| && 0 <= g < |gs| ==> CardChecked(ex, ms, gs, cs, k, j, g))
  }

  /** What every plan the planner builds satisfies. */
  ghost predicate WellFormedPlan(ex: Existing, p: Plan, duplicates: nat) {
    && MenusOk(p.menus) && GroupsOk(p.menus, p.groups) && GroupsResolved(ex, p.menus, p.groups)
    && CardsOk(p.menus, p.groups, p.cards) && CardsChecked(ex, p.menus, p.groups, p.cards)
    && StatsCount(p, duplicates)
  }

  /** In auto mode a menu reuses the id the database has for its name, if any. */
  ghost predicate MenusResolved(ex: Existing, ms: seq<MenuPlan>) {
    forall i :: 0 <= i < |ms| ==>
      ms[i].existingId == MenuLookup(ex, ms[i].name) && ms[i].action == ActionFor(ms[i].existingId)
  }

  // ----- De-duplication -----

  /** No request repeats a URL an earlier request of its track has. */
  ghost predicate NoRepeatedUrl(rs: seq<Request>) {
    forall j :: 0 <= j < |rs| ==> rs[j].url !in UrlsIn(rs[..j], rs[j].track)
  }

  lemma UrlsInAppend(rs: seq<Request>, r: Request, tk: TrackKey)
    ensures UrlsIn(rs + [r], tk) == UrlsIn(rs, tk) + (if r.track == tk then {r.url} else {})
  {
    assert (rs + [r])[..|rs|] == rs;
  }

  /** A request's URL is among the URLs of its track. */
  lemma {:induction false} UrlsInHas(rs: seq<Request>, i: int)
    requires 0 <= i < |rs|
    ensures rs[i].url in UrlsIn(rs, rs[i].track)
  {
    var n := |rs| - 1;
    if i < n {
      UrlsInHas(rs[..n], i);
    }
  }

  /** Each URL of a track comes from a request of that track. */
  lemma {:induction false} UrlsInFrom(rs: seq<Request>, tk: TrackKey, url: string)
    requires url in UrlsIn(rs, tk)
    ensures exists i :: 0 <= i < |rs| && rs[i].track == tk && rs[i].url == url
  {
    var n := |rs| - 1;
    if url in UrlsIn(rs[..n], tk) {
      UrlsInFrom(rs[..n], tk, url);
      var i :| 0 <= i < n && rs[..n][i].track == tk && rs[..n][i].url == url;
      assert rs[i] == rs[..n][i];
    } else {
      assert rs[n].track == tk && rs[n].url == url;
    }
  }

  /** De-duplication only drops requests. */
  lemma {:induction false} DedupShorter(rs: seq<Request>)
    ensures |Dedup(rs)| <= |rs|
  {
    if rs != [] {
      DedupShorter(rs[..|rs| - 1]);
    }
  }

  /** De-duplication loses no URL of any track. */
  lemma {:induction false} DedupKeepsUrls(rs: seq<Request>, tk: TrackKey)
    ensures UrlsIn(Dedup(rs), tk) == UrlsIn(rs, tk)
  {
    if rs != [] {
      var n := |rs| - 1;
      var kept := Dedup(rs[..n]);
      var r := rs[n];
      DedupKeepsUrls(rs[..n], tk);
      if r.url in UrlsIn(kept, r.track) {
        DedupKeepsUrls(rs[..n], r.track);
      } else {
        UrlsInAppend(kept, r, tk);
      }
    }
  }

  /** After de-duplication no URL repeats within a track. */
  lemma {:induction false} DedupNoRepeatedUrl(rs: seq<Request>)
    ensures NoRepeatedUrl(Dedup(rs))
  {
    if rs != [] {
      var n := |rs| - 1;
      var kept := Dedup(rs[..n]);
      var r := rs[n];
      DedupNoRepeatedUrl(rs[..n]);
      if r.url !in UrlsIn(kept, r.track) {
        var rs' := kept + [r];
        forall j | 0 <= j < |rs'|
          ensures rs'[j].url !in UrlsIn(rs'[..j], rs'[j].track)
        {
          if j < |kept| {
            assert rs'[..j] == kept[..j];
          } else {
            assert rs'[..j] == kept;
          }
        }
      }
    }
  }

  /** Request j of requests that repeat no URL is new to its track. */
  lemma NoRepeatedUrlAt(rs: seq<Request>, j: int)
    requires NoRepeatedUrl(rs) && 0 <= j < |rs|
    ensures rs[j].url !in UrlsIn(rs[..j], rs[j].track)
  {
  }

  /** A prefix of requests that repeat no URL repeats none either. */
  lemma NoRepeatedUrlPrefix(rs: seq<Request>, n: int)
    requires NoRepeatedUrl(rs) && 0 <= n <= |rs|
    ensures NoRepeatedUrl(rs[..n])
  {
    forall j | 0 <= j < n
      ensures rs[..n][j].url !in UrlsIn(rs[..n][..j], rs[..n][j].track)
    {
      assert rs[..n][..j] == rs[..j];
    }
  }

  /** De-duplication leaves requests that repeat no URL as they are. */
  lemma {:induction false} DedupOfDistinct(rs: seq<Request>)
    requires NoRepeatedUrl(rs)
    ensures Dedup(rs) == rs
  {
    if rs != [] {
      var n := |rs| - 1;
      NoRepeatedUrlAt(rs, n);
      NoRepeatedUrlPrefix(rs, n);
      DedupOfDistinct(rs[..n]);
      assert Dedup(rs) == DedupStep(rs[..n], rs[n]);
      assert rs[..n] + [rs[n]] == rs;
    }
  }

  /** De-duplicating twice is de-duplicating once. */
  lemma DedupIdempotent(rs: seq<Request>)
    ensures Dedup(Dedup(rs)) == Dedup(rs)
  {
    DedupNoRepeatedUrl(rs);
    DedupOfDistinct(Dedup(rs));
  }

  /** In requests that repeat no URL, two requests of one track have different URLs. */
  lemma NoRepeatedUrlPairwise(rs: seq<Request>, i: int, j: int)
    requires NoRepeatedUrl(rs) && 0 <= i < j < |rs| && rs[i].track == rs[j].track
    ensures rs[i].url != rs[j].url
  {
    assert rs[..j][i] == rs[i];
    UrlsInHas(rs[..j], i);
  }

  /** Concatenation of one request: de-duplication handles requests one at a time, in order. */
  lemma RequestsSnoc(targetType: string, targetMenuName: string, bs: seq<Bookmark>, b: Bookmark)
    ensures Requests(targetType, targetMenuName, bs + [b])
         == Requests(targetType, targetMenuName, bs) + [Request(Destination(targetType, targetMenuName, b), b.title, b.url)]
  {
  }

  /** De-duplicating one more bookmark's request is one more DedupStep. */
  lemma DedupRequestsSnoc(targetType: string, targetMenuName: string, bs: seq<Bookmark>)
    requires bs != []
    ensures Dedup(Requests(targetType, targetMenuName, bs))
         == DedupStep(Dedup(Requests(targetType, targetMenuName, bs[..|bs| - 1])),
                      Request(Destination(targetType, targetMenuName, bs[|bs| - 1]), bs[|bs| - 1].title, bs[|bs| - 1].url))
  {
    var front, b := bs[..|bs| - 1], bs[|bs| - 1];
    assert bs == front + [b];
    RequestsSnoc(targetType, targetMenuName, front, b);
    DedupSnoc(Requests(targetType, targetMenuName, front), Request(Destination(targetType, targetMenuName, b), b.title, b.url));
  }

  lemma DedupSnoc(rs: seq<Request>, r: Request)
    ensures Dedup(rs + [r]) == DedupStep(Dedup(rs), r)
  {
    assert (rs + [r])[..|rs|] == rs;
  }

  // ----- Counters -----

  lemma {:induction false} MenusSplit(ms: seq<MenuPlan>)
    ensures MenusWith(ms, Create) + MenusWith(ms, Reuse) == |ms|
  {
    if ms != [] {
      MenusSplit(ms[..|ms| - 1]);
    }
  }

  lemma {:induction false} GroupsSplit(gs: seq<GroupPlan>)
    ensures GroupsWith(gs, Create) + GroupsWith(gs, Reuse) == |gs|
  {
    if gs != [] {
      GroupsSplit(gs[..|gs| - 1]);
    }
  }

  lemma {:induction false} CardsSplit(cs: seq<CardPlan>)
    ensures CardsWith(cs, CreateCard) + CardsWith(cs, SkipCard) == |cs|
  {
    if cs != [] {
      CardsSplit(cs[..|cs| - 1]);
    }
  }

  /**
   * The counters of a well-formed plan add up: every menu and group is created or reused,
   * and every card is created or skipped, a skipped one being planned or a dropped duplicate.
   */
  lemma StatsAddUp(ex: Existing, p: Plan, duplicates: nat)
    requires WellFormedPlan(ex, p, duplicates)
    ensures p.stats.menusToCreate + p.stats.menusToReuse == |p.menus|
    ensures p.stats.groupsToCreate + p.stats.groupsToReuse == |p.groups|
    ensures p.stats.cardsToCreate + p.stats.cardsToSkip == |p.cards| + duplicates
  {
    MenusSplit(p.menus);
    GroupsSplit(p.groups);
    CardsSplit(p.cards);
  }
}
