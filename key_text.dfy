/**
 * The keys generateImportPlan builds by string concatenation, as written, and the group
 * lookup it performs with them.
 *
 * A group's key is its menu's key, the separator "||group:" and the group's name. Folder
 * names may contain that separator, so two different (menu, group) pairs can be spelt the
 * same way, and ensureGroup then returns a group of another menu. ImportPlan keys groups
 * by a datatype instead, which keeps the pairs apart.
 */
module KeyText {
  import opened Options

  const MenuPrefix := "menu:"
  const GroupKeyInfix := "||group:"

  /** A menu's key, as ensureMenu spells it. */
  function MenuKeyText(menuName: string): (k: string)
    ensures |k| == |MenuPrefix| + |menuName|
    ensures k[..|MenuPrefix|] == MenuPrefix && k[|MenuPrefix|..] == menuName
  {
    MenuPrefix + menuName
  }

  /** A group's key, as ensureGroup spells it. */
  function GroupKeyText(menuKey: string, groupName: string): (k: string)
    ensures |k| == |menuKey| + |GroupKeyInfix| + |groupName|
    ensures k[..|menuKey|] == menuKey && k[|k| - |groupName|..] == groupName
  {
    menuKey + GroupKeyInfix + groupName
  }

  /** Distinct menu names give distinct menu keys. */
  lemma MenuKeyTextInjective(a: string, b: string)
    ensures MenuKeyText(a) == MenuKeyText(b) <==> a == b
  {
    if MenuKeyText(a) == MenuKeyText(b) {
      assert a == MenuKeyText(a)[|MenuPrefix|..];
    }
  }

  /** A planned group as the source records it: its text key, its menu's text key, its name. */
  datatype TextGroup = TextGroup(key: string, menuKey: string, name: string)

  /** The groups planned so far and the map from a group's text key to its index. */
  datatype TextGroups = TextGroups(groups: seq<TextGroup>, keyMap: map<string, nat>)

  /** Every key of the map names the group at that index. */
  ghost predicate Indexed(t: TextGroups) {
    forall k :: k in t.keyMap ==> t.keyMap[k] < |t.groups| && t.groups[t.keyMap[k]].key == k
  }

  /**
   * ensureGroup as written, reduced to its keys: it returns the text key of
   * (menuKey, groupName), planning a new group under menuKey only when no group has that
   * key yet.
   */
  function EnsureGroupText(t: TextGroups, menuKey: string, groupName: string): (r: (string, TextGroups))
    requires Indexed(t)
    ensures r.0 == GroupKeyText(menuKey, groupName)
    ensures Indexed(r.1)
    ensures r.0 in r.1.keyMap
    ensures r.0 in t.keyMap ==> r.1 == t
    ensures r.0 !in t.keyMap ==>
      r.1.groups == t.groups + [TextGroup(r.0, menuKey, groupName)] && r.1.keyMap[r.0] == |t.groups|
  {
    var key := GroupKeyText(menuKey, groupName);
    if key in t.keyMap then (key, t)
    else (key, TextGroups(t.groups + [TextGroup(key, menuKey, groupName)], t.keyMap[key := |t.groups|]))
  }

  /** The menu a returned group key belongs to, as the plan records it. */
  function MenuOfGroup(t: TextGroups, groupKey: string): Option<string>
    requires Indexed(t)
  {
    if groupKey in t.keyMap then Some(t.groups[t.keyMap[groupKey]].menuKey) else None
  }

  /** The pair (menu "a", group "b||group:c") and the pair (menu "a||group:b", group "c") share a key. */
  lemma GroupKeyTextCollides()
    ensures GroupKeyText(MenuKeyText("a"), "b||group:c") == GroupKeyText(MenuKeyText("a||group:b"), "c")
    ensures "a" != "a||group:b"
  {
  }

  /**
   * A bookmark under root folder "a" and subfolder "b||group:c", then one under root folder
   * "a||group:b" and subfolder "c": the second ensureGroup returns the first group, which
   * belongs to menu "a": the second bookmark's card, under menu "a||group:b", is given a group of
   * another menu.
   */
  lemma EnsureGroupTextMisfiles()
    ensures
      var empty := TextGroups([], map[]);
      var (k1, t1) := EnsureGroupText(empty, MenuKeyText("a"), "b||group:c");
      var (k2, t2) := EnsureGroupText(t1, MenuKeyText("a||group:b"), "c");
      && k2 == k1 && t2 == t1 && |t2.groups| == 1
      && MenuOfGroup(t2, k2) == Some(MenuKeyText("a")) != Some(MenuKeyText("a||group:b"))
  {
    var empty := TextGroups([], map[]);
    var (k1, t1) := EnsureGroupText(empty, MenuKeyText("a"), "b||group:c");
    GroupKeyTextCollides();
    assert k1 in t1.keyMap;
    MenuKeyTextInjective("a", "a||group:b");
  }
}
