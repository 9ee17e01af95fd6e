# Bookmark import: parser and import planner

This project models the core of the bookmark import of a navigation site, from
`functions/lib/bookmark-parser.js`:

- the string helpers `sanitizeString`, `sanitizeUrl` and `decodeHtmlEntities` (module `Strings`);
- `parseBookmarkHtml`, which reads a Netscape bookmark export and flattens it into a list of bookmarks
  (module `BookmarkParser`). Each bookmark has a root folder, a folder path, a title, a URL and a running order.
  Folders inside the browser's toolbar folder become root folders;
- `generateImportPlan`, which turns those bookmarks into a plan of menus, groups and cards
  (modules `ImportPlan`, `PlanSteps`, `PlanLemmas`, `ImportPlanner`).
  - Each entry says whether to create it or to reuse what the database already holds.
  - Bookmarks repeated within a batch are counted as skipped.
  - In auto mode the root folder is the menu and the rest of the path is a group. In menu mode
    everything goes into one target menu, and the whole path becomes the group.

The parser is shaped after the source. `Step` is one iteration of its loop, as a function over the
loop's variables, and `Run`/`Parse` are that loop over a token sequence. The method
`ParseBookmarkHtml` runs the loop imperatively, one helper method per branch, and is proved equal to
`Parse`. The properties are lemmas about `Run`/`Parse`.

The planner keeps the source's shape too. The source's local variables become the fields of the
class `ImportPlanner.Planner`, and its closures `ensureMenu`, `ensureGroup` and `addCard` become that
class's methods.
- The pure functions in `PlanSteps` give the state each step reaches: `EnsuredMenu`, `EnsuredGroup`,
  `CardAdded`, and `Planned` for a whole batch.
- Each method is proved to move the object's `State()` exactly as its function says.
- `GenerateImportPlan` is proved to return `GeneratedPlan`.

What such a plan satisfies is proved about these functions in `PlanLemmas`; `GeneratedPlanSpec`
collects it:
- every planned menu, group and card is well formed (`ImportPlan.WellFormedPlan`);
- the counters count the plan, plus the dropped in-batch duplicates;
- the cards are exactly the in-batch de-duplication (`ImportPlan.Dedup`) of the cards the bookmarks ask for.

The source builds its keys by string concatenation. The model keys menus, groups, tracks and card
scopes by datatypes. Module `KeyText` keeps the as-written string keys for the finding below.

## Model

| member | source | states |
|---|---|---|
| Strings.Trim | functions/lib/bookmark-parser.js:15 | definition: JavaScript's trim, dropping leading and trailing whitespace; its properties are `TrimSpec` |
| Strings.SanitizeString | functions/lib/bookmark-parser.js:13-16 | definition: trim, then the first 500 characters; its properties are `SanitizeStringSpec` |
| Strings.SanitizeUrl | functions/lib/bookmark-parser.js:21-28 | definition: trim, "" unless the result starts with http:// or https://, then the first 2048 characters; its properties are `SanitizeUrlSpec` |
| Strings.ReplaceAll | functions/lib/bookmark-parser.js:36-41 | definition: a global replace of a non-empty pattern, scanning from the left without overlaps; its properties are `ReplaceAllShrinks` and `ReplaceAllWithoutLead` |
| Strings.DecodeHtmlEntities | functions/lib/bookmark-parser.js:33-42 | definition: the six replacements of the source, one after another, `&amp;` first; its properties are `DecodeHtmlEntitiesSpec` and `DecodeIsNotSinglePass` |
| Strings.DecodeEntitiesOnce | functions/lib/bookmark-parser.js:33-42 | definition: the corrected decoding, each entity decoded once scanning from the left; its properties are `DecodeEntitiesOnceSpec` and `DecodeEscapeRoundTrip` |
| Strings.TrimSpec | functions/lib/bookmark-parser.js:15 | trim never lengthens; the result has no whitespace at either end; it is empty exactly when the input is all whitespace; a trimmed string is left as it is |
| Strings.TrimIdempotent | functions/lib/bookmark-parser.js:15 | trimming twice gives what trimming once gives |
| Strings.TrimStartDropsLeadingWhitespace | functions/lib/bookmark-parser.js:15 | the start of trim drops exactly the leading whitespace and keeps a suffix |
| Strings.TrimEndDropsTrailingWhitespace | functions/lib/bookmark-parser.js:15 | the end of trim drops exactly the trailing whitespace and keeps a prefix |
| Strings.SanitizeStringSpec | functions/lib/bookmark-parser.js:13-16 | the result is the trimmed text cut to its first 500 characters; it is empty exactly when the input is empty or all whitespace; it never starts with whitespace |
| Strings.SanitizeUrlSpec | functions/lib/bookmark-parser.js:21-28 | the result is empty exactly when the trimmed URL does not start with http:// or https://; otherwise it is the trimmed URL cut to 2048 characters and keeps the scheme |
| Strings.ReplaceAllShrinks | functions/lib/bookmark-parser.js:36-41 | a global replace by a replacement no longer than the pattern never lengthens the text |
| Strings.ReplaceAllWithoutLead | functions/lib/bookmark-parser.js:36-41 | a global replace leaves a text in which the pattern's first character does not occur unchanged |
| Strings.DecodeHtmlEntitiesSpec | functions/lib/bookmark-parser.js:33-42 | the source's decoding never lengthens the text and leaves a text without '&' unchanged |
| Strings.DecodeIsNotSinglePass | functions/lib/bookmark-parser.js:33-42 | the source's decoding turns the escaped form "&amp;lt;" of the title "&lt;" into "<", not back into "&lt;" |
| Strings.DecodeEscapedChar | functions/lib/bookmark-parser.js:33-42 | the one-scan decoding turns each escaped character back into itself, whatever follows it |
| Strings.DecodeEscapeRoundTrip | functions/lib/bookmark-parser.js:33-42 | the one-scan decoding inverts HTML escaping of & < > " ' for every text |
| Strings.DecodeEntitiesOnceSpec | functions/lib/bookmark-parser.js:33-42 | the one-scan decoding never lengthens the text and leaves a text without '&' unchanged |
| BookmarkParser.Message | functions/lib/bookmark-parser.js:89-128 | definition: the text the source records for each kind of error |
| BookmarkParser.FolderName | functions/lib/bookmark-parser.js:87 | definition: a folder's text decoded by `DecodeHtmlEntities`, then sanitised |
| BookmarkParser.AnchorTitle | functions/lib/bookmark-parser.js:120 | definition: an anchor's text decoded by `DecodeHtmlEntities`, then sanitised |
| BookmarkParser.AnchorUrl | functions/lib/bookmark-parser.js:123-124 | definition: the sanitised HREF value, or "" for an anchor without one |
| BookmarkParser.EffectiveNames | functions/lib/bookmark-parser.js:132 | definition: the names of the non-toolbar folders on the stack, in stack order; its properties are the `EffectiveNames` lemmas |
| BookmarkParser.CloseList | functions/lib/bookmark-parser.js:72-82 | definition: the `</DL>` branch as a function of the loop's variables; its properties are `CloseOnEmptyStackIsNoOp` and `ClosePopsTop` |
| BookmarkParser.OpenFolder | functions/lib/bookmark-parser.js:84-115 | definition: the `<H3>` branch as a function of the loop's variables; its properties are `EmptyFolderNameSkipped` and `RootFolderAdmission` |
| BookmarkParser.AddAnchor | functions/lib/bookmark-parser.js:117-149 | definition: the `<A>` branch as a function of the loop's variables; its properties are `AnchorPlacement`, `AnchorWithoutUrlDropped` and `AnchorBookmarkWellFormed` |
| BookmarkParser.Step | functions/lib/bookmark-parser.js:64-150 | definition: one iteration of the loop, choosing the branch by the tag; its invariant is `StepPreservesInv` |
| BookmarkParser.Run | functions/lib/bookmark-parser.js:48-161 | definition: the loop over a token sequence from the initial state; its invariant is `RunInv` |
| BookmarkParser.Parse | functions/lib/bookmark-parser.js:48-161 | definition: the result the source returns after the loop; its properties are the `Parse` lemmas |
| BookmarkParser.ParseBookmarkHtml | functions/lib/bookmark-parser.js:48-161 | the imperative loop over the tags returns exactly the bookmarks, root folders and errors of `Parse` |
| BookmarkParser.PopFolder | functions/lib/bookmark-parser.js:72-82 | the `</DL>` branch pops the stack when it is non-empty, and leaves the toolbar when it pops the toolbar folder |
| BookmarkParser.PushFolder | functions/lib/bookmark-parser.js:84-115 | the `<H3>` branch updates stack, toolbar flag, root folders and errors as `OpenFolder` does |
| BookmarkParser.AddBookmark | functions/lib/bookmark-parser.js:117-149 | the `<A>` branch updates bookmarks, errors and the running order as `AddAnchor` does |
| BookmarkParser.EffectiveNamesPush | functions/lib/bookmark-parser.js:108 | pushing a folder adds its name to the effective path exactly when it is not the toolbar folder |
| BookmarkParser.EffectiveNamesCount | functions/lib/bookmark-parser.js:108 | the effective path has one name per non-toolbar folder on the stack |
| BookmarkParser.EffectiveNamesAreNonToolbar | functions/lib/bookmark-parser.js:132 | every name on the effective path is the name of a non-toolbar folder on the stack |
| BookmarkParser.EffectiveNamesNonEmpty | functions/lib/bookmark-parser.js:89-92 | when no folder on the stack has an empty name, no name on the path is empty |
| BookmarkParser.CloseOnEmptyStackIsNoOp | functions/lib/bookmark-parser.js:72-82 | a `</DL>` with an empty folder stack changes nothing |
| BookmarkParser.ClosePopsTop | functions/lib/bookmark-parser.js:72-82 | a `</DL>` pops the top folder, clears the toolbar flag exactly when that folder is the toolbar, and keeps bookmarks and errors |
| BookmarkParser.EmptyFolderNameSkipped | functions/lib/bookmark-parser.js:87-92 | a folder whose decoded, sanitised name is empty records one error and changes nothing else |
| BookmarkParser.EmptyFolderChildrenMoveUp | functions/lib/bookmark-parser.js:72-92 | after a skipped folder and its `<DL>`, any run of anchors and `<DL>`s keeps the enclosing stack, keeps the earlier bookmarks and files every new bookmark under the enclosing folders; the skipped folder's `</DL>` then closes the enclosing folder |
| BookmarkParser.RunIsStepAll | functions/lib/bookmark-parser.js:48-161 | the loop from the initial state is `StepAll`, the loop from any state |
| BookmarkParser.StepAllAppend | functions/lib/bookmark-parser.js:64-150 | running two token sequences one after the other is running their concatenation |
| BookmarkParser.FlatKeepsStack | functions/lib/bookmark-parser.js:117-149 | anchors and `<DL>`s never change the folder stack, keep the bookmarks already collected, and file each bookmark they add under the folders open before them |
| BookmarkParser.AnchorPlacement | functions/lib/bookmark-parser.js:117-148 | an anchor with an acceptable URL appends one bookmark. Its title falls back to the URL, its order is the running count, and its root folder and path are the non-toolbar folders of the stack. It has no root folder exactly when that path is empty |
| BookmarkParser.AnchorWithoutUrlDropped | functions/lib/bookmark-parser.js:123-129 | an anchor without an acceptable URL adds no bookmark, and adds an error exactly when its title is non-empty |
| BookmarkParser.RootFolderAdmission | functions/lib/bookmark-parser.js:105-112 | the root folders change exactly when a new non-toolbar folder with a name is opened inside the toolbar at the first level, and then only by appending its name |
| BookmarkParser.AnchorBookmarkWellFormed | functions/lib/bookmark-parser.js:117-148 | the bookmark an anchor yields has an http(s) URL of at most 2048 characters and a non-empty title that is its URL or at most 500 characters long. It has a folder path only under a root folder, and no empty folder name |
| BookmarkParser.CloseListPreservesInv | functions/lib/bookmark-parser.js:72-82 | the `</DL>` branch keeps the loop invariant |
| BookmarkParser.OpenFolderPreservesInv | functions/lib/bookmark-parser.js:84-115 | the `<H3>` branch keeps the loop invariant |
| BookmarkParser.AddAnchorPreservesInv | functions/lib/bookmark-parser.js:117-149 | the `<A>` branch keeps the loop invariant |
| BookmarkParser.StepPreservesInv | functions/lib/bookmark-parser.js:64-150 | every iteration keeps the loop invariant: the orders are 0, 1, 2 and so on; the bookmarks are well formed; no folder on the stack has an empty name; the root folders are distinct; and the toolbar flag is set only while a toolbar folder is on the stack |
| BookmarkParser.RunInv | functions/lib/bookmark-parser.js:48-161 | the invariant holds after any token sequence |
| BookmarkParser.ParseOrdersDense | functions/lib/bookmark-parser.js:142-148 | the i-th bookmark has order i |
| BookmarkParser.ParseBookmarksWellFormed | functions/lib/bookmark-parser.js:117-148 | every parsed bookmark is well formed in the sense of `AnchorBookmarkWellFormed` |
| BookmarkParser.ParseRootFoldersDistinct | functions/lib/bookmark-parser.js:105-112 | the root folders list has no repeated name |
| BookmarkParser.ToolbarFlagNeedsOpenToolbar | functions/lib/bookmark-parser.js:72-100 | the toolbar flag is set only while a toolbar folder is on the stack |
| BookmarkParser.StepLinks | functions/lib/bookmark-parser.js:117-149 | each iteration appends to the (title, URL) list exactly the link its token yields, if any |
| BookmarkParser.ParseKeepsEveryValidAnchor | functions/lib/bookmark-parser.js:117-149 | the parsed bookmarks' titles and URLs are exactly the acceptable anchors' links, in document order |
| BookmarkParser.ParseErrorsPerToken | functions/lib/bookmark-parser.js:84-129 | the errors are exactly one per nameless folder and one per titled anchor with a bad URL, in document order |
| BookmarkParser.RootFolderOutsideToolbar | functions/lib/bookmark-parser.js:105-140 | a bookmark under a folder outside the toolbar gets that folder as its root folder, while the root folders list stays empty |
| ImportPlan.Destination | functions/lib/bookmark-parser.js:344-399 | independent reference: the menu and group a bookmark is filed under; auto mode uses Home, the root folder and the joined folder path; menu mode uses the target menu and the joined full path |
| ImportPlan.FullPath | functions/lib/bookmark-parser.js:388-390 | definition: menu mode's group path, the root folder when it is a non-empty name, then the folder path |
| ImportPlan.Requests | functions/lib/bookmark-parser.js:344-399 | independent reference, written without the planner's state: the card each bookmark asks for, one per bookmark, in order |
| ImportPlan.Dedup | functions/lib/bookmark-parser.js:288-297 | independent reference, written without the planner's state: the requests left after dropping each one whose URL an earlier kept request of its track has; its properties are the `Dedup` lemmas |
| ImportPlan.DedupShorter | functions/lib/bookmark-parser.js:288-297 | de-duplication never adds requests |
| ImportPlan.DedupKeepsUrls | functions/lib/bookmark-parser.js:288-334 | de-duplication keeps the set of URLs of every track |
| ImportPlan.DedupNoRepeatedUrl | functions/lib/bookmark-parser.js:288-334 | after de-duplication no request repeats a URL of an earlier request of its track |
| ImportPlan.DedupOfDistinct | functions/lib/bookmark-parser.js:288-297 | requests without repeats are left as they are |
| ImportPlan.DedupIdempotent | functions/lib/bookmark-parser.js:288-297 | de-duplicating twice gives what de-duplicating once gives |
| ImportPlan.NoRepeatedUrlPairwise | functions/lib/bookmark-parser.js:288-297 | in a list without repeats, two requests of one track have different URLs |
| ImportPlan.UrlsInFrom | functions/lib/bookmark-parser.js:288-334 | every URL recorded for a track comes from a request of that track |
| ImportPlan.DedupSnoc | functions/lib/bookmark-parser.js:344-363 | de-duplicating one more request is one more de-duplication step |
| ImportPlan.DedupRequestsSnoc | functions/lib/bookmark-parser.js:338-400 | the de-duplicated requests of a batch are those of its front with one step for its last bookmark |
| ImportPlan.StatsAddUp | functions/lib/bookmark-parser.js:194-201 | in a well-formed plan, created plus reused menus (and groups) are all planned menus (groups), and created plus skipped cards are the planned cards plus the dropped duplicates |
| PlanSteps.EnsuredMenu | functions/lib/bookmark-parser.js:216-241 | definition: the state after ensureMenu; its properties are `EnsuredMenuIndexed`, `EnsuredMenuFrame` and `EnsureMenuKeepsInv` |
| PlanSteps.EnsuredGroup | functions/lib/bookmark-parser.js:248-283 | definition: the state after ensureGroup; its properties are `EnsuredGroupIndexed`, `EnsuredGroupFrame` and `EnsureGroupKeepsInv` |
| PlanSteps.CardAdded | functions/lib/bookmark-parser.js:288-334 | definition: the state after addCard; its properties are `CardAddedIndexed`, `CardAddedFrame`, `AddCardKeepsInv` and `AddCardDedups` |
| PlanSteps.TargetMenuAdded | functions/lib/bookmark-parser.js:369-380 | definition: the state after menu mode's set-up; its property is `TargetMenuKeepsInv` |
| PlanSteps.GeneratedPlan | functions/lib/bookmark-parser.js:176-404 | definition: the plan the source returns; its properties are `GeneratedPlanSpec` |
| PlanSteps.EnsuredMenuIndexed | functions/lib/bookmark-parser.js:216-241 | after ensureMenu the tables still point into the plan, the menu's key is mapped, and no key is lost |
| PlanSteps.EnsuredGroupIndexed | functions/lib/bookmark-parser.js:248-283 | after ensureGroup the tables still point into the plan, the group's key is mapped, and the menu table is unchanged |
| PlanSteps.CardAddedIndexed | functions/lib/bookmark-parser.js:288-334 | after addCard the tables still point into the plan and the menu table is unchanged |
| PlanSteps.OpenedThenPlanned | functions/lib/bookmark-parser.js:290-333 | creating the track's URL set before planning the card gives the same state as creating it at the end |
| PlanSteps.AutoFiled | functions/lib/bookmark-parser.js:345-362 | one auto-mode iteration keeps every table key pointing into the plan and loses no menu key |
| PlanSteps.MenuFiled | functions/lib/bookmark-parser.js:383-399 | one menu-mode iteration keeps every table key pointing into the plan and loses no menu key |
| PlanSteps.Planned | functions/lib/bookmark-parser.js:338-401 | after any batch the tables point into the plan, and in menu mode the target menu is mapped |
| PlanLemmas.EmptyPlanWellFormed | functions/lib/bookmark-parser.js:186-202 | the empty plan with zero counters is well formed |
| PlanLemmas.AppendMenu | functions/lib/bookmark-parser.js:222-237 | appending a menu with a fresh key, keyed by its name and numbered by its position, and counting it keeps the plan well formed |
| PlanLemmas.AppendGroup | functions/lib/bookmark-parser.js:254-280 | appending a group with a fresh key as ensureGroup builds it and counting it keeps the plan well formed. It must lie under a planned menu, be numbered among that menu's groups, and carry the id the database has for it |
| PlanLemmas.AppendCard | functions/lib/bookmark-parser.js:299-330 | appending and counting a card keeps the plan well formed when it lies in a planned menu and group, is skipped exactly when its bucket has its URL, is numbered in its scope, and is new to its track |
| PlanLemmas.DropDuplicate | functions/lib/bookmark-parser.js:294-297 | counting an in-batch duplicate as skipped keeps the plan well formed with one more duplicate |
| PlanLemmas.StartInv | functions/lib/bookmark-parser.js:186-211 | the initial plan and tables satisfy the closures' invariant |
| PlanLemmas.EnsureMenuKeepsInv | functions/lib/bookmark-parser.js:216-241 | ensureMenu keeps the invariant, keeps menuOrder equal to the number of menus, and maps the menu's key. If every menu carried the database's id for its name, every menu still does |
| PlanLemmas.EnsureGroupKeepsInv | functions/lib/bookmark-parser.js:248-283 | ensureGroup keeps the invariant and maps the group's key |
| PlanLemmas.AddCardKeepsInv | functions/lib/bookmark-parser.js:288-334 | addCard keeps the invariant, with one more dropped duplicate exactly when the URL is already in the card's track |
| PlanLemmas.DuplicateKeepsInv | functions/lib/bookmark-parser.js:294-297 | the duplicate branch of addCard keeps the invariant with one more duplicate |
| PlanLemmas.NewCardKeepsInv | functions/lib/bookmark-parser.js:299-333 | the planning branch of addCard keeps the invariant |
| PlanLemmas.TargetMenuKeepsInv | functions/lib/bookmark-parser.js:369-380 | menu mode's target menu, reused as menu 0, satisfies the invariant |
| PlanLemmas.AddCardDedups | functions/lib/bookmark-parser.js:288-334 | addCard extends the cards exactly by one de-duplication step of its request |
| PlanLemmas.EnsuredMenuFrame | functions/lib/bookmark-parser.js:216-241 | ensureMenu leaves the cards and the URL tracker alone, keeps menuOrder equal to the number of menus, and keeps every menu carrying the database's id for its name when that held before |
| PlanLemmas.EnsuredGroupFrame | functions/lib/bookmark-parser.js:248-283 | ensureGroup leaves cards, URL tracker, menus and menuOrder alone |
| PlanLemmas.CardAddedFrame | functions/lib/bookmark-parser.js:288-334 | addCard leaves menus and menuOrder alone, and adds a card exactly when the URL is new to its track |
| PlanLemmas.FiledInGroupDedups | functions/lib/bookmark-parser.js:358-360 | ensureGroup then addCard extends the cards by one de-duplication step in that group's track |
| PlanLemmas.AutoFiledDedups | functions/lib/bookmark-parser.js:345-362 | one auto-mode iteration extends the cards by one de-duplication step of the bookmark's request: Home when it has no root folder, otherwise its root folder's menu, in the group of its joined path if it has one |
| PlanLemmas.MenuFiledDedups | functions/lib/bookmark-parser.js:383-399 | one menu-mode iteration extends the cards by one de-duplication step of the bookmark's request: the target menu, in the group of its joined full path if that path is non-empty |
| PlanLemmas.AutoFiledMenus | functions/lib/bookmark-parser.js:345-362 | one auto-mode iteration keeps menuOrder equal to the number of menus, and keeps every menu carrying the database's id for its name when that held before |
| PlanLemmas.MenuFiledMenus | functions/lib/bookmark-parser.js:383-399 | one menu-mode iteration never adds a menu |
| PlanLemmas.AddCardHandled | functions/lib/bookmark-parser.js:288-334 | after one more bookmark handled by addCard, the invariant holds with the lost cards counted as duplicates |
| PlanLemmas.FiledInGroupHandled | functions/lib/bookmark-parser.js:358-360 | the same for ensureGroup followed by addCard |
| PlanLemmas.AutoFiledHandled | functions/lib/bookmark-parser.js:345-362 | the same for one auto-mode iteration |
| PlanLemmas.MenuFiledHandled | functions/lib/bookmark-parser.js:383-399 | the same for one menu-mode iteration |
| PlanLemmas.InitialHandled | functions/lib/bookmark-parser.js:186-211 | before the loop, in either mode, the invariant holds with no bookmark handled |
| PlanLemmas.LastHandled | functions/lib/bookmark-parser.js:338-401 | the loop body carries the invariant from a batch's front to the whole batch |
| PlanLemmas.PlannedHandled | functions/lib/bookmark-parser.js:338-401 | after any batch there are at most as many cards as bookmarks, and the invariant holds with the others counted as duplicates |
| PlanLemmas.PlannedTracked | functions/lib/bookmark-parser.js:288-334 | after any batch the URL tracker holds exactly the URLs of each track's planned cards |
| PlanLemmas.LastDedups | functions/lib/bookmark-parser.js:338-401 | the loop body carries "the cards are the de-duplicated requests" from a batch's front to the whole batch |
| PlanLemmas.PlannedDedups | functions/lib/bookmark-parser.js:338-401 | after any batch the cards are exactly the de-duplicated requests of the bookmarks, in order |
| PlanLemmas.PlannedMenus | functions/lib/bookmark-parser.js:338-401 | in auto mode every menu carries the database's id for its name; in menu mode the only menu is the target, reused with the given id |
| PlanLemmas.GeneratedPlanSpec | functions/lib/bookmark-parser.js:176-404 | the plan is well formed, its cards are the in-batch de-duplication of the bookmarks' requests, created plus skipped cards count every bookmark, auto-mode menus reuse the database's ids, and menu mode plans only the target menu |
| ImportPlanner.Planner.constructor | functions/lib/bookmark-parser.js:186-211 | a new planner holds the empty plan, empty tables and menu order 0 |
| ImportPlanner.Planner.EnsureMenu | functions/lib/bookmark-parser.js:216-241 | returns the menu's key and changes the state exactly as `EnsuredMenu` |
| ImportPlanner.Planner.EnsureGroup | functions/lib/bookmark-parser.js:248-283 | returns the group's key and changes the state exactly as `EnsuredGroup`, leaving the menu table alone |
| ImportPlanner.Planner.PlanGroup | functions/lib/bookmark-parser.js:254-281 | plans a new group exactly as `GroupPlanned` of `NewGroup` |
| ImportPlanner.Planner.AddCard | functions/lib/bookmark-parser.js:288-334 | changes the state exactly as `CardAdded`, leaving the menu table alone |
| ImportPlanner.Planner.PlanCard | functions/lib/bookmark-parser.js:299-333 | plans a new card exactly as `CardPlanned` of `NewCard` |
| ImportPlanner.Planner.FileAuto | functions/lib/bookmark-parser.js:345-362 | one auto-mode iteration changes the state exactly as `AutoFiled` |
| ImportPlanner.Planner.FileUnderMenu | functions/lib/bookmark-parser.js:383-399 | one menu-mode iteration changes the state exactly as `MenuFiled` |
| ImportPlanner.Planner.AddTargetMenu | functions/lib/bookmark-parser.js:369-380 | menu mode's set-up adds the target menu exactly as `TargetMenuAdded` |
| ImportPlanner.GenerateImportPlan | functions/lib/bookmark-parser.js:176-404 | the imperative planner returns `GeneratedPlan`, of which `GeneratedPlanSpec` proves the properties above |
| KeyText.MenuKeyTextInjective | functions/lib/bookmark-parser.js:217 | two menu names give the same text key exactly when they are equal |
| KeyText.EnsureGroupText | functions/lib/bookmark-parser.js:248-283 | the text-keyed ensureGroup returns the text key of the menu key and group name, and maps it; it changes nothing when the key is known, and otherwise appends one group at the next index |
| KeyText.GroupKeyTextCollides | functions/lib/bookmark-parser.js:249 | menu "a" with group "b" + S + "c" and menu "a" + S + "b" with group "c" have the same text key, where S is the separator ensureGroup puts between menu key and group name |
| KeyText.EnsureGroupTextMisfiles | functions/lib/bookmark-parser.js:248-252 | with those two bookmarks, the second ensureGroup returns the first group, which belongs to menu "a" |

## Left out

- The tag scanner is not modelled. The input is the list of `<DL>`, `</DL>`, `<H3>` and `<A>` tags the
  case-insensitive regular expression finds (lines 57-65). Each tag already carries the result of the toolbar-attribute
  test (line 95) and the HREF value it matched (line 123).
- The `catch` branch (lines 152-154) is left out. It records the message of an exception that the
  modelled loop never raises.
- `MAX_FILE_SIZE` (line 8) is left out. No modelled function uses it.
- The `typeof` checks of `sanitizeString` and `sanitizeUrl` (lines 14 and 22) are left out, because every input is a string in the model.
- `slice` counts UTF-16 code units; the model counts Unicode scalar values. They differ only for
  characters outside the Basic Multilingual Plane.
- The `rootFolders` parameter of `generateImportPlan` (line 178) is unused by the source and is not a parameter of the model.
- A null `targetMenuName` is left out. It is a string in the model, so the text key "menu:null" of a
  missing name does not arise. Any `targetType` other than "auto" selects menu mode, as in the source.
- Ids are natural numbers or absent. As in the source's truthiness tests, 0 counts as absent.
  `existingGroups` is keyed by the menu id itself rather than by its string form (line 258).
- Keys are datatypes, not strings (see Findings). The same holds for two other text keys:
  - A card-order counter keyed by a group's text key can coincide with that of a menu whose name
    contains "||group:" (lines 281 and 332). Planning group "b" of menu "a" resets the counter that
    the loose cards of menu "a||group:b" also use to 0, so a later loose card of that menu repeats an
    order number already given.
  - The track key (line 290) can coincide for such names, and then a URL that is new to its group
    would be counted as a duplicate.
- `ImportPlanner.Planner.Valid` is only the table-index invariant that the methods' preconditions
  need. The full invariant (`PlanSteps.Inv`) is proved about the pure `Planned` and so applies to
  every state the object reaches, since each method's contract equates its new state with that function.
- `ImportPlanner.Planner.PlanGroup` and `ImportPlanner.Planner.PlanCard` have no counterpart of their own in the source. They
  are the second halves of `ensureGroup` and `addCard`, split off to keep each proof small.
- `BookmarkParser.FolderName` and `BookmarkParser.AnchorTitle` decode entities with the source's chain
  of replacements, `Strings.DecodeHtmlEntities`, so a parsed title can differ from the exported one
  (see Findings). The corrected `Strings.DecodeEntitiesOnce` stands beside it.
- `functions/api/[[path]].js`, the site's HTTP routes, is not part of this model. It does not call these
  functions, and the code that sends them a file and executes the plan is not among the modelled files.

## Findings

| source | as written | input that shows it | evidently intended | confidence | as-written member | corrected member |
|---|---|---|---|---|---|---|
| functions/lib/bookmark-parser.js:33-42 | the six replacements run one after another over the whole text, `&amp;` first, so its output is decoded again | a title "&lt;", exported as "&amp;lt;", is imported as "<" | each entity is decoded once, scanning from the left, so decoding inverts the exporter's escaping | medium, not executed | Strings.DecodeIsNotSinglePass | Strings.DecodeEscapeRoundTrip |
| functions/lib/bookmark-parser.js:249 | a group's key is its menu's key, a separator S (two vertical bars and "group:") and its name, with nothing escaped | in auto mode, a bookmark under root folder "a" and subfolder "b" + S + "c", then one under root folder "a" + S + "b" and subfolder "c" | distinct (menu, group) pairs have distinct keys, so every card's group lies under the card's menu | low, not executed | KeyText.EnsureGroupTextMisfiles | PlanLemmas.GeneratedPlanSpec |
