/**
 * parseBookmarkHtml: recovers the folder nesting of a Netscape bookmark export from the
 * sequence of its four kinds of tags and emits a flat, ordered list of bookmarks.
 *
 * The tag scanner (a case-insensitive regular expression) is abstracted: the input is the
 * sequence of tags it finds, each already carrying the toolbar attribute test and the
 * extracted HREF value.
 */
module BookmarkParser {
  import opened Options
  import opened Strings

  /** One match of the tag scanner. */
  datatype Token =
    | ListOpen                                         // <DL>
    | ListClose                                        // </DL>
    | FolderHeading(isToolbar: bool, rawName: string)  // <DT><H3 attrs>name</H3>
    | Anchor(href: Option<string>, rawText: string)    // <DT><A attrs>text</A>

  datatype Folder = Folder(name: string, isToolbar: bool)

  datatype Bookmark = Bookmark(
    title: string,
    url: string,
    rootFolder: Option<string>,
    folderPath: seq<string>,
    order: nat)

  /** The two non-fatal errors the loop records. */
  datatype ParseError = EmptyFolderName | InvalidBookmarkUrl(title: string)

  datatype ParseResult = ParseResult(
    bookmarks: seq<Bookmark>,
    rootFolders: seq<string>,
    errors: seq<ParseError>)

  /** The variables the parsing loop updates. */
  datatype ParserState = ParserState(
    stack: seq<Folder>,
    insideToolbar: bool,
    bookmarks: seq<Bookmark>,
    rootFolders: seq<string>,
    errors: seq<ParseError>,
    nextOrder: nat)

  /** The text the source stores for each error. */
  function Message(e: ParseError): string {
    match e
    case EmptyFolderName => "发现空名称的文件夹，已跳过"
    case InvalidBookmarkUrl(title) => "书签 \"" + title + "\" 的 URL 无效，已跳过"
  }

  /**
   * A folder's name: its text decoded by the chain of replacements as written, then
   * sanitised.
   */
  function FolderName(rawName: string): string {
    SanitizeString(DecodeHtmlEntities(rawName))
  }

  /** An anchor's title, decoded and sanitised as a folder's name is. */
  function AnchorTitle(rawText: string): string {
    SanitizeString(DecodeHtmlEntities(rawText))
  }

  /** The URL of an anchor, or "" when it has no HREF or an unacceptable one. */
  function AnchorUrl(href: Option<string>): string {
    if href.Some? then SanitizeUrl(href.value) else ""
  }

  /** The names of the non-toolbar entries of the folder stack, bottom first. */
  function EffectiveNames(stack: seq<Folder>): (names: seq<string>)
    ensures |names| <= |stack|
  {
    if stack == [] then []
    else
      var top := stack[|stack| - 1];
      EffectiveNames(stack[..|stack| - 1]) + (if top.isToolbar then [] else [top.name])
  }

  /** Adding to a JavaScript Set, which keeps first-insertion order. */
  function SetAdd(xs: seq<string>, x: string): seq<string> {
    if x in xs then xs else xs + [x]
  }

  const InitialState := ParserState([], false, [], [], [], 0)

  /** `</DL>`: pop the folder stack, if it has an entry; popping a toolbar folder leaves the toolbar. */
  function CloseList(s: ParserState): ParserState {
    if |s.stack| == 0 then s
    else
      var popped := s.stack[|s.stack| - 1];
      s.(stack := s.stack[..|s.stack| - 1],
         insideToolbar := if popped.isToolbar then false else s.insideToolbar)
  }

  /**
   * `<DT><H3>`: an empty name is an error and pushes nothing; the toolbar folder is pushed and
   * entered; any other folder is pushed, and becomes a root folder when it is the first
   * non-toolbar level inside the toolbar.
   */
  function OpenFolder(s: ParserState, isToolbar: bool, rawName: string): ParserState {
    var name := FolderName(rawName);
    if name == "" then s.(errors := s.errors + [EmptyFolderName])
    else if isToolbar then s.(stack := s.stack + [Folder(name, true)], insideToolbar := true)
    else
      var stack := s.stack + [Folder(name, false)];
      var roots :=
        if s.insideToolbar && |EffectiveNames(stack)| == 1 then SetAdd(s.rootFolders, name)
        else s.rootFolders;
      s.(stack := stack, rootFolders := roots)
  }

  /**
   * `<DT><A>`: an anchor without an acceptable URL is dropped (an error only when it has a
   * title); otherwise a bookmark placed under the non-toolbar folders of the stack.
   */
  function AddAnchor(s: ParserState, href: Option<string>, rawText: string): ParserState {
    var title := AnchorTitle(rawText);
    var url := AnchorUrl(href);
    if url == "" then
      if title != "" then s.(errors := s.errors + [InvalidBookmarkUrl(title)]) else s
    else
      var effective := EffectiveNames(s.stack);
      var root := if |effective| > 0 then Some(effective[0]) else None;
      var path := if |effective| > 0 then effective[1..] else [];
      var b := Bookmark(if title == "" then url else title, url, root, path, s.nextOrder);
      s.(bookmarks := s.bookmarks + [b], nextOrder := s.nextOrder + 1)
  }

  /** One iteration of the parsing loop. */
  function Step(s: ParserState, t: Token): ParserState {
    match t
    case ListOpen => s
    case ListClose => CloseList(s)
    case FolderHeading(isToolbar, rawName) => OpenFolder(s, isToolbar, rawName)
    case Anchor(href, rawText) => AddAnchor(s, href, rawText)
  }

  /** The loop's state after the given tokens. */
  function Run(ts: seq<Token>): ParserState {
    if ts == [] then InitialState else Step(Run(ts[..|ts| - 1]), ts[|ts| - 1])
  }

  function Parse(ts: seq<Token>): ParseResult {
    var s := Run(ts);
    ParseResult(s.bookmarks, s.rootFolders, s.errors)
  }

  /** The `</DL>` branch of the parsing loop. */
  method PopFolder(folderStack: seq<Folder>, insideToolbar: bool, ghost s: ParserState)
    returns (stack: seq<Folder>, inside: bool)
    requires s.stack == folderStack && s.insideToolbar == insideToolbar
    ensures s.(stack := stack, insideToolbar := inside) == CloseList(s)
  {
    stack, inside := folderStack, insideToolbar;
    if |stack| > 0 {
      var popped := stack[|stack| - 1];
      stack := stack[..|stack| - 1];
      if popped.isToolbar {
        inside := false;
      }
    }
  }

  /** The `<DT><H3>` branch of the parsing loop. */
  method PushFolder(folderStack: seq<Folder>, insideToolbar: bool, rootFolderSet: seq<string>,
                    errors: seq<ParseError>, isToolbar: bool, rawName: string, ghost s: ParserState)
    returns (stack: seq<Folder>, inside: bool, roots: seq<string>, errs: seq<ParseError>)
    requires s.stack == folderStack && s.insideToolbar == insideToolbar
    requires s.rootFolders == rootFolderSet && s.errors == errors
    ensures s.(stack := stack, insideToolbar := inside, rootFolders := roots, errors := errs)
            == OpenFolder(s, isToolbar, rawName)
  {
    stack, inside, roots, errs := folderStack, insideToolbar, rootFolderSet, errors;
    var folderName := FolderName(rawName);
    if folderName == "" {
      errs := errs + [EmptyFolderName];
    } else if isToolbar {
      stack := stack + [Folder(folderName, true)];
      inside := true;
    } else {
      stack := stack + [Folder(folderName, false)];
      if inside {
        var effectiveDepth := |EffectiveNames(stack)|;
        if effectiveDepth == 1 && folderName !in roots {
          roots := roots + [folderName];
        }
      }
    }
  }

  /** The `<DT><A>` branch of the parsing loop. */
  method AddBookmark(folderStack: seq<Folder>, bookmarks: seq<Bookmark>, errors: seq<ParseError>,
                     globalOrder: nat, href: Option<string>, rawText: string, ghost s: ParserState)
    returns (bms: seq<Bookmark>, errs: seq<ParseError>, order: nat)
    requires s.stack == folderStack && s.bookmarks == bookmarks
    requires s.errors == errors && s.nextOrder == globalOrder
    ensures s.(bookmarks := bms, errors := errs, nextOrder := order) == AddAnchor(s, href, rawText)
  {
    bms, errs, order := bookmarks, errors, globalOrder;
    var title := AnchorTitle(rawText);
    var url := AnchorUrl(href);
    if url == "" {
      if title != "" {
        errs := errs + [InvalidBookmarkUrl(title)];
      }
    } else {
      var effectiveFolders := EffectiveNames(folderStack);
      var rootFolder: Option<string> := None;
      var folderPath: seq<string> := [];
      if |effectiveFolders| > 0 {
        rootFolder := Some(effectiveFolders[0]);
        folderPath := effectiveFolders[1..];
      }
      bms := bms + [Bookmark(if title == "" then url else title, url, rootFolder, folderPath, order)];
      order := order + 1;
    }
  }

  /** parseBookmarkHtml, over the scanner's tokens. */
  method ParseBookmarkHtml(tokens: seq<Token>) returns (result: ParseResult)
    ensures result == Parse(tokens)
  {
    var errors: seq<ParseError> := [];
    var bookmarks: seq<Bookmark> := [];
    var rootFolderSet: seq<string> := [];
    var globalOrder: nat := 0;
    var folderStack: seq<Folder> := [];
    var insideToolbar := false;

    var i := 0;
    while i < |tokens|
      invariant 0 <= i <= |tokens|
      invariant ParserState(folderStack, insideToolbar, bookmarks, rootFolderSet, errors, globalOrder)
                == Run(tokens[..i])
    {
      assert tokens[..i + 1][..i] == tokens[..i];
      ghost var before := ParserState(folderStack, insideToolbar, bookmarks, rootFolderSet, errors, globalOrder);
      match tokens[i] {
      case ListOpen =>
      case ListClose =>
        folderStack, insideToolbar := PopFolder(folderStack, insideToolbar, before);
      case FolderHeading(isToolbar, rawName) =>
        folderStack, insideToolbar, rootFolderSet, errors :=
          PushFolder(folderStack, insideToolbar, rootFolderSet, errors, isToolbar, rawName, before);
      case Anchor(href, rawText) =>
        bookmarks, errors, globalOrder :=
          AddBookmark(folderStack, bookmarks, errors, globalOrder, href, rawText, before);
      }
      assert ParserState(folderStack, insideToolbar, bookmarks, rootFolderSet, errors, globalOrder)
             == Step(before, tokens[i]);
      i := i + 1;
    }
    assert tokens[..|tokens|] == tokens;
    result := ParseResult(bookmarks, rootFolderSet, errors);
  }

  // ----- Reference definitions -----

  /** The bookmark an anchor yields, if any: it depends on the anchor alone, never on the folders. */
  function AnchorLink(t: Token): seq<(string, string)> {
    if t.Anchor? && AnchorUrl(t.href) != "" then
      var title := AnchorTitle(t.rawText);
      [(if title == "" then AnchorUrl(t.href) else title, AnchorUrl(t.href))]
    else []
  }

  /** The (title, url) pairs the tokens yield, in token order. */
  function Links(ts: seq<Token>): seq<(string, string)> {
    if ts == [] then [] else Links(ts[..|ts| - 1]) + AnchorLink(ts[|ts| - 1])
  }

  /** The error a single token records, if any. */
  function TokenError(t: Token): seq<ParseError> {
    match t
    case FolderHeading(_, rawName) => if FolderName(rawName) == "" then [EmptyFolderName] else []
    case Anchor(href, rawText) =>
      if AnchorUrl(href) == "" && AnchorTitle(rawText) != "" then [InvalidBookmarkUrl(AnchorTitle(rawText))] else []
    case _ => []
  }

  function TokenErrors(ts: seq<Token>): seq<ParseError> {
    if ts == [] then [] else TokenErrors(ts[..|ts| - 1]) + TokenError(ts[|ts| - 1])
  }

  function TitlesAndUrls(bs: seq<Bookmark>): (r: seq<(string, string)>)
    ensures |r| == |bs|
  {
    seq(|bs|, i requires 0 <= i < |bs| => (bs[i].title, bs[i].url))
  }

  /** The folder names a bookmark is filed under: its root folder followed by its path. */
  function Placement(b: Bookmark): seq<string> {
    if b.rootFolder.Some? then [b.rootFolder.value] + b.folderPath else b.folderPath
  }

  predicate NoDuplicates(xs: seq<string>) {
    forall i, j :: 0 <= i < j < |xs| ==> xs[i] != xs[j]
  }

  /** What every emitted bookmark satisfies. */
  ghost predicate WellFormedBookmark(b: Bookmark) {
    && b.url != "" && HasHttpScheme(b.url) && |b.url| <= MaxUrlLength
    && b.title != "" && (b.title == b.url || |b.title| <= MaxTextLength)
    && (b.rootFolder.None? ==> b.folderPath == [])
    && (forall k :: 0 <= k < |Placement(b)| ==> Placement(b)[k] != "")
  }

  /** The invariant of the parsing loop. */
  ghost predicate Inv(s: ParserState) {
    && s.nextOrder == |s.bookmarks|
    && (forall i :: 0 <= i < |s.bookmarks| ==> s.bookmarks[i].order == i)
    && (forall i :: 0 <= i < |s.bookmarks| ==> WellFormedBookmark(s.bookmarks[i]))
    && (forall k :: 0 <= k < |s.stack| ==> s.stack[k].name != "")
    && NoDuplicates(s.rootFolders)
    && (s.insideToolbar ==> exists k :: 0 <= k < |s.stack| && s.stack[k].isToolbar)
  }

  // ----- Folder stack -----

  lemma EffectiveNamesPush(stack: seq<Folder>, f: Folder)
    ensures EffectiveNames(stack + [f]) == EffectiveNames(stack) + (if f.isToolbar then [] else [f.name])
  {
    assert (stack + [f])[..|stack|] == stack;
  }

  /** There is one effective name per non-toolbar entry of the stack. */
  lemma {:induction false} EffectiveNamesCount(stack: seq<Folder>)
    ensures |EffectiveNames(stack)| == |set k | 0 <= k < |stack| && !stack[k].isToolbar|
  {
    if stack != [] {
      var n := |stack| - 1;
      var init := stack[..n];
      EffectiveNamesCount(init);
      var below := set k | 0 <= k < n && !init[k].isToolbar;
      var all := set k | 0 <= k < |stack| && !stack[k].isToolbar;
      if stack[n].isToolbar {
        assert all == below;
      } else {
        assert all == below + {n};
      }
    }
  }

  /** `name` is the name of a non-toolbar entry of the stack. */
  ghost predicate NonToolbarName(stack: seq<Folder>, name: string) {
    exists k :: 0 <= k < |stack| && !stack[k].isToolbar && stack[k].name == name
  }

  /** Each effective name is the name of a non-toolbar entry of the stack. */
  lemma {:induction false} EffectiveNamesAreNonToolbar(stack: seq<Folder>)
    ensures forall i :: 0 <= i < |EffectiveNames(stack)| ==> NonToolbarName(stack, EffectiveNames(stack)[i])
  {
    if stack != [] {
      var n := |stack| - 1;
      var init := stack[..n];
      EffectiveNamesAreNonToolbar(init);
      var names := EffectiveNames(stack);
      assert names == EffectiveNames(init) + (if stack[n].isToolbar then [] else [stack[n].name]);
      forall i | 0 <= i < |names|
        ensures NonToolbarName(stack, names[i])
      {
        if i < |EffectiveNames(init)| {
          assert NonToolbarName(init, EffectiveNames(init)[i]);
          var k :| 0 <= k < n && !init[k].isToolbar && init[k].name == EffectiveNames(init)[i];
          assert stack[k] == init[k];
        } else {
          assert !stack[n].isToolbar && stack[n].name == names[i];
        }
      }
    }
  }

  lemma {:induction false} EffectiveNamesNonEmpty(stack: seq<Folder>)
    requires forall k :: 0 <= k < |stack| ==> stack[k].name != ""
    ensures forall i :: 0 <= i < |EffectiveNames(stack)| ==> EffectiveNames(stack)[i] != ""
  {
    if stack != [] {
      EffectiveNamesNonEmpty(stack[..|stack| - 1]);
    }
  }

  // ----- One step -----

  /** `</DL>` with nothing open changes nothing. */
  lemma CloseOnEmptyStackIsNoOp(s: ParserState)
    requires s.stack == []
    ensures Step(s, ListClose) == s
  {
  }

  /** `</DL>` pops exactly the top entry; popping a toolbar folder clears the toolbar flag. */
  lemma ClosePopsTop(s: ParserState)
    requires s.stack != []
    ensures Step(s, ListClose).stack == s.stack[..|s.stack| - 1]
    ensures s.stack[|s.stack| - 1].isToolbar ==> !Step(s, ListClose).insideToolbar
    ensures !s.stack[|s.stack| - 1].isToolbar ==> Step(s, ListClose).insideToolbar == s.insideToolbar
    ensures Step(s, ListClose).bookmarks == s.bookmarks && Step(s, ListClose).errors == s.errors
  {
  }

  /** A folder whose name sanitises to "" pushes nothing and records exactly one error. */
  lemma EmptyFolderNameSkipped(s: ParserState, isToolbar: bool, rawName: string)
    requires FolderName(rawName) == ""
    ensures Step(s, FolderHeading(isToolbar, rawName)) == s.(errors := s.errors + [EmptyFolderName])
  {
  }

  /** The loop's state after the given tokens, starting from any state. */
  function StepAll(s: ParserState, ts: seq<Token>): ParserState {
    if ts == [] then s else Step(StepAll(s, ts[..|ts| - 1]), ts[|ts| - 1])
  }

  /** Run is StepAll from the initial state. */
  lemma {:induction false} RunIsStepAll(ts: seq<Token>)
    ensures Run(ts) == StepAll(InitialState, ts)
  {
    if ts != [] {
      RunIsStepAll(ts[..|ts| - 1]);
    }
  }

  /** Running a + b is running b from where a ends. */
  lemma {:induction false} StepAllAppend(s: ParserState, a: seq<Token>, b: seq<Token>)
    ensures StepAll(s, a + b) == StepAll(StepAll(s, a), b)
  {
    if b == [] {
      assert a + b == a;
    } else {
      var b' := b[..|b| - 1];
      assert (a + b)[..|a + b| - 1] == a + b';
      assert (a + b)[|a + b| - 1] == b[|b| - 1];
      StepAllAppend(s, a, b');
    }
  }

  /** Tokens that open no folder and close none: anchors and `<DL>` openings. */
  predicate Flat(ts: seq<Token>) {
    forall i :: 0 <= i < |ts| ==> ts[i].Anchor? || ts[i] == ListOpen
  }

  /**
   * Flat tokens leave the folder stack as it is, keep the bookmarks already collected and
   * file every bookmark they add under the folders open before them.
   */
  lemma {:induction false} FlatKeepsStack(s: ParserState, ts: seq<Token>)
    requires Flat(ts)
    ensures var s' := StepAll(s, ts);
      && s'.stack == s.stack
      && |s.bookmarks| <= |s'.bookmarks| && s'.bookmarks[..|s.bookmarks|] == s.bookmarks
      && forall j :: |s.bookmarks| <= j < |s'.bookmarks| ==> Placement(s'.bookmarks[j]) == EffectiveNames(s.stack)
  {
    if ts != [] {
      var init := ts[..|ts| - 1];
      assert forall i :: 0 <= i < |init| ==> init[i] == ts[i];
      FlatKeepsStack(s, init);
      var m := StepAll(s, init);
      var t := ts[|ts| - 1];
      assert t.Anchor? || t == ListOpen;
      if t.Anchor? {
        if AnchorUrl(t.href) != "" {
          AnchorPlacement(m, t.href, t.rawText);
        } else {
          AnchorWithoutUrlDropped(m, t.href, t.rawText);
        }
        var s' := StepAll(s, ts);
        assert s'.bookmarks[..|m.bookmarks|] == m.bookmarks;
        assert s'.bookmarks[..|s.bookmarks|] == m.bookmarks[..|s.bookmarks|];
      }
    }
  }

  /**
   * Hence the `</DL>` that closes the skipped folder's list pops the enclosing folder: the
   * skipped folder's anchors are filed under the enclosing folders, and after its `</DL>` the
   * enclosing folder is closed as well.
   */
  lemma EmptyFolderChildrenMoveUp(s: ParserState, isToolbar: bool, rawName: string, inner: seq<Token>)
    requires FolderName(rawName) == "" && s.stack != []
    requires Flat(inner)
    ensures var s' := StepAll(s, [FolderHeading(isToolbar, rawName), ListOpen] + inner);
      && s'.stack == s.stack
      && |s.bookmarks| <= |s'.bookmarks| && s'.bookmarks[..|s.bookmarks|] == s.bookmarks
      && forall j :: |s.bookmarks| <= j < |s'.bookmarks| ==> Placement(s'.bookmarks[j]) == EffectiveNames(s.stack)
    ensures StepAll(s, [FolderHeading(isToolbar, rawName), ListOpen] + inner + [ListClose]).stack
            == s.stack[..|s.stack| - 1]
  {
    var pre := [FolderHeading(isToolbar, rawName), ListOpen];
    assert pre[..1] == [FolderHeading(isToolbar, rawName)];
    assert [FolderHeading(isToolbar, rawName)][..0] == [];
    EmptyFolderNameSkipped(s, isToolbar, rawName);
    assert StepAll(s, [FolderHeading(isToolbar, rawName)]) == Step(s, FolderHeading(isToolbar, rawName));
    var m := StepAll(s, pre);
    assert m == Step(StepAll(s, pre[..1]), ListOpen);
    assert m == s.(errors := s.errors + [EmptyFolderName]);
    StepAllAppend(s, pre, inner);
    FlatKeepsStack(m, inner);
    var whole := pre + inner + [ListClose];
    assert whole[..|whole| - 1] == pre + inner;
  }

  /**
   * An anchor with an acceptable URL yields one bookmark, numbered next, whose root folder
   * followed by its path is exactly the names of the non-toolbar folders open around it.
   */
  lemma AnchorPlacement(s: ParserState, href: Option<string>, rawText: string)
    requires AnchorUrl(href) != ""
    ensures var s' := Step(s, Anchor(href, rawText));
      && |s'.bookmarks| == |s.bookmarks| + 1 && s'.bookmarks[..|s.bookmarks|] == s.bookmarks
      && var b := s'.bookmarks[|s.bookmarks|];
      && b.url == AnchorUrl(href)
      && b.title == (if AnchorTitle(rawText) == "" then b.url else AnchorTitle(rawText))
      && b.order == s.nextOrder
      && Placement(b) == EffectiveNames(s.stack)
      && (b.rootFolder.None? <==> EffectiveNames(s.stack) == [])
      && s'.stack == s.stack && s'.errors == s.errors
  {
    var e := EffectiveNames(s.stack);
    if |e| > 0 {
      assert [e[0]] + e[1..] == e;
    }
    var s' := Step(s, Anchor(href, rawText));
    assert s'.bookmarks[..|s.bookmarks|] == s.bookmarks;
  }

  /** An anchor without an acceptable URL yields no bookmark, and an error only when it has a title. */
  lemma AnchorWithoutUrlDropped(s: ParserState, href: Option<string>, rawText: string)
    requires AnchorUrl(href) == ""
    ensures var s' := Step(s, Anchor(href, rawText));
      && s'.bookmarks == s.bookmarks && s'.stack == s.stack
      && s'.errors == s.errors + (if AnchorTitle(rawText) != "" then [InvalidBookmarkUrl(AnchorTitle(rawText))] else [])
  {
  }

  /**
   * A name enters the root folders only as a non-toolbar folder pushed while inside the
   * toolbar with no other non-toolbar folder open, and only once.
   */
  lemma RootFolderAdmission(s: ParserState, t: Token)
    ensures var s' := Step(s, t);
      && (s'.rootFolders != s.rootFolders <==>
            && t.FolderHeading? && !t.isToolbar && FolderName(t.rawName) != ""
            && s.insideToolbar && EffectiveNames(s.stack) == []
            && FolderName(t.rawName) !in s.rootFolders)
      && (s'.rootFolders != s.rootFolders ==> s'.rootFolders == s.rootFolders + [FolderName(t.rawName)])
  {
    if t.FolderHeading? && !t.isToolbar && FolderName(t.rawName) != "" {
      EffectiveNamesPush(s.stack, Folder(FolderName(t.rawName), false));
    }
  }

  lemma CloseListPreservesInv(s: ParserState)
    requires Inv(s)
    ensures Inv(CloseList(s))
  {
    if s.stack != [] && s.insideToolbar && !s.stack[|s.stack| - 1].isToolbar {
      var k :| 0 <= k < |s.stack| && s.stack[k].isToolbar;
      assert CloseList(s).stack[k].isToolbar;
    }
  }

  lemma OpenFolderPreservesInv(s: ParserState, isToolbar: bool, rawName: string)
    requires Inv(s)
    ensures Inv(OpenFolder(s, isToolbar, rawName))
  {
    var s' := OpenFolder(s, isToolbar, rawName);
    var name := FolderName(rawName);
    if name != "" {
      assert s'.stack == s.stack + [Folder(name, isToolbar)];
      if s'.insideToolbar {
        if isToolbar {
          assert s'.stack[|s.stack|].isToolbar;
        } else {
          var k :| 0 <= k < |s.stack| && s.stack[k].isToolbar;
          assert s'.stack[k].isToolbar;
        }
      }
    }
  }

  /** The bookmark an anchor with an acceptable URL yields is well formed. */
  lemma AnchorBookmarkWellFormed(s: ParserState, href: Option<string>, rawText: string)
    requires AnchorUrl(href) != ""
    requires forall k :: 0 <= k < |s.stack| ==> s.stack[k].name != ""
    ensures WellFormedBookmark(AddAnchor(s, href, rawText).bookmarks[|s.bookmarks|])
  {
    SanitizeUrlSpec(href.value);
    SanitizeStringSpec(DecodeHtmlEntities(rawText));
    EffectiveNamesNonEmpty(s.stack);
    AnchorPlacement(s, href, rawText);
  }

  lemma AddAnchorPreservesInv(s: ParserState, href: Option<string>, rawText: string)
    requires Inv(s)
    ensures Inv(AddAnchor(s, href, rawText))
  {
    if AnchorUrl(href) != "" {
      var s' := AddAnchor(s, href, rawText);
      AnchorPlacement(s, href, rawText);
      AnchorBookmarkWellFormed(s, href, rawText);
      forall i | 0 <= i < |s'.bookmarks|
        ensures s'.bookmarks[i].order == i && WellFormedBookmark(s'.bookmarks[i])
      {
        if i < |s.bookmarks| {
          assert s'.bookmarks[i] == s.bookmarks[i];
        }
      }
    }
  }

  lemma StepPreservesInv(s: ParserState, t: Token)
    requires Inv(s)
    ensures Inv(Step(s, t))
  {
    match t
    case ListOpen =>
    case ListClose => CloseListPreservesInv(s);
    case FolderHeading(isToolbar, rawName) => OpenFolderPreservesInv(s, isToolbar, rawName);
    case Anchor(href, rawText) => AddAnchorPreservesInv(s, href, rawText);
  }

  // ----- The whole parse -----

  lemma {:induction false} RunInv(ts: seq<Token>)
    ensures Inv(Run(ts))
  {
    if ts != [] {
      RunInv(ts[..|ts| - 1]);
      StepPreservesInv(Run(ts[..|ts| - 1]), ts[|ts| - 1]);
    }
  }

  /** Bookmarks carry the order values 0, 1, ..., n-1 in token order. */
  lemma {:induction false} ParseOrdersDense(ts: seq<Token>)
    ensures forall i :: 0 <= i < |Parse(ts).bookmarks| ==> Parse(ts).bookmarks[i].order == i
  {
    RunInv(ts);
  }

  /**
   * Every bookmark has an http(s) URL of at most MaxUrlLength characters, a non-empty title
   * (its URL when the anchor text is empty), no path without a root folder, and only
   * non-empty folder names.
   */
  lemma {:induction false} ParseBookmarksWellFormed(ts: seq<Token>)
    ensures forall i :: 0 <= i < |Parse(ts).bookmarks| ==> WellFormedBookmark(Parse(ts).bookmarks[i])
  {
    RunInv(ts);
  }

  /** rootFolders lists each name once. */
  lemma {:induction false} ParseRootFoldersDistinct(ts: seq<Token>)
    ensures NoDuplicates(Parse(ts).rootFolders)
  {
    RunInv(ts);
  }

  /** The toolbar flag is only ever set while a toolbar folder is open. */
  lemma {:induction false} ToolbarFlagNeedsOpenToolbar(ts: seq<Token>)
    ensures Run(ts).insideToolbar ==> exists k :: 0 <= k < |Run(ts).stack| && Run(ts).stack[k].isToolbar
  {
    RunInv(ts);
  }

  /**
   * The bookmarks are exactly the anchors with an acceptable URL, in token order, with the
   * title and URL each anchor gives on its own: the folder stack decides only where they go.
   */
  lemma TitlesAndUrlsAppend(bs: seq<Bookmark>, b: Bookmark)
    ensures TitlesAndUrls(bs + [b]) == TitlesAndUrls(bs) + [(b.title, b.url)]
  {
  }

  /** One step adds to the (title, url) pairs exactly what its token yields on its own. */
  lemma StepLinks(s: ParserState, t: Token)
    ensures TitlesAndUrls(Step(s, t).bookmarks) == TitlesAndUrls(s.bookmarks) + AnchorLink(t)
  {
    if t.Anchor? && AnchorUrl(t.href) != "" {
      AnchorPlacement(s, t.href, t.rawText);
      var bs := Step(s, t).bookmarks;
      assert bs == s.bookmarks + [bs[|s.bookmarks|]];
      TitlesAndUrlsAppend(s.bookmarks, bs[|s.bookmarks|]);
    } else if t.Anchor? {
      AnchorWithoutUrlDropped(s, t.href, t.rawText);
    }
  }

  lemma {:induction false} ParseKeepsEveryValidAnchor(ts: seq<Token>)
    ensures TitlesAndUrls(Parse(ts).bookmarks) == Links(ts)
  {
    if ts != [] {
      ParseKeepsEveryValidAnchor(ts[..|ts| - 1]);
      StepLinks(Run(ts[..|ts| - 1]), ts[|ts| - 1]);
    }
  }

  /** The errors are exactly those of the individual tokens, in token order. */
  lemma {:induction false} ParseErrorsPerToken(ts: seq<Token>)
    ensures Parse(ts).errors == TokenErrors(ts)
  {
    if ts != [] {
      ParseErrorsPerToken(ts[..|ts| - 1]);
    }
  }

  /**
   * A folder outside the bookmarks bar gives its bookmarks their root folder, but is not
   * reported among the root folders, which only folders directly inside the bar are.
   */
  lemma RootFolderOutsideToolbar()
    ensures var r := Parse([FolderHeading(false, "x"), Anchor(Some("http://a"), "t")]);
      && |r.bookmarks| == 1 && r.bookmarks[0].rootFolder == Some("x")
      && r.rootFolders == []
  {
    DecodeHtmlEntitiesSpec("x");
    DecodeHtmlEntitiesSpec("t");
    var ts := [FolderHeading(false, "x"), Anchor(Some("http://a"), "t")];
    assert ts[..1] == [FolderHeading(false, "x")];
    assert [FolderHeading(false, "x")][..0] == [];
  }
}
