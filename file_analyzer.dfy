/**
 * The directory-tree renderer: an abstract directory tree is filtered
 * through the ignore patterns, each directory's entries are sorted by
 * name, and every visible entry becomes one line drawn with box-drawing
 * connectors.
 *
 * The file system is modelled as a value: a directory is `Dir` with its
 * entries in listing order, a directory whose listing fails is
 * `Unreadable`, and everything else is a `File`.
 */
module FileAnalyzer {
  import opened Strings

  datatype Entry =
    | File(name: string)
    | Dir(name: string, children: seq<Entry>)
    | Unreadable(name: string)

  /** The patterns used when the caller supplies none. */
  const DefaultPatterns: seq<string> := [
    "__pycache__", ".git", ".idea", ".vscode", "node_modules", ".DS_Store",
    "*.pyc", "*.pyo", "*.pyd", ".pytest_cache", ".coverage", "venv", "env", ".env"
  ]

  const LastBranch := "└── "
  const MidBranch := "├── "
  const Blank := "    "
  const Bar := "│   "

  // ---------------------------------------------------------------------
  // Ignore patterns

  /** A pattern starting with `*` matches by suffix, any other by the whole name. */
  predicate Matches(pattern: string, name: string) {
    if StartsWith(pattern, "*") then EndsWith(name, pattern[1..]) else pattern == name
  }

  predicate Ignored(patterns: seq<string>, name: string) {
    exists i :: 0 <= i < |patterns| && Matches(patterns[i], name)
  }

  /** The pattern scan, stopping at the first pattern that matches. */
  method IsIgnored(patterns: seq<string>, name: string) returns (ignore: bool)
    ensures ignore <==> Ignored(patterns, name)
  {
    ignore := false;
    var i := 0;
    while i < |patterns|
      invariant 0 <= i <= |patterns|
      invariant forall j :: 0 <= j < i ==> !Matches(patterns[j], name)
    {
      var pattern := patterns[i];
      if StartsWith(pattern, "*") {
        if EndsWith(name, pattern[1..]) {
          ignore := true;
          break;
        }
      } else if pattern == name {
        ignore := true;
        break;
      }
      i := i + 1;
    }
  }

  /** An exact name and a suffix wildcard: `.git` and `*.pyc` are ignored. */
  lemma DefaultIgnores()
    ensures Ignored(DefaultPatterns, ".git") && Ignored(DefaultPatterns, "main.pyc")
  {
    assert Matches(DefaultPatterns[1], ".git");
    assert Matches(DefaultPatterns[6], "main.pyc");
  }

  /** Matching is not by prefix: `.gitignore` and `main.py` are kept. */
  lemma DefaultKeeps()
    ensures !Ignored(DefaultPatterns, ".gitignore")
    ensures !Ignored(DefaultPatterns, "main.py")
  {
    forall i | 0 <= i < |DefaultPatterns| ensures !Matches(DefaultPatterns[i], ".gitignore") {
    }
    forall i | 0 <= i < |DefaultPatterns| ensures !Matches(DefaultPatterns[i], "main.py") {
    }
  }

  // ---------------------------------------------------------------------
  // Sorting and filtering a listing

  predicate SortedByName(s: seq<Entry>) {
    forall i, j :: 0 <= i < j < |s| ==> NameLe(s[i].name, s[j].name)
  }

  function Insert(x: Entry, s: seq<Entry>): (r: seq<Entry>)
    requires SortedByName(s)
    ensures SortedByName(r)
    ensures multiset(r) == multiset(s) + multiset{x}
    ensures forall y :: y in r <==> y == x || y in s
  {
    if s == [] then [x]
    else if NameLe(x.name, s[0].name) then
      InsertFront(x, s);
      [x] + s
    else
      var rest := Insert(x, s[1..]);
      InsertBehind(x, s, rest);
      assert s == [s[0]] + s[1..];
      [s[0]] + rest
  }

  /** An entry no greater than the first of a sorted listing can go in front. */
  lemma InsertFront(x: Entry, s: seq<Entry>)
    requires SortedByName(s) && s != [] && NameLe(x.name, s[0].name)
    ensures SortedByName([x] + s)
  {
    forall j | 0 < j < |s| ensures NameLe(x.name, s[j].name) {
      NameLeTransitive(x.name, s[0].name, s[j].name);
    }
    var r := [x] + s;
    forall i, j | 0 <= i < j < |r| ensures NameLe(r[i].name, r[j].name) {
      assert r[j] == s[j - 1];
      if i > 0 {
        assert r[i] == s[i - 1];
      }
    }
  }

  /** An entry greater than the first goes after it, among the rest sorted. */
  lemma InsertBehind(x: Entry, s: seq<Entry>, rest: seq<Entry>)
    requires SortedByName(s) && s != [] && !NameLe(x.name, s[0].name)
    requires SortedByName(rest) && forall y :: y in rest <==> y == x || y in s[1..]
    ensures SortedByName([s[0]] + rest)
  {
    NameLeTotal(x.name, s[0].name);
    forall j | 0 <= j < |rest| ensures NameLe(s[0].name, rest[j].name) {
      if rest[j] != x {
        assert rest[j] in s[1..];
        var k :| 0 <= k < |s[1..]| && s[1..][k] == rest[j];
        assert s[k + 1] == rest[j];
      }
    }
    var r := [s[0]] + rest;
    forall i, j | 0 <= i < j < |r| ensures NameLe(r[i].name, r[j].name) {
      assert r[j] == rest[j - 1];
      if i > 0 {
        assert r[i] == rest[i - 1];
      }
    }
  }

  /** `sorted(os.listdir(...))`: ordered by name, a permutation of the listing. */
  function SortByName(s: seq<Entry>): (r: seq<Entry>)
    ensures SortedByName(r)
    ensures multiset(r) == multiset(s)
    ensures forall y :: y in r <==> y in s
  {
    if s == [] then []
    else
      assert s == [s[0]] + s[1..];
      Insert(s[0], SortByName(s[1..]))
  }

  /** The entries that no pattern matches, in order. */
  function Unignored(patterns: seq<string>, items: seq<Entry>): (r: seq<Entry>)
    ensures forall y :: y in r <==> y in items && !Ignored(patterns, y.name)
  {
    if items == [] then []
    else
      var last := items[|items| - 1];
      assert items == items[..|items| - 1] + [last];
      Unignored(patterns, items[..|items| - 1]) + (if Ignored(patterns, last.name) then [] else [last])
  }

  /** Filtering keeps the order, so a sorted listing stays sorted. */
  lemma {:induction false} UnignoredSorted(patterns: seq<string>, items: seq<Entry>)
    requires SortedByName(items)
    ensures SortedByName(Unignored(patterns, items))
  {
    if items != [] {
      var init, last := items[..|items| - 1], items[|items| - 1];
      var pre := Unignored(patterns, init);
      assert SortedByName(init) by {
        forall i, j | 0 <= i < j < |init| ensures NameLe(init[i].name, init[j].name) {
          assert init[i] == items[i] && init[j] == items[j];
        }
      }
      UnignoredSorted(patterns, init);
      if !Ignored(patterns, last.name) {
        var r := pre + [last];
        forall i, j | 0 <= i < j < |r| ensures NameLe(r[i].name, r[j].name) {
          if j < |pre| {
            assert r[i] == pre[i] && r[j] == pre[j];
          } else {
            assert r[i] == pre[i] && r[i] in init && r[j] == last;
            var k :| 0 <= k < |init| && init[k] == r[i];
            assert items[k] == r[i];
          }
        }
      }
    }
  }

  method FilterItems(patterns: seq<string>, items: seq<Entry>) returns (kept: seq<Entry>)
    ensures kept == Unignored(patterns, items)
  {
    kept := [];
    for i := 0 to |items|
      invariant kept == Unignored(patterns, items[..i])
    {
      assert items[..i + 1][..i] == items[..i];
      var ignore := IsIgnored(patterns, items[i].name);
      if !ignore {
        kept := kept + [items[i]];
      }
    }
    assert items[..|items|] == items;
  }

  // ---------------------------------------------------------------------
  // The rendering

  function Connector(isLast: bool): string {
    if isLast then LastBranch else MidBranch
  }

  function NextPrefix(prefix: string, isLast: bool): string {
    prefix + (if isLast then Blank else Bar)
  }

  /** The visible entries of a directory, in the order they are drawn. */
  function Listing(patterns: seq<string>, e: Entry): (r: seq<Entry>)
    requires e.Dir?
    ensures forall y :: y in r <==> y in e.children && !Ignored(patterns, y.name)
    ensures SortedByName(r)
  {
    UnignoredSorted(patterns, SortByName(e.children));
    Unignored(patterns, SortByName(e.children))
  }

  /**
   * The last entry drawn, the one that gets the last connector, carries the
   * greatest name among the children no pattern matches.
   */
  lemma ListingLast(patterns: seq<string>, e: Entry)
    requires e.Dir?
    ensures var r := Listing(patterns, e);
      r != [] ==> forall y :: y in e.children && !Ignored(patterns, y.name) ==> NameLe(y.name, r[|r| - 1].name)
  {
    var r := Listing(patterns, e);
    if r != [] {
      forall y | y in e.children && !Ignored(patterns, y.name) ensures NameLe(y.name, r[|r| - 1].name) {
        var k :| 0 <= k < |r| && r[k] == y;
        if k < |r| - 1 {
          assert NameLe(r[k].name, r[|r| - 1].name);
        } else {
          NameLeTotal(y.name, y.name);
        }
      }
    }
  }

  /** The lines drawn for `e`; none when its name is ignored. */
  function TreeLines(patterns: seq<string>, e: Entry, prefix: string, isLast: bool): seq<string>
    decreases e, 1
  {
    if Ignored(patterns, e.name) then []
    else
      var head := prefix + Connector(isLast) + e.name;
      match e
      case Dir(_, _) =>
        var items := Listing(patterns, e);
        [head] + ChildLines(patterns, e, items, |items|, prefix, NextPrefix(prefix, isLast))
      case _ => [head]
  }

  /** The lines of the first `n` visible entries of `parent`. */
  function ChildLines(patterns: seq<string>, parent: Entry, items: seq<Entry>, n: nat,
                      prefix: string, next: string): seq<string>
    requires parent.Dir? && n <= |items|
    requires forall y :: y in items ==> y in parent.children
    decreases parent, 0, n
  {
    if n == 0 then []
    else
      ChildLines(patterns, parent, items, n - 1, prefix, next)
      + ItemLines(patterns, parent, items, n - 1, prefix, next)
  }

  /**
   * The lines of the `i`-th visible entry: a file is one line under the
   * parent's own prefix plus a blank segment; a directory is drawn
   * recursively under the continued prefix.
   */
  function ItemLines(patterns: seq<string>, parent: Entry, items: seq<Entry>, i: nat,
                     prefix: string, next: string): seq<string>
    requires parent.Dir? && i < |items|
    requires forall y :: y in items ==> y in parent.children
    decreases parent, 0, i
  {
    var item := items[i];
    var last := i == |items| - 1;
    assert item in parent.children;
    if item.File? then [prefix + Blank + Connector(last) + item.name]
    else TreeLines(patterns, item, next, last)
  }

  /** The text the renderer returns: the lines joined by newlines. */
  function Tree(patterns: seq<string>, e: Entry, prefix: string, isLast: bool): string {
    Join(TreeLines(patterns, e, prefix, isLast), "\n")
  }

  /** A non-ignored entry always draws its own line first. */
  lemma TreeHead(patterns: seq<string>, e: Entry, prefix: string, isLast: bool)
    ensures TreeLines(patterns, e, prefix, isLast) == [] <==> Ignored(patterns, e.name)
    ensures !Ignored(patterns, e.name) ==>
      TreeLines(patterns, e, prefix, isLast)[0] == prefix + Connector(isLast) + e.name
    ensures !e.Dir? && !Ignored(patterns, e.name) ==>
      TreeLines(patterns, e, prefix, isLast) == [prefix + Connector(isLast) + e.name]
  {
  }

  lemma TreeEmpty(patterns: seq<string>, e: Entry, prefix: string, isLast: bool)
    ensures Tree(patterns, e, prefix, isLast) == "" <==> Ignored(patterns, e.name)
  {
    var lines := TreeLines(patterns, e, prefix, isLast);
    TreeHead(patterns, e, prefix, isLast);
    if lines != [] {
      JoinStartsWith(lines, "\n");
    }
  }

  lemma TreeDir(patterns: seq<string>, e: Entry, prefix: string, isLast: bool)
    requires e.Dir? && !Ignored(patterns, e.name)
    ensures TreeLines(patterns, e, prefix, isLast) ==
      [prefix + Connector(isLast) + e.name]
      + ChildLines(patterns, e, Listing(patterns, e), |Listing(patterns, e)|, prefix, NextPrefix(prefix, isLast))
  {
  }

  /** The recursive walk; only reads the tree it is given. */
  method RenderTree(patterns: seq<string>, e: Entry, prefix: string, isLast: bool) returns (r: string)
    ensures r == Tree(patterns, e, prefix, isLast)
    decreases e, 1
  {
    var skip := IsIgnored(patterns, e.name);
    TreeEmpty(patterns, e, prefix, isLast);
    if skip {
      return "";
    }
    TreeHead(patterns, e, prefix, isLast);
    var next := NextPrefix(prefix, isLast);
    var parts := [prefix + Connector(isLast) + e.name];
    if !e.Dir? {
      // Listing a file or an unreadable directory fails: the name only.
      return Join(parts, "\n");
    }
    var items := FilterItems(patterns, SortByName(e.children));
    TreeDir(patterns, e, prefix, isLast);
    assert items == Listing(patterns, e);
    assert forall y :: y in items ==> y in e.children;
    ghost var drawn := [];
    var i := 0;
    while i < |items|
      invariant i <= |items|
      invariant drawn == ChildLines(patterns, e, items, i, prefix, next)
      invariant |parts| > 0 && Join(parts, "\n") == Join([prefix + Connector(isLast) + e.name] + drawn, "\n")
    {
      ghost var piece := ItemLines(patterns, e, items, i, prefix, next);
      parts := DrawItem(patterns, e, items, i, prefix, next, parts, prefix + Connector(isLast) + e.name, drawn);
      ChildStep(patterns, e, items, i, prefix, next);
      drawn := drawn + piece;
      i := i + 1;
    }
    r := Join(parts, "\n");
  }

  /** The first `i + 1` entries draw the first `i` entries' lines, then entry `i`'s. */
  lemma ChildStep(patterns: seq<string>, parent: Entry, items: seq<Entry>, i: nat, prefix: string, next: string)
    requires parent.Dir? && i < |items|
    requires forall y :: y in items ==> y in parent.children
    ensures ChildLines(patterns, parent, items, i + 1, prefix, next)
      == ChildLines(patterns, parent, items, i, prefix, next) + ItemLines(patterns, parent, items, i, prefix, next)
  {
  }

  /** Appending one line to both of two lists that join to the same text. */
  lemma JoinedLine(parts: seq<string>, lines: seq<string>, line: string)
    requires |parts| > 0 && |lines| > 0
    requires Join(parts, "\n") == Join(lines, "\n")
    ensures Join(parts + [line], "\n") == Join(lines + [line], "\n")
  {
    JoinSnoc(parts, line, "\n");
    JoinSnoc(lines, line, "\n");
  }

  /** Appending the joined text of `piece` to one list and `piece` itself to the other. */
  lemma JoinedLines(parts: seq<string>, lines: seq<string>, piece: seq<string>)
    requires |parts| > 0 && |lines| > 0 && |piece| > 0
    requires Join(parts, "\n") == Join(lines, "\n")
    ensures Join(parts + [Join(piece, "\n")], "\n") == Join(lines + piece, "\n")
  {
    JoinSnoc(parts, Join(piece, "\n"), "\n");
    JoinAppend(lines, piece, "\n");
  }

  /** One pass of the loop over the visible entries: append the entry's text. */
  method DrawItem(patterns: seq<string>, parent: Entry, items: seq<Entry>, i: nat,
                  prefix: string, next: string, parts: seq<string>,
                  ghost head: string, ghost drawn: seq<string>)
    returns (parts': seq<string>)
    requires parent.Dir? && i < |items|
    requires forall y :: y in items ==> y in parent.children
    requires |parts| > 0 && Join(parts, "\n") == Join([head] + drawn, "\n")
    ensures |parts'| > 0
    ensures Join(parts', "\n") == Join([head] + (drawn + ItemLines(patterns, parent, items, i, prefix, next)), "\n")
    decreases parent, 0
  {
    var item := items[i];
    var last := i == |items| - 1;
    assert item in parent.children;
    ghost var piece := ItemLines(patterns, parent, items, i, prefix, next);
    ghost var lines := [head] + drawn;
    assert lines + piece == [head] + (drawn + piece);
    if item.File? {
      var filePrefix := if last then prefix + Blank + LastBranch else prefix + Blank + MidBranch;
      assert piece == [filePrefix + item.name];
      JoinedLine(parts, lines, filePrefix + item.name);
      parts' := parts + [filePrefix + item.name];
    } else {
      var sub := RenderTree(patterns, item, next, last);
      assert piece == TreeLines(patterns, item, next, last);
      TreeEmpty(patterns, item, next, last);
      if sub != "" {
        JoinedLines(parts, lines, piece);
        parts' := parts + [sub];
      } else {
        assert lines + piece == lines;
        parts' := parts;
      }
    }
  }

  /** `generate_tree_structure(directory)`: the root drawn as a last entry with no prefix. */
  method GenerateTreeStructure(patterns: seq<string>, root: Entry) returns (r: string)
    ensures r == Tree(patterns, root, "", true)
  {
    r := RenderTree(patterns, root, "", true);
  }
}
