/**
 * What the tree renderer promises: one line per visible entry, nothing
 * from an ignored subtree, every line under its parent's prefix, and the
 * "last" connector on the last visible sibling only.
 */
module TreeProperties {
  import opened Strings
  import opened FileAnalyzer

  /** The visible entries of a tree: an ignored entry hides its whole subtree. */
  function Count(patterns: seq<string>, e: Entry): nat
    decreases e
  {
    if Ignored(patterns, e.name) then 0
    else 1 + (match e case Dir(_, children) => SumCounts(patterns, children) case _ => 0)
  }

  function SumCounts(patterns: seq<string>, s: seq<Entry>): nat
    decreases s
  {
    if s == [] then 0 else Count(patterns, s[0]) + SumCounts(patterns, s[1..])
  }

  lemma {:induction false} SumSplit(patterns: seq<string>, a: seq<Entry>, b: seq<Entry>)
    ensures SumCounts(patterns, a + b) == SumCounts(patterns, a) + SumCounts(patterns, b)
  {
    if a == [] {
      assert a + b == b;
    } else {
      assert (a + b)[1..] == a[1..] + b;
      SumSplit(patterns, a[1..], b);
    }
  }

  /** The count does not depend on the order of a listing. */
  lemma {:induction false} SumPermutation(patterns: seq<string>, s: seq<Entry>, t: seq<Entry>)
    requires multiset(s) == multiset(t)
    ensures SumCounts(patterns, s) == SumCounts(patterns, t)
  {
    if s != [] {
      var x := s[0];
      assert x in multiset(t);
      var i :| 0 <= i < |t| && t[i] == x;
      var rest := t[..i] + t[i + 1..];
      assert t == t[..i] + [x] + t[i + 1..];
      assert s == [x] + s[1..];
      assert multiset(t) == multiset(t[..i]) + multiset{x} + multiset(t[i + 1..]);
      assert multiset(s) == multiset{x} + multiset(s[1..]);
      assert multiset(rest) == multiset(t[..i]) + multiset(t[i + 1..]);
      assert multiset(s[1..]) == multiset(s) - multiset{x};
      assert multiset(rest) == multiset(t) - multiset{x};
      SumPermutation(patterns, s[1..], rest);
      SumSplit(patterns, t[..i] + [x], t[i + 1..]);
      SumSnoc(patterns, t[..i], x);
      SumSplit(patterns, t[..i], t[i + 1..]);
    }
  }

  lemma SumSnoc(patterns: seq<string>, s: seq<Entry>, x: Entry)
    ensures SumCounts(patterns, s + [x]) == SumCounts(patterns, s) + Count(patterns, x)
  {
    SumSplit(patterns, s, [x]);
    assert SumCounts(patterns, [x]) == Count(patterns, x);
  }

  /** Dropping the ignored entries drops nothing visible. */
  lemma {:induction false} SumUnignored(patterns: seq<string>, s: seq<Entry>)
    ensures SumCounts(patterns, Unignored(patterns, s)) == SumCounts(patterns, s)
  {
    if s != [] {
      var init, last := s[..|s| - 1], s[|s| - 1];
      assert s == init + [last];
      SumUnignored(patterns, init);
      SumSnoc(patterns, init, last);
      if Ignored(patterns, last.name) {
        assert Unignored(patterns, s) == Unignored(patterns, init);
      } else {
        assert Unignored(patterns, s) == Unignored(patterns, init) + [last];
        SumSnoc(patterns, Unignored(patterns, init), last);
      }
    }
  }

  lemma ListingCount(patterns: seq<string>, e: Entry)
    requires e.Dir?
    ensures SumCounts(patterns, Listing(patterns, e)) == SumCounts(patterns, e.children)
  {
    SumUnignored(patterns, SortByName(e.children));
    SumPermutation(patterns, SortByName(e.children), e.children);
  }

  /** Every visible entry contributes exactly one line. */
  lemma {:induction false} LineCount(patterns: seq<string>, e: Entry, prefix: string, isLast: bool)
    ensures |TreeLines(patterns, e, prefix, isLast)| == Count(patterns, e)
    decreases e, 1
  {
    if !Ignored(patterns, e.name) && e.Dir? {
      var items := Listing(patterns, e);
      TreeDir(patterns, e, prefix, isLast);
      ChildCount(patterns, e, items, |items|, prefix, NextPrefix(prefix, isLast));
      assert items[..|items|] == items;
      ListingCount(patterns, e);
    }
  }

  lemma {:induction false} ChildCount(patterns: seq<string>, parent: Entry, items: seq<Entry>, n: nat,
                                      prefix: string, next: string)
    requires parent.Dir? && n <= |items|
    requires forall y :: y in items ==> y in parent.children && !Ignored(patterns, y.name)
    ensures |ChildLines(patterns, parent, items, n, prefix, next)| == SumCounts(patterns, items[..n])
    decreases parent, 0, n
  {
    if n > 0 {
      var item := items[n - 1];
      ChildCount(patterns, parent, items, n - 1, prefix, next);
      ItemCount(patterns, parent, items, n - 1, prefix, next);
      assert items[..n] == items[..n - 1] + [item];
      SumSnoc(patterns, items[..n - 1], item);
    }
  }

  /** One visible entry of a listing draws as many lines as it has visible entries. */
  lemma {:induction false} ItemCount(patterns: seq<string>, parent: Entry, items: seq<Entry>, i: nat,
                                     prefix: string, next: string)
    requires parent.Dir? && i < |items|
    requires forall y :: y in items ==> y in parent.children && !Ignored(patterns, y.name)
    ensures |ItemLines(patterns, parent, items, i, prefix, next)| == Count(patterns, items[i])
    decreases parent, 0, i
  {
    var item := items[i];
    assert item in items;
    assert item in parent.children;
    if !item.File? {
      LineCount(patterns, item, next, i == |items| - 1);
    }
  }

  /** An ignored entry adds nothing, however large its subtree. */
  lemma IgnoredInvisible(patterns: seq<string>, name: string, children: seq<Entry>, hidden: Entry)
    requires Ignored(patterns, hidden.name)
    ensures Count(patterns, Dir(name, children + [hidden])) == Count(patterns, Dir(name, children))
  {
    SumSplit(patterns, children, [hidden]);
    assert SumCounts(patterns, [hidden]) == 0;
  }

  /** Every line is drawn under the prefix it was given. */
  lemma {:induction false} TreePrefix(patterns: seq<string>, e: Entry, prefix: string, isLast: bool)
    ensures forall line :: line in TreeLines(patterns, e, prefix, isLast) ==> StartsWith(line, prefix)
    decreases e, 1
  {
    if !Ignored(patterns, e.name) {
      var head := prefix + Connector(isLast) + e.name;
      assert head[..|prefix|] == prefix;
      if e.Dir? {
        var items := Listing(patterns, e);
        var next := NextPrefix(prefix, isLast);
        TreeDir(patterns, e, prefix, isLast);
        ChildPrefix(patterns, e, items, |items|, prefix, next);
      }
    }
  }

  lemma {:induction false} ChildPrefix(patterns: seq<string>, parent: Entry, items: seq<Entry>, n: nat,
                                       prefix: string, next: string)
    requires parent.Dir? && n <= |items|
    requires forall y :: y in items ==> y in parent.children
    requires StartsWith(next, prefix)
    ensures forall line :: line in ChildLines(patterns, parent, items, n, prefix, next) ==> StartsWith(line, prefix)
    decreases parent, 0, n
  {
    if n > 0 {
      var item := items[n - 1];
      var last := n - 1 == |items| - 1;
      assert item in parent.children;
      ChildPrefix(patterns, parent, items, n - 1, prefix, next);
      if item.File? {
        var line := prefix + Blank + Connector(last) + item.name;
        assert line[..|prefix|] == prefix;
      } else {
        TreePrefix(patterns, item, next, last);
        forall line | line in TreeLines(patterns, item, next, last) ensures StartsWith(line, prefix) {
          assert line[..|next|] == next;
          assert line[..|prefix|] == next[..|prefix|];
        }
      }
    }
  }

  /**
   * The first line of each visible entry: files sit under the parent's
   * prefix plus a blank segment, directories under the continued prefix,
   * and the "last" connector marks the last entry only.
   */
  lemma ItemHead(patterns: seq<string>, parent: Entry, items: seq<Entry>, i: nat, prefix: string, next: string)
    requires parent.Dir? && i < |items|
    requires forall y :: y in items ==> y in parent.children && !Ignored(patterns, y.name)
    ensures ItemLines(patterns, parent, items, i, prefix, next) != []
    ensures ItemLines(patterns, parent, items, i, prefix, next)[0] ==
      (if items[i].File? then prefix + Blank else next)
      + (if i == |items| - 1 then LastBranch else MidBranch) + items[i].name
  {
    assert items[i] in items;
    TreeHead(patterns, items[i], next, i == |items| - 1);
  }

  const ExampleGit := Dir(".git", [File("HEAD")])
  const ExampleChildren := [File("b.txt"), File("a.txt"), ExampleGit]

  lemma ExampleNames()
    ensures Ignored(DefaultPatterns, ".git")
    ensures !Ignored(DefaultPatterns, "proj")
    ensures !Ignored(DefaultPatterns, "a.txt") && !Ignored(DefaultPatterns, "b.txt")
  {
    assert Matches(DefaultPatterns[1], ".git");
    forall i | 0 <= i < |DefaultPatterns| ensures !Matches(DefaultPatterns[i], "proj") {
    }
    ExampleFiles();
  }

  lemma ExampleFiles()
    ensures !Ignored(DefaultPatterns, "a.txt") && !Ignored(DefaultPatterns, "b.txt")
  {
    forall i | 0 <= i < |DefaultPatterns| ensures !Matches(DefaultPatterns[i], "a.txt") {
    }
    forall i | 0 <= i < |DefaultPatterns| ensures !Matches(DefaultPatterns[i], "b.txt") {
    }
  }

  lemma ExampleOrder()
    ensures NameLe(".git", "a.txt") && NameLe("a.txt", "b.txt") && !NameLe("b.txt", "a.txt")
  {
  }

  lemma ExampleSortTail()
    ensures SortByName([File("a.txt"), ExampleGit]) == [ExampleGit, File("a.txt")]
  {
    ExampleOrder();
  }

  lemma ExampleInsertLast()
    ensures Insert(File("b.txt"), [File("a.txt")]) == [File("a.txt"), File("b.txt")]
  {
    ExampleOrder();
    assert [File("a.txt")][1..] == [];
  }

  lemma ExampleInsert()
    ensures Insert(File("b.txt"), [ExampleGit, File("a.txt")]) == [ExampleGit, File("a.txt"), File("b.txt")]
  {
    assert !NameLe("b.txt", ".git");
    assert [ExampleGit, File("a.txt")][1..] == [File("a.txt")];
    ExampleInsertLast();
  }

  /** `sorted` puts `.git` first: `.` precedes the letters. */
  lemma ExampleSort()
    ensures SortByName([File("b.txt"), File("a.txt"), ExampleGit]) == [ExampleGit, File("a.txt"), File("b.txt")]
  {
    var s := [File("b.txt"), File("a.txt"), ExampleGit];
    assert s[1..] == [File("a.txt"), ExampleGit];
    ExampleSortTail();
    ExampleInsert();
  }

  lemma ExampleFilterHead()
    ensures Unignored(DefaultPatterns, [ExampleGit, File("a.txt")]) == [File("a.txt")]
  {
    ExampleNames();
    assert Unignored(DefaultPatterns, [ExampleGit]) == [];
    assert [ExampleGit, File("a.txt")][..1] == [ExampleGit];
  }

  /** Filtering drops `.git` and keeps the order of the rest. */
  lemma ExampleFilter()
    ensures Unignored(DefaultPatterns, [ExampleGit, File("a.txt"), File("b.txt")]) == [File("a.txt"), File("b.txt")]
  {
    var s := [ExampleGit, File("a.txt"), File("b.txt")];
    ExampleFiles();
    ExampleFilterHead();
    assert s[..2] == [ExampleGit, File("a.txt")] && s[2] == File("b.txt");
    assert Unignored(DefaultPatterns, s) == Unignored(DefaultPatterns, s[..2]) + [File("b.txt")];
  }

  lemma ExampleListing()
    ensures forall name :: Listing(DefaultPatterns, Dir(name, ExampleChildren)) == [File("a.txt"), File("b.txt")]
  {
    ExampleSort();
    ExampleFilter();
  }

  /** Two files as the only visible children: the first drawn with `├── `, the second with `└── `. */
  lemma TwoFiles(patterns: seq<string>, parent: Entry, a: string, b: string, prefix: string, next: string)
    requires parent.Dir? && File(a) in parent.children && File(b) in parent.children
    ensures ChildLines(patterns, parent, [File(a), File(b)], 2, prefix, next)
      == [prefix + Blank + MidBranch + a, prefix + Blank + LastBranch + b]
  {
    var items := [File(a), File(b)];
    assert forall y :: y in items ==> y in parent.children;
    var first := ItemLines(patterns, parent, items, 0, prefix, next);
    var second := ItemLines(patterns, parent, items, 1, prefix, next);
    assert ChildLines(patterns, parent, items, 1, prefix, next) == [] + first;
    assert ChildLines(patterns, parent, items, 2, prefix, next) == [] + first + second;
  }

  lemma ExampleChildLines(root: Entry)
    requires root == Dir(root.name, ExampleChildren)
    ensures ChildLines(DefaultPatterns, root, [File("a.txt"), File("b.txt")], 2, "", Blank)
      == ["    ├── a.txt", "    └── b.txt"]
  {
    assert File("a.txt") in root.children && File("b.txt") in root.children;
    TwoFiles(DefaultPatterns, root, "a.txt", "b.txt", "", Blank);
    assert "" + Blank + MidBranch + "a.txt" == "    ├── a.txt";
    assert "" + Blank + LastBranch + "b.txt" == "    └── b.txt";
  }

  /** The first line of a drawn directory followed by its children's lines. */
  lemma DirLines(patterns: seq<string>, root: Entry, items: seq<Entry>)
    requires root.Dir? && !Ignored(patterns, root.name) && Listing(patterns, root) == items
    ensures TreeLines(patterns, root, "", true) == ["└── " + root.name] + ChildLines(patterns, root, items, |items|, "", Blank)
  {
    TreeDir(patterns, root, "", true);
    assert NextPrefix("", true) == Blank;
    RootHead(root.name);
  }

  lemma RootHead(name: string)
    ensures "" + Connector(true) + name == "└── " + name
  {
    assert "" + Connector(true) == "└── ";
  }

  /** Sequence algebra over variables rather than the literal strings it is applied to; it exists only to keep the solver from comparing those strings character by character. */
  lemma Cons3(h: string, c: seq<string>, lines: seq<string>)
    requires |c| == 2 && lines == [h] + c
    ensures lines == [h, c[0], c[1]]
  {
  }

  /**
   * A directory holding `b.txt`, `a.txt` and `.git`: the two files in
   * order, `b.txt` marked last, `.git` not drawn at all.
   */
  lemma ExampleLines(root: Entry)
    requires root == Dir(root.name, ExampleChildren) && !Ignored(DefaultPatterns, root.name)
    ensures TreeLines(DefaultPatterns, root, "", true) == ["└── " + root.name, "    ├── a.txt", "    └── b.txt"]
  {
    ExampleListing();
    var items := [File("a.txt"), File("b.txt")];
    DirLines(DefaultPatterns, root, items);
    ExampleChildLines(root);
    Cons3("└── " + root.name, ChildLines(DefaultPatterns, root, items, 2, "", Blank), TreeLines(DefaultPatterns, root, "", true));
  }

  /** The example drawn as one string, for any root name the patterns keep. */
  lemma ExampleTree(root: Entry)
    requires root == Dir(root.name, ExampleChildren) && !Ignored(DefaultPatterns, root.name)
    ensures Tree(DefaultPatterns, root, "", true) == "└── " + root.name + "\n" + "    ├── a.txt" + "\n" + "    └── b.txt"
  {
    ExampleLines(root);
    var lines := TreeLines(DefaultPatterns, root, "", true);
    Join3(lines, "\n");
  }
}
