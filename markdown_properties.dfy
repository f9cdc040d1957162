/**
 * What the document assembler promises, proved about the specification
 * functions of `MarkdownGenerator` (and therefore, through the methods'
 * postconditions, about what the methods compute).
 */
module MarkdownProperties {
  import opened Options
  import opened Strings
  import opened ProjectData
  import opened MarkdownGenerator

  // ---------------------------------------------------------------------
  // The document as a whole

  lemma HeaderShape(info: Fields)
    ensures HeaderParts(info)[0] == TopAnchor
    ensures "# " + ProjectName(info) in HeaderParts(info)
    ensures "name" !in info ==> ProjectName(info) == "Projeto"
    ensures StartsWith(Header(info), TopAnchor + "\n")
  {
    JoinStartsWith(HeaderParts(info), "\n");
  }

  /** The table of contents is never omitted: it always holds its heading. */
  lemma TocNeverEmpty(sections: Sections)
    ensures StartsWith(TocSection(sections), TocHeading)
    ensures TocSection(sections) != ""
  {
    JoinStartsWith([TocHeading] + TocLines(sections, TocList), "\n");
  }

  lemma KeepNonEmpty()
    ensures forall s :: "" !in Keep(s)
  {
  }

  lemma SpecificNonEmpty(kind: string, sections: Sections)
    ensures "" !in SpecificSections(kind, sections)
  {
    forall id: string, parts: seq<string> ensures "" !in KeepFilled(sections, id, parts) {
      if id in sections && |parts| > 1 {
        JoinStartsWith(parts, "\n");
      }
    }
  }

  lemma LeadNonEmpty(sections: Sections, structure: Option<string>)
    ensures "" !in LeadFragments(sections, structure)
    ensures |LeadFragments(sections, structure)| >= 2
    ensures LeadFragments(sections, structure)[0] == Header(Section(sections, "project_info"))
    ensures TocSection(sections) in LeadFragments(sections, structure)
  {
    HeaderShape(Section(sections, "project_info"));
    TocNeverEmpty(sections);
    KeepNonEmpty();
    assert Keep(TocSection(sections)) == [TocSection(sections)];
  }

  lemma TailNonEmpty(content: seq<string>, sections: Sections)
    requires "" !in content
    ensures "" !in TailFragments(content, sections)
    ensures |TailFragments(content, sections)| >= |content|
  {
    KeepNonEmpty();
  }

  /** The sections from the roadmap on only ever extend what came before. */
  lemma TailPrefix(content: seq<string>, sections: Sections)
    ensures |TailFragments(content, sections)| >= |content|
    ensures TailFragments(content, sections)[..|content|] == content
  {
  }

  /** No fragment of the document is empty, and there are at least three. */
  lemma FragmentsNonEmpty(p: ProjectDict)
    ensures "" !in Fragments(p)
    ensures |Fragments(p)| >= 3
  {
    var sections := p.sections.GetOr(map[]);
    var lead := LeadFragments(sections, p.structure);
    var specific := SpecificSections(p.kind.GetOr(""), sections);
    LeadNonEmpty(sections, p.structure);
    SpecificNonEmpty(p.kind.GetOr(""), sections);
    TailNonEmpty(lead + specific, sections);
  }

  /**
   * The three fragments that are never omitted: the header comes first,
   * the table of contents is somewhere in the document, and the
   * back-to-top block comes last.
   */
  lemma FragmentsKept(p: ProjectDict)
    ensures |Fragments(p)| > 0
    ensures Fragments(p)[0] == Header(Section(p.sections.GetOr(map[]), "project_info"))
    ensures TocSection(p.sections.GetOr(map[])) in Fragments(p)
    ensures Fragments(p)[|Fragments(p)| - 1] == BackToTop
  {
    var sections := p.sections.GetOr(map[]);
    var lead := LeadFragments(sections, p.structure);
    var content := lead + SpecificSections(p.kind.GetOr(""), sections);
    LeadNonEmpty(sections, p.structure);
    TailPrefix(content, sections);
    Positions(lead, content, TailFragments(content, sections), Header(Section(sections, "project_info")),
      TocSection(sections), BackToTop);
  }

  /**
   * Sequence algebra over variables rather than the fragments it is applied
   * to; it exists only to keep the solver from unfolding those fragments.
   */
  lemma Positions<T>(lead: seq<T>, content: seq<T>, tail: seq<T>, first: T, x: T, last: T)
    requires |lead| > 0 && lead[0] == first && x in lead
    requires |content| >= |lead| && content[..|lead|] == lead
    requires |tail| >= |content| && tail[..|content|] == content
    ensures (tail + [last])[0] == first && x in tail + [last]
    ensures (tail + [last])[|tail + [last]| - 1] == last
  {
    var k :| 0 <= k < |lead| && lead[k] == x;
    assert content[k] == x && tail[k] == x;
    assert (tail + [last])[k] == x;
    assert tail[0] == content[0];
  }

  /** The header always comes first and the back-to-top block always last. */
  lemma MarkdownFrame(p: ProjectDict)
    ensures StartsWith(Markdown(p), Header(Section(p.sections.GetOr(map[]), "project_info")) + "\n\n")
    ensures EndsWith(Markdown(p), "\n\n" + BackToTop)
  {
    FragmentsNonEmpty(p);
    JoinStartsWith(Fragments(p), "\n\n");
    JoinEndsWith(Fragments(p), "\n\n");
  }

  lemma TocLinesNone(list: seq<(string, string)>)
    ensures TocLines(map[], list) == []
  {
  }

  lemma EmptyToc(sections: Sections)
    requires sections == map[]
    ensures TocSection(sections) == TocHeading
  {
    TocLinesNone(TocList);
  }

  lemma EmptySpecific(kind: string, sections: Sections)
    requires sections == map[]
    ensures SpecificSections(kind, sections) == []
  {
    forall id ensures Section(sections, id) == map[] {}
  }

  /** Sequence algebra over variables rather than the literal strings it is applied to; it exists only to keep the solver from comparing those strings character by character. */
  lemma LeadShape(h: string, x: string, a: seq<string>, b: seq<string>, c: seq<string>, d: seq<string>,
                  e: seq<string>, f: seq<string>, g: seq<string>)
    requires a == [] && b == [x] && c == [] && d == [] && e == [] && f == [] && g == []
    ensures [h] + a + b + c + d + e + f + g == [h, x]
  {
  }

  lemma EmptyLead(sections: Sections, structure: Option<string>)
    requires sections == map[] && structure.GetOr("") == ""
    ensures LeadFragments(sections, structure) == [Header(Section(sections, "project_info")), TocHeading]
  {
    var none: Fields := map[];
    assert Section(sections, "about") == none && Section(sections, "technology") == none;
    assert Section(sections, "installation") == none && Section(sections, "usage") == none;
    assert Section(sections, "structure") == none && Section(sections, "api") == none;
    StructureGate(structure, none);
    ApiGate(none);
    EmptyToc(sections);
    assert Keep(TocSection(sections)) == [TocHeading];
    LeadShape(Header(Section(sections, "project_info")), TocHeading,
      Keep(AboutSection(Section(sections, "about"))),
      Keep(TocSection(sections)),
      Keep(TechSection(Section(sections, "technology"))),
      Keep(InstallSection(Section(sections, "installation"))),
      Keep(UsageSection(Section(sections, "usage"))),
      Keep(StructureSection(structure, Section(sections, "structure"))),
      Keep(ApiSection(Section(sections, "api"))));
  }

  lemma EmptyTail(content: seq<string>, sections: Sections)
    requires sections == map[]
    ensures TailFragments(content, sections) == content
  {
    forall id ensures Section(sections, id) == map[] {}
  }

  /** Sequence algebra over variables rather than the literal strings it is applied to; it exists only to keep the solver from comparing those strings character by character. */
  lemma Snoc3<T>(init: seq<T>, x: T, y: T, z: T)
    requires init == [x, y]
    ensures init + [z] == [x, y, z]
  {
  }

  lemma EmptyContent(sections: Sections, structure: Option<string>, kind: string)
    requires sections == map[] && structure.GetOr("") == ""
    ensures TailFragments(LeadFragments(sections, structure) + SpecificSections(kind, sections), sections)
      == [Header(Section(sections, "project_info")), TocHeading]
  {
    var lead := LeadFragments(sections, structure);
    var specific := SpecificSections(kind, sections);
    EmptyLead(sections, structure);
    EmptySpecific(kind, sections);
    assert lead + specific == lead;
    EmptyTail(lead + specific, sections);
  }

  lemma EmptyFragments(p: ProjectDict)
    requires p.sections.GetOr(map[]) == map[]
    requires p.structure.GetOr("") == ""
    ensures Fragments(p) == [Header(Section(p.sections.GetOr(map[]), "project_info")), TocHeading, BackToTop]
  {
    var sections := p.sections.GetOr(map[]);
    var content := TailFragments(LeadFragments(sections, p.structure) + SpecificSections(p.kind.GetOr(""), sections), sections);
    EmptyContent(sections, p.structure, p.kind.GetOr(""));
    Snoc3(content, Header(Section(sections, "project_info")), TocHeading, BackToTop);
  }

  /**
   * A project with no sections (and no tree diagram) yields exactly the
   * header, the table-of-contents heading and the back-to-top block;
   * `EmptyName` says which name that header carries.
   */
  lemma EmptyProject(p: ProjectDict)
    requires p.sections.GetOr(map[]) == map[]
    requires p.structure.GetOr("") == ""
    ensures Markdown(p) ==
      Header(Section(p.sections.GetOr(map[]), "project_info")) + "\n\n" + TocHeading + "\n\n" + BackToTop
  {
    EmptyFragments(p);
    Join3([Header(Section(p.sections.GetOr(map[]), "project_info")), TocHeading, BackToTop], "\n\n");
  }

  /** Without a `project_info` section the header names the project `Projeto`. */
  lemma EmptyName(p: ProjectDict)
    requires p.sections.GetOr(map[]) == map[]
    ensures Section(p.sections.GetOr(map[]), "project_info") == map[]
    ensures ProjectName(Section(p.sections.GetOr(map[]), "project_info")) == DefaultName
  {
  }



  // ---------------------------------------------------------------------
  // Table of contents

  /** The allow-list positions whose section is present, in increasing order. */
  ghost function TocKept(sections: Sections, list: seq<(string, string)>): seq<nat> {
    if list == [] then []
    else
      TocKept(sections, list[..|list| - 1])
      + (if Present(sections, list[|list| - 1].0) then [|list| - 1] else [])
  }

  /**
   * The entries are exactly those of the allow-listed ids that are present
   * with a non-empty map, one each, in allow-list order.
   */
  lemma {:induction false} TocEntries(sections: Sections, list: seq<(string, string)>)
    ensures |TocLines(sections, list)| == |TocKept(sections, list)|
    ensures forall m :: 0 <= m < |TocKept(sections, list)| ==>
      TocKept(sections, list)[m] < |list| &&
      TocLines(sections, list)[m] == TocEntry(list[TocKept(sections, list)[m]].0, list[TocKept(sections, list)[m]].1)
    ensures forall m, n :: 0 <= m < n < |TocKept(sections, list)| ==>
      TocKept(sections, list)[m] < TocKept(sections, list)[n]
    ensures forall j :: 0 <= j < |list| ==> (j in TocKept(sections, list) <==> Present(sections, list[j].0))
  {
    if list != [] {
      var init, last := list[..|list| - 1], |list| - 1;
      var (id, title) := list[last];
      var tail: seq<nat> := if Present(sections, id) then [last] else [];
      var add: seq<string> := if Present(sections, id) then [TocEntry(id, title)] else [];
      var kept, lines := TocKept(sections, list), TocLines(sections, list);
      assert kept == TocKept(sections, init) + tail;
      assert lines == TocLines(sections, init) + add;
      TocEntries(sections, init);
      var k0 := TocKept(sections, init);
      forall m | 0 <= m < |kept| ensures kept[m] < |list| && lines[m] == TocEntry(list[kept[m]].0, list[kept[m]].1) {
        if m < |k0| {
          assert kept[m] == k0[m] && lines[m] == TocLines(sections, init)[m];
          assert init[k0[m]] == list[k0[m]];
        } else {
          assert kept[m] == last && lines[m] == TocEntry(id, title);
        }
      }
      forall m, n | 0 <= m < n < |kept| ensures kept[m] < kept[n] {
        assert kept[m] == k0[m];
        if n < |k0| {
          assert kept[n] == k0[n];
        } else {
          assert kept[n] == last;
        }
      }
      forall j | 0 <= j < |list| ensures j in kept <==> Present(sections, list[j].0) {
        assert j in kept <==> j in k0 || j in tail;
        if j < last {
          assert init[j] == list[j];
          assert j !in tail;
        } else {
          assert j !in k0;
        }
      }
    }
  }

  lemma OnlyTwo(k: seq<nat>, a: nat, b: nat)
    requires a < b && a in k && b in k
    requires forall m :: 0 <= m < |k| ==> k[m] == a || k[m] == b
    requires forall m, n :: 0 <= m < n < |k| ==> k[m] < k[n]
    ensures k == [a, b]
  {
    var i :| 0 <= i < |k| && k[i] == a;
    var j :| 0 <= j < |k| && k[j] == b;
    assert i != j;
    // With three or more entries the middle one would lie strictly between a and b.
    var first, middle, last := k[0], k[|k| / 2], k[|k| - 1];
    assert |k| > 2 ==> first < middle < last;
    assert |k| == 2;
    assert k[0] == a && k[1] == b;
  }

  /** With only `about` and `license` filled in, exactly their two entries, about first. */
  lemma TocExample(about: Fields, license: Fields)
    requires |about| > 0 && |license| > 0
    ensures TocLines(map["about" := about, "license" := license], TocList)
      == [TocEntry("about", "Sobre o Projeto"), TocEntry("license", "Licença")]
  {
    var sections := map["about" := about, "license" := license];
    var k := TocKept(sections, TocList);
    TocEntries(sections, TocList);
    assert 0 in k && 8 in k;
    forall j | 0 <= j < |TocList| && j != 0 && j != 8 ensures j !in k {
      assert !Present(sections, TocList[j].0);
    }
    assert forall m :: 0 <= m < |k| ==> k[m] == 0 || k[m] == 8;
    OnlyTwo(k, 0, 8);
  }

  // ---------------------------------------------------------------------
  // Line lists

  lemma {:induction false} RenderAppend(rule: LineRule, a: seq<string>, b: seq<string>)
    ensures Render(rule, a + b) == Render(rule, a) + Render(rule, b)
    decreases |b|
  {
    if b != [] {
      var b', last := b[..|b| - 1], b[|b| - 1];
      assert (a + b)[..|a + b| - 1] == a + b' && (a + b)[|a + b| - 1] == last;
      RenderAppend(rule, a, b');
      Assoc(Render(rule, a), Render(rule, b'), RuleLines(rule, last));
    } else {
      assert a + b == a;
    }
  }


  /** Sequence algebra over variables rather than the literal strings it is applied to; it exists only to keep the solver from comparing those strings character by character. */
  lemma Assoc<T>(x: seq<T>, y: seq<T>, z: seq<T>)
    ensures (x + y) + z == x + (y + z)
  {
  }

  /** The per-line rule as a function value. */
  function Rows(rule: LineRule): string -> seq<string> {
    line => RuleLines(rule, line)
  }

  /** `Render`, for any per-line function. */
  ghost function Apply(f: string -> seq<string>, lines: seq<string>): seq<string> {
    if lines == [] then [] else Apply(f, lines[..|lines| - 1]) + f(lines[|lines| - 1])
  }

  lemma {:induction false} RenderApply(rule: LineRule, lines: seq<string>)
    ensures Render(rule, lines) == Apply(Rows(rule), lines)
  {
    if lines != [] {
      RenderApply(rule, lines[..|lines| - 1]);
    }
  }

  lemma AtMostOne(rule: LineRule)
    ensures forall line :: |Rows(rule)(line)| <= 1
  {
  }

  /** The positions of the lines that produce output, in increasing order. */
  ghost function Kept(f: string -> seq<string>, lines: seq<string>): seq<nat> {
    if lines == [] then []
    else Kept(f, lines[..|lines| - 1]) + (if f(lines[|lines| - 1]) != [] then [|lines| - 1] else [])
  }

  lemma {:induction false} KeptOrder(f: string -> seq<string>, lines: seq<string>)
    ensures forall m :: 0 <= m < |Kept(f, lines)| ==> Kept(f, lines)[m] < |lines|
    ensures forall m, n :: 0 <= m < n < |Kept(f, lines)| ==> Kept(f, lines)[m] < Kept(f, lines)[n]
  {
    if lines != [] {
      KeptOrder(f, lines[..|lines| - 1]);
    }
  }

  lemma {:induction false} KeptMembers(f: string -> seq<string>, lines: seq<string>)
    ensures forall j :: 0 <= j < |lines| ==> (j in Kept(f, lines) <==> f(lines[j]) != [])
  {
    if lines != [] {
      var init, last := lines[..|lines| - 1], |lines| - 1;
      var tail: seq<nat> := if f(lines[last]) != [] then [last] else [];
      assert Kept(f, lines) == Kept(f, init) + tail;
      KeptMembers(f, init);
      KeptOrder(f, init);
      forall j | 0 <= j < |lines| ensures j in Kept(f, lines) <==> f(lines[j]) != [] {
        assert j in Kept(f, lines) <==> j in Kept(f, init) || j in tail;
        if j < |init| {
          assert init[j] == lines[j];
          assert j !in tail;
        } else {
          assert j !in Kept(f, init);
        }
      }
    }
  }

  lemma {:induction false} KeptRows(f: string -> seq<string>, lines: seq<string>)
    requires forall line :: |f(line)| <= 1
    ensures |Apply(f, lines)| == |Kept(f, lines)|
    ensures forall m :: 0 <= m < |Kept(f, lines)| ==>
      Kept(f, lines)[m] < |lines| && f(lines[Kept(f, lines)[m]]) == [Apply(f, lines)[m]]
  {
    KeptOrder(f, lines);
    if lines != [] {
      var init, last := lines[..|lines| - 1], |lines| - 1;
      var tail: seq<nat> := if f(lines[last]) != [] then [last] else [];
      var kept, out := Kept(f, lines), Apply(f, lines);
      assert kept == Kept(f, init) + tail;
      assert out == Apply(f, init) + f(lines[last]);
      KeptRows(f, init);
      KeptOrder(f, init);
      assert |f(lines[last])| == |tail|;
      forall m | 0 <= m < |kept| ensures kept[m] < |lines| && f(lines[kept[m]]) == [out[m]] {
        if m < |Kept(f, init)| {
          assert kept[m] == Kept(f, init)[m] && out[m] == Apply(f, init)[m];
          assert init[Kept(f, init)[m]] == lines[kept[m]];
        } else {
          assert kept[m] == last && out[m] == f(lines[last])[0];
        }
      }
    }
  }

  /**
   * Every non-blank line becomes one bullet holding the marker and the
   * trimmed line, in input order; blank lines produce nothing.
   */
  lemma BulletLines(marker: string, lines: seq<string>)
    ensures |Render(Bullet(marker), lines)| == |Kept(Rows(Bullet(marker)), lines)|
    ensures forall m :: 0 <= m < |Kept(Rows(Bullet(marker)), lines)| ==>
      Kept(Rows(Bullet(marker)), lines)[m] < |lines| &&
      Render(Bullet(marker), lines)[m] == marker + Strip(lines[Kept(Rows(Bullet(marker)), lines)[m]])
    ensures forall m, n :: 0 <= m < n < |Kept(Rows(Bullet(marker)), lines)| ==>
      Kept(Rows(Bullet(marker)), lines)[m] < Kept(Rows(Bullet(marker)), lines)[n]
    ensures forall j :: 0 <= j < |lines| ==> (j in Kept(Rows(Bullet(marker)), lines) <==> Strip(lines[j]) != "")
  {
    var f := Rows(Bullet(marker));
    RenderApply(Bullet(marker), lines);
    AtMostOne(Bullet(marker));
    KeptRows(f, lines);
    KeptOrder(f, lines);
    KeptMembers(f, lines);
  }

  /** A bullet's text is never empty and never begins or ends with whitespace. */
  lemma BulletText(marker: string, line: string)
    requires Strip(line) != ""
    ensures RuleLines(Bullet(marker), line) == [marker + Strip(line)]
    ensures !IsSpace(Strip(line)[0]) && !IsSpace(Strip(line)[|Strip(line)| - 1])
  {
    StripEnds(line);
  }

  /** One badge per comma-separated piece, in input order. */
  lemma {:induction false} ApplyOne(f: string -> seq<string>, lines: seq<string>)
    requires forall line :: |f(line)| == 1
    ensures |Apply(f, lines)| == |lines|
    ensures forall k :: 0 <= k < |lines| ==> [Apply(f, lines)[k]] == f(lines[k])
  {
    if lines != [] {
      var init := lines[..|lines| - 1];
      ApplyOne(f, init);
      assert forall j :: 0 <= j < |init| ==> init[j] == lines[j];
    }
  }

  /** One badge per technology, in the order they are listed. */
  lemma BadgeLines(urls: map<string, Shield>, pieces: seq<string>)
    ensures |Render(BadgeRow(urls), pieces)| == |pieces|
    ensures forall k :: 0 <= k < |pieces| ==> Render(BadgeRow(urls), pieces)[k] == Badge(urls, pieces[k])
  {
    var f := Rows(BadgeRow(urls));
    assert forall line :: f(line) == [Badge(urls, line)];
    RenderApply(BadgeRow(urls), pieces);
    ApplyOne(f, pieces);
  }

  /** A badge is an image exactly when the trimmed, lower-cased name is in the table. */
  lemma BadgeKind(tech: string)
    ensures Lower(Strip(tech)) in BadgeUrls ==>
      Badge(BadgeUrls, tech) == "<img src=\"" + ShieldUrl(BadgeUrls[Lower(Strip(tech))]) + "\" alt=\"" + Strip(tech) + "\">"
    ensures Lower(Strip(tech)) !in BadgeUrls ==> Badge(BadgeUrls, tech) == "**" + Strip(tech) + "**"
  {
  }

  /** The worked example's technology list splits at each comma, leading spaces kept. */
  lemma ExampleTechSplit(s: string)
    requires s == "Python, flask, Unknown-Tool"
    ensures Split(s, ',') == ["Python", " flask", " Unknown-Tool"]
  {
    assert s == "Python" + [','] + " flask" + [','] + " Unknown-Tool";
    SplitThree("Python", " flask", " Unknown-Tool", ',');
  }

  /** A technology whose stripped, lower-cased name is the table key `key` gets that entry's image. */
  lemma TableBadge(urls: map<string, Shield>, t: string, name: string, key: string)
    requires Strip(t) == name && Lower(name) == key && key in urls
    ensures Badge(urls, t) == ImageTag(ShieldUrl(urls[key]), name)
  {
  }

  /** A technology whose stripped, lower-cased name is not a table key is set in bold. */
  lemma PlainBadge(urls: map<string, Shield>, t: string, name: string, key: string)
    requires Strip(t) == name && Lower(name) == key && key !in urls
    ensures Badge(urls, t) == Bold(name)
  {
  }

  /** The three table facts the example needs. */
  lemma ExampleTable()
    ensures "python" in BadgeUrls && BadgeUrls["python"] == Shield("Python", "3776AB", "python", "white")
    ensures "flask" in BadgeUrls && BadgeUrls["flask"] == Shield("Flask", "000000", "flask", "white")
    ensures "unknown-tool" !in BadgeUrls
  {
  }

  /** A name after one space strips to the name. */
  lemma ExampleStrip(t: string, name: string)
    requires name == "flask" || name == "Unknown-Tool"
    requires t == [' '] + name
    ensures Strip(t) == name
  {
    StripOneLeading(' ', name);
  }

  /** `flask` is already lower case. */
  lemma ExampleLowerFlask(t: string)
    requires t == "flask"
    ensures Lower(t) == "flask"
  {
  }

  /** `Unknown-Tool` lowers to `unknown-tool`. */
  lemma ExampleLowerUnknown(t: string)
    requires t == "Unknown-Tool"
    ensures Lower(t) == "unknown-tool"
  {
  }

  /** `Python` lowers to the table key `python`. */
  lemma ExampleLower(t: string)
    requires t == "Python"
    ensures Lower(t) == "python"
  {
  }

  /** `Python` is looked up as `python` and gets the Python image, named as written. */
  lemma ExamplePython(t: string)
    requires t == "Python"
    ensures Badge(BadgeUrls, t) == ImageTag(ShieldUrl(Shield("Python", "3776AB", "python", "white")), "Python")
  {
    StripKeeps(t);
    ExampleLower(t);
    ExampleTable();
    TableBadge(BadgeUrls, t, "Python", "python");
  }

  /** ` flask` is stripped, found as `flask`, and keeps its own spelling as alt text. */
  lemma ExampleFlask(t: string)
    requires t == " flask"
    ensures Badge(BadgeUrls, t) == ImageTag(ShieldUrl(Shield("Flask", "000000", "flask", "white")), "flask")
  {
    ExampleStrip(t, "flask");
    ExampleLowerFlask("flask");
    ExampleTable();
    TableBadge(BadgeUrls, t, "flask", "flask");
  }

  /** ` Unknown-Tool` is not in the table, so it is the stripped name in bold. */
  lemma ExampleUnknown(t: string)
    requires t == " Unknown-Tool"
    ensures Badge(BadgeUrls, t) == Bold("Unknown-Tool")
  {
    ExampleStrip(t, "Unknown-Tool");
    ExampleLowerUnknown("Unknown-Tool");
    ExampleTable();
    PlainBadge(BadgeUrls, t, "Unknown-Tool", "unknown-tool");
  }

  /**
   * `Python, flask, Unknown-Tool` gives the Python and Flask image badges
   * and then the unknown name in bold, in the order written.
   */
  lemma ExampleBadges(s: string)
    requires s == "Python, flask, Unknown-Tool"
    ensures Render(BadgeRow(BadgeUrls), Split(s, ',')) == [
      ImageTag(ShieldUrl(Shield("Python", "3776AB", "python", "white")), "Python"),
      ImageTag(ShieldUrl(Shield("Flask", "000000", "flask", "white")), "flask"),
      Bold("Unknown-Tool")]
  {
    ExampleTechSplit(s);
    var pieces := Split(s, ',');
    var r := Render(BadgeRow(BadgeUrls), pieces);
    BadgeLines(BadgeUrls, pieces);
    ExamplePython(pieces[0]);
    ExampleFlask(pieces[1]);
    ExampleUnknown(pieces[2]);
    Three(r, r[0], r[1], r[2]);
  }

  /** A three-element sequence given by its elements. Sequence algebra over variables rather than the literal strings it is applied to; it exists only to keep the solver from comparing those strings character by character. */
  lemma Three<T>(r: seq<T>, a: T, b: T, c: T)
    requires |r| == 3 && r[0] == a && r[1] == b && r[2] == c
    ensures r == [a, b, c]
  {
  }

  /** The occurrence at the end of a separator-free prefix is the first one. */
  lemma FirstOccurrence(line: string, a: string, b: string, sep: string)
    requires line == a + sep + b
    requires forall j :: 0 <= j < |a| ==> !OccursAt(line, sep, j)
    ensures SplitOnce(line, sep) == Some((a, b))
  {
    assert line[|a|..|a| + |sep|] == sep;
    assert OccursAt(line, sep, |a|);
    var r := SplitOnce(line, sep);
    assert r.Some?;
    var (x, y) := r.value;
    assert OccursAt(line, sep, |x|) by {
      assert line[|x|..|x| + |sep|] == sep;
    }
    assert |x| == |a|;
    assert x == line[..|a|] == a;
    assert y == line[|a| + |sep|..] == b;
  }

  lemma CharOccurs(line: string, c: char, j: nat)
    requires j < |line|
    ensures OccursAt(line, [c], j) <==> line[j] == c
  {
    if line[j] == c {
      assert line[j..j + 1] == [c];
    }
  }

  /** A commands line is split at its first colon into command and description. */
  lemma CommandSplit(line: string, cmd: string, desc: string)
    requires line == cmd + ":" + desc && ':' !in cmd
    ensures RuleLines(CommandRow, line) == ["| `" + Strip(cmd) + "` | " + Strip(desc) + " |"]
  {
    forall j | 0 <= j < |cmd| ensures !OccursAt(line, ":", j) {
      CharOccurs(line, ':', j);
      assert line[j] == cmd[j];
    }
    FirstOccurrence(line, cmd, desc, ":");
  }

  /** A non-blank line without a colon gets a dash; a blank one no row. */
  lemma CommandNoColon(line: string)
    requires ':' !in line
    ensures Strip(line) != "" ==> RuleLines(CommandRow, line) == ["| `" + Strip(line) + "` | - |"]
    ensures Strip(line) == "" ==> RuleLines(CommandRow, line) == []
  {
  }

  /** A team line is split at its first `" - "` into name and role. */
  lemma MemberSplit(line: string, name: string, role: string)
    requires line == name + " - " + role
    requires forall j :: 0 <= j < |name| ==> !OccursAt(line, " - ", j)
    ensures RuleLines(MemberRow, line) == ["* **" + Strip(name) + "** - " + Strip(role)]
  {
    assert line[|name| + 1] == '-';
    if Strip(line) == "" {
      StripEmpty(line);
      assert false;
    }
    FirstOccurrence(line, name, role, " - ");
  }

  /** A non-blank team line without the separator is a bare bold name. */
  lemma MemberNoRole(line: string)
    requires !Contains(line, " - ") && Strip(line) != ""
    ensures RuleLines(MemberRow, line) == ["* **" + Strip(line) + "**"]
  {
  }

  // ---------------------------------------------------------------------
  // Gating

  /** The tree diagram is preferred; with neither source the section is omitted. */
  lemma StructureGate(tree: Option<string>, d: Fields)
    ensures StructureSection(tree, d) == "" <==> tree.GetOr("") == "" && Field(d, "manual_structure") == ""
    ensures tree.GetOr("") != "" ==>
      StructureSection(tree, d) == Join([StructureHeading, "```", tree.value, "```"], "\n")
    ensures tree.GetOr("") == "" && Field(d, "manual_structure") != "" ==>
      StructureSection(tree, d) == Join([StructureHeading, "```", Field(d, "manual_structure"), "```"], "\n")
  {
  }

  /** The API section is emitted exactly when `has_api` is `Sim`, heading included. */
  lemma ApiGate(d: Fields)
    ensures ApiSection(d) != "" <==> "has_api" in d && d["has_api"] == Text("Sim")
    ensures "has_api" in d && d["has_api"] == Text("Sim") && Field(d, "api_documentation") == "" ==>
      ApiSection(d) == ApiHeading
  {
  }

  /** Only backend, frontend and mobile projects get type-specific sections. */
  lemma SpecificKinds(kind: string, sections: Sections)
    ensures kind != "backend" && kind != "frontend" && kind != "mobile" ==> SpecificSections(kind, sections) == []
    ensures kind == "backend" ==>
      (SpecificSections(kind, sections) != [] <==>
        "database" in sections &&
        (Field(sections["database"], "database_schema") != "" || Field(sections["database"], "migrations") != ""))
    ensures kind == "mobile" ==>
      (SpecificSections(kind, sections) != [] <==>
        "platforms" in sections &&
        (ChoiceList(sections["platforms"], "platform_list") != [] || Field(sections["platforms"], "min_versions") != ""))
  {
  }

  /** Each frontend section appears on its own, when one of its fields is filled. */
  lemma FrontendSections(sections: Sections)
    ensures |SpecificSections("frontend", sections)| ==
      (if "ui_components" in sections &&
          (Field(sections["ui_components"], "ui_library") != "" ||
           Field(sections["ui_components"], "component_structure") != "") then 1 else 0)
      + (if "state_management" in sections &&
            (Field(sections["state_management"], "state_solution") != "" ||
             Field(sections["state_management"], "state_description") != "") then 1 else 0)
  {
  }

  /** A `platform_list` string is treated like the one-element list holding it. */
  lemma PlatformString(d: Fields, s: string)
    requires s != ""
    ensures PlatformParts(d["platform_list" := Text(s)]) == PlatformParts(d["platform_list" := Choices([s])])
  {
    var dt := d["platform_list" := Text(s)];
    var dc := d["platform_list" := Choices([s])];
    assert ChoiceList(dt, "platform_list") == [s] == ChoiceList(dc, "platform_list");
    assert Field(dt, "min_versions") == Field(dc, "min_versions");
  }

  // ---------------------------------------------------------------------
  // License

  lemma LicenseBranches(d: Fields)
    ensures Field(d, "license_type") == "Outra" && Field(d, "custom_license") != "" ==>
      LicenseBody(d) == Field(d, "custom_license")
    ensures Field(d, "license_type") == "Outra" && Field(d, "custom_license") == "" ==>
      LicenseBody(d) == LicenseSentence("Outra")
    ensures Field(d, "license_type") !in {"", "Outra", "Nenhuma"} ==>
      LicenseBody(d) == LicenseSentence(Field(d, "license_type"))
    ensures Field(d, "license_type") in {"", "Nenhuma"} ==> LicenseBody(d) == NoLicense
    ensures |d| > 0 ==> LicenseSection(d) == LicenseHeading + "\n" + LicenseBody(d)
  {
    assert Join([LicenseHeading, LicenseBody(d)], "\n") == LicenseHeading + "\n" + Join([LicenseBody(d)], "\n");
  }

  // ---------------------------------------------------------------------
  // FAQ

  /** The text of the most recent question line, `""` when there is none. */
  ghost function LastQuestion(lines: seq<string>): string {
    if lines == [] then ""
    else if IsQuestion(Strip(lines[|lines| - 1])) then MarkerText(Strip(lines[|lines| - 1]))
    else LastQuestion(lines[..|lines| - 1])
  }

  lemma StepState(out: seq<string>, open: string, line: string)
    ensures FaqStep(out, open, line).1 == if IsQuestion(Strip(line)) then MarkerText(Strip(line)) else open
  {
    var item := Strip(line);
    if !IsQuestion(item) {
      assert FaqStep(out, open, line).1 == open;
    }
  }

  /** The parser's state is the text of the last question seen: it is never cleared. */
  lemma {:induction false} FaqState(lines: seq<string>)
    ensures FaqRun(lines).1 == LastQuestion(lines)
  {
    if lines != [] {
      var init, last := lines[..|lines| - 1], lines[|lines| - 1];
      FaqState(init);
      assert FaqRun(lines) == FaqStep(FaqRun(init).0, FaqRun(init).1, last);
      StepState(FaqRun(init).0, FaqRun(init).1, last);
    }
  }

  lemma AnswerNotQuestion(item: string)
    requires IsAnswer(item)
    ensures !IsQuestion(item)
  {
    assert item[0] == 'R' || item[0] == 'A';
  }

  lemma AnswerStep(out: seq<string>, open: string, line: string)
    requires IsAnswer(Strip(line))
    ensures FaqStep(out, open, line) == (if open != "" then out + [MarkerText(Strip(line))] else out, open)
  {
    AnswerNotQuestion(Strip(line));
  }

  lemma Snoc(pre: seq<string>, line: string)
    ensures (pre + [line])[..|pre + [line]| - 1] == pre
  {
  }

  /**
   * An answer line is kept exactly when the most recent question has
   * non-empty text, however many answers already followed it.
   */
  lemma FaqAnswer(pre: seq<string>, line: string)
    requires IsAnswer(Strip(line))
    ensures FaqRun(pre + [line]).0 ==
      FaqRun(pre).0 + (if LastQuestion(pre) != "" then [MarkerText(Strip(line))] else [])
  {
    Snoc(pre, line);
    FaqState(pre);
    assert FaqRun(pre + [line]) == FaqStep(FaqRun(pre).0, FaqRun(pre).1, line);
    AnswerStep(FaqRun(pre).0, FaqRun(pre).1, line);
  }

  lemma StepQuestion(out: seq<string>, open: string, line: string)
    requires IsQuestion(Strip(line))
    ensures FaqStep(out, open, line)
      == ((if open != "" then out + [""] else out) + ["### " + MarkerText(Strip(line))], MarkerText(Strip(line)))
  {
  }

  /** A question opens a heading, preceded by a blank line when one was open. */
  lemma FaqQuestion(pre: seq<string>, line: string)
    requires IsQuestion(Strip(line))
    ensures FaqRun(pre + [line]).0 ==
      FaqRun(pre).0 + (if LastQuestion(pre) != "" then [""] else []) + ["### " + MarkerText(Strip(line))]
    ensures FaqRun(pre + [line]).1 == MarkerText(Strip(line))
  {
    var state := FaqRun(pre);
    Snoc(pre, line);
    FaqState(pre);
    assert FaqRun(pre + [line]) == FaqStep(state.0, state.1, line);
    StepQuestion(state.0, state.1, line);
  }

  /** Other lines are ignored. */
  lemma FaqOther(pre: seq<string>, line: string)
    requires !IsQuestion(Strip(line)) && !IsAnswer(Strip(line))
    ensures FaqRun(pre + [line]) == FaqRun(pre)
  {
    Snoc(pre, line);
  }

  /** Answers before any question are dropped: without a question, no output. */
  lemma {:induction false} FaqNoQuestion(lines: seq<string>)
    requires forall j :: 0 <= j < |lines| ==> !IsQuestion(Strip(lines[j]))
    ensures FaqRun(lines) == ([], "")
  {
    if lines != [] {
      FaqNoQuestion(lines[..|lines| - 1]);
    }
  }
}
