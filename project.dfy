/**
 * The project being documented, as the web session keeps it: a type, a
 * name, the sections filled in so far, an optional tree diagram and a
 * theme. It is stored as a dictionary between requests and rebuilt from
 * one.
 */
module ProjectModel {
  import opened Options
  import opened ProjectData

  const DefaultTheme := "default"

  /**
   * The dictionary `from_dict` followed by `to_dict` gives back: missing
   * sections become the empty map and a missing theme becomes the default.
   */
  function Normalize(d: ProjectDict): (r: ProjectDict)
    ensures r.sections.Some? && r.theme.Some?
    ensures r.kind == d.kind && r.name == d.name && r.structure == d.structure
    ensures d.sections.Some? ==> r.sections == d.sections
    ensures d.sections.None? ==> r.sections == Some(map[])
    ensures d.theme.Some? ==> r.theme == d.theme
    ensures d.theme.None? ==> r.theme == Some(DefaultTheme)
  {
    ProjectDict(d.kind, d.name, Some(d.sections.GetOr(map[])), d.structure, Some(d.theme.GetOr(DefaultTheme)))
  }

  class Project {
    var kind: Option<string>
    var name: Option<string>
    var sections: Sections
    var structure: Option<string>
    var theme: string

    /** A new project has no sections, no tree and the default theme. */
    constructor (kind: Option<string>, name: Option<string>)
      ensures this.kind == kind && this.name == name
      ensures sections == map[] && structure == None && theme == DefaultTheme
    {
      this.kind := kind;
      this.name := name;
      sections := map[];
      structure := None;
      theme := DefaultTheme;
    }

    /** The dictionary the session stores. */
    function ToDict(): (d: ProjectDict)
      reads this
      ensures d.sections.Some? && d.theme.Some?
      ensures Normalize(d) == d
    {
      ProjectDict(kind, name, Some(sections), structure, Some(theme))
    }

    /** Rebuild a project from a stored dictionary, with defaults for the keys that are missing. */
    static method FromDict(d: ProjectDict) returns (p: Project)
      ensures fresh(p)
      ensures p.kind == d.kind && p.name == d.name && p.structure == d.structure
      ensures p.sections == d.sections.GetOr(map[]) && p.theme == d.theme.GetOr(DefaultTheme)
      ensures p.ToDict() == Normalize(d)
    {
      p := new Project(d.kind, d.name);
      p.sections := d.sections.GetOr(map[]);
      p.structure := d.structure;
      p.theme := d.theme.GetOr(DefaultTheme);
    }

    /** Replace one section's fields; every other section and field stays as it was. */
    method UpdateSection(id: string, data: Fields)
      modifies this
      ensures sections == old(sections)[id := data]
      ensures kind == old(kind) && name == old(name) && structure == old(structure) && theme == old(theme)
      ensures GetSection(id) == data && IsSectionComplete(id)
      ensures forall other :: other != id ==> GetSection(other) == old(GetSection(other))
    {
      sections := sections[id := data];
    }

    /**
     * The fields of a section, or none if it was never filled in. The
     * contract is the definition itself (`sections.get(id, {})`); what is
     * proved about it is the get/put law in `UpdateSection`.
     */
    function GetSection(id: string): (r: Fields)
      reads this
      ensures r == Section(sections, id)
      ensures id !in sections ==> r == map[]
    {
      if id in sections then sections[id] else map[]
    }

    /**
     * Whether the section has been submitted at all; its fields are not
     * inspected. The contract is the definition itself; `UpdateSection`
     * proves an updated section reads back as complete.
     */
    function IsSectionComplete(id: string): (r: bool)
      reads this
      ensures r <==> id in sections
    {
      id in sections
    }
  }

  /**
   * A project rebuilt from another's stored dictionary (what `FromDict`
   * promises) has every field of the original.
   */
  lemma RoundTrip(p: Project, q: Project)
    requires q.ToDict() == Normalize(p.ToDict())
    ensures q.kind == p.kind && q.name == p.name && q.structure == p.structure
    ensures q.sections == p.sections && q.theme == p.theme
  {
  }

  /** A dictionary that already has both defaulted keys is stored back unchanged. */
  lemma NormalizeKeeps(d: ProjectDict)
    requires d.sections.Some? && d.theme.Some?
    ensures Normalize(d) == d
  {
  }

  /** Rebuilding twice changes nothing more than rebuilding once. */
  lemma NormalizeIdempotent(d: ProjectDict)
    ensures Normalize(Normalize(d)) == Normalize(d)
  {
  }
}
