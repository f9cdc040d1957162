/**
 * The field catalogue: which sections, and which fields in each, the
 * editor offers for a project type. Every type gets the base sections;
 * a known type then has its own sections written over them, one
 * dictionary assignment per section, so a specific section with the id
 * of a base section replaces it in place and any other one is appended.
 */
module TemplateManager {
  import opened Options

  /** One input of the editor form: its id, widget type, whether it is required, and its choices. */
  datatype FieldDef = FieldDef(id: string, kind: string, required: bool, options: seq<string>)

  /** A section of the form: its title and its fields, in order. */
  datatype SectionDef = SectionDef(title: string, fields: seq<FieldDef>)

  /** A dictionary from section id to section, in insertion order. */
  type Template = seq<(string, SectionDef)>

  /** The dictionary's keys, in order. */
  function Keys(t: Template): (ks: seq<string>)
    ensures |ks| == |t|
    ensures forall i :: 0 <= i < |t| ==> ks[i] == t[i].0
  {
    if t == [] then [] else [t[0].0] + Keys(t[1..])
  }

  predicate Distinct(ks: seq<string>)
  {
    forall i, j :: 0 <= i < j < |ks| ==> ks[i] != ks[j]
  }

  /** `t.get(id)`. */
  function Lookup(t: Template, id: string): (r: Option<SectionDef>)
    ensures r.Some? <==> id in Keys(t)
    ensures r.Some? ==> (id, r.value) in t
  {
    if t == [] then None
    else if t[0].0 == id then Some(t[0].1)
    else Lookup(t[1..], id)
  }

  /** `t[id] = d`: an existing key keeps its place, a new key goes last. */
  function Put(t: Template, id: string, d: SectionDef): (r: Template)
    ensures Keys(r) == if id in Keys(t) then Keys(t) else Keys(t) + [id]
    ensures Lookup(r, id) == Some(d)
    ensures forall k :: k != id ==> Lookup(r, k) == Lookup(t, k)
  {
    if t == [] then [(id, d)]
    else
      var h, tail := t[0], t[1..];
      assert t == [h] + tail;
      if h.0 == id then
        PutFront(h, tail, id, d);
        [(id, d)] + tail
      else
        var rest := Put(tail, id, d);
        PutBehind(h, tail, id, d, rest);
        [h] + rest
  }

  /** Assigning to the first key replaces that entry and keeps the rest. */
  lemma PutFront(h: (string, SectionDef), t: Template, id: string, d: SectionDef)
    requires h.0 == id
    ensures Keys([(id, d)] + t) == if id in Keys([h] + t) then Keys([h] + t) else Keys([h] + t) + [id]
    ensures Lookup([(id, d)] + t, id) == Some(d)
    ensures forall k :: k != id ==> Lookup([(id, d)] + t, k) == Lookup([h] + t, k)
  {
    assert ([(id, d)] + t)[1..] == t && ([h] + t)[1..] == t;
    assert Keys([(id, d)] + t) == [id] + Keys(t) == Keys([h] + t);
  }

  /** Assigning behind a first entry with another key keeps that entry in front. */
  lemma PutBehind(h: (string, SectionDef), t: Template, id: string, d: SectionDef, rest: Template)
    requires h.0 != id
    requires Keys(rest) == if id in Keys(t) then Keys(t) else Keys(t) + [id]
    requires Lookup(rest, id) == Some(d)
    requires forall k :: k != id ==> Lookup(rest, k) == Lookup(t, k)
    ensures Keys([h] + rest) == if id in Keys([h] + t) then Keys([h] + t) else Keys([h] + t) + [id]
    ensures Lookup([h] + rest, id) == Some(d)
    ensures forall k :: k != id ==> Lookup([h] + rest, k) == Lookup([h] + t, k)
  {
    assert ([h] + rest)[1..] == rest && ([h] + t)[1..] == t;
    assert Keys([h] + rest) == [h.0] + Keys(rest) && Keys([h] + t) == [h.0] + Keys(t);
    ConsSnoc(h.0, Keys(t), id);
  }

  /** Sequence algebra over variables rather than the literal strings it is applied to; it exists only to keep the solver from comparing those strings character by character. */
  lemma ConsSnoc<T>(x: T, s: seq<T>, y: T)
    ensures [x] + (s + [y]) == ([x] + s) + [y]
  {
  }

  /** The base template after assigning each section of `spec` in turn. */
  function Merge(base: Template, spec: Template): Template
  {
    if spec == [] then base
    else
      var last := spec[|spec| - 1];
      Put(Merge(base, spec[..|spec| - 1]), last.0, last.1)
  }

  /** The keys of `spec` not in `ks`, in the order `spec` first names them. */
  function Added(ks: seq<string>, spec: Template): seq<string>
  {
    if spec == [] then []
    else
      var pre := Added(ks, spec[..|spec| - 1]);
      var id := spec[|spec| - 1].0;
      if id in ks || id in pre then pre else pre + [id]
  }

  function Field(id: string, kind: string, required: bool): FieldDef
  {
    FieldDef(id, kind, required, [])
  }

  const LicenseChoices: seq<string> :=
    ["MIT", "GPL-3.0", "Apache-2.0", "BSD-3-Clause", "BSD-2-Clause", "CC0-1.0", "Outra", "Nenhuma"]

  /** The sections every project has. */
  const BaseTemplate: Template := [
    ("project_info", SectionDef("Informações do Projeto", [
      Field("name", "text", true), Field("short_description", "textarea", true), Field("logo_url", "text", false)])),
    ("about", SectionDef("Sobre o Projeto", [
      Field("description", "textarea", true), Field("motivation", "textarea", false),
      Field("key_features", "textarea", true)])),
    ("technology", SectionDef("Tecnologias Utilizadas", [
      Field("technologies", "tags", true), Field("architecture", "textarea", false)])),
    ("installation", SectionDef("Instalação e Configuração", [
      Field("prerequisites", "textarea", true), Field("installation_steps", "textarea", true),
      Field("env_variables", "textarea", false)])),
    ("usage", SectionDef("Como Utilizar", [
      Field("usage_instructions", "textarea", true), Field("examples", "textarea", false),
      Field("commands", "textarea", false)])),
    ("structure", SectionDef("Estrutura do Projeto", [
      Field("upload_structure", "file", false), Field("manual_structure", "textarea", false)])),
    ("api", SectionDef("API e Endpoints", [
      FieldDef("has_api", "radio", true, ["Sim", "Não"]), Field("api_documentation", "textarea", false)])),
    ("contributing", SectionDef("Contribuição", [
      Field("contribution_guidelines", "textarea", false), Field("code_of_conduct", "textarea", false)])),
    ("roadmap", SectionDef("Roadmap", [
      Field("future_features", "textarea", false), Field("known_issues", "textarea", false)])),
    ("license", SectionDef("Licença", [
      FieldDef("license_type", "select", true, LicenseChoices), Field("custom_license", "textarea", false)])),
    ("contact", SectionDef("Contato e Suporte", [
      Field("contact_info", "textarea", false), Field("support_channels", "textarea", false)])),
    ("faq", SectionDef("FAQ", [Field("faq_items", "textarea", false)])),
    ("acknowledgements", SectionDef("Agradecimentos", [Field("acknowledgements", "textarea", false)])),
    ("team", SectionDef("Equipe", [Field("team_members", "textarea", false)]))
  ]

  const BackendApi: SectionDef := SectionDef("API e Endpoints", [
    Field("api_documentation", "textarea", true), Field("authentication", "textarea", false)])

  const Backend: Template := [
    ("api", BackendApi),
    ("database", SectionDef("Banco de Dados", [
      Field("database_schema", "textarea", false), Field("migrations", "textarea", false)]))
  ]

  const Frontend: Template := [
    ("ui_components", SectionDef("Componentes de UI", [
      Field("ui_library", "text", false), Field("component_structure", "textarea", false)])),
    ("state_management", SectionDef("Gerenciamento de Estado", [
      Field("state_solution", "text", false), Field("state_description", "textarea", false)])),
    ("design", SectionDef("Design e Estilo", [
      Field("design_system", "text", false), Field("responsive_approach", "textarea", false)]))
  ]

  const Fullstack: Template := [
    ("architecture", SectionDef("Arquitetura da Aplicação", [
      Field("frontend_backend_communication", "textarea", true), Field("deployment_architecture", "textarea", false)]))
  ]

  const Mobile: Template := [
    ("platforms", SectionDef("Plataformas Suportadas", [
      FieldDef("platform_list", "checkbox", true, ["Android", "iOS", "Web", "Outros"]),
      Field("min_versions", "textarea", false)])),
    ("app_stores", SectionDef("Informações de App Store", [
      Field("app_store_links", "textarea", false), Field("release_process", "textarea", false)]))
  ]

  const Cybersec: Template := [
    ("security_features", SectionDef("Recursos de Segurança", [
      Field("security_measures", "textarea", true), Field("threat_model", "textarea", false)])),
    ("compliance", SectionDef("Conformidade", [Field("compliance_standards", "textarea", false)]))
  ]

  const Network: Template := [
    ("network_topology", SectionDef("Topologia de Rede", [
      Field("topology_description", "textarea", true), Field("network_diagram", "text", false)])),
    ("protocols", SectionDef("Protocolos Utilizados", [Field("protocol_list", "textarea", false)]))
  ]

  const Frameworks: Template := [
    ("framework_details", SectionDef("Detalhes do Framework", [
      Field("framework_name", "text", true), Field("framework_version", "text", true),
      Field("custom_extensions", "textarea", false)]))
  ]

  /** The project types with sections of their own. */
  const SpecificTemplates: map<string, Template> := map[
    "backend" := Backend, "frontend" := Frontend, "fullstack" := Fullstack, "mobile" := Mobile,
    "cybersec" := Cybersec, "network" := Network, "frameworks" := Frameworks]

  /** The template of a project type; a missing type (`None`) has no sections of its own. */
  function TemplateFor(kind: Option<string>): Template
  {
    if kind.Some? && kind.value in SpecificTemplates then Merge(BaseTemplate, SpecificTemplates[kind.value])
    else BaseTemplate
  }

  /** The loop of `get_project_template`: assign each section of `spec` to `t` in order. */
  method AssignSections(base: Template, spec: Template) returns (t: Template)
    ensures t == Merge(base, spec)
  {
    t := base;
    for i := 0 to |spec|
      invariant t == Merge(base, spec[..i])
    {
      assert spec[..i + 1][..i] == spec[..i];
      t := Put(t, spec[i].0, spec[i].1);
    }
    assert spec[..|spec|] == spec;
  }

  /** `get_project_template`: copy the base, then assign the type's sections one by one. */
  method GetProjectTemplate(kind: Option<string>) returns (t: Template)
    ensures t == TemplateFor(kind)
    ensures kind.None? || kind.value !in SpecificTemplates ==> t == BaseTemplate
  {
    t := BaseTemplate;
    if kind.Some? && kind.value in SpecificTemplates {
      t := AssignSections(t, SpecificTemplates[kind.value]);
    }
  }

  lemma {:induction false} KeysSnoc(t: Template, x: (string, SectionDef))
    ensures Keys(t + [x]) == Keys(t) + [x.0]
  {
    if t != [] {
      assert (t + [x])[1..] == t[1..] + [x];
      KeysSnoc(t[1..], x);
    }
  }

  lemma {:induction false} LookupSnoc(t: Template, x: (string, SectionDef), k: string)
    ensures Lookup(t + [x], k) == if k in Keys(t) then Lookup(t, k) else if k == x.0 then Some(x.1) else None
  {
    if t != [] {
      assert (t + [x])[1..] == t[1..] + [x];
      LookupSnoc(t[1..], x, k);
    }
  }

  lemma DistinctSnoc(ks: seq<string>, x: string)
    requires Distinct(ks + [x])
    ensures Distinct(ks) && x !in ks
  {
    var all := ks + [x];
    forall i | 0 <= i < |ks| ensures ks[i] != x {
      assert all[i] == ks[i] && all[|ks|] == x;
    }
    forall i, j | 0 <= i < j < |ks| ensures ks[i] != ks[j] {
      assert all[i] == ks[i] && all[j] == ks[j];
    }
  }

  /** Base keys keep their order and come first; the new keys follow in the order the type names them. */
  lemma {:induction false} MergeKeys(base: Template, spec: Template)
    ensures Keys(Merge(base, spec)) == Keys(base) + Added(Keys(base), spec)
  {
    if spec != [] {
      MergeKeys(base, spec[..|spec| - 1]);
    }
  }

  lemma {:induction false} AddedMembers(ks: seq<string>, spec: Template, k: string)
    ensures k in Added(ks, spec) <==> k in Keys(spec) && k !in ks
  {
    if spec != [] {
      var pre := spec[..|spec| - 1];
      assert spec == pre + [spec[|spec| - 1]];
      KeysSnoc(pre, spec[|spec| - 1]);
      AddedMembers(ks, pre, k);
    }
  }

  /** The merged key set is the union of the two key sets. */
  lemma MergeKeySet(base: Template, spec: Template, k: string)
    ensures k in Keys(Merge(base, spec)) <==> k in Keys(base) || k in Keys(spec)
  {
    MergeKeys(base, spec);
    AddedMembers(Keys(base), spec, k);
  }

  lemma {:induction false} AddedDistinct(ks: seq<string>, spec: Template)
    ensures Distinct(Added(ks, spec))
  {
    if spec != [] {
      AddedDistinct(ks, spec[..|spec| - 1]);
    }
  }

  lemma DistinctAppend(a: seq<string>, b: seq<string>)
    requires Distinct(a) && Distinct(b)
    requires forall k :: k in b ==> k !in a
    ensures Distinct(a + b)
  {
    var all := a + b;
    forall i, j | 0 <= i < j < |all| ensures all[i] != all[j] {
      if j < |a| {
        assert all[i] == a[i] && all[j] == a[j];
      } else if i >= |a| {
        assert all[i] == b[i - |a|] && all[j] == b[j - |a|];
      } else {
        assert all[i] == a[i] && all[j] == b[j - |a|];
        assert b[j - |a|] in b;
      }
    }
  }

  /** Merging keeps keys unique. */
  lemma MergeDistinct(base: Template, spec: Template)
    requires Distinct(Keys(base))
    ensures Distinct(Keys(Merge(base, spec)))
  {
    MergeKeys(base, spec);
    var ks, added := Keys(base), Added(Keys(base), spec);
    AddedDistinct(ks, spec);
    forall k | k in added ensures k !in ks {
      AddedMembers(ks, spec, k);
    }
    DistinctAppend(ks, added);
  }

  /**
   * A section the type names maps to the type's definition; every other
   * section is the base one (or absent, as in the base).
   */
  lemma {:induction false} MergeLookup(base: Template, spec: Template, k: string)
    requires Distinct(Keys(spec))
    ensures Lookup(Merge(base, spec), k) == if k in Keys(spec) then Lookup(spec, k) else Lookup(base, k)
  {
    if spec != [] {
      var pre, last := spec[..|spec| - 1], spec[|spec| - 1];
      assert spec == pre + [last];
      KeysSnoc(pre, last);
      LookupSnoc(pre, last, k);
      DistinctSnoc(Keys(pre), last.0);
      MergeLookup(base, pre, k);
    }
  }

  const BaseIds: seq<string> := ["project_info", "about", "technology", "installation", "usage", "structure",
    "api", "contributing", "roadmap", "license", "contact", "faq", "acknowledgements", "team"]

  lemma Keys14(t: Template)
    requires |t| == 14
    ensures Keys(t) == [t[0].0, t[1].0, t[2].0, t[3].0, t[4].0, t[5].0, t[6].0,
                        t[7].0, t[8].0, t[9].0, t[10].0, t[11].0, t[12].0, t[13].0]
  {
  }

  lemma BaseKeys()
    ensures Keys(BaseTemplate) == BaseIds
  {
    var t := BaseTemplate;
    Keys14(t);
    assert t[0].0 == "project_info";
    assert t[1].0 == "about";
    assert t[2].0 == "technology";
    assert t[3].0 == "installation";
    assert t[4].0 == "usage";
    assert t[5].0 == "structure";
    assert t[6].0 == "api";
    assert t[7].0 == "contributing";
    assert t[8].0 == "roadmap";
    assert t[9].0 == "license";
    assert t[10].0 == "contact";
    assert t[11].0 == "faq";
    assert t[12].0 == "acknowledgements";
    assert t[13].0 == "team";
  }

  /** Length and first letter in one number: equal ids have equal codes. */
  function Code(id: string): int {
    if id == [] then 0 else |id| * 256 + id[0] as int
  }

  /** The fourteen base ids differ pairwise in length or in their first letter. */
  lemma BaseIdsDistinct()
    ensures Distinct(BaseIds)
  {
    var t := BaseIds;
    assert Code(t[0]) == 3184;
    assert Code(t[1]) == 1377;
    assert Code(t[2]) == 2676;
    assert Code(t[3]) == 3177;
    assert Code(t[4]) == 1397;
    assert Code(t[5]) == 2419;
    assert Code(t[6]) == 865;
    assert Code(t[7]) == 3171;
    assert Code(t[8]) == 1906;
    assert Code(t[9]) == 1900;
    assert Code(t[10]) == 1891;
    assert Code(t[11]) == 870;
    assert Code(t[12]) == 4193;
    assert Code(t[13]) == 1140;
    forall i, j | 0 <= i < j < |t| ensures t[i] != t[j] {
      assert Code(t[i]) != Code(t[j]);
    }
  }

  /** No two base sections share an id. */
  lemma BaseDistinct()
    ensures Distinct(Keys(BaseTemplate))
  {
    BaseKeys();
    BaseIdsDistinct();
  }

  lemma SpecificKeys(kind: string)
    requires kind in SpecificTemplates
    ensures Distinct(Keys(SpecificTemplates[kind]))
  {
  }

  /** What the template of any project type is made of. */
  lemma TemplateShape(kind: Option<string>, k: string)
    ensures Distinct(Keys(TemplateFor(kind)))
    ensures k in Keys(TemplateFor(kind)) <==>
      k in Keys(BaseTemplate) || (kind.Some? && kind.value in SpecificTemplates && k in Keys(SpecificTemplates[kind.value]))
    ensures kind.Some? && kind.value in SpecificTemplates && k in Keys(SpecificTemplates[kind.value]) ==>
      Lookup(TemplateFor(kind), k) == Lookup(SpecificTemplates[kind.value], k)
    ensures !(kind.Some? && kind.value in SpecificTemplates && k in Keys(SpecificTemplates[kind.value])) ==>
      Lookup(TemplateFor(kind), k) == Lookup(BaseTemplate, k)
  {
    BaseDistinct();
    if kind.Some? && kind.value in SpecificTemplates {
      var spec := SpecificTemplates[kind.value];
      SpecificKeys(kind.value);
      MergeDistinct(BaseTemplate, spec);
      MergeKeySet(BaseTemplate, spec, k);
      MergeLookup(BaseTemplate, spec, k);
    }
  }

  lemma AddedPair(ks: seq<string>, spec: Template)
    requires |spec| == 2 && spec[0].0 in ks && spec[1].0 !in ks
    ensures Added(ks, spec) == [spec[1].0]
  {
    var first := spec[..1];
    assert first[..0] == [];
    assert first[0] == spec[0];
    assert Added(ks, first) == [];
  }

  lemma KnownType(kind: string)
    requires kind in SpecificTemplates
    ensures TemplateFor(Some(kind)) == Merge(BaseTemplate, SpecificTemplates[kind])
  {
  }

  lemma BackendEntry()
    ensures "backend" in SpecificTemplates && SpecificTemplates["backend"] == Backend
    ensures "api" in Keys(Backend) && Lookup(Backend, "api") == Some(BackendApi)
  {
    assert Backend[0].0 == "api";
  }

  /** In a backend project the `api` section is the backend one. */
  lemma BackendApiSection()
    ensures Lookup(TemplateFor(Some("backend")), "api") == Some(BackendApi)
  {
    TemplateShape(Some("backend"), "api");
    BackendEntry();
  }

  /** The backend `api` section has no `has_api` question. */
  lemma BackendApiFields()
    ensures forall f :: f in BackendApi.fields ==> f.id != "has_api"
  {
  }

  /** A base section the backend type does not name stays as it is. */
  lemma BackendAboutSection()
    ensures Lookup(TemplateFor(Some("backend")), "about") == Lookup(BaseTemplate, "about")
  {
    TemplateShape(Some("backend"), "about");
    BackendEntry();
  }

  lemma BackendIds()
    ensures "api" in BaseIds && "database" !in BaseIds
  {
  }

  lemma BackendAdded()
    ensures Added(BaseIds, Backend) == ["database"]
  {
    BackendIds();
    AddedPair(BaseIds, Backend);
  }

  lemma BackendMergeKeys()
    ensures Keys(Merge(BaseTemplate, Backend)) == BaseIds + ["database"]
  {
    MergeKeys(BaseTemplate, Backend);
    BaseKeys();
    BackendAdded();
  }

  /** The backend sections: the fourteen base ones in order, then `database`. */
  lemma BackendKeys()
    ensures Keys(TemplateFor(Some("backend"))) == BaseIds + ["database"]
  {
    BackendEntry();
    KnownType("backend");
    BackendMergeKeys();
  }
}
