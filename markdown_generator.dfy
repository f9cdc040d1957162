/**
 * The document assembler: turns a project record into one README text.
 *
 * Every `_generate_*` helper of the generator is a specification function
 * here (`AboutSection`, `TocSection`, ...); the helpers that build their
 * list of lines with loops are also methods (`GenerateAbout`, ...) whose
 * postcondition ties their result to that function. `GenerateMarkdown`
 * assembles the fragments the way the source does and is proved to return
 * `Markdown(p)`.
 */
module MarkdownGenerator {
  import opened Options
  import opened Strings
  import opened ProjectData

  // ---------------------------------------------------------------------
  // Fixed text

  const TopAnchor: string := "<a id=\"top\"></a>"
  const DefaultName: string := "Projeto"

  /** One repository badge: a link to `path` showing the `metric` shield. */
  function RepoBadge(path: string, metric: string, alt: string): string {
    "  <a href=\"https://github.com/username/repo/" + path + "\"><img src=\"https://img.shields.io/github/"
    + metric + "/username/repo\" alt=\"" + alt + " Badge\"/></a>\n"
  }

  /** The placeholder repository badges under the title. */
  const RepoBadges: string :=
    "\n<p align=\"center\">\n"
    + RepoBadge("stargazers", "stars", "Stars")
    + RepoBadge("network/members", "forks", "Forks")
    + RepoBadge("pulls", "issues-pr", "Pull Requests")
    + RepoBadge("issues", "issues", "Issues")
    + RepoBadge("blob/master/LICENSE", "license", "License")
    + "</p>\n"
  const BackToTop: string := "\n\n<p align=\"right\">(<a href=\"#top\">Voltar ao topo ⬆️</a>)</p>"

  const AboutHeading: string := "## 📋 Sobre o Projeto"
  const TocHeading: string := "## 📑 Índice\n"
  const TechHeading: string := "## 🔧 Tecnologias Utilizadas\n"
  const InstallHeading: string := "## 🚀 Instalação e Configuração\n"
  const UsageHeading: string := "## 📘 Como Utilizar\n"
  const StructureHeading: string := "## 📁 Estrutura do Projeto\n"
  const ApiHeading: string := "## 🔌 API e Endpoints\n"
  const DatabaseHeading: string := "## 💾 Banco de Dados\n"
  const UiHeading: string := "## 🎨 Componentes de UI\n"
  const StateHeading: string := "## 🔄 Gerenciamento de Estado\n"
  const PlatformsHeading: string := "## 📱 Plataformas Suportadas\n"
  const RoadmapHeading: string := "## 🛣️ Roadmap\n"
  const ContributingHeading: string := "## 👥 Contribuição\n"
  const LicenseHeading: string := "## 📜 Licença\n"
  const ContactHeading: string := "## 📞 Contato e Suporte\n"
  const FaqHeading: string := "## ❓ FAQ\n"
  const AckHeading: string := "## 🙏 Agradecimentos\n"
  const TeamHeading: string := "## 👨‍💻 Equipe\n"

  const DefaultGuidelines: string :=
    "\nContribuições são o que fazem a comunidade open source "
    + "um lugar incrível para aprender, inspirar e criar. "
    + "Qualquer contribuição que você fizer "
    + "será **muito apreciada**.\n\n"
    + "1. Faça um Fork do projeto\n"
    + "2. Crie uma Branch para sua Feature "
    + "(`git checkout -b feature/AmazingFeature`)\n"
    + "3. Faça commit das suas alterações "
    + "(`git commit -m 'Add some AmazingFeature'`)\n"
    + "4. Faça Push para a Branch "
    + "(`git push origin feature/AmazingFeature`)\n"
    + "5. Abra um Pull Request\n"

  const MotivationHeading: string := "\n### Motivação\n"
  const FeaturesHeading: string := "\n### Principais Diferenciais\n"
  const ArchitectureHeading: string := "### Arquitetura\n"
  const PrerequisitesHeading: string := "### Pré-requisitos\n"
  const StepsHeading: string := "### Passos para Instalação\n"
  const EnvHeading: string := "### Variáveis de Ambiente\n"
  const EnvNote: string := "Crie um arquivo `.env` na raiz do projeto com as seguintes variáveis:\n"
  const ExamplesHeading: string := "### Exemplos\n"
  const CommandsHeading: string := "### Comandos Principais\n"
  const CommandsHeader: string := "| Comando | Descrição |"
  const CommandsRule: string := "| ------- | --------- |"
  const FutureHeading: string := "### Funcionalidades Futuras\n"
  const IssuesHeading: string := "### Problemas Conhecidos\n"
  const ChannelsHeading: string := "### Canais de Suporte\n"
  const CenterOpen: string := "<p align=\"center\">"
  const CenterClose: string := "</p>\n"
  const FenceBash: string := "```bash"
  const FenceEnv: string := "```env"
  const FenceClose: string := "```\n"

  const NoLicense: string := "Este projeto ainda não possui uma licença definida."

  /** The sentence naming a chosen license. */
  function LicenseSentence(licenseType: string): string {
    "Este projeto está licenciado sob a licença " + licenseType
    + " - veja o arquivo [LICENSE](LICENSE) para detalhes."
  }

  /** A shields.io badge: label, background colour, logo and logo colour. */
  datatype Shield = Shield(name: string, color: string, logo: string, logoColor: string)

  function ShieldUrl(b: Shield): string {
    "https://img.shields.io/badge/" + b.name + "-" + b.color + "?style=for-the-badge&logo=" + b.logo + "&logoColor=" + b.logoColor
  }

  /**
   * The technology name to badge image table (keys are lower case); each
   * entry is stored as the parts of its URL, which `ShieldUrl` assembles.
   */
  const BadgeUrls: map<string, Shield> := map[
    "python" := Shield("Python", "3776AB", "python", "white"),
    "flask" := Shield("Flask", "000000", "flask", "white"),
    "react" := Shield("React", "20232A", "react", "61DAFB"),
    "javascript" := Shield("JavaScript", "F7DF1E", "javascript", "black"),
    "typescript" := Shield("TypeScript", "007ACC", "typescript", "white"),
    "node.js" := Shield("Node.js", "43853D", "node.js", "white"),
    "django" := Shield("Django", "092E20", "django", "white"),
    "mongodb" := Shield("MongoDB", "4EA94B", "mongodb", "white"),
    "mysql" := Shield("MySQL", "00000F", "mysql", "white"),
    "postgresql" := Shield("PostgreSQL", "316192", "postgresql", "white"),
    "docker" := Shield("Docker", "2496ED", "docker", "white"),
    "kubernetes" := Shield("Kubernetes", "326DE6", "kubernetes", "white"),
    "aws" := Shield("AWS", "232F3E", "amazon-aws", "white"),
    "gcp" := Shield("Google_Cloud", "4285F4", "google-cloud", "white"),
    "azure" := Shield("Microsoft_Azure", "0089D6", "microsoft-azure", "white"),
    "html" := Shield("HTML5", "E34F26", "html5", "white"),
    "css" := Shield("CSS3", "1572B6", "css3", "white"),
    "sass" := Shield("Sass", "CC6699", "sass", "white"),
    "redux" := Shield("Redux", "593D88", "redux", "white"),
    "vue" := Shield("Vue.js", "35495E", "vue.js", "4FC08D"),
    "angular" := Shield("Angular", "DD0031", "angular", "white"),
    "tailwind" := Shield("Tailwind_CSS", "38B2AC", "tailwind-css", "white"),
    "bootstrap" := Shield("Bootstrap", "563D7C", "bootstrap", "white"),
    "graphql" := Shield("GraphQL", "E10098", "graphql", "white"),
    "rust" := Shield("Rust", "000000", "rust", "white"),
    "go" := Shield("Go", "00ADD8", "go", "white"),
    "c++" := Shield("C%2B%2B", "00599C", "c%2B%2B", "white"),
    "java" := Shield("Java", "ED8B00", "java", "white"),
    "c#" := Shield("C%23", "239120", "c-sharp", "white"),
    "php" := Shield("PHP", "777BB4", "php", "white"),
    "swift" := Shield("Swift", "FA7343", "swift", "white"),
    "kotlin" := Shield("Kotlin", "0095D5", "kotlin", "white"),
    "flutter" := Shield("Flutter", "02569B", "flutter", "white"),
    "react native" := Shield("React_Native", "20232A", "react", "61DAFB")
  ]

  /** The table-of-contents allow-list: section id and display title, in order. */
  const TocList: seq<(string, string)> := [
    ("about", "Sobre o Projeto"),
    ("technology", "Tecnologias Utilizadas"),
    ("installation", "Instalação e Configuração"),
    ("usage", "Como Utilizar"),
    ("structure", "Estrutura do Projeto"),
    ("api", "API e Endpoints"),
    ("roadmap", "Roadmap"),
    ("contributing", "Contribuição"),
    ("license", "Licença"),
    ("contact", "Contato e Suporte"),
    ("faq", "FAQ"),
    ("team", "Equipe"),
    ("acknowledgements", "Agradecimentos")
  ]

  // ---------------------------------------------------------------------
  // Line rules: how one input line becomes zero or more output lines

  /**
   * The per-line conversions the generator applies inside its loops:
   * a bullet with a marker for non-blank lines, a badge for each
   * technology (looked up in the badge table `urls`), a commands-table
   * row, a team-member line.
   */
  datatype LineRule = Bullet(marker: string) | BadgeRow(urls: map<string, Shield>) | CommandRow | MemberRow

  /** An HTML image with its alt text. */
  function ImageTag(src: string, alt: string): string {
    "<img src=\"" + src + "\" alt=\"" + alt + "\">"
  }

  /** Markdown bold text. */
  function Bold(text: string): string {
    "**" + text + "**"
  }

  /** `<img ...>` for a technology in the table, `**name**` otherwise. */
  function Badge(urls: map<string, Shield>, tech: string): string {
    var key := Lower(Strip(tech));
    if key in urls then ImageTag(ShieldUrl(urls[key]), Strip(tech))
    else Bold(Strip(tech))
  }

  function RuleLines(rule: LineRule, line: string): seq<string> {
    match rule
    case Bullet(marker) =>
      if Strip(line) != "" then [marker + Strip(line)] else []
    case BadgeRow(urls) => [Badge(urls, line)]
    case CommandRow =>
      (match SplitOnce(line, ":")
       case Some((cmd, desc)) => ["| `" + Strip(cmd) + "` | " + Strip(desc) + " |"]
       case None => if Strip(line) != "" then ["| `" + Strip(line) + "` | - |"] else [])
    case MemberRow =>
      if Strip(line) == "" then []
      else
        match SplitOnce(line, " - ")
        case Some((name, role)) => ["* **" + Strip(name) + "** - " + Strip(role)]
        case None => ["* **" + Strip(line) + "**"]
  }

  /** The output lines of a whole list of input lines, in input order. */
  function Render(rule: LineRule, lines: seq<string>): seq<string> {
    if lines == [] then []
    else Render(rule, lines[..|lines| - 1]) + RuleLines(rule, lines[|lines| - 1])
  }

  lemma RenderStep(rule: LineRule, lines: seq<string>, i: nat)
    requires i < |lines|
    ensures Render(rule, lines[..i + 1]) == Render(rule, lines[..i]) + RuleLines(rule, lines[i])
  {
    assert lines[..i + 1][..i] == lines[..i];
  }

  lemma AppendStep(acc: seq<string>, rule: LineRule, lines: seq<string>, i: nat)
    requires i < |lines|
    ensures acc + Render(rule, lines[..i + 1]) == acc + Render(rule, lines[..i]) + RuleLines(rule, lines[i])
  {
    RenderStep(rule, lines, i);
    var done, next := Render(rule, lines[..i]), RuleLines(rule, lines[i]);
    assert acc + (done + next) == acc + done + next;
  }

  /** The loop every list-building helper runs: append the rule's lines. */
  method AppendRendered(acc: seq<string>, rule: LineRule, lines: seq<string>) returns (r: seq<string>)
    ensures r == acc + Render(rule, lines)
  {
    r := acc;
    for i := 0 to |lines|
      invariant r == acc + Render(rule, lines[..i])
    {
      AppendStep(acc, rule, lines, i);
      r := r + RuleLines(rule, lines[i]);
    }
    assert lines[..|lines|] == lines;
  }

  /** The non-blank lines of `text.strip().split('\n')`, as bullets. */
  function Bullets(marker: string, text: string): seq<string> {
    Render(Bullet(marker), Split(Strip(text), '\n'))
  }

  /** `[s]` for a non-empty fragment, nothing for an empty one. */
  function Keep(s: string): seq<string> {
    if s == "" then [] else [s]
  }

  // ---------------------------------------------------------------------
  // Header

  /** The project name the header shows: `Projeto` when the key is missing. */
  function ProjectName(info: Fields): string {
    FieldOr(info, "name", DefaultName)
  }

  function HeaderParts(info: Fields): seq<string> {
    var name := ProjectName(info);
    var logo := Field(info, "logo_url");
    var short := Field(info, "short_description");
    [TopAnchor]
    + (if logo != "" then
         ["<div align=\"center\">\n  <img src=\"" + logo + "\" alt=\"" + name + " Logo\" width=\"200\">\n</div>"]
       else [])
    + ["# " + name]
    + (if short != "" then ["> " + short] else [])
    + [RepoBadges]
  }

  function Header(info: Fields): string {
    Join(HeaderParts(info), "\n")
  }

  // ---------------------------------------------------------------------
  // About

  function AboutParts(d: Fields): seq<string> {
    var description := Field(d, "description");
    var motivation := Field(d, "motivation");
    var features := Field(d, "key_features");
    [AboutHeading]
    + (if description != "" then [description] else [])
    + (if motivation != "" then [MotivationHeading, motivation] else [])
    + (if features != "" then [FeaturesHeading] + Bullets("- ", features) else [])
  }

  /** Left out exactly when the field map is empty; otherwise at least the heading. */
  function AboutSection(d: Fields): (r: string)
    ensures r == "" <==> |d| == 0
  {
    if |d| == 0 then "" else Join(AboutParts(d), "\n")
  }

  method GenerateAbout(d: Fields) returns (r: string)
    ensures r == AboutSection(d)
  {
    if |d| == 0 {
      return "";
    }
    var description := Field(d, "description");
    var motivation := Field(d, "motivation");
    var features := Field(d, "key_features");
    var about := [AboutHeading];
    if description != "" {
      about := about + [description];
    }
    assert about == [AboutHeading] + (if description != "" then [description] else []);
    ghost var before := about;
    if motivation != "" {
      about := about + [MotivationHeading, motivation];
    }
    assert about == before + (if motivation != "" then [MotivationHeading, motivation] else []);
    before := about;
    if features != "" {
      var bullets := AppendRendered([FeaturesHeading], Bullet("- "), Split(Strip(features), '\n'));
      about := about + bullets;
    }
    assert about == before + (if features != "" then [FeaturesHeading] + Bullets("- ", features) else []);
    assert about == AboutParts(d);
    r := Join(about, "\n");
  }

  // ---------------------------------------------------------------------
  // Table of contents

  /** A section counts as present when its id is a key with a non-empty map. */
  predicate Present(sections: Sections, id: string) {
    id in sections && |sections[id]| > 0
  }

  function TocEntry(id: string, title: string): string {
    "- [📍 " + title + "](#" + Lower(id) + ")"
  }

  /** The entries for the allow-listed ids in `list` that are present. */
  function TocLines(sections: Sections, list: seq<(string, string)>): seq<string> {
    if list == [] then []
    else
      var (id, title) := list[|list| - 1];
      TocLines(sections, list[..|list| - 1])
      + (if Present(sections, id) then [TocEntry(id, title)] else [])
  }

  /** The table of contents: never empty, since it always holds its heading. */
  function TocSection(sections: Sections): string {
    Join([TocHeading] + TocLines(sections, TocList), "\n")
  }

  method GenerateToc(sections: Sections) returns (r: string)
    ensures r == TocSection(sections)
  {
    var toc := [TocHeading];
    for i := 0 to |TocList|
      invariant toc == [TocHeading] + TocLines(sections, TocList[..i])
    {
      assert TocList[..i + 1][..i] == TocList[..i];
      var (id, title) := TocList[i];
      if id in sections && |sections[id]| > 0 {
        toc := toc + [TocEntry(id, title)];
      }
    }
    assert TocList[..|TocList|] == TocList;
    r := Join(toc, "\n");
  }

  // ---------------------------------------------------------------------
  // Technologies

  function TechParts(d: Fields): seq<string> {
    var technologies := Field(d, "technologies");
    var architecture := Field(d, "architecture");
    [TechHeading]
    + (if technologies != "" then
         [CenterOpen,
          "  " + Join(Render(BadgeRow(BadgeUrls), Split(Strip(technologies), ',')), " "),
          CenterClose]
       else [])
    + (if architecture != "" then [ArchitectureHeading, architecture] else [])
  }

  /** Left out exactly when the field map is empty; otherwise at least the heading. */
  function TechSection(d: Fields): (r: string)
    ensures r == "" <==> |d| == 0
  {
    if |d| == 0 then "" else Join(TechParts(d), "\n")
  }

  method GenerateTechnologies(d: Fields) returns (r: string)
    ensures r == TechSection(d)
  {
    if |d| == 0 {
      return "";
    }
    var technologies := Field(d, "technologies");
    var architecture := Field(d, "architecture");
    var tech := [TechHeading];
    if technologies != "" {
      var badges := AppendRendered([], BadgeRow(BadgeUrls), Split(Strip(technologies), ','));
      assert badges == Render(BadgeRow(BadgeUrls), Split(Strip(technologies), ','));
      tech := tech + [CenterOpen, "  " + Join(badges, " "), CenterClose];
    }
    assert tech == [TechHeading] + (if technologies != "" then
      [CenterOpen, "  " + Join(Render(BadgeRow(BadgeUrls), Split(Strip(technologies), ',')), " "), CenterClose] else []);
    ghost var before := tech;
    if architecture != "" {
      tech := tech + [ArchitectureHeading, architecture];
    }
    assert tech == before + (if architecture != "" then [ArchitectureHeading, architecture] else []);
    assert tech == TechParts(d);
    r := Join(tech, "\n");
  }

  // ---------------------------------------------------------------------
  // Installation

  function InstallParts(d: Fields): seq<string> {
    var prerequisites := Field(d, "prerequisites");
    var steps := Field(d, "installation_steps");
    var env := Field(d, "env_variables");
    [InstallHeading]
    + (if prerequisites != "" then [PrerequisitesHeading] + Bullets("- ", prerequisites) + [""] else [])
    + (if steps != "" then [StepsHeading, FenceBash, steps, FenceClose] else [])
    + (if env != "" then
         [EnvHeading,
          EnvNote,
          FenceEnv, env, "```"]
       else [])
  }

  /** Left out exactly when the field map is empty; otherwise at least the heading. */
  function InstallSection(d: Fields): (r: string)
    ensures r == "" <==> |d| == 0
  {
    if |d| == 0 then "" else Join(InstallParts(d), "\n")
  }

  method GenerateInstallation(d: Fields) returns (r: string)
    ensures r == InstallSection(d)
  {
    if |d| == 0 {
      return "";
    }
    var prerequisites := Field(d, "prerequisites");
    var steps := Field(d, "installation_steps");
    var env := Field(d, "env_variables");
    var installation := [InstallHeading];
    if prerequisites != "" {
      var bullets := AppendRendered([PrerequisitesHeading], Bullet("- "), Split(Strip(prerequisites), '\n'));
      installation := installation + (bullets + [""]);
    }
    assert installation == [InstallHeading] + (if prerequisites != "" then
      [PrerequisitesHeading] + Bullets("- ", prerequisites) + [""] else []);
    ghost var before := installation;
    if steps != "" {
      installation := installation + [StepsHeading, FenceBash, steps, FenceClose];
    }
    assert installation == before + (if steps != "" then [StepsHeading, FenceBash, steps, FenceClose] else []);
    before := installation;
    if env != "" {
      installation := installation + [EnvHeading, EnvNote, FenceEnv, env, "```"];
    }
    assert installation == before + (if env != "" then [EnvHeading, EnvNote, FenceEnv, env, "```"] else []);
    assert installation == InstallParts(d);
    r := Join(installation, "\n");
  }

  // ---------------------------------------------------------------------
  // Usage

  function UsageParts(d: Fields): seq<string> {
    var instructions := Field(d, "usage_instructions");
    var examples := Field(d, "examples");
    var commands := Field(d, "commands");
    [UsageHeading]
    + (if instructions != "" then [instructions, ""] else [])
    + (if examples != "" then [ExamplesHeading, "```", examples, FenceClose] else [])
    + (if commands != "" then
         [CommandsHeading, CommandsHeader, CommandsRule]
         + Render(CommandRow, Split(Strip(commands), '\n'))
       else [])
  }

  /** Left out exactly when the field map is empty; otherwise at least the heading. */
  function UsageSection(d: Fields): (r: string)
    ensures r == "" <==> |d| == 0
  {
    if |d| == 0 then "" else Join(UsageParts(d), "\n")
  }

  method GenerateUsage(d: Fields) returns (r: string)
    ensures r == UsageSection(d)
  {
    if |d| == 0 {
      return "";
    }
    var instructions := Field(d, "usage_instructions");
    var examples := Field(d, "examples");
    var commands := Field(d, "commands");
    var usage := [UsageHeading];
    if instructions != "" {
      usage := usage + [instructions, ""];
    }
    assert usage == [UsageHeading] + (if instructions != "" then [instructions, ""] else []);
    ghost var before := usage;
    if examples != "" {
      usage := usage + [ExamplesHeading, "```", examples, FenceClose];
    }
    assert usage == before + (if examples != "" then [ExamplesHeading, "```", examples, FenceClose] else []);
    before := usage;
    if commands != "" {
      var rows := AppendRendered([CommandsHeading, CommandsHeader, CommandsRule], CommandRow, Split(Strip(commands), '\n'));
      usage := usage + rows;
    }
    assert usage == before + (if commands != "" then
      [CommandsHeading, CommandsHeader, CommandsRule] + Render(CommandRow, Split(Strip(commands), '\n')) else []);
    assert usage == UsageParts(d);
    r := Join(usage, "\n");
  }

  // ---------------------------------------------------------------------
  // Structure and API

  /** The tree diagram wins over the manual structure; with neither, nothing. */
  function StructureSection(tree: Option<string>, d: Fields): string {
    var auto := tree.GetOr("");
    var manual := Field(d, "manual_structure");
    if auto == "" && manual == "" then ""
    else Join([StructureHeading, "```", if auto != "" then auto else manual, "```"], "\n")
  }

  /** Emitted exactly when `has_api` is the string `Sim`. */
  function ApiSection(d: Fields): string {
    if "has_api" !in d || d["has_api"] != Text("Sim") then ""
    else
      var doc := Field(d, "api_documentation");
      Join([ApiHeading] + (if doc != "" then [doc] else []), "\n")
  }

  // ---------------------------------------------------------------------
  // Sections that depend on the project type

  function DatabaseParts(d: Fields): seq<string> {
    var schema := Field(d, "database_schema");
    var migrations := Field(d, "migrations");
    [DatabaseHeading]
    + (if schema != "" then ["### Esquema do Banco de Dados\n", schema, ""] else [])
    + (if migrations != "" then ["### Migrações\n", migrations] else [])
  }

  function UiParts(d: Fields): seq<string> {
    var library := Field(d, "ui_library");
    var structure := Field(d, "component_structure");
    [UiHeading]
    + (if library != "" then ["Este projeto utiliza **" + library + "** para seus componentes de UI.\n"] else [])
    + (if structure != "" then ["### Estrutura de Componentes\n", structure] else [])
  }

  function StateParts(d: Fields): seq<string> {
    var solution := Field(d, "state_solution");
    var description := Field(d, "state_description");
    [StateHeading]
    + (if solution != "" then ["Este projeto utiliza **" + solution + "** para gerenciamento de estado.\n"] else [])
    + (if description != "" then ["### Implementação do Estado\n", description] else [])
  }

  function PlatformParts(d: Fields): seq<string> {
    var platforms := ChoiceList(d, "platform_list");
    var versions := Field(d, "min_versions");
    [PlatformsHeading]
    + (if platforms != [] then [Join(platforms, ", "), ""] else [])
    + (if versions != "" then ["### Versões Mínimas Suportadas\n", versions] else [])
  }

  /** A type-specific section, kept only when something beyond its heading was added. */
  function KeepFilled(sections: Sections, id: string, parts: seq<string>): seq<string> {
    if id in sections && |parts| > 1 then [Join(parts, "\n")] else []
  }

  function SpecificSections(kind: string, sections: Sections): seq<string> {
    if kind == "backend" then
      KeepFilled(sections, "database", DatabaseParts(Section(sections, "database")))
    else if kind == "frontend" then
      KeepFilled(sections, "ui_components", UiParts(Section(sections, "ui_components")))
      + KeepFilled(sections, "state_management", StateParts(Section(sections, "state_management")))
    else if kind == "mobile" then
      KeepFilled(sections, "platforms", PlatformParts(Section(sections, "platforms")))
    else []
  }

  // ---------------------------------------------------------------------
  // Roadmap, contributing, license, contact

  function RoadmapParts(d: Fields): seq<string> {
    var future := Field(d, "future_features");
    var issues := Field(d, "known_issues");
    [RoadmapHeading]
    + (if future != "" then [FutureHeading] + Bullets("- [ ] ", future) + [""] else [])
    + (if issues != "" then [IssuesHeading] + Bullets("- ", issues) else [])
  }

  /** Left out exactly when the field map is empty; otherwise at least the heading. */
  function RoadmapSection(d: Fields): (r: string)
    ensures r == "" <==> |d| == 0
  {
    if |d| == 0 then "" else Join(RoadmapParts(d), "\n")
  }

  method GenerateRoadmap(d: Fields) returns (r: string)
    ensures r == RoadmapSection(d)
  {
    if |d| == 0 {
      return "";
    }
    var future := Field(d, "future_features");
    var issues := Field(d, "known_issues");
    var roadmap := [RoadmapHeading];
    if future != "" {
      var planned := AppendRendered([FutureHeading], Bullet("- [ ] "), Split(Strip(future), '\n'));
      roadmap := roadmap + (planned + [""]);
    }
    assert roadmap == [RoadmapHeading] + (if future != "" then
      [FutureHeading] + Bullets("- [ ] ", future) + [""] else []);
    ghost var before := roadmap;
    if issues != "" {
      var known := AppendRendered([IssuesHeading], Bullet("- "), Split(Strip(issues), '\n'));
      roadmap := roadmap + known;
    }
    assert roadmap == before + (if issues != "" then [IssuesHeading] + Bullets("- ", issues) else []);
    assert roadmap == RoadmapParts(d);
    r := Join(roadmap, "\n");
  }

  /** Left out exactly when the field map is empty; otherwise at least the heading. */
  function ContributingSection(d: Fields): (r: string)
    ensures r == "" <==> |d| == 0
  {
    if |d| == 0 then ""
    else
      var guidelines := Field(d, "contribution_guidelines");
      var conduct := Field(d, "code_of_conduct");
      Join([ContributingHeading]
           + (if guidelines != "" then [guidelines, ""] else [DefaultGuidelines])
           + (if conduct != "" then ["### Código de Conduta\n", conduct] else []),
           "\n")
  }

  /** The body of the license section: custom text, the named license, or none. */
  function LicenseBody(d: Fields): string {
    var licenseType := Field(d, "license_type");
    var custom := Field(d, "custom_license");
    if licenseType == "Outra" && custom != "" then custom
    else if licenseType != "" && licenseType != "Nenhuma" then LicenseSentence(licenseType)
    else NoLicense
  }

  /** Left out exactly when the field map is empty; otherwise at least the heading. */
  function LicenseSection(d: Fields): (r: string)
    ensures r == "" <==> |d| == 0
  {
    if |d| == 0 then "" else Join([LicenseHeading, LicenseBody(d)], "\n")
  }

  function ContactParts(d: Fields): seq<string> {
    var info := Field(d, "contact_info");
    var channels := Field(d, "support_channels");
    [ContactHeading]
    + (if info != "" then [info, ""] else [])
    + (if channels != "" then [ChannelsHeading] + Bullets("- ", channels) else [])
  }

  /** Left out exactly when the field map is empty; otherwise at least the heading. */
  function ContactSection(d: Fields): (r: string)
    ensures r == "" <==> |d| == 0
  {
    if |d| == 0 then "" else Join(ContactParts(d), "\n")
  }

  method GenerateContact(d: Fields) returns (r: string)
    ensures r == ContactSection(d)
  {
    if |d| == 0 {
      return "";
    }
    var info := Field(d, "contact_info");
    var channels := Field(d, "support_channels");
    var contact := [ContactHeading];
    if info != "" {
      contact := contact + [info, ""];
    }
    assert contact == [ContactHeading] + (if info != "" then [info, ""] else []);
    ghost var before := contact;
    if channels != "" {
      var listed := AppendRendered([ChannelsHeading], Bullet("- "), Split(Strip(channels), '\n'));
      contact := contact + listed;
    }
    assert contact == before + (if channels != "" then [ChannelsHeading] + Bullets("- ", channels) else []);
    assert contact == ContactParts(d);
    r := Join(contact, "\n");
  }

  // ---------------------------------------------------------------------
  // FAQ: a two-state machine over the lines

  predicate IsQuestion(item: string) {
    StartsWith(item, "P:") || StartsWith(item, "Q:")
  }

  predicate IsAnswer(item: string) {
    StartsWith(item, "R:") || StartsWith(item, "A:")
  }

  /** The text after a two-character marker, stripped. */
  function MarkerText(item: string): string
    requires |item| >= 2
  {
    Strip(item[2..])
  }

  /**
   * One step of the parser: `open` is the current question, `""` standing
   * for both "no question yet" and an empty question (both are falsy).
   */
  function FaqStep(out: seq<string>, open: string, line: string): (seq<string>, string) {
    var item := Strip(line);
    if IsQuestion(item) then
      var question := MarkerText(item);
      ((if open != "" then out + [""] else out) + ["### " + question], question)
    else if IsAnswer(item) then
      (if open != "" then out + [MarkerText(item)] else out, open)
    else (out, open)
  }

  /** The output lines and the final state after parsing `lines`. */
  function FaqRun(lines: seq<string>): (seq<string>, string) {
    if lines == [] then ([], "")
    else
      var (out, open) := FaqRun(lines[..|lines| - 1]);
      FaqStep(out, open, lines[|lines| - 1])
  }

  /** Left out exactly when the field map or its `faq_items` field is empty. */
  function FaqSection(d: Fields): (r: string)
    ensures r == "" <==> |d| == 0 || Field(d, "faq_items") == ""
  {
    var items := Field(d, "faq_items");
    if |d| == 0 || items == "" then ""
    else Join([FaqHeading] + FaqRun(Split(items, '\n')).0, "\n")
  }

  method GenerateFaq(d: Fields) returns (r: string)
    ensures r == FaqSection(d)
  {
    if |d| == 0 {
      return "";
    }
    var text := Field(d, "faq_items");
    if text == "" {
      return "";
    }
    var items := Split(text, '\n');
    var out: seq<string> := [];
    var current := "";
    for i := 0 to |items|
      invariant (out, current) == FaqRun(items[..i])
    {
      assert items[..i + 1][..i] == items[..i];
      var item := Strip(items[i]);
      if StartsWith(item, "P:") || StartsWith(item, "Q:") {
        if current != "" {
          out := out + [""];
        }
        var question := Strip(item[2..]);
        out := out + ["### " + question];
        current := question;
      } else if StartsWith(item, "R:") || StartsWith(item, "A:") {
        if current != "" {
          out := out + [Strip(item[2..])];
        }
      }
    }
    assert items[..|items|] == items;
    r := Join([FaqHeading] + out, "\n");
  }

  // ---------------------------------------------------------------------
  // Acknowledgements and team

  /** Left out exactly when the field map or its `acknowledgements` field is empty. */
  function AckSection(d: Fields): (r: string)
    ensures r == "" <==> |d| == 0 || Field(d, "acknowledgements") == ""
  {
    var acks := Field(d, "acknowledgements");
    if |d| == 0 || acks == "" then ""
    else Join([AckHeading] + Bullets("* ", acks), "\n")
  }

  method GenerateAcknowledgements(d: Fields) returns (r: string)
    ensures r == AckSection(d)
  {
    if |d| == 0 {
      return "";
    }
    var acks := Field(d, "acknowledgements");
    if acks == "" {
      return "";
    }
    var section := AppendRendered([AckHeading], Bullet("* "), Split(Strip(acks), '\n'));
    r := Join(section, "\n");
  }

  /** Left out exactly when the field map or its `team_members` field is empty. */
  function TeamSection(d: Fields): (r: string)
    ensures r == "" <==> |d| == 0 || Field(d, "team_members") == ""
  {
    var members := Field(d, "team_members");
    if |d| == 0 || members == "" then ""
    else Join([TeamHeading] + Render(MemberRow, Split(Strip(members), '\n')), "\n")
  }

  method GenerateTeam(d: Fields) returns (r: string)
    ensures r == TeamSection(d)
  {
    if |d| == 0 {
      return "";
    }
    var members := Field(d, "team_members");
    if members == "" {
      return "";
    }
    var section := AppendRendered([TeamHeading], MemberRow, Split(Strip(members), '\n'));
    r := Join(section, "\n");
  }

  // ---------------------------------------------------------------------
  // The whole document

  /** The document's fragments up to the API section: the header, then each kept section. */
  function LeadFragments(sections: Sections, structure: Option<string>): seq<string> {
    [Header(Section(sections, "project_info"))]
    + Keep(AboutSection(Section(sections, "about")))
    + Keep(TocSection(sections))
    + Keep(TechSection(Section(sections, "technology")))
    + Keep(InstallSection(Section(sections, "installation")))
    + Keep(UsageSection(Section(sections, "usage")))
    + Keep(StructureSection(structure, Section(sections, "structure")))
    + Keep(ApiSection(Section(sections, "api")))
  }

  /** `content` followed by each kept section from the roadmap to the team. */
  function TailFragments(content: seq<string>, sections: Sections): seq<string> {
    content
    + Keep(RoadmapSection(Section(sections, "roadmap")))
    + Keep(ContributingSection(Section(sections, "contributing")))
    + Keep(LicenseSection(Section(sections, "license")))
    + Keep(ContactSection(Section(sections, "contact")))
    + Keep(FaqSection(Section(sections, "faq")))
    + Keep(AckSection(Section(sections, "acknowledgements")))
    + Keep(TeamSection(Section(sections, "team")))
  }

  /** The fragments of the document, in their fixed order. */
  function Fragments(p: ProjectDict): seq<string> {
    var sections := p.sections.GetOr(map[]);
    TailFragments(LeadFragments(sections, p.structure) + SpecificSections(p.kind.GetOr(""), sections), sections)
    + [BackToTop]
  }

  /** The README text: the fragments joined by blank lines. */
  function Markdown(p: ProjectDict): string {
    Join(Fragments(p), "\n\n")
  }

  /**
   * `if fragment: content.append(fragment)`: the document keeps what it
   * had, grows by one exactly when the fragment is non-empty, and never
   * gains an empty fragment.
   */
  method AppendFragment(content: seq<string>, fragment: string) returns (r: seq<string>)
    ensures r == content + Keep(fragment)
    ensures |r| == |content| + 1 <==> fragment != ""
    ensures "" !in content ==> "" !in r
  {
    r := content;
    if fragment != "" {
      r := r + [fragment];
    }
  }

  /** The header, then the fragments from "about" to "API", in order. */
  method AppendLead(sections: Sections, structure: Option<string>) returns (r: seq<string>)
    ensures r == LeadFragments(sections, structure)
  {
    r := [Header(Section(sections, "project_info"))];
    var about := GenerateAbout(Section(sections, "about"));
    r := AppendFragment(r, about);
    var toc := GenerateToc(sections);
    r := AppendFragment(r, toc);
    var technologies := GenerateTechnologies(Section(sections, "technology"));
    r := AppendFragment(r, technologies);
    var installation := GenerateInstallation(Section(sections, "installation"));
    r := AppendFragment(r, installation);
    var usage := GenerateUsage(Section(sections, "usage"));
    r := AppendFragment(r, usage);
    var structureText := StructureSection(structure, Section(sections, "structure"));
    r := AppendFragment(r, structureText);
    var api := ApiSection(Section(sections, "api"));
    r := AppendFragment(r, api);
  }

  /** Appends the fragments from "roadmap" to "team", in order. */
  method AppendTail(content: seq<string>, sections: Sections) returns (r: seq<string>)
    ensures r == TailFragments(content, sections)
  {
    r := content;
    var roadmap := GenerateRoadmap(Section(sections, "roadmap"));
    r := AppendFragment(r, roadmap);
    var contributing := ContributingSection(Section(sections, "contributing"));
    r := AppendFragment(r, contributing);
    var license := LicenseSection(Section(sections, "license"));
    r := AppendFragment(r, license);
    var contact := GenerateContact(Section(sections, "contact"));
    r := AppendFragment(r, contact);
    var faq := GenerateFaq(Section(sections, "faq"));
    r := AppendFragment(r, faq);
    var acknowledgements := GenerateAcknowledgements(Section(sections, "acknowledgements"));
    r := AppendFragment(r, acknowledgements);
    var team := GenerateTeam(Section(sections, "team"));
    r := AppendFragment(r, team);
  }

  /** Header, the kept fragments, then the back-to-top block, joined by blank lines. */
  method GenerateMarkdown(p: ProjectDict) returns (r: string)
    ensures r == Markdown(p)
  {
    var sections := p.sections.GetOr(map[]);
    var content := AppendLead(sections, p.structure);
    content := content + SpecificSections(p.kind.GetOr(""), sections);
    content := AppendTail(content, sections);
    content := content + [BackToTop];
    assert content == Fragments(p);
    r := Join(content, "\n\n");
  }
}
