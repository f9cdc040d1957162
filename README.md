# docgenerator, modelled in Dafny

docgenerator is a small web application that asks the author of a software
project to fill in a form, section by section, and then writes a
`README.md` for that project. This Dafny project models its four core pieces:

- **Markdown assembly** (`utils/markdown_generator.py`). There is one module
  for it, `MarkdownGenerator`. Each `_generate_*` helper is a pure function
  from a section's field map to the text of that section. Wherever the source
  builds that text with a loop, a method with the same loop is proved equal
  to the function. `GenerateMarkdown` puts the fragments together:
  - it drops the empty ones;
  - it joins the rest with blank lines;
  - it always ends with the "back to top" link.

  `MarkdownProperties` proves what the document looks like:
  - the header and table of contents are always there;
  - an empty project gives exactly header, contents heading and back-to-top link;
  - table-of-contents entries follow the allow-list order;
  - list lines become bullets;
  - commands and team members are split on their first separator;
  - the gates for the structure, API, type-specific and licence sections;
  - the question/answer state machine of the FAQ.
- **Directory tree** (`generate_tree_structure` in `utils/file_analyzer.py`).
  `FileAnalyzer` models the directory it walks as a value: an `Entry` is a
  file, a directory with children, or an entry that cannot be listed.
  `TreeLines` states the drawing. The recursive method `RenderTree` has the
  source's loops: the ignore scan, filtering and drawing. It is proved equal
  to `TreeLines`. `TreeProperties` proves:
  - the line count: one line per visible entry;
  - ignored entries are invisible;
  - every line starts with its prefix;
  - a worked example: a directory holding `b.txt`, `a.txt` and `.git` is
    drawn as `a.txt` then `b.txt`.
- **Field catalogue** (`get_project_template` in
  `utils/template_manager.py`). `TemplateManager` keeps the base sections and
  the per-type sections as data. Dictionaries are kept in insertion order,
  the way Python keeps them. `GetProjectTemplate` runs the merge loop. The
  proofs show:
  - the keys are the base keys in order, followed by the new keys;
  - a section named by the type overrides the base one;
  - every other section is unchanged;
  - keys stay distinct;
  - an unknown or missing type gets the base template.
- **Project record** (`models/project.py`). `ProjectModel.Project` is a class
  with the record's five fields, a constructor, `ToDict`, the static
  `FromDict`, `UpdateSection`, `GetSection` and `IsSectionComplete`.

Shared pieces:
- `Strings` holds the Python string built-ins the source uses. `strip`
  removes the ASCII whitespace Python's `str.isspace` accepts (space, tab,
  line feed, vertical tab, form feed, carriage return and `\x1c`-`\x1f`); `lower` lowers ASCII letters; `split`, `join`,
  `find`, `startswith`/`endswith` and code-point ordering are also there.
  `Strings` also proves the facts these satisfy. For example, joining the
  pieces `split` produced at the separator gives back the string
  (`SplitJoin`). Conversely, splitting a join of pieces that do not contain
  the separator gives back the pieces (`JoinSplit`).
- `ProjectData` holds the dictionary form of a project.
- `Options` holds `Option`, which stands for Python's `None` or a missing key.

In these places the code behaves differently from what a reader of the form would expect; the model follows the code:
- **FAQ answers.** A question is remembered until the next question. So an
  answer line is kept whenever the last question before it has non-empty
  text: a second answer to the same question is kept, and so is an answer
  after a blank line. An answer after a question with empty text (`P:`
  alone) is dropped.
- **Sections with empty fields.** A section whose dictionary is non-empty but
  whose fields are all empty still produces its heading. The exceptions are
  those the source guards by content: the tree, the API section, the
  type-specific sections, the FAQ, acknowledgements and team. The heading
  still goes into the document, so a document can hold a heading with nothing
  under it.
- **Files in the tree.** A file's line is indented with `prefix + "    "`
  whatever its parent's position. A sub-directory's line is indented with the
  parent's continuation prefix (`"│   "` when the parent is not last). So a
  file under a directory that is not last is drawn without the vertical bar.

## Model

| member | source | states |
|---|---|---|
| MarkdownGenerator.GenerateMarkdown | utils/markdown_generator.py:5-105 | the document is the non-empty fragments in the fixed order (header, about, contents, technologies, installation, usage, structure, API, type-specific, roadmap, contributing, licence, contact, FAQ, acknowledgements, team, back-to-top), joined by blank lines |
| MarkdownGenerator.AppendFragment | utils/markdown_generator.py:26-28 | the document keeps the fragments it had and grows by exactly one when the fragment is non-empty, so it never gains an empty fragment |
| MarkdownProperties.HeaderShape | utils/markdown_generator.py:107-140 | the header starts with the `top` anchor line and contains `# name`, and the name defaults to `Projeto` when `project_info` has no `name` |
| MarkdownProperties.FragmentsNonEmpty | utils/markdown_generator.py:19-105 | no kept fragment is empty, and there are always at least three fragments |
| MarkdownProperties.FragmentsKept | utils/markdown_generator.py:19-105 | the header, the contents and the back-to-top link are always kept: the header is the first fragment, the contents fragment is among them and the back-to-top link is the last |
| MarkdownProperties.MarkdownFrame | utils/markdown_generator.py:22-23 | every document starts with the header followed by a blank line and ends with a blank line followed by the back-to-top link |
| MarkdownProperties.TocNeverEmpty | utils/markdown_generator.py:173 | the contents fragment always starts with its heading, so it is never empty |
| MarkdownGenerator.AboutSection | utils/markdown_generator.py:144-145 | the about section is empty if and only if its field map is empty, so a submitted section always has its heading |
| MarkdownGenerator.TechSection | utils/markdown_generator.py:201-202 | the technologies section is empty if and only if its field map is empty, so a submitted section always has its heading |
| MarkdownGenerator.InstallSection | utils/markdown_generator.py:270-271 | the installation section is empty if and only if its field map is empty, so a submitted section always has its heading |
| MarkdownGenerator.UsageSection | utils/markdown_generator.py:304-305 | the usage section is empty if and only if its field map is empty, so a submitted section always has its heading |
| MarkdownGenerator.RoadmapSection | utils/markdown_generator.py:458-459 | the roadmap section is empty if and only if its field map is empty, so a submitted section always has its heading |
| MarkdownGenerator.ContributingSection | utils/markdown_generator.py:485-486 | the contributing section is empty if and only if its field map is empty, so a submitted section always has its heading |
| MarkdownGenerator.LicenseSection | utils/markdown_generator.py:516-517 | the licence section is empty if and only if its field map is empty, so a submitted section always has its heading |
| MarkdownGenerator.ContactSection | utils/markdown_generator.py:535-536 | the contact section is empty if and only if its field map is empty, so a submitted section always has its heading |
| MarkdownGenerator.FaqSection | utils/markdown_generator.py:558-564 | the FAQ is empty if and only if its field map is empty or `faq_items` is empty |
| MarkdownGenerator.AckSection | utils/markdown_generator.py:589-595 | the acknowledgements section is empty if and only if its field map is empty or `acknowledgements` is empty |
| MarkdownGenerator.TeamSection | utils/markdown_generator.py:608-614 | the team section is empty if and only if its field map is empty or `team_members` is empty |
| MarkdownProperties.EmptyProject | utils/markdown_generator.py:15-16 | a project with no sections and no tree gives exactly header, contents heading and back-to-top block, joined by blank lines |
| MarkdownProperties.EmptyName | utils/markdown_generator.py:109 | without a `project_info` section the header's project name is `Projeto` |
| MarkdownGenerator.GenerateToc | utils/markdown_generator.py:169-197 | the loop over the allow-list builds `TocSection`, the contents fragment as a function of the sections |
| MarkdownProperties.TocEntries | utils/markdown_generator.py:193-195 | one entry per allow-listed id that is present with a non-empty map, none for any other, each linking to its id, in allow-list order |
| MarkdownProperties.TocExample | utils/markdown_generator.py:176-190 | a project with only `about` and `license` filled in has exactly two entries, `about` before `license`, whatever the map |
| MarkdownGenerator.GenerateAbout | utils/markdown_generator.py:142-167 | the loop-built section equals `AboutSection`, the section as a function of the field map, with one bullet per non-blank feature line |
| MarkdownProperties.BulletLines | utils/markdown_generator.py:162-165 | line lists give one bullet per line that is not blank after stripping, in input order, each the marker plus the stripped line |
| MarkdownProperties.RenderAppend | utils/markdown_generator.py:163-165 | rendering a list of lines distributes over concatenation |
| MarkdownGenerator.GenerateTechnologies | utils/markdown_generator.py:199-266 | the loop-built section equals `TechSection`, the section as a function of the field map |
| MarkdownProperties.BadgeLines | utils/markdown_generator.py:251-256 | one badge per comma-separated entry, same order |
| MarkdownProperties.BadgeKind | utils/markdown_generator.py:252-256 | a stripped, lower-cased name in the badge table gives its image, any other gives the stripped name in bold |
| MarkdownProperties.ExampleBadges | utils/markdown_generator.py:251-256 | `Python, flask, Unknown-Tool` gives the Python image badge, then the Flask image badge with alt text `flask`, then `**Unknown-Tool**` |
| MarkdownGenerator.GenerateInstallation | utils/markdown_generator.py:268-300 | the loop-built section equals `InstallSection`, the section as a function of the field map |
| MarkdownGenerator.GenerateUsage | utils/markdown_generator.py:302-338 | the loop-built section equals `UsageSection`, the section as a function of the field map |
| MarkdownProperties.CommandSplit | utils/markdown_generator.py:332-334 | a command line with a colon becomes a table row split at the first colon, both halves stripped |
| MarkdownProperties.CommandNoColon | utils/markdown_generator.py:335-336 | a non-blank line without a colon becomes a row whose description is `-`, and a blank one gives no row |
| MarkdownProperties.StructureGate | utils/markdown_generator.py:340-358 | the structure section is empty if and only if there is neither a tree nor a manual structure; the tree wins over the manual text |
| MarkdownProperties.ApiGate | utils/markdown_generator.py:360-372 | the API section is non-empty if and only if `has_api` is `Sim`, and it is the bare heading when the documentation is empty |
| MarkdownProperties.SpecificKinds | utils/markdown_generator.py:374-454 | only backend, frontend and mobile projects get type-specific sections, each only when its section has some content |
| MarkdownProperties.FrontendSections | utils/markdown_generator.py:396-429 | a frontend project gets one sub-section for UI components and one for state management, each only when filled in |
| MarkdownProperties.PlatformString | utils/markdown_generator.py:440-442 | a single platform given as a string renders like the one-element list |
| MarkdownGenerator.GenerateRoadmap | utils/markdown_generator.py:456-481 | the loop-built section equals `RoadmapSection`, the section as a function of the field map |
| MarkdownProperties.LicenseBranches | utils/markdown_generator.py:514-531 | `Outra` with custom text gives that text; any other named licence except `Nenhuma` gives the sentence naming it; no type or `Nenhuma` gives the no-licence sentence |
| MarkdownGenerator.GenerateContact | utils/markdown_generator.py:533-554 | the loop-built section equals `ContactSection`, the section as a function of the field map |
| MarkdownGenerator.GenerateFaq | utils/markdown_generator.py:556-585 | the FAQ loop builds `FaqSection`, the heading plus the output of the question/answer state machine `FaqRun` |
| MarkdownProperties.FaqState | utils/markdown_generator.py:572-579 | the parser's state after any lines is the text of the last question seen, never cleared |
| MarkdownProperties.FaqQuestion | utils/markdown_generator.py:574-579 | a `P:`/`Q:` line adds a `###` heading, preceded by a blank line when the last question seen before it has non-empty text |
| MarkdownProperties.FaqAnswer | utils/markdown_generator.py:580-583 | an `R:`/`A:` line adds its text exactly when the last question seen before it has non-empty text |
| MarkdownProperties.FaqOther | utils/markdown_generator.py:573-583 | any other line changes nothing |
| MarkdownProperties.FaqNoQuestion | utils/markdown_generator.py:572-583 | without a question line the FAQ has no entries at all |
| MarkdownGenerator.GenerateAcknowledgements | utils/markdown_generator.py:587-604 | the loop-built section equals `AckSection`, the section as a function of the field map |
| MarkdownGenerator.GenerateTeam | utils/markdown_generator.py:606-628 | the loop-built section equals `TeamSection`, the section as a function of the field map |
| MarkdownProperties.MemberSplit | utils/markdown_generator.py:622-624 | a member line is split at the first ` - ` into a bold name and a role, both stripped |
| MarkdownProperties.MemberNoRole | utils/markdown_generator.py:625-626 | a member line without ` - ` gives the bold stripped name alone |
| FileAnalyzer.IsIgnored | utils/file_analyzer.py:118-125 | the pattern scan answers true exactly when some pattern matches: a `*` pattern by suffix, any other by equality |
| FileAnalyzer.DefaultIgnores | utils/file_analyzer.py:69-85 | the default patterns ignore `.git` and `main.pyc` |
| FileAnalyzer.DefaultKeeps | utils/file_analyzer.py:69-85 | the default patterns keep `.gitignore` and `main.py` |
| FileAnalyzer.SortByName | utils/file_analyzer.py:109 | the listing is sorted by name and is a permutation of the directory's entries |
| FileAnalyzer.FilterItems | utils/file_analyzer.py:114-127 | the loop keeps exactly the entries no pattern matches, in order |
| FileAnalyzer.Unignored | utils/file_analyzer.py:115-127 | an entry is kept if and only if it is in the listing and not ignored |
| FileAnalyzer.UnignoredSorted | utils/file_analyzer.py:109-127 | filtering keeps the order, so the sorted listing stays sorted after the ignored entries are dropped |
| FileAnalyzer.Listing | utils/file_analyzer.py:109-127 | the entries drawn for a directory are exactly its children that no pattern matches, sorted by name |
| FileAnalyzer.ListingLast | utils/file_analyzer.py:130-132 | the entry that gets the last connector has the greatest name among the children no pattern matches |
| FileAnalyzer.RenderTree | utils/file_analyzer.py:56-152 | the recursive walk with its ignore, filter and drawing loops returns `Tree`, the join of the lines `TreeLines` defines |
| FileAnalyzer.TreeHead | utils/file_analyzer.py:87-112 | an ignored entry draws nothing; any other draws `prefix + connector + name` first, and a file or unlistable entry draws only that |
| FileAnalyzer.TreeEmpty | utils/file_analyzer.py:90-95 | the drawing is the empty string if and only if the entry itself is ignored |
| FileAnalyzer.TreeDir | utils/file_analyzer.py:97-150 | a directory draws its own line and then the lines of each entry of `Listing` (its visible children, sorted by name) with the continuation prefix |
| FileAnalyzer.GenerateTreeStructure | utils/file_analyzer.py:56 | the top-level call uses an empty prefix and the last-item connector |
| TreeProperties.LineCount | utils/file_analyzer.py:105-150 | the number of lines is the number of visible entries, counting every visible descendant once |
| TreeProperties.SumPermutation | utils/file_analyzer.py:109 | reordering the children does not change how many lines they draw |
| TreeProperties.IgnoredInvisible | utils/file_analyzer.py:114-127 | adding an ignored child to a directory does not change its drawing's size |
| TreeProperties.TreePrefix | utils/file_analyzer.py:105-150 | every line of a subtree starts with the prefix it was given |
| TreeProperties.ItemHead | utils/file_analyzer.py:130-150 | a child's first line is connected with `└── ` exactly when it is the last visible child; a file is indented by `prefix + "    "`, a directory by the continuation prefix |
| TreeProperties.ExampleListing | utils/file_analyzer.py:109-127 | `b.txt`, `a.txt` and `.git` are listed as `a.txt`, `b.txt` |
| TreeProperties.ExampleTree | utils/file_analyzer.py:98-152 | the directory's line is `└── ` followed by its name, then comes `├── a.txt`, then `└── b.txt`, each of those two indented by four spaces |
| TemplateManager.GetProjectTemplate | utils/template_manager.py:558-564 | the merge loop yields the base template with the type's sections assigned one by one, and the base itself for an unknown or missing type |
| TemplateManager.AssignSections | utils/template_manager.py:561-562 | the loop that assigns the type's sections one at a time ends with exactly `Merge(base, spec)`, the left fold of the assignments |
| TemplateManager.Put | utils/template_manager.py:562 | assigning a section replaces it in place or appends it last, and leaves every other key's section unchanged |
| TemplateManager.MergeKeys | utils/template_manager.py:558-564 | the merged keys are the base keys in their order followed by the type's new keys in its order |
| TemplateManager.MergeKeySet | utils/template_manager.py:558-564 | a key is in the merged template if and only if it is a base key or a key of the type |
| TemplateManager.MergeLookup | utils/template_manager.py:561-562 | a section the type names maps to the type's definition; every other section is the base one |
| TemplateManager.MergeDistinct | utils/template_manager.py:558-564 | merging keeps the section ids distinct |
| TemplateManager.TemplateShape | utils/template_manager.py:11-564 | each project type's template has distinct keys, the union of the base and type keys, and type-over-base sections |
| TemplateManager.BaseKeys | utils/template_manager.py:11-291 | the base template has the fourteen sections from `project_info` to `team`, in this order |
| TemplateManager.BackendApiSection | utils/template_manager.py:297-315 | a backend project's `api` section is the backend one |
| TemplateManager.BackendApiFields | utils/template_manager.py:297-315 | the backend `api` section has no `has_api` question |
| TemplateManager.BackendAboutSection | utils/template_manager.py:38-63 | a backend project keeps the base `about` section |
| TemplateManager.BackendKeys | utils/template_manager.py:295-335 | a backend project has the fourteen base sections in order, then `database` |
| ProjectModel.Project.constructor | models/project.py:6-11 | a new project has the given type and name, no sections, no tree and the `default` theme |
| ProjectModel.Project.ToDict | models/project.py:13-23 | the stored dictionary has every key, so storing it back again changes nothing |
| ProjectModel.Project.FromDict | models/project.py:25-37 | the rebuilt project takes each key of the dictionary, with no sections and the `default` theme for missing keys |
| ProjectModel.Normalize | models/project.py:34-36 | from a stored dictionary to the one stored back: missing sections become empty and a missing theme becomes `default`, all else is kept |
| ProjectModel.RoundTrip | models/project.py:13-37 | a project rebuilt from another's stored dictionary has all five of its fields |
| ProjectModel.Project.UpdateSection | models/project.py:39-43 | the section is replaced by the given fields and reads back as complete; no other section or field changes |
| ProjectModel.Project.GetSection | models/project.py:45-49 | a section's fields, or the empty map for a section never filled in |
| ProjectModel.Project.IsSectionComplete | models/project.py:51-59 | true if and only if the section has been submitted; the fields themselves are not inspected |

## Left out

- `analyze_structure` (utils/file_analyzer.py:12-54) is left out, because it is file-system and archive I/O. It saves the upload in a temporary directory. A name ending in `.zip` is unpacked as a ZIP archive into a directory `extracted` there, and a name ending in `.tar.gz` or `.tgz` as a gzipped tar archive (:37-41). Any other name returns the message "Formato de arquivo não suportado. Use .zip ou .tar.gz" (:43). An exception returns "Erro ao analisar a estrutura: " followed by the error text (:50-51), and the temporary directory is always removed (:52-54). On success it returns `generate_tree_structure` of the `extracted` directory itself (:46), so the tree's first line is `└── extracted`. The model receives that directory as an `Entry` value. The web application passes a path string rather than an upload object (app.py:278), so `uploaded_file.filename` (:23) raises `AttributeError` before the `try` starts. That caller is not part of this model.
- `os.listdir`, `os.path.isdir` and `os.path.basename` become the `Entry` datatype. A directory that cannot be listed is `Unreadable`. Symbolic links, directory cycles and paths that end in a separator are not modelled.
- Python's `strip` and `lower` also handle non-ASCII whitespace and letters. The model strips ASCII whitespace only (the ten characters listed above) and lowers ASCII letters only; it does no Unicode case folding.
- A list stored in a text field reads as missing in the model. Python would call string methods on it (and raise) or print its `repr`. Only fields the form submits as checkboxes (`platform_list`) are read as lists.
- `TemplateManager`: the form fields' labels and placeholders, the `accept` file filter of the upload field (utils/template_manager.py:143) and the `conditional` display rules of the API fields (utils/template_manager.py:170, :231) are left out, because only the browser form reads them. Ids, widget types, required flags and choices are kept.
- `ProjectModel.Project.FromDict`: a key that is present with the value `None` reads as missing, so `sections` and `theme` are defaulted where Python would store `None`.
- `MarkdownGenerator.GenerateMarkdown`, `MarkdownGenerator.Markdown`: a project dictionary whose `sections` is `None` is rendered as one with no sections (header, contents heading, back-to-top). Python raises `AttributeError` at utils/markdown_generator.py:16, because `from_dict` stores `None` as given (models/project.py:34); the model has no exception path there.
- `ProjectModel.Project`: aliasing is not modelled. In Python `from_dict` keeps the caller's `sections` dictionary by reference (models/project.py:34), `to_dict` hands back that same object (models/project.py:20), and `update_section` writes into it in place (models/project.py:43), so the session's stored dictionary already changes before it is stored back, and the web application also writes into nested sections through `project.sections`. In the model `sections` is a map value: `UpdateSection`, `ToDict` and `FromDict` copy it, and no other object observes the update.
- The web application (`app.py`), its configuration and the browser scripts are not part of this model. They are sessions, HTTP, uploads and the editor UI.
