/**
 * The project record the document assembler reads: a type tag, a map of
 * section id to a map of field id to value, an optional precomputed tree
 * diagram and a theme.
 */
module ProjectData {
  import opened Options

  /** A field value: text, or the list a checkbox field submits. */
  datatype Value = Text(text: string) | Choices(items: seq<string>)

  type Fields = map<string, Value>
  type Sections = map<string, Fields>

  /**
   * The dictionary form of a project (`Project.to_dict`). `None` stands for
   * a key that is missing, or for a key whose value is Python's `None`.
   */
  datatype ProjectDict = ProjectDict(
    kind: Option<string>,
    name: Option<string>,
    sections: Option<Sections>,
    structure: Option<string>,
    theme: Option<string>)

  /** `sections.get(id, {})`. */
  function Section(sections: Sections, id: string): Fields {
    if id in sections then sections[id] else map[]
  }

  /** `fields.get(key, default)` for a text field. */
  function FieldOr(fields: Fields, key: string, default: string): string {
    if key in fields && fields[key].Text? then fields[key].text else default
  }

  /** `fields.get(key, '')` for a text field. */
  function Field(fields: Fields, key: string): string {
    FieldOr(fields, key, "")
  }

  /**
   * `fields.get(key, [])` for a checkbox field, as the list it is used as:
   * a plain string stands for the one-element list holding it, and a falsy
   * value (missing, empty string, empty list) for no list at all.
   */
  function ChoiceList(fields: Fields, key: string): (r: seq<string>)
    ensures key in fields && fields[key].Choices? ==> r == fields[key].items
    ensures key in fields && fields[key].Text? && fields[key].text != "" ==> r == [fields[key].text]
    ensures key !in fields || fields[key] == Text("") ==> r == []
  {
    if key !in fields then []
    else match fields[key]
      case Text(s) => if s == "" then [] else [s]
      case Choices(items) => items
  }
}
