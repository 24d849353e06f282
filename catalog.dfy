/** The parsed tool catalog that the CSV exporter reads (ss.py), with every JSON leaf a string. */
module Catalog {
  import opened Wrappers

  /** A JSON object inside a `flags` or `examples` list, e.g. {"flag": "-v", "explanation": "..."}.
      The keys it must carry are looked up by the flattener, so a missing one is an error there. */
  type Entry = map<string, string>

  /** The `advanced` member of a tool: absent (read as `{}`), present as JSON null, or an object
      whose two optional lists are `advanced_tips` and `tips`. */
  datatype Advanced =
    | NoAdvanced
    | NullAdvanced
    | AdvancedRecord(advancedTips: Option<seq<string>>, tips: Option<seq<string>>)

  /** One tool record. `None` on a scalar means the key is absent. `None` on a list or mapping
      means absent or JSON null; both read as empty. The `tips` mapping is kept as a sequence of
      pairs in the order the JSON object lists them (Python dicts keep insertion order). */
  datatype Tool = Tool(
    name: Option<string>,
    description: Option<string>,
    whenWhy: Option<string>,
    notes: Option<string>,
    how: Option<string>,
    flags: Option<seq<Entry>>,
    examples: Option<seq<Entry>>,
    tips: Option<seq<(string, string)>>,
    advanced: Advanced)

  /** The top-level JSON document: a single tool object or a list of them. */
  datatype Document = SingleTool(tool: Tool) | ToolList(tools: seq<Tool>)

  /** The list of tools the export loop walks: a lone object is wrapped in a one-element list,
      a list is kept as it is. */
  function Normalize(doc: Document): (data: seq<Tool>)
    ensures doc.SingleTool? ==> data == [doc.tool]
    ensures doc.ToolList? ==> data == doc.tools
  {
    match doc
    case SingleTool(t) => [t]
    case ToolList(ts) => ts
  }
}
