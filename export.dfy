/** The CSV export of ss.py: the fixed column list, one row per tool, and the loop that hands
    the rows to the CSV writer in catalog order. */
module Export {
  import opened Wrappers
  import opened Catalog
  import opened Flatten

  /** The CSV columns, in the order the header row lists them. */
  const Header: seq<string> := [
    "name", "description", "when_why", "notes", "how",
    "flags", "examples", "tips", "advanced_tips", "advanced_extra"
  ]

  /** The cells written for one tool, one field per column of `Header`. */
  datatype Row = Row(
    name: string,
    description: string,
    whenWhy: string,
    notes: string,
    how: string,
    flags: string,
    examples: string,
    tips: string,
    advancedTips: string,
    advancedExtra: string)

  /** The cells of a row in `Header` order, the order the CSV writer puts them on the line. */
  function Cells(row: Row): (cells: seq<string>)
    ensures |cells| == |Header|
  {
    [row.name, row.description, row.whenWhy, row.notes, row.how,
     row.flags, row.examples, row.tips, row.advancedTips, row.advancedExtra]
  }

  /** The dictionary handed to the CSV writer: column name to cell. Its keys are exactly the
      header's, so the writer neither rejects an extra key nor fills in a missing one, and each
      column holds the cell at that column's position. */
  function Dict(row: Row): (d: map<string, string>)
    ensures d.Keys == set c | c in Header
    ensures forall i :: 0 <= i < |Header| ==> d[Header[i]] == Cells(row)[i]
  {
    map[
      "name" := row.name,
      "description" := row.description,
      "when_why" := row.whenWhy,
      "notes" := row.notes,
      "how" := row.how,
      "flags" := row.flags,
      "examples" := row.examples,
      "tips" := row.tips,
      "advanced_tips" := row.advancedTips,
      "advanced_extra" := row.advancedExtra
    ]
  }

  /** A scalar field read with `tool.get(key, "")`: an absent key gives "". */
  function Scalar(v: Option<string>): string {
    v.GetOr("")
  }

  /** `tool.get("advanced", {}).get("advanced_tips", [])`, for a tool whose `advanced` is not null. */
  function AdvancedTips(a: Advanced): Option<seq<string>>
    requires !a.NullAdvanced?
  {
    if a.AdvancedRecord? then a.advancedTips else None
  }

  /** `tool.get("advanced", {}).get("tips", [])`, for a tool whose `advanced` is not null. */
  function AdvancedExtra(a: Advanced): Option<seq<string>>
    requires !a.NullAdvanced?
  {
    if a.AdvancedRecord? then a.tips else None
  }

  /** The row for one tool. The dictionary display is evaluated column by column, so the first
      failure decides the error: the flags, then the examples, then `.get` on a null `advanced`. */
  function BuildRow(t: Tool): (r: Result<Row, Error>)
    ensures r.Ok? <==> FlattenFlags(t.flags).Ok? && FlattenExamples(t.examples).Ok? &&
                       !t.advanced.NullAdvanced?
    ensures FlattenFlags(t.flags).Err? ==> r == Err(FlattenFlags(t.flags).error)
    ensures FlattenFlags(t.flags).Ok? && FlattenExamples(t.examples).Err? ==>
              r == Err(FlattenExamples(t.examples).error)
    ensures FlattenFlags(t.flags).Ok? && FlattenExamples(t.examples).Ok? && t.advanced.NullAdvanced? ==>
              r == Err(AttributeError("get"))
  {
    match FlattenFlags(t.flags)
    case Err(e) => Err(e)
    case Ok(flags) =>
      match FlattenExamples(t.examples)
      case Err(e) => Err(e)
      case Ok(examples) =>
        if t.advanced.NullAdvanced? then Err(AttributeError("get"))
        else
          Ok(Row(
            Scalar(t.name),
            Scalar(t.description),
            Scalar(t.whenWhy),
            Scalar(t.notes),
            Scalar(t.how),
            flags,
            examples,
            FlattenDict(t.tips),
            FlattenList(AdvancedTips(t.advanced)),
            FlattenList(AdvancedExtra(t.advanced))))
  }

  /** What the export loop has written when it stops: the rows of a prefix of `tools`, one per
      tool in order, and either nothing more (every tool was written) or the error raised by the
      first tool after that prefix. */
  ghost predicate Exported(tools: seq<Tool>, rows: seq<Row>, failure: Option<Error>) {
    |rows| <= |tools| &&
    (forall j :: 0 <= j < |rows| ==> BuildRow(tools[j]) == Ok(rows[j])) &&
    (failure.None? ==> |rows| == |tools|) &&
    (failure.Some? ==> |rows| < |tools| && BuildRow(tools[|rows|]) == Err(failure.value))
  }

  /** The rows written for `tools` and the error that stopped the loop, if any. */
  function Convert(tools: seq<Tool>): (out: (seq<Row>, Option<Error>))
    ensures |out.0| <= |tools|
    ensures out.1.None? <==> |out.0| == |tools|
    decreases |tools|
  {
    if |tools| == 0 then ([], None)
    else
      match BuildRow(tools[0])
      case Err(e) => ([], Some(e))
      case Ok(row) =>
        var (rows, failure) := Convert(tools[1..]);
        ([row] + rows, failure)
  }

  /** `Convert` meets `Exported`: it writes a prefix of the rows in order and stops at the
      first error. */
  lemma {:induction false} ConvertExported(tools: seq<Tool>)
    ensures Exported(tools, Convert(tools).0, Convert(tools).1)
    decreases |tools|
  {
    if |tools| > 0 && BuildRow(tools[0]).Ok? {
      var tail := tools[1..];
      ConvertExported(tail);
      var (rows, failure) := Convert(tail);
      var row := BuildRow(tools[0]).value;
      assert Convert(tools) == ([row] + rows, failure);
      forall j | 1 <= j < |rows| + 1
        ensures BuildRow(tools[j]) == Ok(([row] + rows)[j])
      {
        assert tools[j] == tail[j - 1];
      }
      if failure.Some? {
        assert tools[|rows| + 1] == tail[|rows|];
      }
    }
  }

  /** The export loop over the normalised document: rows are written one at a time, and an
      exception raised while building a row ends the loop with the earlier rows already written. */
  method ExportRows(doc: Document) returns (rows: seq<Row>, failure: Option<Error>)
    ensures Exported(Normalize(doc), rows, failure)
    ensures (rows, failure) == Convert(Normalize(doc))
  {
    var data := Normalize(doc);
    rows := [];
    failure := None;
    var i := 0;
    while i < |data|
      invariant 0 <= i <= |data|
      invariant |rows| == i
      invariant forall j :: 0 <= j < i ==> BuildRow(data[j]) == Ok(rows[j])
    {
      var row := BuildRow(data[i]);
      if row.Err? {
        failure := Some(row.error);
        ConvertExported(data);
        ExportedUnique(data, rows, failure, Convert(data).0, Convert(data).1);
        return;
      }
      rows := rows + [row.value];
      i := i + 1;
    }
    ConvertExported(data);
    ExportedUnique(data, rows, failure, Convert(data).0, Convert(data).1);
  }

  /** The export outcome is determined by the tools: two outcomes that both satisfy `Exported`
      are the same rows and the same error. */
  lemma ExportedUnique(tools: seq<Tool>, rows1: seq<Row>, failure1: Option<Error>,
                       rows2: seq<Row>, failure2: Option<Error>)
    requires Exported(tools, rows1, failure1) && Exported(tools, rows2, failure2)
    ensures rows1 == rows2 && failure1 == failure2
  {
  }
}
