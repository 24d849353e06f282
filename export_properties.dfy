/** What the export promises about each row and about the sequence of rows. */
module ExportProperties {
  import opened Wrappers
  import opened Catalog
  import opened Flatten
  import opened Export

  /** The header lists ten distinct columns, and every row handed to the writer has exactly
      those ten keys. */
  lemma RowHasHeaderColumns(row: Row)
    ensures |Header| == 10
    ensures forall i, j :: 0 <= i < j < |Header| ==> Header[i] != Header[j]
    ensures forall c :: c in Dict(row) <==> c in Header
  {
  }

  /** The dictionary's column names pick out the row's fields. */
  lemma DictColumns(row: Row)
    ensures var d := Dict(row);
            d["name"] == row.name && d["description"] == row.description &&
            d["when_why"] == row.whenWhy && d["notes"] == row.notes && d["how"] == row.how &&
            d["flags"] == row.flags && d["examples"] == row.examples && d["tips"] == row.tips &&
            d["advanced_tips"] == row.advancedTips && d["advanced_extra"] == row.advancedExtra
  {
    var d, cells := Dict(row), Cells(row);
    assert d[Header[0]] == cells[0] && d[Header[1]] == cells[1] && d[Header[2]] == cells[2];
    assert d[Header[3]] == cells[3] && d[Header[4]] == cells[4] && d[Header[5]] == cells[5];
    assert d[Header[6]] == cells[6] && d[Header[7]] == cells[7];
    assert d[Header[8]] == cells[8] && d[Header[9]] == cells[9];
  }

  /** The scalar fields of a built row are the tool's fields read with a "" default. */
  lemma ScalarFields(t: Tool)
    requires BuildRow(t).Ok?
    ensures var row := BuildRow(t).value;
            row.name == Scalar(t.name) && row.description == Scalar(t.description) &&
            row.whenWhy == Scalar(t.whenWhy) && row.notes == Scalar(t.notes) && row.how == Scalar(t.how)
  {
  }

  /** The scalar columns copy the tool's field, and a field the tool lacks becomes "". */
  lemma ScalarColumns(t: Tool)
    requires BuildRow(t).Ok?
    ensures var d := Dict(BuildRow(t).value);
            d["name"] == (if t.name.Some? then t.name.value else "") &&
            d["description"] == (if t.description.Some? then t.description.value else "") &&
            d["when_why"] == (if t.whenWhy.Some? then t.whenWhy.value else "") &&
            d["notes"] == (if t.notes.Some? then t.notes.value else "") &&
            d["how"] == (if t.how.Some? then t.how.value else "")
  {
    ScalarFields(t);
    DictColumns(BuildRow(t).value);
  }

  /** The nested columns are the flatteners' cells: flags, examples and the tip mapping. */
  lemma NestedColumns(t: Tool)
    requires BuildRow(t).Ok?
    ensures var d := Dict(BuildRow(t).value);
            Ok(d["flags"]) == FlattenFlags(t.flags) &&
            Ok(d["examples"]) == FlattenExamples(t.examples) &&
            d["tips"] == FlattenDict(t.tips)
  {
    DictColumns(BuildRow(t).value);
  }

  /** `advanced_tips` comes only from `advanced.advanced_tips`, `advanced_extra` only from
      `advanced.tips`; a tool without `advanced` has "" in both. */
  lemma AdvancedColumns(t: Tool)
    requires BuildRow(t).Ok?
    ensures var d := Dict(BuildRow(t).value);
            (t.advanced.NoAdvanced? ==> d["advanced_tips"] == "" && d["advanced_extra"] == "") &&
            (t.advanced.AdvancedRecord? ==>
               d["advanced_tips"] == FlattenList(t.advanced.advancedTips) &&
               d["advanced_extra"] == FlattenList(t.advanced.tips))
  {
    DictColumns(BuildRow(t).value);
  }

  /** The two advanced columns stay apart: replacing `advanced.tips` changes only
      `advanced_extra`, and replacing `advanced.advanced_tips` changes only `advanced_tips`. */
  lemma AdvancedColumnsIndependent(t: Tool, advancedTips: Option<seq<string>>,
                                   extra: Option<seq<string>>)
    requires BuildRow(t).Ok? && t.advanced.AdvancedRecord?
    ensures var u := t.(advanced := AdvancedRecord(t.advanced.advancedTips, extra));
            BuildRow(u).Ok? &&
            BuildRow(u).value == BuildRow(t).value.(advancedExtra := FlattenList(extra))
    ensures var u := t.(advanced := AdvancedRecord(advancedTips, t.advanced.tips));
            BuildRow(u).Ok? &&
            BuildRow(u).value == BuildRow(t).value.(advancedTips := FlattenList(advancedTips))
  {
  }

  /** The top-level tip mapping feeds only the `tips` column, whatever `advanced` holds:
      replacing it changes no other column, the advanced ones included. */
  lemma TopLevelTipsIndependent(t: Tool, tips: Option<seq<(string, string)>>)
    requires BuildRow(t).Ok?
    ensures var u := t.(tips := tips);
            BuildRow(u).Ok? && BuildRow(u).value == BuildRow(t).value.(tips := FlattenDict(tips))
  {
  }

  /** A tool whose `advanced` is JSON null cannot be written: `.get` on it raises. */
  lemma NullAdvancedFails(t: Tool)
    requires t.advanced.NullAdvanced?
    requires FlattenFlags(t.flags).Ok? && FlattenExamples(t.examples).Ok?
    ensures BuildRow(t) == Err(AttributeError("get"))
  {
  }

  /** A single top-level record is exported as exactly one row, or as no row and its error. */
  lemma ExportSingleTool(t: Tool)
    ensures BuildRow(t).Ok? ==> Convert(Normalize(SingleTool(t))) == ([BuildRow(t).value], None)
    ensures BuildRow(t).Err? ==> Convert(Normalize(SingleTool(t))) == ([], Some(BuildRow(t).error))
  {
    assert [t][1..] == [];
    if BuildRow(t).Ok? {
      assert [BuildRow(t).value] + [] == [BuildRow(t).value];
    }
  }

  /** When every tool can be written there is one row per tool, in catalog order, and no error. */
  lemma {:induction false} ExportEveryTool(tools: seq<Tool>)
    requires forall i :: 0 <= i < |tools| ==> BuildRow(tools[i]).Ok?
    ensures Convert(tools).1 == None
    ensures |Convert(tools).0| == |tools|
    ensures forall i :: 0 <= i < |tools| ==> Convert(tools).0[i] == BuildRow(tools[i]).value
  {
    ConvertExported(tools);
  }

  /** Exporting a concatenated catalog: when the first part fails, exactly its outcome; otherwise
      the first part's rows followed by the second part's rows and error. */
  lemma {:induction false} ConvertAppend(xs: seq<Tool>, ys: seq<Tool>)
    ensures Convert(xs).1.Some? ==> Convert(xs + ys) == Convert(xs)
    ensures Convert(xs).1.None? ==>
              Convert(xs + ys) == (Convert(xs).0 + Convert(ys).0, Convert(ys).1)
    decreases |xs|
  {
    if |xs| == 0 {
      assert xs + ys == ys;
      assert [] + Convert(ys).0 == Convert(ys).0;
    } else {
      var tail := xs[1..];
      assert (xs + ys)[0] == xs[0];
      assert (xs + ys)[1..] == tail + ys;
      ConvertAppend(tail, ys);
      var r := BuildRow(xs[0]);
      if r.Ok? {
        var (rowsT, failT) := Convert(tail);
        var (rowsY, failY) := Convert(ys);
        assert Convert(xs) == ([r.value] + rowsT, failT);
        if failT.None? {
          assert Convert(xs + ys) == ([r.value] + (rowsT + rowsY), failY);
          assert [r.value] + (rowsT + rowsY) == ([r.value] + rowsT) + rowsY;
        } else {
          assert Convert(xs + ys) == ([r.value] + rowsT, failT);
        }
      }
    }
  }
}
