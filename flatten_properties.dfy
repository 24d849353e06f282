/** What the four flatteners promise: falsy inputs, single entries, concatenation, order,
    length and the first error raised. */
module FlattenProperties {
  import opened Wrappers
  import opened StringJoin
  import opened Catalog
  import opened Flatten

  /** An entry that `FormatEntry` can format with the given key. */
  predicate Formattable(e: Entry, key: string) {
    key in e && "explanation" in e
  }

  /** Every falsy input (absent, null, empty) gives the empty cell. */
  lemma FalsyInputsGiveEmpty()
    ensures FlattenFlags(None) == Ok("") && FlattenFlags(Some([])) == Ok("")
    ensures FlattenExamples(None) == Ok("") && FlattenExamples(Some([])) == Ok("")
    ensures FlattenDict(None) == "" && FlattenDict(Some([])) == ""
    ensures FlattenList(None) == "" && FlattenList(Some([])) == ""
  {
  }

  /** When every entry can be formatted, the cell is the plain join of "<key> => <explanation>"
      per entry in input order; for an empty list this is "" as well, so the emptiness guard
      agrees with the join. */
  lemma FlattenEntriesFormattable(entries: seq<Entry>, key: string)
    requires forall i :: 0 <= i < |entries| ==> Formattable(entries[i], key)
    ensures FlattenEntries(Some(entries), key) ==
            Ok(Join(Separator, seq(|entries|, i requires 0 <= i < |entries| && Formattable(entries[i], key) =>
                                     entries[i][key] + " => " + entries[i]["explanation"])))
  {
    var parts := seq(|entries|, i requires 0 <= i < |entries| && Formattable(entries[i], key) =>
                       entries[i][key] + " => " + entries[i]["explanation"]);
    if |entries| > 0 {
      var r := FormatEntries(entries, key);
      assert r.value == parts;
    }
  }

  /** One flag gives exactly "<flag> => <explanation>", with no separator. */
  lemma FlattenFlagsSingleton(f: Entry)
    requires Formattable(f, "flag")
    ensures FlattenFlags(Some([f])) == Ok(f["flag"] + " => " + f["explanation"])
  {
    FlattenEntriesFormattable([f], "flag");
  }

  /** The first entry that cannot be formatted decides the error: a KeyError naming the key it
      lacks, the entry's own key before "explanation". */
  lemma FlattenEntriesFirstError(entries: seq<Entry>, key: string, k: nat)
    requires k < |entries|
    requires forall i :: 0 <= i < k ==> Formattable(entries[i], key)
    requires !Formattable(entries[k], key)
    ensures FlattenEntries(Some(entries), key) ==
            Err(KeyError(if key !in entries[k] then key else "explanation"))
  {
    var r := FormatEntries(entries, key);
  }

  /** The entry list of a concatenation is formatted piecewise: the two formatted lists
      concatenated, or the first error, looking at the first list before the second. */
  lemma {:induction false} FormatEntriesAppend(xs: seq<Entry>, ys: seq<Entry>, key: string)
    ensures FormatEntries(xs + ys, key) ==
            match FormatEntries(xs, key)
            case Err(e) => Err(e)
            case Ok(px) =>
              match FormatEntries(ys, key)
              case Err(e) => Err(e)
              case Ok(py) => Ok(px + py)
    decreases |xs|
  {
    if |xs| == 0 {
      assert xs + ys == ys;
      match FormatEntries(ys, key)
      case Err(_) =>
      case Ok(py) => assert [] + py == py;
    } else {
      assert (xs + ys)[0] == xs[0];
      assert (xs + ys)[1..] == xs[1..] + ys;
      FormatEntriesAppend(xs[1..], ys, key);
      match FormatEntry(xs[0], key)
      case Err(_) =>
      case Ok(first) =>
        match FormatEntries(xs[1..], key)
        case Err(_) =>
        case Ok(rest) =>
          match FormatEntries(ys, key)
          case Err(_) =>
          case Ok(py) => assert [first] + (rest + py) == ([first] + rest) + py;
    }
  }

  /** Flattening a concatenation of two non-empty lists: when both halves succeed, their cells
      with one separator between; when the first half fails, its error. */
  lemma FlattenEntriesAppend(xs: seq<Entry>, ys: seq<Entry>, key: string)
    requires |xs| >= 1 && |ys| >= 1
    ensures FlattenEntries(Some(xs), key).Ok? && FlattenEntries(Some(ys), key).Ok? ==>
              FlattenEntries(Some(xs + ys), key) ==
              Ok(FlattenEntries(Some(xs), key).value + Separator + FlattenEntries(Some(ys), key).value)
    ensures FlattenEntries(Some(xs), key).Err? ==>
              FlattenEntries(Some(xs + ys), key) == FlattenEntries(Some(xs), key)
  {
    FormatEntriesAppend(xs, ys, key);
    var rx, ry := FormatEntries(xs, key), FormatEntries(ys, key);
    if rx.Ok? && ry.Ok? {
      JoinAppend(Separator, rx.value, ry.value);
    }
  }

  /** A flag object and an example object correspond when the example's "command" plays the
      part of the flag's "flag" and both carry the same explanation (or both lack one). */
  predicate Corresponds(example: Entry, flag: Entry) {
    ("command" in example <==> "flag" in flag) &&
    ("command" in example ==> example["command"] == flag["flag"]) &&
    ("explanation" in example <==> "explanation" in flag) &&
    ("explanation" in example ==> example["explanation"] == flag["explanation"])
  }

  /** `flatten_examples` does what `flatten_flags` does with "command" for "flag": on
      corresponding lists both succeed with the same cell or both fail. */
  lemma ExamplesAgreeWithFlags(examples: seq<Entry>, flags: seq<Entry>)
    requires |examples| == |flags|
    requires forall i :: 0 <= i < |flags| ==> Corresponds(examples[i], flags[i])
    ensures FlattenExamples(Some(examples)).Ok? == FlattenFlags(Some(flags)).Ok?
    ensures FlattenExamples(Some(examples)).Ok? ==>
              FlattenExamples(Some(examples)).value == FlattenFlags(Some(flags)).value
  {
    if |flags| > 0 {
      var re, rf := FormatEntries(examples, "command"), FormatEntries(flags, "flag");
      if re.Ok? && rf.Ok? {
        assert re.value == rf.value by {
          forall i | 0 <= i < |flags| ensures re.value[i] == rf.value[i] {
            assert FormatEntry(examples[i], "command") == Ok(re.value[i]);
          }
        }
      }
    }
  }

  /** One tip pair gives exactly "k: v". */
  lemma FlattenDictSingleton(k: string, v: string)
    ensures FlattenDict(Some([(k, v)])) == k + ": " + v
  {
  }

  /** Tips of a mapping whose pairs are those of `d1` followed by those of `d2` (both non-empty)
      are the first's cell, the separator, the second's cell: insertion order is kept. */
  lemma FlattenDictAppend(d1: seq<(string, string)>, d2: seq<(string, string)>)
    requires |d1| >= 1 && |d2| >= 1
    ensures FlattenDict(Some(d1 + d2)) ==
            FlattenDict(Some(d1)) + Separator + FlattenDict(Some(d2))
  {
    assert FormatTips(d1 + d2) == FormatTips(d1) + FormatTips(d2);
    JoinAppend(Separator, FormatTips(d1), FormatTips(d2));
  }

  /** The i-th pair of a non-empty mapping appears as "k: v" at its offset, in mapping order. */
  lemma FlattenDictPairAt(d: seq<(string, string)>, i: nat)
    requires i < |d|
    ensures var cell, o := FlattenDict(Some(d)), Offset(Separator, FormatTips(d), i);
            o + |d[i].0 + ": " + d[i].1| <= |cell| &&
            cell[o..o + |d[i].0 + ": " + d[i].1|] == d[i].0 + ": " + d[i].1
  {
    JoinPartAt(Separator, FormatTips(d), i);
  }

  /** `flatten_list` of one element is that element unchanged. */
  lemma FlattenListSingleton(x: string)
    ensures FlattenList(Some([x])) == x
  {
  }

  /** For n >= 1 elements the cell is as long as the elements together plus 3 * (n - 1). */
  lemma FlattenListLength(lst: seq<string>)
    requires |lst| >= 1
    ensures |FlattenList(Some(lst))| == TotalLength(lst) + 3 * (|lst| - 1)
  {
    JoinLength(Separator, lst);
  }

  /** Element i of the list appears unchanged at its offset, followed by " | " when another
      element comes after it. */
  lemma FlattenListElementAt(lst: seq<string>, i: nat)
    requires i < |lst|
    ensures var cell, o := FlattenList(Some(lst)), Offset(Separator, lst, i);
            o + |lst[i]| <= |cell| && cell[o..o + |lst[i]|] == lst[i] &&
            (i + 1 < |lst| ==> o + |lst[i]| + 3 <= |cell| && cell[o + |lst[i]|..o + |lst[i]| + 3] == " | ")
  {
    JoinPartAt(Separator, lst, i);
  }

  /** Flattening a concatenation of two non-empty lists puts one separator between the cells. */
  lemma FlattenListAppend(xs: seq<string>, ys: seq<string>)
    requires |xs| >= 1 && |ys| >= 1
    ensures FlattenList(Some(xs + ys)) == FlattenList(Some(xs)) + " | " + FlattenList(Some(ys))
  {
    JoinAppend(Separator, xs, ys);
  }
}
