/** The four flatteners of ss.py, each turning a nested part of a tool into one CSV cell. */
module Flatten {
  import opened Wrappers
  import opened StringJoin
  import opened Catalog

  /** What the flatteners and the row builder can raise. */
  datatype Error =
    | KeyError(key: string)          // a flag or example object lacks a key the f-string reads
    | AttributeError(name: string)   // `.get` called on a JSON null

  /** The separator put between the pieces of one cell. */
  const Separator: string := " | "

  /** The text of one flag or example object: its `key` member, " => ", its explanation. The
      f-string reads `key` first, so a missing `key` is the error even when both are missing. */
  function FormatEntry(e: Entry, key: string): (r: Result<string, Error>)
    ensures r.Ok? <==> key in e && "explanation" in e
    ensures r.Ok? ==> r.value == e[key] + " => " + e["explanation"]
    ensures r.Err? ==> r.error == KeyError(if key !in e then key else "explanation")
  {
    if key !in e then Err(KeyError(key))
    else if "explanation" !in e then Err(KeyError("explanation"))
    else Ok(e[key] + " => " + e["explanation"])
  }

  /** The list comprehension over the entries: every entry formatted, in order, or the error of
      the first entry that cannot be. */
  function FormatEntries(entries: seq<Entry>, key: string): (r: Result<seq<string>, Error>)
    ensures r.Ok? ==> |r.value| == |entries| &&
                      forall i :: 0 <= i < |entries| ==> FormatEntry(entries[i], key) == Ok(r.value[i])
    ensures r.Err? ==> exists k :: 0 <= k < |entries| &&
                         FormatEntry(entries[k], key) == Err(r.error) &&
                         forall i :: 0 <= i < k ==> FormatEntry(entries[i], key).Ok?
    decreases |entries|
  {
    if |entries| == 0 then Ok([])
    else
      match FormatEntry(entries[0], key)
      case Err(e) => Err(e)
      case Ok(first) =>
        match FormatEntries(entries[1..], key)
        case Err(e) => Err(e)
        case Ok(rest) => Ok([first] + rest)
  }

  /** Shared shape of `flatten_flags` and `flatten_examples`: a falsy list gives "", otherwise
      the formatted entries joined by the separator. */
  function FlattenEntries(entries: Option<seq<Entry>>, key: string): (r: Result<string, Error>)
    ensures entries.None? ==> r == Ok("")
    ensures entries.Some? ==>
              (r.Ok? <==> forall i :: 0 <= i < |entries.value| ==> FormatEntry(entries.value[i], key).Ok?)
    ensures r.Err? ==> r.error == KeyError(key) || r.error == KeyError("explanation")
  {
    if entries.None? || |entries.value| == 0 then Ok("")
    else
      match FormatEntries(entries.value, key)
      case Err(e) => Err(e)
      case Ok(parts) => Ok(Join(Separator, parts))
  }

  /** `flatten_flags`: each entry as "<flag> => <explanation>". */
  function FlattenFlags(flags: Option<seq<Entry>>): (r: Result<string, Error>)
    ensures flags.Some? ==>
              (r.Ok? <==> forall i :: 0 <= i < |flags.value| ==>
                            "flag" in flags.value[i] && "explanation" in flags.value[i])
    ensures r.Err? ==> r.error == KeyError("flag") || r.error == KeyError("explanation")
  {
    FlattenEntries(flags, "flag")
  }

  /** `flatten_examples`: each entry as "<command> => <explanation>". */
  function FlattenExamples(examples: Option<seq<Entry>>): (r: Result<string, Error>)
    ensures examples.Some? ==>
              (r.Ok? <==> forall i :: 0 <= i < |examples.value| ==>
                            "command" in examples.value[i] && "explanation" in examples.value[i])
    ensures r.Err? ==> r.error == KeyError("command") || r.error == KeyError("explanation")
  {
    FlattenEntries(examples, "command")
  }

  /** The pieces of `flatten_dict`: "k: v" per pair, in the mapping's order. */
  function FormatTips(d: seq<(string, string)>): (r: seq<string>)
    ensures |r| == |d| && forall i :: 0 <= i < |d| ==> r[i] == d[i].0 + ": " + d[i].1
  {
    seq(|d|, i requires 0 <= i < |d| => d[i].0 + ": " + d[i].1)
  }

  /** `flatten_dict`: a falsy mapping gives "", otherwise "k: v" pieces joined by the separator. */
  function FlattenDict(d: Option<seq<(string, string)>>): string
  {
    if d.None? || |d.value| == 0 then "" else Join(Separator, FormatTips(d.value))
  }

  /** `flatten_list`: a falsy list gives "", otherwise its strings joined by the separator. */
  function FlattenList(lst: Option<seq<string>>): string
  {
    if lst.None? || |lst.value| == 0 then "" else Join(Separator, lst.value)
  }
}
