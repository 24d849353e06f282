# Tool catalog CSV export, modelled in Dafny

This project models the exporter script `ss.py` of a small community web site. The script
reads a JSON catalog of tools and writes one CSV row per tool, with ten fixed columns. Nested
parts of a tool are flattened into single cells:

- a flag list becomes `"<flag> => <explanation>"` pieces;
- an example list becomes `"<command> => <explanation>"` pieces;
- the tip mapping becomes `"<key>: <value>"` pieces;
- the two lists of the `advanced` record are used as plain text pieces.

In every cell the pieces are joined with `" | "`, and a falsy value (absent, null or empty)
gives `""`.

Modules:

- `Wrappers`: `Option` and `Result`.
- `StringJoin`: Python's `sep.join`. Lemmas give its length, how it splits over concatenation, and where each part lands.
- `Catalog`: the parsed catalog (`Tool`, `Advanced`, `Document`) and the single-record-to-list normalisation.
- `Flatten`: the four flatteners and the errors they raise.
- `FlattenProperties`: what the flatteners promise.
- `Export`: the header, the row record and its dictionary view, the row builder, and the export loop (a method with a `while` loop), specified by `Convert` and `Exported`.
- `ExportProperties`: what each row and the sequence of rows promise.

Python exceptions are modelled as values, not excluded by preconditions:

- A flag or example object missing `flag`, `command` or `explanation` raises `KeyError`. The f-string reads the entry's own key before `explanation`, and the first bad entry decides which key is named.
- An `advanced` member that is JSON `null` raises `AttributeError` on `.get`.
- The row dictionary is evaluated column by column, so a failure in `flags` comes before one in `examples`, which comes before the null `advanced`.
- An exception ends the loop. The rows already handed to the writer stay written, so the export outcome is a prefix of the rows plus an optional error.

## Model

| member | source | states |
|---|---|---|
| StringJoin.Join | ss.py:25 | Python's `sep.join` as used by all four flatteners: "" for no parts, the part itself for one, otherwise the parts in order with the separator between neighbours; its properties are the three lemmas below |
| StringJoin.JoinLength | ss.py:40 | A join of n >= 1 parts is as long as the parts together plus n - 1 separators |
| StringJoin.JoinAppend | ss.py:40 | Joining xs ++ ys (both non-empty) is join(xs), one separator, then join(ys) |
| StringJoin.JoinPartAt | ss.py:40 | Input order is kept: part i sits unchanged at its offset, and exactly one separator follows it when a later part exists |
| Catalog.Normalize | ss.py:47-48 | A single top-level record becomes a one-element list; a list is left unchanged (what this means for the export is ExportSingleTool) |
| Flatten.FormatEntry | ss.py:25 | An entry formats as "<key> => <explanation>" exactly when it has both keys; otherwise KeyError names its own key first, then "explanation" |
| Flatten.FormatEntries | ss.py:25 | The comprehension either formats every entry in order, or fails with the error of the first entry that cannot be formatted, all earlier entries having succeeded |
| Flatten.FormatTips | ss.py:35 | One "k: v" piece per tip pair, in the mapping's insertion order (that the cell keeps this order is FlattenDictPairAt and FlattenDictAppend) |
| Flatten.FlattenEntries | ss.py:22-30 | The shape shared by flatten_flags and flatten_examples: a falsy list gives ""; otherwise it succeeds exactly when every entry can be formatted, and any error is a KeyError for the entry's key or "explanation" |
| Flatten.FlattenFlags | ss.py:22-25 | flatten_flags succeeds exactly when every flag object has both "flag" and "explanation"; otherwise it raises KeyError("flag") or KeyError("explanation") |
| Flatten.FlattenExamples | ss.py:27-30 | flatten_examples succeeds exactly when every example object has both "command" and "explanation"; otherwise it raises KeyError("command") or KeyError("explanation") |
| Flatten.FlattenDict | ss.py:32-35 | flatten_dict: "" for a falsy mapping, otherwise the "k: v" pieces joined by the separator; its properties are FlattenDictSingleton, FlattenDictAppend and FlattenDictPairAt |
| Flatten.FlattenList | ss.py:37-40 | flatten_list: "" for a falsy list, otherwise its strings joined by the separator; its properties are FlattenListSingleton, FlattenListLength, FlattenListElementAt and FlattenListAppend |
| FlattenProperties.FalsyInputsGiveEmpty | ss.py:22-40 | Absent/null and empty inputs give "" in all four flatteners |
| FlattenProperties.FlattenEntriesFormattable | ss.py:22-30 | With well-formed entries, flags and examples are exactly the separator-join of "<key> => <explanation>" in input order; for the empty list the guard and the join agree |
| FlattenProperties.FlattenFlagsSingleton | ss.py:25 | One flag gives exactly "<flag> => <explanation>", with no separator |
| FlattenProperties.FlattenEntriesFirstError | ss.py:25 | If entry k is the first malformed one, the flattener raises KeyError for the key that entry lacks |
| FlattenProperties.FormatEntriesAppend | ss.py:25 | Formatting a concatenation gives the two formatted lists concatenated, or the first error, looking at the first list first |
| FlattenProperties.FlattenEntriesAppend | ss.py:22-30 | For non-empty halves that both succeed, the cell of xs ++ ys is the two cells around the separator; if the first half fails, its error is the result |
| FlattenProperties.ExamplesAgreeWithFlags | ss.py:27-30 | flatten_examples on entries whose command plays the part of the flag succeeds exactly when flatten_flags does, with the same cell |
| FlattenProperties.FlattenDictSingleton | ss.py:35 | One tip pair gives exactly "k: v" |
| FlattenProperties.FlattenDictAppend | ss.py:32-35 | The tips of d1 ++ d2 (both non-empty) are tips(d1), the separator, tips(d2), so insertion order is kept |
| FlattenProperties.FlattenDictPairAt | ss.py:35 | Pair i of the mapping appears as "k: v" at its offset in the cell |
| FlattenProperties.FlattenListSingleton | ss.py:40 | A one-element list gives that element unchanged |
| FlattenProperties.FlattenListLength | ss.py:37-40 | For n >= 1 elements the cell length is the sum of the element lengths plus 3 * (n - 1) |
| FlattenProperties.FlattenListElementAt | ss.py:40 | Element i appears unchanged at its offset, followed by the separator when another element comes after it |
| FlattenProperties.FlattenListAppend | ss.py:37-40 | flatten_list of xs ++ ys (both non-empty) is the two cells around the separator |
| Export.Cells | ss.py:9-20 | A row has one cell per header column |
| Export.Dict | ss.py:56-67 | The dictionary handed to writerow has exactly the header columns as keys, and column Header[i] holds the i-th cell |
| Export.BuildRow | ss.py:56-67 | A row is built exactly when flags and examples flatten without error and `advanced` is not null; a failing row raises the flags' error first, otherwise the examples' error, otherwise AttributeError for the null `advanced` |
| Export.Exported | ss.py:55-67 | The description of a finished export, written independently of the loop: the rows of a prefix of the tools, one per tool in order, then either no error and every tool written, or the error of the first tool after the prefix |
| Export.Convert | ss.py:55-67 | The export outcome as a function of the tools: never more rows than tools, and all of them exactly when no error was raised; ConvertExported proves it meets Exported |
| Export.ConvertExported | ss.py:55-67 | The export writes the rows of a prefix of the tools, one per tool in order; it either writes them all with no error, or stops at the first tool whose row raises, with that error |
| Export.ExportedUnique | ss.py:55-67 | The tools determine the export outcome: two outcomes meeting that description are equal |
| Export.ExportRows | ss.py:47-67 | The loop over the normalised document produces exactly that outcome |
| ExportProperties.RowHasHeaderColumns | ss.py:9-20 | The header has ten distinct columns, and every row dictionary has exactly those keys |
| ExportProperties.ScalarColumns | ss.py:57-61 | name, description, when_why, notes and how copy the tool's field, or "" when the field is missing |
| ExportProperties.NestedColumns | ss.py:62-64 | The flags, examples and tips columns are the flatteners' cells for those fields |
| ExportProperties.AdvancedColumns | ss.py:65-66 | advanced_tips comes from advanced.advanced_tips and advanced_extra from advanced.tips; with no `advanced` both are "" |
| ExportProperties.AdvancedColumnsIndependent | ss.py:65-66 | Changing advanced.tips changes only advanced_extra; changing advanced.advanced_tips changes only advanced_tips |
| ExportProperties.TopLevelTipsIndependent | ss.py:64-66 | For every tool whose row builds, changing the top-level tips changes only the tips column, never the two advanced columns |
| ExportProperties.NullAdvancedFails | ss.py:65 | A tool whose `advanced` is null, with valid flags and examples, raises AttributeError |
| ExportProperties.ExportSingleTool | ss.py:47-67 | A single top-level record exports as exactly one row, or as no row and its error |
| ExportProperties.ExportEveryTool | ss.py:55-67 | When every tool's row can be built, there is one row per tool, in catalog order, and no error |
| ExportProperties.ConvertAppend | ss.py:55-67 | Exporting xs ++ ys: if xs fails, exactly xs's outcome; otherwise xs's rows followed by ys's rows, and ys's error |

## Left out

- Reading the JSON file and parsing it (ss.py:42-44). The model takes the parsed catalog as its input.
- Opening the CSV file, `writeheader`, and the CSV quoting and escaping of `csv.DictWriter` (ss.py:50-53). Only the row dictionaries handed to `writerow` are modelled.
- The completion message printed to the console (ss.py:69).
- Non-string JSON leaves are not modelled; the model takes every leaf to be a string. A non-string scalar field goes to `writerow` as it is, and the CSV writer prints it with `str()`. A non-string tip key or value, or flag or example member, is formatted with `str()` inside the f-strings. A non-string element of an advanced list raises `TypeError` in `" | ".join`.
- Top-level JSON values other than an object or a list are not modelled. A number, boolean or null raises `TypeError` at `for tool in data`. A non-empty string is iterated character by character, and `.get` on the first character raises `AttributeError`. An empty string writes no rows and raises nothing.
- Elements of the top-level list that are not objects are not modelled. `.get` on them, null included, raises `AttributeError`.
- Flag and example entries that are not JSON objects are not modelled, because `Entry` is a string-to-string map. Subscripting such an entry with `'flag'` or `'command'` raises `TypeError`.
- `flags` or `examples` that are non-empty but not lists are not modelled. A string or object there is iterated and its first element subscripted, and a number cannot be iterated; each raises `TypeError`.
- A top-level `tips` that is non-empty but not an object is not modelled. `.items()` on a list, string or number raises `AttributeError`.
- `advanced_tips` or `advanced.tips` that are non-empty but not lists are not modelled. A string there is joined character by character with the separator, and an object is joined over its keys.
- A non-object `advanced` other than null is not modelled. `.get` on a list, string or number raises `AttributeError`, as it does for null.
- A scalar field present as JSON null makes Python hand `None` to `writerow`, which the CSV writer prints as an empty cell. The model has no separate null for scalars: an absent key and a null both mean `""`.
- Duplicate keys in the JSON tip object are not modelled. `json.load` keeps only the last value, while the model takes the tips as an already-parsed sequence of pairs.
- All of app.py (Flask routes, rate limiting, form validation, sanitisation, the SQLite review table, security headers). It is glue around third-party libraries and a database engine, and is not part of this model.
