# check-fields: a verified model

`storyme-app/check-fields.py` is a sixteen-line developer script. It reads a
JSON export from standard input and prints the field names of the first
project, with the Python type name of each value. If that project has a
truthy `scenes` value, it then prints the field names of the first scene
in the same way. This project models the script on an already-parsed JSON
value and proves what the printed report contains.

Three modules:

- `Json` (`json.dfy`) is the parsed document as Python sees it: `None`, `bool`, `int`,
  `float`, `str`, `list` and `dict`. It also holds the pieces of Python the
  script relies on: `type(v).__name__` (`TypeLabel`), `bool(v)` (`Truthy`),
  and the subscripts `v[key]` (`Subscript`) and `v[0]` (`First`) with the
  exception each one raises on a value of the wrong shape. `v.keys()` is
  `Fields`.
- `StrOrder` (`strorder.dfy`) is Python's `str` ordering: lexicographic on
  code points, with a proper prefix first. It proves this is a strict total
  order. `SortedSet` is `sorted` applied to a dict's keys, and `Without`
  drops one key from a sequence.
- `CheckFields` (`check_fields.dfy`) is the script. `Output(doc)` is the
  reference definition of what a run prints and of the exception, if any,
  that ends it. `Report` is the script written as a method with the script's
  own two loops (`ProjectLines` and `SceneLines`). Its postcondition is that
  it produces exactly `Output(doc)`. The remaining lemmas prove the
  properties of `Output`.

The script can stop with a Python exception part-way through its output.
The model keeps those runs instead of excluding them by precondition: an
`Outcome` is the lines printed so far plus the exception (`KeyError`,
`TypeError`, `IndexError` or `AttributeError`) that stopped the run, if
there was one. For example, a first project that is a list still prints
the header and then fails on `p.keys()`. The print of `'\nAvailable scene
fields:'` is modelled as two lines: an empty one, then the header.

Two behaviours of the code deserve a note:

- A document that is not a dict, or a dict without `projects`, does not
  give empty output: `data['projects']` (line 5) raises `KeyError` on a dict
  without the key and `TypeError` on anything else
  (`MissingProjectsFails`).
- `scenes` is never listed among the project fields (line 9), not even
  when its value is a list; see `ExampleEmptyScenes` and
  `ExampleWithScene`.

## Model

| member | source | states |
|---|---|---|
| Json.TypeLabel | storyme-app/check-fields.py:10 | the label of a value is one of the seven Python type names a JSON value can have |
| Json.LabelDeterminesKind | storyme-app/check-fields.py:16 | two values get the same label exactly when the same JSON kind built them |
| Json.FalsyValues | storyme-app/check-fields.py:12 | a value is falsy exactly when it is null, false, 0, 0.0, the empty string, the empty list or the empty dict |
| Json.Subscript | storyme-app/check-fields.py:5 | `v[key]` succeeds exactly on a dict holding the key and then gives its value; otherwise it raises KeyError on a dict and TypeError on anything else |
| Json.First | storyme-app/check-fields.py:6 | `v[0]` succeeds exactly on a non-empty list (its first element) or a non-empty str (its first character, as a str); it raises IndexError on an empty list or str, KeyError on a dict and TypeError on a scalar |
| Json.Fields | storyme-app/check-fields.py:8 | `.keys()` succeeds exactly on a dict and gives its entries; every other value raises AttributeError |
| StrOrder.LessStrictOrder | storyme-app/check-fields.py:8 | the string order `sorted` uses is irreflexive and transitive |
| StrOrder.LessTotal | storyme-app/check-fields.py:8 | any two different strings are ordered one way or the other |
| StrOrder.SortedSetUnfold | storyme-app/check-fields.py:8 | the sorted key list starts with the least key, followed by the sorted remainder |
| StrOrder.SortedSetMembers | storyme-app/check-fields.py:8 | the sorted key list holds every key of the set and nothing else, each exactly once |
| StrOrder.SortedSetSorted | storyme-app/check-fields.py:15 | the sorted key list is strictly ascending |
| StrOrder.SortedSetUnique | storyme-app/check-fields.py:15 | any strictly ascending list of exactly the set's elements is the sorted key list, so `sorted` has only one possible result |
| StrOrder.WithoutMembers | storyme-app/check-fields.py:9 | skipping `x` keeps exactly the elements other than `x` |
| StrOrder.WithoutSorted | storyme-app/check-fields.py:9 | skipping an element keeps an ascending list ascending |
| CheckFields.ListingAt | storyme-app/check-fields.py:10 | the listing has one line per key, and line `i` is `  - <key i>: <type name of its value>` |
| CheckFields.ListingAgree | storyme-app/check-fields.py:10 | a listing depends only on the values of the keys it lists |
| CheckFields.ListingSnoc | storyme-app/check-fields.py:10 | printing one more key appends exactly that key's line |
| CheckFields.ProjectKeysSpec | storyme-app/check-fields.py:8-9 | the project keys printed are strictly ascending, include every key except `scenes`, and never include `scenes` |
| CheckFields.SceneKeysSpec | storyme-app/check-fields.py:15 | the scene keys printed are strictly ascending and are exactly the scene's keys |
| CheckFields.Output | storyme-app/check-fields.py:5-16 | the reference definition of everything the script prints and the exception that ends it; its contract says that whatever is printed opens with the project header |
| CheckFields.Report | storyme-app/check-fields.py:5-16 | the script's lines and its final exception are exactly `Output(doc)` |
| CheckFields.ProjectLines | storyme-app/check-fields.py:8-10 | the project loop over the sorted keys prints the listing of those keys with `scenes` skipped |
| CheckFields.SceneLines | storyme-app/check-fields.py:15-16 | the scene loop over the sorted keys prints the listing of every key |
| CheckFields.SceneBlock | storyme-app/check-fields.py:13-16 | the scene block prints the empty line and the scene header before it can fail, then the first scene's listing, or stops with the exception `scenes[0]` or `scene.keys()` raises |
| CheckFields.MissingProjectsFails | storyme-app/check-fields.py:5 | a document that is not a dict, or has no `projects`, prints nothing and raises (KeyError on a dict, TypeError otherwise) |
| CheckFields.FalsyProjectsSilent | storyme-app/check-fields.py:5 | a falsy `projects` prints nothing and ends normally |
| CheckFields.HeaderFirst | storyme-app/check-fields.py:5-7 | something is printed exactly when `projects` is truthy and is a list or str, and the first line is then the project header |
| CheckFields.OutputOfProject | storyme-app/check-fields.py:6-12 | with a dict as first project, the output is the header, that project's listing, and what the `scenes` test adds |
| CheckFields.ProjectSection | storyme-app/check-fields.py:7-10 | after the header, line `1 + i` is the line of the `i`-th key; the keys are strictly ascending, every key but `scenes` appears once, and `scenes` never does |
| CheckFields.SceneReportOpens | storyme-app/check-fields.py:13 | whatever the first scene is, the scene part opens with the empty line and the scene header, printed before `scenes[0]` is evaluated |
| CheckFields.SceneSectionIff | storyme-app/check-fields.py:12-13 | output goes past the project section exactly when the project has a truthy `scenes`; it then continues with an empty line and the scene header; otherwise the run ends normally |
| CheckFields.SceneSection | storyme-app/check-fields.py:12-16 | with a dict as first scene, the run ends normally after the scene header and one line per scene key, ascending, with none left out |
| CheckFields.SceneKeyNamedScenesListed | storyme-app/check-fields.py:15-16 | a scene key named `scenes` is listed, with the type name of its value |
| CheckFields.ProjectListingIgnoresScenes | storyme-app/check-fields.py:8-10 | changing the value of `scenes` never changes the project lines |
| CheckFields.SceneReportOfFirst | storyme-app/check-fields.py:14 | the scene part depends on `scenes` only through `scenes[0]` (or the exception taking it raises) |
| CheckFields.TrimProjectReport | storyme-app/check-fields.py:12-14 | cutting the project's `scenes` list to its first element changes nothing printed |
| CheckFields.OnlyFirstMatters | storyme-app/check-fields.py:5-14 | keeping only `projects`, cut to its first project whose `scenes` is cut to its first scene, gives the same output and exception |
| CheckFields.LaterProjectsIgnored | storyme-app/check-fields.py:6 | two documents that differ only after the first project give the same output |
| CheckFields.LaterScenesIgnored | storyme-app/check-fields.py:14 | two first projects that differ only after their first scene give the same report |
| CheckFields.TwoKeysNoScenes | storyme-app/check-fields.py:5-12 | a first project with two printed keys and a falsy `scenes` gives the header and those two lines, and ends normally |
| CheckFields.OneKeyTwoSceneKeys | storyme-app/check-fields.py:5-16 | a first project with one printed key and a first scene with two keys gives the header, one line, the empty line, the scene header and two lines, and ends normally |
| CheckFields.ExampleProjectKeys | storyme-app/check-fields.py:8-9 | for `{"name": "A", "id": 1, "scenes": []}` the keys printed are `id` then `name` |
| CheckFields.ExampleSceneKeys | storyme-app/check-fields.py:15 | for `{"duration": 5.0, "title": "Intro"}` the scene keys printed are `duration` then `title`, and a project with only `id` and `scenes` prints `id` |
| CheckFields.ExampleEmptyScenes | storyme-app/check-fields.py:5-12 | `{"projects": [{"name": "A", "id": 1, "scenes": []}]}` prints the header, `  - id: int` and `  - name: str`, and nothing else |
| CheckFields.ExampleWithScene | storyme-app/check-fields.py:5-16 | `{"projects": [{"id": 1, "scenes": [{"duration": 5.0, "title": "Intro"}]}]}` prints both sections: `  - id: int`, then the empty line, the scene header, `  - duration: float` and `  - title: str` |

## Left out

- Reading standard input and printing to standard output (lines 1-4, 7, 10, 13 and 16): this is I/O. The output is the list of printed lines.
- `json.load` and its failure on malformed input (line 4): this is a library parser. The model starts from a parsed `Json` value, and a document that fails to parse is not modelled.
- `type(v).__name__`: this is runtime reflection. `TypeLabel` replaces it with a fixed mapping from JSON kind to label.
- Float values: a JSON float is a `real`. Python's NaN and infinities, which `json.load` also accepts, are not represented. Only whether a float is zero matters (for truthiness), and the label does not depend on the value.
- Whether a JSON number becomes `int` or `float` depends on how it is written in the text, which the parser decides. The model takes the kind as given.
- The exit status after a Python exception: it is the interpreter's own. The model records which exception ended the run.
- Strings holding a lone surrogate: a Dafny `char` is a Unicode scalar value, so a `string` cannot hold one, but `json.load` accepts escapes such as `"\ud800"` in keys and values. Such documents have no counterpart in the model.
