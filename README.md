# forklift-log-parse, modelled in Dafny

`forklift-log-parse.py` scans a forklift log line by line. Its `CrateParser`
base class keeps a registry `re_funcs` that maps a literal marker to a list
of callbacks. It joins the markers into one alternation pattern (`get_re`)
and compiles that pattern into `matcher`. The main loop searches each line
with `matcher` and calls every callback of the marker it finds.

A `HashInsertTemp` object holds five markers, three registered by the base
constructor and two by its own:
- a pallet line;
- a destination line, which resets the per-record fields and reads the name;
- a coordinate-system line;
- a start line, which reads the first time stamp;
- a stop line, with two callbacks: `set_adds` reads the add count, then
  `end_parse` reads the stop time and stores a record.

A record is the six fields joined with commas (`__str__`), with an unset
field shown as `None`.

The Dafny project has six modules:

- `Wrappers`: an `Option` type. `None` stands for the `AttributeError` the
  source raises when a capture is missing.
- `Patterns`: the capture patterns of lines 5-8 and 72, plus a
  leftmost-match `Search` that returns the group the source reads. The
  patterns are `(\d{2}:\d{2}:\d{2})`, `prefix([^c]+)` and `added: (\d+)`.
- `Dispatch`: `get_re` as a string function, and a compiler for patterns of
  the shape `(lit)|(lit)|…`. It also models Python's alternation search:
  the leftmost index where any alternative occurs, and at that index the
  first alternative in pattern order. The module proves that compiling
  `get_re`'s output gives the keys back. It also proves that, when no
  marker is a prefix of another, the search picks exactly the marker
  occurring leftmost, whatever the key order.
- `Extractor`: the extractor as functions on a value.
  - `Register` gives the registry and its insertion order.
  - `Apply` is one callback, `ApplyAll` is `call_match_functions`, `Step`
    is one line of the main loop, and `Scan` is the loop over all lines.
  - `Render` is `__str__`.
  - The lemmas cover which lines abort the scan, which lines add a record,
    what a record holds, which fields a reset clears, and the splitting of
    a record back into its fields.
- `Parser`: `class HashInsertTemp`, with the fields the source assigns in
  place.
  - The constructors run the registrations in the source's order.
  - The setters, `store_record` and `reset_fields` are methods that update
    the fields.
  - `CallMatchFunctions` loops over a marker's callbacks.
  - `ParseLog` is the main loop over a log given as its lines.
  - Every method is proved to succeed exactly when the corresponding
    `Extractor` function does, and, when it succeeds, to move the object's
    state exactly as that function does.
- `Sample`: the test lines kept as a comment in the main block. The scan
  gives exactly two records, which the module lists.

## Model

| member | source | states |
|---|---|---|
| Patterns.Search | forklift-log-parse.py:5-8 | for the patterns of lines 5-8 and `added: (\d+)` at line 72: `None` exactly when the pattern matches at no index; otherwise the group read at a match with no match to its left |
| Patterns.Group | forklift-log-parse.py:5-8 | for the patterns of lines 5-8 and `added: (\d+)` at line 72: a time group is the 8 characters `DD:DD:DD` at the match; a `prefix([^c]+)` or `(\d+)` group is the non-empty run of class characters right after the prefix, ending at a character outside the class or at the end of the line |
| Patterns.MatchesAt | forklift-log-parse.py:5-8 | (no contract; the body's meaning) for the patterns of lines 5-8 and `added: (\d+)` at line 72: the pattern matches at an index: for the time pattern, two digits, `:`, two digits, `:`, two digits there; for `prefix([^c]+)` and `added: (\d+)`, the prefix there followed by at least one class character |
| Patterns.FirstMatch | forklift-log-parse.py:5-8 | for the patterns of lines 5-8 and `added: (\d+)` at line 72: the leftmost index at or after `i` where the pattern matches, with no match between `i` and it; `None` when it matches nowhere from `i` on |
| Patterns.SearchAt | forklift-log-parse.py:5-8 | a match at `i` with none to its left makes `search(...).group` the group at `i` |
| Dispatch.Compile | forklift-log-parse.py:80 | a compiled alternation has at least one alternative, and every alternative is a literal without regular-expression metacharacters |
| Dispatch.GetRe | forklift-log-parse.py:48-52 | builds the alternation of the keys: each key in parentheses, the groups joined with a vertical bar; a non-empty key list gives a pattern opening with `(`; `Dispatch.CompileGetRe` states what the pattern means |
| Dispatch.CompileGetRe | forklift-log-parse.py:48-52 | compiling the pattern `get_re` builds from literal keys gives back the keys: one alternative per key, in key order |
| Dispatch.AltAt | forklift-log-parse.py:160 | the alternative chosen at an index occurs there; no alternative is chosen exactly when none occurs there |
| Dispatch.FirstHit | forklift-log-parse.py:160 | the leftmost index at or after `i` where an alternative occurs, with none occurring before it |
| Dispatch.SearchAlternation | forklift-log-parse.py:160-161 | `matcher.search` finds nothing exactly when no marker occurs anywhere in the line; otherwise the group is a marker occurring at an index before which no marker occurs |
| Dispatch.SearchIsLeftmost | forklift-log-parse.py:160-162 | when no alternative is a prefix of another, the search yields `m` if and only if `m` is the alternative occurring leftmost |
| Dispatch.LeftmostUnique | forklift-log-parse.py:160-162 | without prefixes among the alternatives, at most one marker occurs at the leftmost occurrence index |
| Dispatch.SearchOrderIrrelevant | forklift-log-parse.py:48-52 | the order of the keys cannot change which marker a line dispatches |
| Extractor.Register | forklift-log-parse.py:28-31 | (no contract; the body's meaning) `add_match_function`: the callback is appended to the marker's list, and a marker seen for the first time gets the list `[f]` and becomes the last key; `Extractor.RegisterKeepsOrder` states its properties |
| Extractor.RegisterKeepsOrder | forklift-log-parse.py:28-31 | `add_match_function` puts the callback last in its marker's list, behind the callbacks already there; every other marker keeps its list; the key order still lists each key exactly once |
| Extractor.BaseRegistrations | forklift-log-parse.py:17-23 | (no contract; the body's meaning) the three registrations of `CrateParser.__init__`, made with `Register` from an empty registry: `set_pallet` under `lift:   39`, `set_name` under `lift:   56`, `set_destination_coord_sys` under `destination_coordinate_system`; `Extractor.BaseChain` ties `InitCrateParser` to it |
| Extractor.Registrations | forklift-log-parse.py:17-77 | (no contract; the body's meaning) the base registrations followed by the subclass's three: `start_parse` under `core:  237`, then `set_adds` and `end_parse` both under `core:  147`; `Extractor.RegistrationsBuildRegistry` states what they build |
| Extractor.Initial | forklift-log-parse.py:16-78 | (no contract; the body's meaning) the state after both constructors: pallet, name and coordinate system unset (16, 19, 22), no records (26), start time, add count and stop time unset (70, 75, 78); the `ensures` of the constructor and of `InitCrateParser` set the object's state to it |
| Extractor.RegistrationsBuildRegistry | forklift-log-parse.py:13-77 | the six registrations of the two constructors build a registry with each of the five markers once, in first-registration order; `core:  147` holds `set_adds` then `end_parse` |
| Extractor.MarkersWellFormed | forklift-log-parse.py:17-77 | the five markers contain no metacharacters, none is a prefix of another, and they are exactly the registry's keys |
| Extractor.RegistryEntries | forklift-log-parse.py:17-77 | the callback list of each marker: one callback each, and `set_adds`, `end_parse` for `core:  147` |
| Extractor.Callbacks | forklift-log-parse.py:17-77 | every registry key is one of the five markers, with its list of callbacks |
| Extractor.Dispatched | forklift-log-parse.py:160-162 | a marker the matcher finds in a line is a registry key, so `call_match_functions` can look it up |
| Extractor.Reset | forklift-log-parse.py:94-98 | (no contract; the body's meaning) `reset_fields`: name, start time, stop time and add count become `None`; pallet, coordinate system and records are kept |
| Extractor.Render | forklift-log-parse.py:100-107 | (no contract; the body's meaning) `__str__`: pallet, name, coordinate system, start time, stop time and add count, each shown as its value or `None`, joined with commas; `Extractor.RenderSplits` reads it back |
| Extractor.Store | forklift-log-parse.py:54-56 | `store_record` appends exactly one record, the fields as they stood; afterwards name, start time, stop time and add count are unset, while pallet and coordinate system keep their values |
| Extractor.RenderSplits | forklift-log-parse.py:100-107 | a record line splits at its commas into exactly the six fields, unset ones as `None`, when no field value holds a comma |
| Extractor.SplitJoin | forklift-log-parse.py:101 | joining with commas and splitting at commas are inverse on comma-free pieces |
| Extractor.ApplyStop | forklift-log-parse.py:71-77 | on a `core:  147` line, `set_adds` runs before `end_parse`, so the stored record carries the add count and stop time of that same line; the line aborts when either capture is missing |
| Extractor.Apply | forklift-log-parse.py:37-92 | (no contract; the body's meaning) the six callbacks `set_pallet` (37-38), `set_name` (40-43), `set_destination_coord_sys` (45-46), `start_parse` (82-84), `end_parse` (86-89) and `set_adds` (91-92): each searches its pattern, is `None` when the search finds nothing, and otherwise assigns the group to its field; `set_name` resets first and `end_parse` then stores the record |
| Extractor.ApplyAll | forklift-log-parse.py:33-35 | (no contract; the body's meaning) `call_match_functions`: the callbacks applied in list order, `None` as soon as one is |
| Extractor.ApplySingle | forklift-log-parse.py:33-35 | `call_match_functions` over a one-callback list is that callback |
| Extractor.StepFails | forklift-log-parse.py:37-92 | a line aborts the scan exactly when a marker is dispatched and some capture its callbacks read is absent from the line; this covers the setters at 37-46 and `start_parse`, `end_parse` and `set_adds` at 82-92 |
| Extractor.StepSingle | forklift-log-parse.py:33-35 | a line whose marker has one callback changes the state as that callback does |
| Extractor.StepStopFails | forklift-log-parse.py:86-92 | a stop line aborts exactly when it lacks the add count or a time stamp |
| Extractor.Step | forklift-log-parse.py:159-162 | (no contract; the body's meaning) one line: no change when the matcher finds no marker, otherwise the found marker's callbacks in order |
| Extractor.StepUnmatched | forklift-log-parse.py:159-162 | a line in which no marker occurs leaves every field and the records unchanged |
| Extractor.StepStop | forklift-log-parse.py:86-98 | a stop line appends exactly one record, rendered from the fields with that line's add count and stop time; it then clears name, start time, stop time and add count, and keeps pallet and coordinate system |
| Extractor.StepName | forklift-log-parse.py:40-43 | a destination line clears start time, stop time and add count, and sets the name to the text after `destination': '` up to the next quote; pallet, coordinate system and records stay |
| Extractor.StepRecords | forklift-log-parse.py:82-89 | one line adds exactly one record if its dispatched marker is `core:  147` and none otherwise, and keeps the earlier records as a prefix |
| Extractor.ApplyKeepsRecords | forklift-log-parse.py:37-46 | every callback except `end_parse` leaves the records alone |
| Extractor.Scan | forklift-log-parse.py:157-162 | (no contract; the body's meaning) the lines stepped through in order, `None` once one line aborts |
| Extractor.ScanConcat | forklift-log-parse.py:157-162 | scanning two stretches of a log one after the other is scanning the whole log |
| Extractor.ScanNext | forklift-log-parse.py:158-162 | scanning one more line is one more step from where the earlier lines left off |
| Extractor.ScanAbort | forklift-log-parse.py:157-162 | once a line aborts, the scan of the whole log aborts, whatever follows |
| Extractor.ScanRecords | forklift-log-parse.py:157-162 | a completed scan keeps the earlier records and adds exactly one record per stop line |
| Extractor.ScanUnterminated | forklift-log-parse.py:82-89 | a log without stop lines, such as a start line never followed by a stop line, stores no record |
| Parser.HashInsertTemp.constructor | forklift-log-parse.py:64-80 | after construction the registry is the five markers with their callbacks, the matcher's alternatives are the markers in key order, every field is unset and there are no records |
| Parser.HashInsertTemp.InitCrateParser | forklift-log-parse.py:13-26 | the base constructor registers pallet, destination and coordinate-system callbacks in that order, and leaves the fields unset and the records empty |
| Parser.HashInsertTemp.CompileMatcher | forklift-log-parse.py:80 | the compiled matcher's alternatives are exactly the registry's keys, in key order |
| Parser.HashInsertTemp.AddMatchFunction | forklift-log-parse.py:28-31 | the registry and its key order become `Register` of the old ones; fields and matcher are unchanged |
| Parser.HashInsertTemp.ResetFields | forklift-log-parse.py:94-98 | name, start time, stop time and add count become unset; nothing else changes |
| Parser.HashInsertTemp.StoreRecord | forklift-log-parse.py:54-56 | the new state is `Store` of the old one |
| Parser.HashInsertTemp.SetPalletField | forklift-log-parse.py:37-38 | fails exactly when the pallet capture is absent; otherwise the pallet is that capture |
| Parser.HashInsertTemp.SetNameField | forklift-log-parse.py:40-43 | fails exactly when the name capture is absent; otherwise the fields are reset and the name is that capture |
| Parser.HashInsertTemp.SetDestinationCoordSys | forklift-log-parse.py:45-46 | fails exactly when the coordinate-system capture is absent; otherwise the field is that capture |
| Parser.HashInsertTemp.StartParseLine | forklift-log-parse.py:82-84 | fails exactly when the line has no time stamp; otherwise the start time is the first one |
| Parser.HashInsertTemp.SetAddsField | forklift-log-parse.py:91-92 | fails exactly when no occurrence of `added: ` is followed by a digit; otherwise the add count is the digit run after the leftmost such occurrence |
| Parser.HashInsertTemp.EndParseLine | forklift-log-parse.py:86-89 | fails exactly when the line has no time stamp; otherwise the stop time is set and the record is stored |
| Parser.HashInsertTemp.Invoke | forklift-log-parse.py:34-35 | calling a registered callback changes the state as `Apply` says |
| Parser.HashInsertTemp.CallMatchFunctions | forklift-log-parse.py:33-35 | runs the marker's callbacks in registration order and stops at the first that fails; the state is `ApplyAll` of the old one |
| Parser.HashInsertTemp.ProcessLine | forklift-log-parse.py:159-162 | one line of the main loop moves the state as `Step` does and keeps the registry and matcher |
| Parser.BuiltRegistry | forklift-log-parse.py:64-80 | the subclass's three registrations, after the base class's, build the registry with the markers in key order |
| Parser.ApplyAllAbort | forklift-log-parse.py:33-35 | once a prefix of the callbacks fails, the whole list fails |
| Parser.ParseLog | forklift-log-parse.py:153-162 | for the lines of a log: succeeds exactly when `Scan` does, with `Scan`'s records; when a line aborts there is no output |
| Sample.DispatchAfter | forklift-log-parse.py:160-162 | a marker placed after text in which no marker can begin is what the matcher dispatches |
| Sample.ClockAfter | forklift-log-parse.py:5 | a time stamp placed after colon-free text is the first time stamp of the line |
| Sample.AfterCapture | forklift-log-parse.py:6-8 | a capture placed right after its prefix, and ended by a character outside its class or by the end of the line, is what the matcher reads |
| Sample.NameLineCapture | forklift-log-parse.py:145 | the destination line's name capture is `C:\Scheduled\staging\economy.gdb\EnterpriseZones` |
| Sample.StopLineAdds | forklift-log-parse.py:148 | a stop line of the test shape with a digit count reads back that count |
| Sample.StepWithStop | forklift-log-parse.py:86-92 | a stop line with time `t` and count `n` stores the record of the fields with `n` and `t` |
| Sample.SampleScan | forklift-log-parse.py:144-152 | the test lines give exactly two records: `None,C:\…\EnterpriseZones,None,01:01:02,01:01:04,1666`, then `None,None,None,01:01:02,01:01:04,200` |

## Left out

- File input and output: opening the log, the output file, the header line and `os.path.normpath` (forklift-log-parse.py:142-143, 157-158, 164-167). The log is a sequence of lines, and the output is the records `ParseLog` returns.
- Line endings: a line is whatever string the caller passes. A pallet capture `[^\r]+` on a line that keeps its `\n` would include the `\n`. The model takes this as written.
- The sample lines are modelled without line terminators, as the commented list (lines 144-152) has them.
- `Reproject` (forklift-log-parse.py:110-138): it is disabled at line 155. Its registry entries are bare functions, not lists. The model keeps the one-element `search_expressions` list as one extractor.
- The general regular-expression engine. `Compile` accepts only alternations of literals and returns `None` for anything else. The five capture patterns are written out in `Patterns`.
- The dead assignment at forklift-log-parse.py:50: its value is overwritten at line 51.
- The no-op `reset_fields` of `CrateParser` (line 58-59) and the default string form of a bare `CrateParser`: `HashInsertTemp` overrides both.
- Patterns.IsDigit: `\d` is taken as the ASCII digits `0`-`9`. Python's `\d` on text also matches other Unicode decimal digits.
- Parser.ParseLog: an aborting line gives `ok == false` and no records, in place of the uncaught `AttributeError`. The source stops there before writing any output.
- Parser.HashInsertTemp.InitCrateParser: `matcher = None` (line 25) is not modelled as a separate state. The matcher field holds the compiled alternatives only once the subclass compiles them at line 80.
- Dictionary order: `order` keeps keys in first-insertion order, as Python 3.7+ dicts do. `Dispatch.SearchOrderIrrelevant` shows that an interpreter with another key order dispatches the same markers.
- Durations and any arithmetic on times: the source keeps times as the captured strings.
