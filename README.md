# Android static-analysis preprocessing, modelled in Dafny

This project models the core of `preprocessing-dataset.py`, the script that
turns static-analysis reports into three wide training tables. The reports
are the JSON files AndroPyTool writes, one per Android application or one per
batch of applications. The three tables hold opcode frequencies, API-call
frequencies and requested permissions. Each table has one row per
application, one column per feature name seen, and a `class` column holding
0 for goodware and 1 for malware.

The modules follow the script's structure:

- `Wrappers` (`wrappers.dfy`) holds `Option` and `Result`.
- `Frames` (`frames.dfy`) covers the small part of pandas the script relies on:
  - a dict with keys in insertion order (`Dict`, `SetItem`);
  - the wide table (`Table`) that `pd.concat` grows one row at a time (`Union`, `Concat`);
  - `fillna(0)` (`FillNa`);
  - the class `FeatureTable`, which the script's three accumulating tables are. `AppendRow` rebinds the table through `pd.concat`, and `Finalize` is the in-place `fillna(0, inplace=True)`.
- `Extractor` (`extractor.dfy`) covers:
  - the three field lookups on an application's `Static_analysis` section;
  - the permission comprehension `{permission: 1 for ...}`;
  - `is_to_drop`, which the script defines but never calls: its lemmas describe the test itself, and no run drops a field.
- `Assembler` (`assembler.dfy`) covers `preprocessing_dataframes_save_to_cvs` without its `to_csv` calls. The imperative method `PreprocessDataframes` follows the script's loop over three `FeatureTable` objects. It is proved equal to the functional specification `Preprocess`, whose properties are stated as lemmas.
- `Loader` (`loader.dfy`) covers `load_json` and its four wrappers:
  - the directory is given as a list of entries, each saying whether it is a regular file and what the JSON reader makes of it;
  - `LoadJson` follows the script's scanning loop and is proved equal to `LoadJsonSpec`; `ReadEntry`, its body for one entry, is proved equal to `EntryPairs`.
- `Pipeline` (`pipeline.dfy`) is what `main` does with the data once the directories are known:
  - it loads malware items, goodware items, malware batches and goodware batches, in that order, and concatenates their pairs;
  - it then assembles the tables.
- `Scenario` (`scenario.dfy`) is a worked run with one malware and one goodware application.

Modelling decisions:

- A cell and a label are integers.
- A cell a row does not have yet (pandas' NaN) is a key missing from the row's map. It becomes 0 only in `FillNa`.
- A failed lookup (`KeyError`) becomes `Err(MissingKey(key))`.
- A file the JSON reader rejects becomes `Err(Unparsable(path))`.
- As in the script, the first failure in loop order ends the run.

Behaviour of the code that the model keeps, although it is easy to read otherwise:

- **Row order.** Malware single-item records come first (lines 191-194). So in the worked run the malware application is row 0.
- **Position of `class`.** `class` is not always the last column. It takes its place the first time it is seen, so a table whose first record has no features starts with `class` (`Scenario.ApiCallsTable`).
- **File filter.** A file is read when its name ends in `json`, with no dot required (line 74).
- **When the warning fires.** The "No json file found" warning is printed when no pair was collected (line 84), not only when no JSON file was found. In batch mode, a directory whose only files have no top-level keys also warns (`Loader.EmptyBatchFileWarns`).
- **Missing-field errors.** The error for a missing field names the key only, not the file.

## Model

| member | source | states |
|---|---|---|
| Frames.SetItem | preprocessing-scripts/preprocessing-dataset.py:31 | `d[k] = v` on a dict: the value is set; an existing key keeps its position, a new key is appended last |
| Frames.Union | preprocessing-scripts/preprocessing-dataset.py:32 | the column index of `pd.concat` keeps the old columns as a prefix and holds exactly the old columns and the new row's keys |
| Frames.UnionDistinct | preprocessing-scripts/preprocessing-dataset.py:32 | concatenation never lists a column twice |
| Frames.UnionAppend | preprocessing-scripts/preprocessing-dataset.py:32 | concatenating rows one after another gives the columns of concatenating all their keys at once |
| Frames.UnionFresh | preprocessing-scripts/preprocessing-dataset.py:32 | distinct new keys are appended in their own order |
| Frames.UnionKnown | preprocessing-scripts/preprocessing-dataset.py:32 | keys that are already columns add no column |
| Frames.UnionThenKnown | preprocessing-scripts/preprocessing-dataset.py:32 | a distinct run of keys followed only by repeats gives that run as the columns |
| Frames.Concat | preprocessing-scripts/preprocessing-dataset.py:32 | appending a row keeps every row's keys among the columns |
| Frames.FillNa | preprocessing-scripts/preprocessing-dataset.py:42 | after `fillna(0)` the table is dense and has the same columns and row count; a present cell is kept and a missing cell becomes 0 |
| Frames.FeatureTable.constructor | preprocessing-scripts/preprocessing-dataset.py:19-21 | `pd.DataFrame()` starts with no columns and no rows |
| Frames.FeatureTable.AppendRow | preprocessing-scripts/preprocessing-dataset.py:32 | the table after `pd.concat([table, row])` is `Concat` of the old table and the row, and every row's keys stay among the columns |
| Frames.FeatureTable.Finalize | preprocessing-scripts/preprocessing-dataset.py:42-48 | in-place `fillna(0)` leaves the table equal to `FillNa` of the old table, dense, and, because every row's keys are columns, with every cell a row already had unchanged |
| Frames.Fill | preprocessing-scripts/preprocessing-dataset.py:42 | one row after `fillna(0)`; its properties are stated on `FillNa` and `FeatureTable.Finalize`: exactly the table's columns, present cells kept, missing cells 0 |
| Extractor.PermissionDict | preprocessing-scripts/preprocessing-dataset.py:27-28 | the comprehension's keys are exactly the listed permissions, every value is 1, and there are no more keys than listed names |
| Extractor.Extract | preprocessing-scripts/preprocessing-dataset.py:25-28 | the lookup succeeds exactly when all three fields are present; otherwise it fails with the first missing key in the order Opcodes, API calls, Permissions; on success the opcode and API-call objects are carried over and the permission dict has exactly the listed names |
| Extractor.StartsWith | preprocessing-scripts/preprocessing-dataset.py:92-94 | `startswith` holds exactly when the prefix is a sequence prefix of the name |
| Extractor.IsToDrop | preprocessing-scripts/preprocessing-dataset.py:91-94 | a name is dropped exactly when none of "Permissions", "Opcodes", "API calls" is a prefix of it |
| Extractor.FeatureFieldsKept | preprocessing-scripts/preprocessing-dataset.py:91-94 | each of the three field names, with any suffix, is kept |
| Extractor.OtherFieldsDropped | preprocessing-scripts/preprocessing-dataset.py:91-94 | the empty name, "opcodes", "API" and "Strings" are dropped |
| Assembler.OneRowCells | preprocessing-scripts/preprocessing-dataset.py:30-31 | a one-row frame has the label under "class", overwriting a feature of that name, and every other feature with its value, in the record's key order |
| Assembler.FamilyFramesCells | preprocessing-scripts/preprocessing-dataset.py:30-39 | frame i of a family holds record i's label under "class" and exactly the record's other features of that family, with their values |
| Assembler.AccumulateStep | preprocessing-scripts/preprocessing-dataset.py:32 | concatenating one more frame onto the table of the earlier frames gives the table of all of them |
| Assembler.AllKeysAt | preprocessing-scripts/preprocessing-dataset.py:32 | a name is among the collected keys exactly when some frame has it |
| Assembler.AccumulateShape | preprocessing-scripts/preprocessing-dataset.py:23-40 | the accumulated table has no row key outside its columns and no column twice, and its columns are exactly the names some frame has |
| Assembler.TableIsDense | preprocessing-scripts/preprocessing-dataset.py:42-48 | each finished table has one row per record, a value in every cell, and distinct columns |
| Assembler.TableColumns | preprocessing-scripts/preprocessing-dataset.py:30-40 | a finished table's columns are exactly the family's keys over all records, plus "class" when there is a record |
| Assembler.TableCells | preprocessing-scripts/preprocessing-dataset.py:30-48 | a feature cell holds the record's value for that key, or 0 when the record lacks the key |
| Assembler.TableLabels | preprocessing-scripts/preprocessing-dataset.py:31-40 | every row's "class" cell is its record's label |
| Assembler.AllKeysPrefix | preprocessing-scripts/preprocessing-dataset.py:32 | the keys of the first k frames are a prefix of all the keys |
| Assembler.ColumnsFirstSeen | preprocessing-scripts/preprocessing-dataset.py:32 | columns are only added at the end: the table over the first k records has a prefix of the final columns |
| Assembler.ExtractAllOk | preprocessing-scripts/preprocessing-dataset.py:23-28 | the lookups over all pairs succeed exactly when every section has its three fields; they then give one record per pair, in order, each with its pair's label |
| Assembler.ExtractAllStep | preprocessing-scripts/preprocessing-dataset.py:23-28 | the lookups over i + 1 pairs are those over i pairs followed by pair i's |
| Assembler.ExtractAllFirstError | preprocessing-scripts/preprocessing-dataset.py:23-28 | once the first k pairs fail, the whole run fails with that same error |
| Assembler.PreprocessRows | preprocessing-scripts/preprocessing-dataset.py:18-49 | the assembler succeeds exactly when every section has its three fields; each of the three tables then has one dense row per pair, row i labelled with pair i's label |
| Assembler.FamilyFollows | preprocessing-scripts/preprocessing-dataset.py:23-48 | a family table built from the records has one dense row per pair, with the pair's label |
| Assembler.ReadRecord | preprocessing-scripts/preprocessing-dataset.py:25-28 | the lookups and the permission comprehension at the start of the loop body give exactly `Extract` of the section, error included |
| Assembler.AppendRecord | preprocessing-scripts/preprocessing-dataset.py:30-40 | one family's frame construction, label assignment and concat for one more record leave the table equal to the accumulated table of the longer record list |
| Assembler.PreprocessDataframes | preprocessing-scripts/preprocessing-dataset.py:18-49 | the loop over the pairs with three tables, then three fills, returns exactly `Preprocess` of the pairs, error included |
| Assembler.OneRow | preprocessing-scripts/preprocessing-dataset.py:30-31 | the one-row frame with the label under "class"; `OneRowCells` and `FamilyFramesCells` state its cells |
| Assembler.Accumulate | preprocessing-scripts/preprocessing-dataset.py:30-40 | the table `pd.concat` has built from the frames; `AccumulateStep` proves it is one `Concat` per frame, and `AccumulateShape` gives its columns and row keys |
| Assembler.FamilyTable | preprocessing-scripts/preprocessing-dataset.py:30-48 | a family's finished table; `TableIsDense`, `TableColumns`, `TableCells`, `TableLabels` and `ColumnsFirstSeen` state its shape, columns, cells and labels |
| Assembler.ExtractAll | preprocessing-scripts/preprocessing-dataset.py:23-28 | the lookups over all pairs; `ExtractAllOk`, `ExtractAllStep` and `ExtractAllFirstError` state when they succeed, what they give and which error stops them |
| Assembler.Preprocess | preprocessing-scripts/preprocessing-dataset.py:18-49 | the assembler's result; `PreprocessRows` states when it succeeds and how its tables follow the pairs, and `PreprocessDataframes` is proved equal to it |
| Loader.BatchPairs | preprocessing-scripts/preprocessing-dataset.py:77-80 | a batch document yields pairs exactly when every top-level key has a `Static_analysis` section; it then yields one pair per key, in key order, with that key's section and the label; otherwise it fails with the missing-key error |
| Loader.EntryPairs | preprocessing-scripts/preprocessing-dataset.py:74-82 | an entry is read without error exactly when it is readable; it yields as many pairs as it has applications, all with the label; a rejected file fails with its path and a missing section with the missing key |
| Loader.PairsOf | preprocessing-scripts/preprocessing-dataset.py:72-82 | the load succeeds exactly when every entry is readable; then the number of pairs is the total yield and every pair carries the label |
| Loader.BatchPairsFirstError | preprocessing-scripts/preprocessing-dataset.py:78-80 | once the first keys of a batch document fail, the whole document fails with that error |
| Loader.PairsOfFirstError | preprocessing-scripts/preprocessing-dataset.py:72-82 | once the first entries fail, the whole load fails with that error |
| Loader.ReadEntry | preprocessing-scripts/preprocessing-dataset.py:74-82 | the loop body for one entry returns exactly that entry's pairs, or its error |
| Loader.LoadJson | preprocessing-scripts/preprocessing-dataset.py:68-88 | the scanning loop returns exactly `LoadJsonSpec`: the pairs in listing order, the warning when there are none, or the first error |
| Loader.JsonFiles | preprocessing-scripts/preprocessing-dataset.py:74 | the filtered listing keeps only JSON files taken from the listing; `JsonFilesComplete` adds that it keeps all of them, and `SingleModeSections` that it keeps their order |
| Loader.JsonFilesComplete | preprocessing-scripts/preprocessing-dataset.py:74 | every JSON file of the listing is among the filtered entries |
| Loader.JsonFileNames | preprocessing-scripts/preprocessing-dataset.py:74 | "app.json" and "appjson" are read; "app.json.bak" and a directory named "app.json" are not |
| Loader.EndsWithSplit | preprocessing-scripts/preprocessing-dataset.py:74 | `endswith` holds exactly when the name is some string followed by the suffix |
| Loader.PairsOfSnoc | preprocessing-scripts/preprocessing-dataset.py:73-82 | the load over one more entry is the earlier load followed by that entry's pairs |
| Loader.PairsOfJsonOnly | preprocessing-scripts/preprocessing-dataset.py:74 | entries that are not JSON files play no part: the load over the listing equals the load over its JSON files |
| Loader.SingleModeSections | preprocessing-scripts/preprocessing-dataset.py:81-82 | in single-item mode there is one pair per JSON file, and the k-th pair is the k-th JSON file's top-level section with the label |
| Loader.TotalYieldZero | preprocessing-scripts/preprocessing-dataset.py:84 | nothing is collected exactly when no entry yields a pair |
| Loader.LoadWarning | preprocessing-scripts/preprocessing-dataset.py:84-86 | a successful load warns with the directory's name exactly when no entry yields a pair, and does not warn exactly when some entry does |
| Loader.NoJsonFilesAtAll | preprocessing-scripts/preprocessing-dataset.py:74 | a listing without JSON files has nothing to read |
| Loader.NoJsonFiles | preprocessing-scripts/preprocessing-dataset.py:84-88 | a directory without JSON files loads to no pairs and the warning, not an error |
| Loader.EmptyBatchFileWarns | preprocessing-scripts/preprocessing-dataset.py:77-86 | in batch mode a directory holding only a JSON file without top-level keys also gets the "No json file found" warning |
| Loader.LoadJsonMalware | preprocessing-scripts/preprocessing-dataset.py:52-53 | the malware item load succeeds exactly when every entry is readable in single-item mode; it then yields one pair per JSON file, all labelled 1 |
| Loader.LoadJsonGoodware | preprocessing-scripts/preprocessing-dataset.py:56-57 | the goodware item load succeeds exactly when every entry is readable in single-item mode; it then yields one pair per JSON file, all labelled 0 |
| Loader.LoadJsonMalwareBatch | preprocessing-scripts/preprocessing-dataset.py:60-61 | the malware batch load succeeds exactly when every entry is readable in batch mode; it then yields one pair per top-level key, all labelled 1 |
| Loader.LoadJsonGoodwareBatch | preprocessing-scripts/preprocessing-dataset.py:64-65 | the goodware batch load succeeds exactly when every entry is readable in batch mode; it then yields one pair per top-level key, all labelled 0 |
| Loader.EndsWith | preprocessing-scripts/preprocessing-dataset.py:74 | Python's `endswith`; `EndsWithSplit` relates it to splitting off the suffix |
| Loader.IsJsonFile | preprocessing-scripts/preprocessing-dataset.py:74 | the entry filter; `JsonFileNames` gives its cases, and `JsonFiles`, `JsonFilesComplete` and `PairsOfJsonOnly` show that exactly the JSON files take part |
| Loader.LoadJsonSpec | preprocessing-scripts/preprocessing-dataset.py:68-88 | what `load_json` returns and prints; `LoadWarning`, `SingleModeSections`, `PairsOfJsonOnly` and the four wrapper lemmas state its properties, and `LoadJson` is proved equal to it |
| Pipeline.LoadAll | preprocessing-scripts/preprocessing-dataset.py:190-194 | loading the four directories succeeds exactly when each of the four loads does |
| Pipeline.LoadAllValue | preprocessing-scripts/preprocessing-dataset.py:190-194 | the loaded pairs are malware items, then goodware items, then malware batches, then goodware batches |
| Pipeline.BlockLabels | preprocessing-scripts/preprocessing-dataset.py:190-194 | in the concatenated pairs, pair k carries the label of the directory block it falls in |
| Pipeline.FollowsInBlocks | preprocessing-scripts/preprocessing-dataset.py:196-197 | a table that follows the pairs row by row is labelled block by block |
| Pipeline.RunLabels | preprocessing-scripts/preprocessing-dataset.py:188-197 | a successful run gives every table one dense row per application found, with rows labelled malware, goodware, malware, goodware block by block in loading order |
| Pipeline.Run | preprocessing-scripts/preprocessing-dataset.py:188-197 | `main`'s data flow; `RunLabels` states that a successful run labels the rows block by block, and `TwoApplications` gives a whole run |
| Scenario.LoadsMalwareFirst | preprocessing-scripts/preprocessing-dataset.py:190-194 | with one single-item file per kind and empty batch directories, the malware pair comes before the goodware pair |
| Scenario.ExtractsBoth | preprocessing-scripts/preprocessing-dataset.py:23-28 | both sections are read, and the permission lists become presence dicts |
| Scenario.OpcodesTable | preprocessing-scripts/preprocessing-dataset.py:30-32 | the opcode table has columns MOVE, JUMP, class and rows (1, 2, 1) and (3, 0, 0) |
| Scenario.ApiCallsTable | preprocessing-scripts/preprocessing-dataset.py:34-36 | an application without API calls still gets a row, and "class" is then the first column |
| Scenario.PermissionsTable | preprocessing-scripts/preprocessing-dataset.py:38-40 | the permission table has columns INTERNET, SEND_SMS, class and rows (1, 1, 1) and (1, 0, 0) |
| Scenario.TwoApplications | preprocessing-scripts/preprocessing-dataset.py:188-197 | the whole run over the two applications gives exactly these three tables |

## Left out

- `get_dirs_from_args` and the `-h` help (lines 97-132): command-line parsing with `getopt`, printing and `sys.exit`.
- `validate_dirs` (lines 135-156): filesystem checks. Each `error_message.join(...)` discards its result, so the function always returns the empty string. `main` only prints that message and carries on in any case, so the data flow does not depend on it.
- `debug` and the messages `main` prints (lines 14-15, 159-187).
- `os.scandir` and `pd.read_json`: the listing and what the reader makes of each file are inputs. Directory order is the listing's order. A missing directory (a `FileNotFoundError`) is not modelled.
- `to_csv` and `os.path.join` (lines 43, 46, 49): the three tables are returned, not written. The index column written to the CSV, which is 0 on every row because of `index=[0]`, is not modelled.
- pandas dtypes are not modelled: cells are integers. A column that held NaN becomes floating point, so pandas writes its values as `3.0`.
- Feature values that are not numbers, and exceptions other than a missing key or a rejected file, are not modelled. One example is a `TypeError` on a NaN section.
- `Loader.BatchPairs`: `pd.read_json` aligns all top-level objects of a file on one index. So a batch entry lacking `Static_analysis` while another entry has it gets NaN rather than raising a `KeyError`, and the run then fails later, in the assembler. The model fails at load time with the missing-key error for every missing section.
- `Extractor.Extract`: a field missing from one top-level object of a single-item file but present in another would be NaN after alignment, not a `KeyError`. The model treats every missing field as a `KeyError`.
- `Extractor.PermissionDict`: the contract states the key set and the values, not that the keys come in order of first occurrence.
- `Frames.Dict`: the type does not require its keys to be distinct, although the keys of a Python dict are. Distinct keys are proved where the model needs them: every table's columns (`UnionDistinct`, `TableIsDense`). A JSON document's top-level keys are distinct by type (`JsonDocument`).
- The unused `pd_json_tmp = pd.DataFrame()` in `load_json` (line 70) has no counterpart.
- `Frames.FeatureTable.AppendRow`: `pd.concat` builds a new frame and the script rebinds the name to it. With no aliasing in the script, the model updates the table in place.
