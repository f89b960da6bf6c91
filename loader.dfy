/**
 * The record loader, `load_json`, over an in-memory listing of a directory:
 * each entry says whether it is a regular file, and carries what the JSON
 * reader makes of it. Scanning the directory and parsing JSON are not
 * modelled.
 */
module Loader {
  import opened Wrappers
  import opened Frames
  import opened Extractor

  /** The `batch` argument's two values. */
  const BATCH: int := 1
  const ITENS: int := 0

  const StaticAnalysisKey: Name := "Static_analysis"

  /**
   * What the JSON reader yields for one file, as far as the loader looks
   * into it: its top-level keys in file order; for each top-level key whose
   * value holds a `Static_analysis` section, that section (a batch file); and
   * the value of a top-level `Static_analysis` key, if there is one (a
   * single-item file).
   */
  datatype Document = Document(keys: seq<Name>, nested: map<Name, Section>, own: Option<Section>)

  /** A JSON object never lists a top-level key twice. */
  type JsonDocument = d: Document | Distinct(d.keys) witness Document([], map[], None)

  /** The reader either produces a document or rejects the file. */
  datatype Parsed = Parsed(doc: JsonDocument) | Rejected

  /** One directory entry: `entry.name`, `entry.path`, `entry.is_file()`, and what reading it gives. */
  datatype Entry = Entry(name: string, path: string, isFile: bool, content: Parsed)

  /** A pair handed on to the assembler. */
  type Pair = (Section, Label)

  /** The list `load_json` returns, and the warning it prints when that list is empty. */
  datatype Loaded = Loaded(dframes: seq<Pair>, warning: Option<string>)

  function WarningText(inputDir: string): string
  {
    "No json file found: directory " + inputDir
  }

  /** Python's `s.endswith(suffix)`. */
  function EndsWith(s: string, suffix: string): bool
  {
    |suffix| <= |s| && s[|s| - |suffix|..] == suffix
  }

  /** A name ends with the suffix exactly when it is some string followed by that suffix. */
  lemma EndsWithSplit(s: string, suffix: string)
    ensures EndsWith(s, suffix) <==> exists p :: p + suffix == s
  {
    if EndsWith(s, suffix) {
      var p := s[..|s| - |suffix|];
      assert p + suffix == s;
    }
    if exists p :: p + suffix == s {
      var p :| p + suffix == s;
      assert s[|s| - |suffix|..] == suffix;
    }
  }

  /** The entries `load_json` reads: regular files whose name ends in "json" (with or without a dot before it). */
  predicate IsJsonFile(e: Entry)
  {
    e.isFile && EndsWith(e.name, "json")
  }

  /** The pairs for the first top-level keys of a batch document; a key without a section aborts the run. */
  function BatchPairs(doc: Document, keys: seq<Name>, classification: Label): (r: Result<seq<Pair>, Error>)
    ensures r.Ok? <==> forall i :: 0 <= i < |keys| ==> keys[i] in doc.nested
    ensures r.Err? ==> r.error == MissingKey(StaticAnalysisKey)
    ensures r.Ok? ==> |r.value| == |keys|
    ensures r.Ok? ==> forall i :: 0 <= i < |keys| ==> keys[i] in doc.nested && r.value[i] == (doc.nested[keys[i]], classification)
    decreases |keys|
  {
    if keys == [] then Ok([])
    else
      assert forall i :: 0 <= i < |keys| - 1 ==> keys[..|keys| - 1][i] == keys[i];
      match BatchPairs(doc, keys[..|keys| - 1], classification)
      case Err(e) => Err(e)
      case Ok(ps) =>
        var key := keys[|keys| - 1];
        if key in doc.nested then Ok(ps + [(doc.nested[key], classification)])
        else Err(MissingKey(StaticAnalysisKey))
  }

  /**
   * An entry the loader gets through: anything that is not a JSON file, or a
   * JSON file the reader accepts and that holds the sections the mode looks
   * up (one under every top-level key in batch mode, a top-level one
   * otherwise).
   */
  predicate Readable(e: Entry, batch: int)
  {
    IsJsonFile(e) ==>
      && e.content.Parsed?
      && (batch == BATCH ==> forall i :: 0 <= i < |e.content.doc.keys| ==> e.content.doc.keys[i] in e.content.doc.nested)
      && (batch != BATCH ==> e.content.doc.own.Some?)
  }

  /** How many pairs an entry yields: none unless it is a JSON file, one per top-level key in batch mode, one otherwise. */
  function Yield(e: Entry, batch: int): nat
  {
    if !IsJsonFile(e) || e.content.Rejected? then 0
    else if batch == BATCH then |e.content.doc.keys|
    else 1
  }

  function TotalYield(entries: seq<Entry>, batch: int): nat
    decreases |entries|
  {
    if entries == [] then 0 else TotalYield(entries[..|entries| - 1], batch) + Yield(entries[|entries| - 1], batch)
  }

  /** The pairs one entry contributes. */
  function EntryPairs(e: Entry, classification: Label, batch: int): (r: Result<seq<Pair>, Error>)
    ensures r.Ok? <==> Readable(e, batch)
    ensures r.Ok? ==> |r.value| == Yield(e, batch)
    ensures r.Ok? ==> forall k :: 0 <= k < |r.value| ==> r.value[k].1 == classification
    ensures r.Err? ==> r.error == (if e.content.Rejected? then Unparsable(e.path) else MissingKey(StaticAnalysisKey))
  {
    if !IsJsonFile(e) then Ok([])
    else
      match e.content
      case Rejected => Err(Unparsable(e.path))
      case Parsed(doc) =>
        if batch == BATCH then BatchPairs(doc, doc.keys, classification)
        else if doc.own.Some? then Ok([(doc.own.value, classification)])
        else Err(MissingKey(StaticAnalysisKey))
  }

  /** The pairs of the first entries, in listing order; the first failing entry aborts the run. */
  function PairsOf(entries: seq<Entry>, classification: Label, batch: int): (r: Result<seq<Pair>, Error>)
    ensures r.Ok? <==> forall i :: 0 <= i < |entries| ==> Readable(entries[i], batch)
    ensures r.Ok? ==> |r.value| == TotalYield(entries, batch)
    ensures r.Ok? ==> forall k :: 0 <= k < |r.value| ==> r.value[k].1 == classification
    decreases |entries|
  {
    if entries == [] then Ok([])
    else
      assert forall i :: 0 <= i < |entries| - 1 ==> entries[..|entries| - 1][i] == entries[i];
      match PairsOf(entries[..|entries| - 1], classification, batch)
      case Err(e) => Err(e)
      case Ok(ps) =>
        match EntryPairs(entries[|entries| - 1], classification, batch)
        case Err(e) => Err(e)
        case Ok(more) => Ok(ps + more)
  }

  /** What `load_json(input_dir, classification, batch)` returns and prints. */
  function LoadJsonSpec(inputDir: string, entries: seq<Entry>, classification: Label, batch: int): Result<Loaded, Error>
  {
    match PairsOf(entries, classification, batch)
    case Err(e) => Err(e)
    case Ok(ps) => Ok(Loaded(ps, if |ps| == 0 then Some(WarningText(inputDir)) else None))
  }

  /** Once a prefix of a batch document's keys fails, the whole document fails with that error. */
  lemma BatchPairsFirstError(doc: Document, keys: seq<Name>, k: nat, classification: Label)
    requires k <= |keys| && BatchPairs(doc, keys[..k], classification).Err?
    ensures BatchPairs(doc, keys, classification) == BatchPairs(doc, keys[..k], classification)
    decreases |keys|
  {
  }

  /** Once a prefix of the listing fails, the whole load fails with that error. */
  lemma {:induction false} PairsOfFirstError(entries: seq<Entry>, k: nat, classification: Label, batch: int)
    requires k <= |entries| && PairsOf(entries[..k], classification, batch).Err?
    ensures PairsOf(entries, classification, batch) == PairsOf(entries[..k], classification, batch)
    decreases |entries|
  {
    if k < |entries| {
      var n := |entries| - 1;
      assert entries[..n][..k] == entries[..k];
      PairsOfFirstError(entries[..n], k, classification, batch);
    } else {
      assert entries[..k] == entries;
    }
  }

  /**
   * The body of `load_json`'s loop for one entry: skip it unless it is a
   * JSON file, read it, and collect its pairs.
   */
  method ReadEntry(entry: Entry, classification: Label, batch: int) returns (r: Result<seq<Pair>, Error>)
    ensures r == EntryPairs(entry, classification, batch)
  {
    if !(entry.isFile && EndsWith(entry.name, "json")) {
      return Ok([]);
    }
    match entry.content {
      case Rejected =>
        return Err(Unparsable(entry.path));
      case Parsed(pdJson) =>
        if batch == BATCH {
          var found: seq<Pair> := [];
          var j := 0;
          while j < |pdJson.keys|
            invariant 0 <= j <= |pdJson.keys|
            invariant BatchPairs(pdJson, pdJson.keys[..j], classification) == Ok(found)
          {
            var colApk := pdJson.keys[j];
            assert pdJson.keys[..j + 1][..j] == pdJson.keys[..j];
            if colApk !in pdJson.nested {
              BatchPairsFirstError(pdJson, pdJson.keys, j + 1, classification);
              return Err(MissingKey(StaticAnalysisKey));
            }
            found := found + [(pdJson.nested[colApk], classification)];
            j := j + 1;
          }
          assert pdJson.keys[..j] == pdJson.keys;
          return Ok(found);
        } else {
          if pdJson.own.None? {
            return Err(MissingKey(StaticAnalysisKey));
          }
          return Ok([(pdJson.own.value, classification)]);
        }
    }
  }

  /**
   * `load_json`: scan the entries, read each JSON file, and collect one pair
   * per application (in batch mode one per top-level key), in listing order;
   * warn when nothing was collected.
   */
  method LoadJson(inputDir: string, entries: seq<Entry>, classification: Label, batch: int)
    returns (r: Result<Loaded, Error>)
    ensures r == LoadJsonSpec(inputDir, entries, classification, batch)
  {
    var dframes: seq<Pair> := [];
    var i := 0;
    while i < |entries|
      invariant 0 <= i <= |entries|
      invariant PairsOf(entries[..i], classification, batch) == Ok(dframes)
    {
      assert entries[..i + 1][..i] == entries[..i];
      var more := ReadEntry(entries[i], classification, batch);
      if more.Err? {
        PairsOfFirstError(entries, i + 1, classification, batch);
        return Err(more.error);
      }
      dframes := dframes + more.value;
      i := i + 1;
    }
    assert entries[..i] == entries;
    var warning: Option<string> := None;
    if |dframes| == 0 {
      warning := Some(WarningText(inputDir));
    }
    return Ok(Loaded(dframes, warning));
  }

  /** The JSON files of a listing, in listing order. */
  function JsonFiles(entries: seq<Entry>): (r: seq<Entry>)
    ensures forall k :: 0 <= k < |r| ==> IsJsonFile(r[k]) && r[k] in entries
    ensures |r| <= |entries|
    decreases |entries|
  {
    if entries == [] then []
    else
      var n := |entries| - 1;
      JsonFiles(entries[..n]) + (if IsJsonFile(entries[n]) then [entries[n]] else [])
  }

  /** Every JSON file of the listing is kept. */
  lemma {:induction false} JsonFilesComplete(entries: seq<Entry>)
    ensures forall e :: e in entries && IsJsonFile(e) ==> e in JsonFiles(entries)
    decreases |entries|
  {
    if entries != [] {
      var n := |entries| - 1;
      var pre := entries[..n];
      JsonFilesComplete(pre);
      assert JsonFiles(entries) == JsonFiles(pre) + (if IsJsonFile(entries[n]) then [entries[n]] else []);
      forall e | e in entries && IsJsonFile(e)
        ensures e in JsonFiles(entries)
      {
        var i :| 0 <= i < |entries| && entries[i] == e;
        if i < n {
          assert pre[i] == e;
        }
      }
    }
  }

  /**
   * The filter looks at the name's last four characters only: "app.json" and
   * "appjson" are read, "app.json.bak" and a directory named "app.json" are not.
   */
  lemma JsonFileNames(path: string, content: Parsed)
    ensures IsJsonFile(Entry("app.json", path, true, content))
    ensures IsJsonFile(Entry("appjson", path, true, content))
    ensures !IsJsonFile(Entry("app.json.bak", path, true, content))
    ensures !IsJsonFile(Entry("app.json", path, false, content))
  {
  }

  /** One more entry: the load over xs + [e] is the load over xs, then e's pairs. */
  lemma PairsOfSnoc(xs: seq<Entry>, e: Entry, classification: Label, batch: int)
    ensures PairsOf(xs + [e], classification, batch) ==
      match PairsOf(xs, classification, batch)
      case Err(err) => Err(err)
      case Ok(ps) =>
        match EntryPairs(e, classification, batch)
        case Err(err) => Err(err)
        case Ok(more) => Ok(ps + more)
  {
  }

  /** Only the JSON files matter: the load over the whole listing is the load over its JSON files alone. */
  lemma {:induction false} PairsOfJsonOnly(entries: seq<Entry>, classification: Label, batch: int)
    ensures PairsOf(entries, classification, batch) == PairsOf(JsonFiles(entries), classification, batch)
    decreases |entries|
  {
    if entries != [] {
      var n := |entries| - 1;
      var pre, last := entries[..n], entries[n];
      assert entries == pre + [last];
      PairsOfJsonOnly(pre, classification, batch);
      PairsOfSnoc(pre, last, classification, batch);
      var js := JsonFiles(pre);
      if IsJsonFile(last) {
        assert JsonFiles(entries) == js + [last];
        PairsOfSnoc(js, last, classification, batch);
      } else {
        assert JsonFiles(entries) == js + [];
        assert js + [] == js;
        assert EntryPairs(last, classification, batch) == Ok([]);
        if PairsOf(pre, classification, batch).Ok? {
          var ps := PairsOf(pre, classification, batch).value;
          assert ps + [] == ps;
        }
      }
    }
  }

  /**
   * In single-item mode the k-th pair is the top-level section of the k-th
   * JSON file, with the directory's label.
   */
  lemma {:induction false} SingleModeSections(entries: seq<Entry>, classification: Label, batch: int)
    requires batch != BATCH && PairsOf(entries, classification, batch).Ok?
    ensures |PairsOf(entries, classification, batch).value| == |JsonFiles(entries)|
    ensures forall k :: 0 <= k < |JsonFiles(entries)| ==>
      && JsonFiles(entries)[k].content.Parsed?
      && JsonFiles(entries)[k].content.doc.own.Some?
      && PairsOf(entries, classification, batch).value[k] == (JsonFiles(entries)[k].content.doc.own.value, classification)
    decreases |entries|
  {
    if entries != [] {
      var n := |entries| - 1;
      var pre := entries[..n];
      SingleModeSections(pre, classification, batch);
      var js := JsonFiles(pre);
      var ps := PairsOf(pre, classification, batch).value;
      if IsJsonFile(entries[n]) {
        assert JsonFiles(entries) == js + [entries[n]];
        assert PairsOf(entries, classification, batch).value == ps + [(entries[n].content.doc.own.value, classification)];
      } else {
        assert JsonFiles(entries) == js;
        assert PairsOf(entries, classification, batch).value == ps + [];
        assert ps + [] == ps;
      }
    }
  }

  /** Nothing is collected exactly when no entry yields anything. */
  lemma {:induction false} TotalYieldZero(entries: seq<Entry>, batch: int)
    ensures TotalYield(entries, batch) == 0 <==> forall i :: 0 <= i < |entries| ==> Yield(entries[i], batch) == 0
    decreases |entries|
  {
    if entries != [] {
      var n := |entries| - 1;
      TotalYieldZero(entries[..n], batch);
      assert forall i :: 0 <= i < n ==> entries[..n][i] == entries[i];
    }
  }

  /**
   * A successful load warns, with the directory's name, exactly when no entry
   * yielded a pair: no JSON file at all, or (in batch mode) only JSON files
   * without top-level keys.
   */
  lemma LoadWarning(inputDir: string, entries: seq<Entry>, classification: Label, batch: int)
    requires LoadJsonSpec(inputDir, entries, classification, batch).Ok?
    ensures (LoadJsonSpec(inputDir, entries, classification, batch).value.warning == Some(WarningText(inputDir))) <==>
      forall i :: 0 <= i < |entries| ==> Yield(entries[i], batch) == 0
    ensures LoadJsonSpec(inputDir, entries, classification, batch).value.warning.None? <==>
      exists i :: 0 <= i < |entries| && Yield(entries[i], batch) > 0
  {
    TotalYieldZero(entries, batch);
  }

  /** A listing without JSON files has none to read. */
  lemma {:induction false} NoJsonFilesAtAll(entries: seq<Entry>)
    requires forall i :: 0 <= i < |entries| ==> !IsJsonFile(entries[i])
    ensures JsonFiles(entries) == []
    decreases |entries|
  {
    if entries != [] {
      var n := |entries| - 1;
      assert forall i :: 0 <= i < n ==> entries[..n][i] == entries[i];
      NoJsonFilesAtAll(entries[..n]);
    }
  }

  /** A directory without JSON files loads to nothing, with the warning. */
  lemma NoJsonFiles(inputDir: string, entries: seq<Entry>, classification: Label, batch: int)
    requires forall i :: 0 <= i < |entries| ==> !IsJsonFile(entries[i])
    ensures LoadJsonSpec(inputDir, entries, classification, batch) == Ok(Loaded([], Some(WarningText(inputDir))))
  {
    PairsOfJsonOnly(entries, classification, batch);
    NoJsonFilesAtAll(entries);
  }

  /**
   * In batch mode a JSON file without top-level keys yields nothing, so a
   * directory holding only such a file gets the "No json file found"
   * warning although it does hold a JSON file.
   */
  lemma EmptyBatchFileWarns(inputDir: string)
    ensures var e := Entry("apks.json", inputDir + "/apks.json", true, Parsed(Document([], map[], None)));
      IsJsonFile(e) && LoadJsonSpec(inputDir, [e], GOODWARE_CLASS, BATCH) == Ok(Loaded([], Some(WarningText(inputDir))))
  {
  }

  /** `load_json_malware`: the item directory, labelled as malware. */
  function LoadJsonMalware(inputDir: string, entries: seq<Entry>): (r: Result<Loaded, Error>)
    ensures r.Ok? <==> forall i :: 0 <= i < |entries| ==> Readable(entries[i], ITENS)
    ensures r.Ok? ==> |r.value.dframes| == TotalYield(entries, ITENS)
    ensures r.Ok? ==> forall k :: 0 <= k < |r.value.dframes| ==> r.value.dframes[k].1 == MALWARE_CLASS
  {
    LoadJsonSpec(inputDir, entries, MALWARE_CLASS, ITENS)
  }

  /** `load_json_goodware`: the item directory, labelled as goodware. */
  function LoadJsonGoodware(inputDir: string, entries: seq<Entry>): (r: Result<Loaded, Error>)
    ensures r.Ok? <==> forall i :: 0 <= i < |entries| ==> Readable(entries[i], ITENS)
    ensures r.Ok? ==> |r.value.dframes| == TotalYield(entries, ITENS)
    ensures r.Ok? ==> forall k :: 0 <= k < |r.value.dframes| ==> r.value.dframes[k].1 == GOODWARE_CLASS
  {
    LoadJsonSpec(inputDir, entries, GOODWARE_CLASS, ITENS)
  }

  /** `load_json_malware_batch`: the batch directory, labelled as malware. */
  function LoadJsonMalwareBatch(inputDir: string, entries: seq<Entry>): (r: Result<Loaded, Error>)
    ensures r.Ok? <==> forall i :: 0 <= i < |entries| ==> Readable(entries[i], BATCH)
    ensures r.Ok? ==> |r.value.dframes| == TotalYield(entries, BATCH)
    ensures r.Ok? ==> forall k :: 0 <= k < |r.value.dframes| ==> r.value.dframes[k].1 == MALWARE_CLASS
  {
    LoadJsonSpec(inputDir, entries, MALWARE_CLASS, BATCH)
  }

  /** `load_json_goodware_batch`: the batch directory, labelled as goodware. */
  function LoadJsonGoodwareBatch(inputDir: string, entries: seq<Entry>): (r: Result<Loaded, Error>)
    ensures r.Ok? <==> forall i :: 0 <= i < |entries| ==> Readable(entries[i], BATCH)
    ensures r.Ok? ==> |r.value.dframes| == TotalYield(entries, BATCH)
    ensures r.Ok? ==> forall k :: 0 <= k < |r.value.dframes| ==> r.value.dframes[k].1 == GOODWARE_CLASS
  {
    LoadJsonSpec(inputDir, entries, GOODWARE_CLASS, BATCH)
  }
}
