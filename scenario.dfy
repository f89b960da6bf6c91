/**
 * A worked run: one malware and one goodware application, each alone in a
 * single-item directory, and two empty batch directories.
 */
module Scenario {
  import opened Wrappers
  import opened Frames
  import opened Extractor
  import opened Loader
  import opened Assembler
  import opened Pipeline

  const MalwareOps: Dict := DictRep(["MOVE", "JUMP"], map["MOVE" := 1, "JUMP" := 2])
  const GoodwareOps: Dict := DictRep(["MOVE"], map["MOVE" := 3])
  const GoodwareApis: Dict := DictRep(["getSystemService"], map["getSystemService" := 1])
  const MalwarePerms: Dict := DictRep(["INTERNET", "SEND_SMS"], map["INTERNET" := 1, "SEND_SMS" := 1])
  const GoodwarePerms: Dict := DictRep(["INTERNET"], map["INTERNET" := 1])

  const MalwareApp: Section := Section(Some(MalwareOps), Some(EmptyDict), Some(["INTERNET", "SEND_SMS"]))
  const GoodwareApp: Section := Section(Some(GoodwareOps), Some(GoodwareApis), Some(["INTERNET"]))

  function SingleFile(dir: string, s: Section): Listing
  {
    Listing(dir, [Entry("app.json", dir + "/app.json", true, Parsed(Document([StaticAnalysisKey], map[], Some(s))))])
  }

  const Run2: Inputs := Inputs(SingleFile("malware", MalwareApp), SingleFile("goodware", GoodwareApp),
    Listing("malware_batch", []), Listing("goodware_batch", []))

  const Pairs2: seq<Pair> := [(MalwareApp, MALWARE_CLASS), (GoodwareApp, GOODWARE_CLASS)]

  const Records2: seq<Record> := [(Features(MalwareOps, EmptyDict, MalwarePerms), MALWARE_CLASS),
    (Features(GoodwareOps, GoodwareApis, GoodwarePerms), GOODWARE_CLASS)]

  lemma PairsOfOne(e: Entry, classification: Label, batch: int)
    ensures PairsOf([e], classification, batch) == EntryPairs(e, classification, batch)
  {
    assert [e][..0] == [];
    if EntryPairs(e, classification, batch).Ok? {
      var more := EntryPairs(e, classification, batch).value;
      assert [] + more == more;
    }
  }

  /** Malware items come first, then goodware items; the batch directories add nothing. */
  lemma LoadsMalwareFirst()
    ensures LoadAll(Run2) == Ok(Pairs2)
  {
    var m := SingleFile("malware", MalwareApp);
    var g := SingleFile("goodware", GoodwareApp);
    assert EndsWith("app.json", "json") by {
      assert "app.json"[4..] == "json";
    }
    assert IsJsonFile(m.entries[0]) && IsJsonFile(g.entries[0]);
    PairsOfOne(m.entries[0], MALWARE_CLASS, ITENS);
    PairsOfOne(g.entries[0], GOODWARE_CLASS, ITENS);
    assert LoadJsonMalware(m.dir, m.entries) == Ok(Loaded([(MalwareApp, MALWARE_CLASS)], None));
    assert LoadJsonGoodware(g.dir, g.entries) == Ok(Loaded([(GoodwareApp, GOODWARE_CLASS)], None));
    assert LoadJsonMalwareBatch("malware_batch", []).value.dframes == [];
    assert LoadJsonGoodwareBatch("goodware_batch", []).value.dframes == [];
    assert [(MalwareApp, MALWARE_CLASS)] + [(GoodwareApp, GOODWARE_CLASS)] + [] + [] == Pairs2;
  }

  lemma PermissionDicts()
    ensures PermissionDict(["INTERNET"]) == GoodwarePerms
    ensures PermissionDict(["INTERNET", "SEND_SMS"]) == MalwarePerms
  {
    assert ["INTERNET", "SEND_SMS"][..1] == ["INTERNET"];
    assert ["INTERNET"][..0] == [];
  }

  lemma ExtractsEach()
    ensures Extract(MalwareApp) == Ok(Records2[0].0)
    ensures Extract(GoodwareApp) == Ok(Records2[1].0)
  {
    PermissionDicts();
  }

  lemma ExtractAllTwo(p0: Pair, p1: Pair, f0: Features, f1: Features)
    requires Extract(p0.0) == Ok(f0) && Extract(p1.0) == Ok(f1)
    ensures ExtractAll([p0, p1]) == Ok([(f0, p0.1), (f1, p1.1)])
  {
    var ps := [p0, p1];
    assert ps[..0] == [];
    ExtractAllStep(ps, 0);
    assert [] + [(f0, p0.1)] == [(f0, p0.1)];
    ExtractAllStep(ps, 1);
    assert [(f0, p0.1)] + [(f1, p1.1)] == [(f0, p0.1), (f1, p1.1)];
    assert ps[..2] == ps;
  }

  /** Both sections have their three fields, and the permission lists become presence dicts. */
  lemma ExtractsBoth()
    ensures ExtractAll(Pairs2) == Ok(Records2)
  {
    ExtractsEach();
    ExtractAllTwo(Pairs2[0], Pairs2[1], Records2[0].0, Records2[1].0);
  }

  lemma AccumulateTwo(f1: Dict, f2: Dict)
    ensures Accumulate([f1, f2]) == Table(Union([], f1.keys + f2.keys), [f1.vals, f2.vals])
  {
    assert [f1, f2][..1] == [f1];
    assert [f1][..0] == [];
    assert AllKeys([f1]) == [] + f1.keys == f1.keys;
    assert AllKeys([f1, f2]) == f1.keys + f2.keys;
  }

  lemma FramesOfTwo(fam: Family)
    ensures FamilyFrames(Records2, fam) == [RowOf(Records2[0], fam), RowOf(Records2[1], fam)]
  {
  }

  /**
   * The filled table of two one-row frames whose keys, taken together, are
   * a distinct run p followed only by repeats q.
   */
  lemma TwoFrameTable(f1: Dict, f2: Dict, p: seq<Name>, q: seq<Name>)
    requires f1.keys + f2.keys == p + q
    requires Distinct(p) && forall i :: 0 <= i < |q| ==> q[i] in p
    ensures FillNa(Accumulate([f1, f2])) == Table(p, [Fill(f1.vals, p), Fill(f2.vals, p)])
  {
    AccumulateTwo(f1, f2);
    UnionThenKnown(p, q);
    FillTwo(p, f1.vals, f2.vals);
  }

  lemma FillTwo(cols: seq<Name>, v1: map<Name, Cell>, v2: map<Name, Cell>)
    ensures FillNa(Table(cols, [v1, v2])) == Table(cols, [Fill(v1, cols), Fill(v2, cols)])
  {
  }

  lemma OpcodesFrames()
    ensures FamilyFrames(Records2, OpcodesFamily) == [
      DictRep(["MOVE", "JUMP", ClassColumn], map["MOVE" := 1, "JUMP" := 2, ClassColumn := 1]),
      DictRep(["MOVE", ClassColumn], map["MOVE" := 3, ClassColumn := 0])]
  {
    FramesOfTwo(OpcodesFamily);
    assert ClassColumn !in MalwareOps.vals && ClassColumn !in GoodwareOps.vals;
    assert MalwareOps.keys + [ClassColumn] == ["MOVE", "JUMP", ClassColumn];
    assert GoodwareOps.keys + [ClassColumn] == ["MOVE", ClassColumn];
  }

  lemma OpcodesTable()
    ensures FamilyTable(Records2, OpcodesFamily) == Table(["MOVE", "JUMP", ClassColumn],
      [map["MOVE" := 1, "JUMP" := 2, ClassColumn := 1], map["MOVE" := 3, "JUMP" := 0, ClassColumn := 0]])
  {
    var cols := ["MOVE", "JUMP", ClassColumn];
    OpcodesFrames();
    OpcodesFacts();
    TwoFrameTable(DictRep(cols, map["MOVE" := 1, "JUMP" := 2, ClassColumn := 1]),
      DictRep(["MOVE", ClassColumn], map["MOVE" := 3, ClassColumn := 0]), cols, ["MOVE", ClassColumn]);
  }

  lemma OpcodesFacts()
    ensures Distinct(["MOVE", "JUMP", ClassColumn])
    ensures Fill(map["MOVE" := 1, "JUMP" := 2, ClassColumn := 1], ["MOVE", "JUMP", ClassColumn]) == map["MOVE" := 1, "JUMP" := 2, ClassColumn := 1]
    ensures Fill(map["MOVE" := 3, ClassColumn := 0], ["MOVE", "JUMP", ClassColumn]) == map["MOVE" := 3, "JUMP" := 0, ClassColumn := 0]
  {
  }

  lemma ApiCallsFrames()
    ensures FamilyFrames(Records2, ApiCallsFamily) == [
      DictRep([ClassColumn], map[ClassColumn := 1]),
      DictRep(["getSystemService", ClassColumn], map["getSystemService" := 1, ClassColumn := 0])]
  {
    FramesOfTwo(ApiCallsFamily);
    assert ClassColumn !in GoodwareApis.vals;
    assert EmptyDict.keys + [ClassColumn] == [ClassColumn];
    assert GoodwareApis.keys + [ClassColumn] == ["getSystemService", ClassColumn];
  }

  lemma ApiCallsFacts()
    ensures Distinct([ClassColumn, "getSystemService"])
    ensures Fill(map[ClassColumn := 1], [ClassColumn, "getSystemService"]) == map[ClassColumn := 1, "getSystemService" := 0]
    ensures Fill(map["getSystemService" := 1, ClassColumn := 0], [ClassColumn, "getSystemService"]) == map["getSystemService" := 1, ClassColumn := 0]
  {
  }

  /** An application without API calls still gets a row; "class" is then the first column the table sees. */
  lemma ApiCallsTable()
    ensures FamilyTable(Records2, ApiCallsFamily) == Table([ClassColumn, "getSystemService"],
      [map[ClassColumn := 1, "getSystemService" := 0], map["getSystemService" := 1, ClassColumn := 0]])
  {
    ApiCallsFrames();
    ApiCallsFacts();
    TwoFrameTable(DictRep([ClassColumn], map[ClassColumn := 1]),
      DictRep(["getSystemService", ClassColumn], map["getSystemService" := 1, ClassColumn := 0]),
      [ClassColumn, "getSystemService"], [ClassColumn]);
  }

  lemma PermissionsFrames()
    ensures FamilyFrames(Records2, PermissionsFamily) == [
      DictRep(["INTERNET", "SEND_SMS", ClassColumn], map["INTERNET" := 1, "SEND_SMS" := 1, ClassColumn := 1]),
      DictRep(["INTERNET", ClassColumn], map["INTERNET" := 1, ClassColumn := 0])]
  {
    FramesOfTwo(PermissionsFamily);
    assert ClassColumn !in MalwarePerms.vals && ClassColumn !in GoodwarePerms.vals;
    assert MalwarePerms.keys + [ClassColumn] == ["INTERNET", "SEND_SMS", ClassColumn];
    assert GoodwarePerms.keys + [ClassColumn] == ["INTERNET", ClassColumn];
  }

  lemma PermissionsFacts()
    ensures Distinct(["INTERNET", "SEND_SMS", ClassColumn])
    ensures Fill(map["INTERNET" := 1, "SEND_SMS" := 1, ClassColumn := 1], ["INTERNET", "SEND_SMS", ClassColumn]) == map["INTERNET" := 1, "SEND_SMS" := 1, ClassColumn := 1]
    ensures Fill(map["INTERNET" := 1, ClassColumn := 0], ["INTERNET", "SEND_SMS", ClassColumn]) == map["INTERNET" := 1, "SEND_SMS" := 0, ClassColumn := 0]
  {
  }

  lemma PermissionsTable()
    ensures FamilyTable(Records2, PermissionsFamily) == Table(["INTERNET", "SEND_SMS", ClassColumn],
      [map["INTERNET" := 1, "SEND_SMS" := 1, ClassColumn := 1], map["INTERNET" := 1, "SEND_SMS" := 0, ClassColumn := 0]])
  {
    var cols := ["INTERNET", "SEND_SMS", ClassColumn];
    PermissionsFrames();
    PermissionsFacts();
    TwoFrameTable(DictRep(cols, map["INTERNET" := 1, "SEND_SMS" := 1, ClassColumn := 1]),
      DictRep(["INTERNET", ClassColumn], map["INTERNET" := 1, ClassColumn := 0]), cols, ["INTERNET", ClassColumn]);
  }

  /**
   * The whole run: the malware application is row 0 and the goodware one
   * row 1 in every table; each table's columns are its feature names in
   * first-seen order with "class", and a feature an application lacks is 0.
   */
  lemma TwoApplications()
    ensures Run(Run2) == Ok(Tables(
      Table(["MOVE", "JUMP", ClassColumn],
        [map["MOVE" := 1, "JUMP" := 2, ClassColumn := 1], map["MOVE" := 3, "JUMP" := 0, ClassColumn := 0]]),
      Table([ClassColumn, "getSystemService"],
        [map[ClassColumn := 1, "getSystemService" := 0], map["getSystemService" := 1, ClassColumn := 0]]),
      Table(["INTERNET", "SEND_SMS", ClassColumn],
        [map["INTERNET" := 1, "SEND_SMS" := 1, ClassColumn := 1], map["INTERNET" := 1, "SEND_SMS" := 0, ClassColumn := 0]])))
  {
    LoadsMalwareFirst();
    ExtractsBoth();
    OpcodesTable();
    ApiCallsTable();
    PermissionsTable();
  }
}
