/**
 * The data flow of `main` once the directories are known: the four
 * directories are loaded in a fixed order, their pairs are concatenated,
 * and the tables are assembled from the result.
 */
module Pipeline {
  import opened Wrappers
  import opened Frames
  import opened Extractor
  import opened Loader
  import opened Assembler

  /** A directory's name with its listing. */
  datatype Listing = Listing(dir: string, entries: seq<Entry>)

  /** The four input directories, as the command line names them. */
  datatype Inputs = Inputs(malwareItens: Listing, goodwareItens: Listing, malwareBatch: Listing, goodwareBatch: Listing)

  /** The pairs of all four directories, malware items first; the first directory that fails stops the run. */
  function LoadAll(inp: Inputs): (r: Result<seq<Pair>, Error>)
    ensures r.Ok? <==>
      && LoadJsonMalware(inp.malwareItens.dir, inp.malwareItens.entries).Ok?
      && LoadJsonGoodware(inp.goodwareItens.dir, inp.goodwareItens.entries).Ok?
      && LoadJsonMalwareBatch(inp.malwareBatch.dir, inp.malwareBatch.entries).Ok?
      && LoadJsonGoodwareBatch(inp.goodwareBatch.dir, inp.goodwareBatch.entries).Ok?
  {
    match LoadJsonMalware(inp.malwareItens.dir, inp.malwareItens.entries)
    case Err(e) => Err(e)
    case Ok(a) =>
      match LoadJsonGoodware(inp.goodwareItens.dir, inp.goodwareItens.entries)
      case Err(e) => Err(e)
      case Ok(b) =>
        match LoadJsonMalwareBatch(inp.malwareBatch.dir, inp.malwareBatch.entries)
        case Err(e) => Err(e)
        case Ok(c) =>
          match LoadJsonGoodwareBatch(inp.goodwareBatch.dir, inp.goodwareBatch.entries)
          case Err(e) => Err(e)
          case Ok(d) => Ok(a.dframes + b.dframes + c.dframes + d.dframes)
  }

  /** The three tables `main` has written, or the error that stops it. */
  function Run(inp: Inputs): Result<Tables, Error>
  {
    match LoadAll(inp)
    case Err(e) => Err(e)
    case Ok(pairs) => Preprocess(pairs)
  }

  /** The label row k gets when the directories yield a, b, c and then further pairs. */
  function ExpectedLabel(k: nat, a: nat, b: nat, c: nat): Label
  {
    if k < a then MALWARE_CLASS
    else if k < a + b then GOODWARE_CLASS
    else if k < a + b + c then MALWARE_CLASS
    else GOODWARE_CLASS
  }

  /** A table with n rows, in blocks of a, b, c and the rest, labelled malware, goodware, malware, goodware. */
  ghost predicate LabelledInBlocks(t: Table, n: nat, a: nat, b: nat, c: nat)
  {
    && |t.rows| == n
    && Dense(t)
    && forall k :: 0 <= k < n ==> ClassColumn in t.rows[k] && t.rows[k][ClassColumn] == ExpectedLabel(k, a, b, c)
  }

  /** A successful load is the four directories' pairs, one block after another. */
  lemma LoadAllValue(inp: Inputs)
    requires LoadAll(inp).Ok?
    ensures LoadAll(inp).value ==
      LoadJsonMalware(inp.malwareItens.dir, inp.malwareItens.entries).value.dframes
      + LoadJsonGoodware(inp.goodwareItens.dir, inp.goodwareItens.entries).value.dframes
      + LoadJsonMalwareBatch(inp.malwareBatch.dir, inp.malwareBatch.entries).value.dframes
      + LoadJsonGoodwareBatch(inp.goodwareBatch.dir, inp.goodwareBatch.entries).value.dframes
  {
  }

  /** Four blocks of pairs, each with one label throughout, give pair k the label of its block. */
  lemma BlockLabels(pa: seq<Pair>, pb: seq<Pair>, pc: seq<Pair>, pd: seq<Pair>)
    requires forall k :: 0 <= k < |pa| ==> pa[k].1 == MALWARE_CLASS
    requires forall k :: 0 <= k < |pb| ==> pb[k].1 == GOODWARE_CLASS
    requires forall k :: 0 <= k < |pc| ==> pc[k].1 == MALWARE_CLASS
    requires forall k :: 0 <= k < |pd| ==> pd[k].1 == GOODWARE_CLASS
    ensures forall k :: 0 <= k < |pa + pb + pc + pd| ==> (pa + pb + pc + pd)[k].1 == ExpectedLabel(k, |pa|, |pb|, |pc|)
  {
  }

  lemma FollowsInBlocks(t: Table, pairs: seq<Pair>, a: nat, b: nat, c: nat)
    requires RowsFollow(t, pairs)
    requires forall k :: 0 <= k < |pairs| ==> pairs[k].1 == ExpectedLabel(k, a, b, c)
    ensures LabelledInBlocks(t, |pairs|, a, b, c)
  {
  }

  /**
   * A successful run has one row per application found in the four
   * directories, in the order they were loaded, and each row's "class" cell
   * says which kind of directory the application came from.
   */
  lemma RunLabels(inp: Inputs)
    ensures Run(inp).Ok? ==>
      var a := TotalYield(inp.malwareItens.entries, ITENS);
      var b := TotalYield(inp.goodwareItens.entries, ITENS);
      var c := TotalYield(inp.malwareBatch.entries, BATCH);
      var n := a + b + c + TotalYield(inp.goodwareBatch.entries, BATCH);
      && LabelledInBlocks(Run(inp).value.opcodes, n, a, b, c)
      && LabelledInBlocks(Run(inp).value.apiCalls, n, a, b, c)
      && LabelledInBlocks(Run(inp).value.permissions, n, a, b, c)
  {
    if Run(inp).Ok? {
      var pa := LoadJsonMalware(inp.malwareItens.dir, inp.malwareItens.entries).value.dframes;
      var pb := LoadJsonGoodware(inp.goodwareItens.dir, inp.goodwareItens.entries).value.dframes;
      var pc := LoadJsonMalwareBatch(inp.malwareBatch.dir, inp.malwareBatch.entries).value.dframes;
      var pd := LoadJsonGoodwareBatch(inp.goodwareBatch.dir, inp.goodwareBatch.entries).value.dframes;
      LoadAllValue(inp);
      var pairs := pa + pb + pc + pd;
      BlockLabels(pa, pb, pc, pd);
      PreprocessRows(pairs);
      var t := Run(inp).value;
      FollowsInBlocks(t.opcodes, pairs, |pa|, |pb|, |pc|);
      FollowsInBlocks(t.apiCalls, pairs, |pa|, |pb|, |pc|);
      FollowsInBlocks(t.permissions, pairs, |pa|, |pb|, |pc|);
    }
  }
}
