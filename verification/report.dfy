/**
 The administrators' aggregate report: a pure function of the ledger that
 sums quantities and needs per material and per sector, counts the sectors,
 and measures the deficit, the per-material shortfall of stock against need.
 */
module Report {
  import opened Ledger

  /** Which catalogue a total is grouped by. */
  datatype Axis = BySector | ByMaterial

  /** Which numeric column of a stock row is summed. */
  datatype Column = Quantidade | Necessidade

  datatype Summary = Summary(totalSetores: int, totalItens: int, deficit: int)
  datatype SectorRow = SectorRow(nome: string, totalEstoque: int, totalNecessidade: int)
  datatype MaterialRow = MaterialRow(nome: string, quantidade: int, necessidade: int)
  datatype Stats = Stats(summary: Summary, setores: seq<SectorRow>, materiais: seq<MaterialRow>)

  function AxisId(e: Estoque, a: Axis): int {
    match a
    case BySector => e.setorId
    case ByMaterial => e.materialId
  }

  function Amount(e: Estoque, c: Column): int {
    match c
    case Quantidade => e.quantidade
    case Necessidade => e.necessidade
  }

  /** Column `c` summed over every row of the table. */
  function Total(rs: seq<Estoque>, c: Column): int {
    if |rs| == 0 then 0 else Amount(rs[0], c) + Total(rs[1..], c)
  }

  /** Column `c` summed over the rows of one sector or one material. */
  function ColumnSum(rs: seq<Estoque>, a: Axis, id: int, c: Column): int {
    if |rs| == 0 then 0
    else (if AxisId(rs[0], a) == id then Amount(rs[0], c) else 0) + ColumnSum(rs[1..], a, id, c)
  }

  /** Column `c` summed over the rows whose sector or material is one of `ids`. */
  function SumWhereIn(rs: seq<Estoque>, a: Axis, ids: seq<int>, c: Column): int {
    if |rs| == 0 then 0
    else (if AxisId(rs[0], a) in ids then Amount(rs[0], c) else 0) + SumWhereIn(rs[1..], a, ids, c)
  }

  /** The per-entity totals of column `c`, added up over a list of ids. */
  function SumOver(rs: seq<Estoque>, a: Axis, ids: seq<int>, c: Column): int {
    if |ids| == 0 then 0 else ColumnSum(rs, a, ids[0], c) + SumOver(rs, a, ids[1..], c)
  }

  /** One material's shortfall: how far its total need exceeds its total stock, floored at zero. */
  function Shortfall(rs: seq<Estoque>, mid: MaterialId): (d: int)
    ensures d >= 0
    ensures d >= ColumnSum(rs, ByMaterial, mid, Necessidade) - ColumnSum(rs, ByMaterial, mid, Quantidade)
    ensures d == 0 || d == ColumnSum(rs, ByMaterial, mid, Necessidade) - ColumnSum(rs, ByMaterial, mid, Quantidade)
  {
    var need := ColumnSum(rs, ByMaterial, mid, Necessidade);
    var have := ColumnSum(rs, ByMaterial, mid, Quantidade);
    if need - have > 0 then need - have else 0
  }

  /** The deficit: shortfalls added up over the material catalogue. */
  function Deficit(rs: seq<Estoque>, ms: seq<Material>): (d: int)
    ensures d >= 0
  {
    if |ms| == 0 then 0 else Shortfall(rs, ms[0].id) + Deficit(rs, ms[1..])
  }

  /** One row per sector, in catalogue order, with that sector's stock and need summed over every material. */
  function SectorRows(rs: seq<Estoque>, ss: seq<Sector>): (r: seq<SectorRow>)
    ensures |r| == |ss|
    ensures forall i :: 0 <= i < |ss| ==>
              r[i] == SectorRow(ss[i].nome, ColumnSum(rs, BySector, ss[i].id, Quantidade), ColumnSum(rs, BySector, ss[i].id, Necessidade))
  {
    if |ss| == 0 then []
    else [SectorRow(ss[0].nome, ColumnSum(rs, BySector, ss[0].id, Quantidade), ColumnSum(rs, BySector, ss[0].id, Necessidade))]
         + SectorRows(rs, ss[1..])
  }

  /** One row per material, in catalogue order, with that material's stock and need summed over every sector. */
  function MaterialRows(rs: seq<Estoque>, ms: seq<Material>): (r: seq<MaterialRow>)
    ensures |r| == |ms|
    ensures forall i :: 0 <= i < |ms| ==>
              r[i] == MaterialRow(ms[i].nome, ColumnSum(rs, ByMaterial, ms[i].id, Quantidade), ColumnSum(rs, ByMaterial, ms[i].id, Necessidade))
  {
    if |ms| == 0 then []
    else [MaterialRow(ms[0].nome, ColumnSum(rs, ByMaterial, ms[0].id, Quantidade), ColumnSum(rs, ByMaterial, ms[0].id, Necessidade))]
         + MaterialRows(rs, ms[1..])
  }

  /**
   The report computed on a cache miss. Its summary agrees with its own
   per-material rows: `totalItens` is their stock column added up and the
   deficit is their floored need-minus-stock added up.
   */
  function Compute(st: Store): (r: Stats)
    ensures r.summary.totalSetores == |st.setores| == |r.setores|
    ensures |r.materiais| == |st.materiais|
    ensures r.summary.totalItens == SumQuantidade(r.materiais)
    ensures r.summary.deficit == RowsDeficit(r.materiais)
  {
    MaterialRowsSum(st.estoque, st.materiais);
    Stats(
      Summary(
        |st.setores|,
        SumOver(st.estoque, ByMaterial, MaterialIds(st.materiais), Quantidade),
        Deficit(st.estoque, st.materiais)),
      SectorRows(st.estoque, st.setores),
      MaterialRows(st.estoque, st.materiais))
  }

  // ---- Column sums of the rows -------------------------------------------

  function SumTotalEstoque(rows: seq<SectorRow>): int {
    if |rows| == 0 then 0 else rows[0].totalEstoque + SumTotalEstoque(rows[1..])
  }

  function SumQuantidade(rows: seq<MaterialRow>): int {
    if |rows| == 0 then 0 else rows[0].quantidade + SumQuantidade(rows[1..])
  }

  /** The deficit recomputed from the published per-material rows alone. */
  function RowsDeficit(rows: seq<MaterialRow>): int {
    if |rows| == 0 then 0
    else (if rows[0].necessidade - rows[0].quantidade > 0 then rows[0].necessidade - rows[0].quantidade else 0)
         + RowsDeficit(rows[1..])
  }

  // ---- Grouped sums add up to the table total ----------------------------

  /** Splitting off one id whose rows are counted nowhere else. */
  lemma {:induction false} SumWhereInSplit(rs: seq<Estoque>, a: Axis, ids: seq<int>, c: Column)
    requires |ids| > 0 && ids[0] !in ids[1..]
    ensures SumWhereIn(rs, a, ids, c) == ColumnSum(rs, a, ids[0], c) + SumWhereIn(rs, a, ids[1..], c)
  {
    if |rs| > 0 {
      assert AxisId(rs[0], a) in ids <==> AxisId(rs[0], a) == ids[0] || AxisId(rs[0], a) in ids[1..] by {
        assert ids == [ids[0]] + ids[1..];
      }
      SumWhereInSplit(rs[1..], a, ids, c);
    }
  }

  /** Summing per distinct id is summing over the rows whose id is listed. */
  lemma {:induction false} SumOverIsSumWhereIn(rs: seq<Estoque>, a: Axis, ids: seq<int>, c: Column)
    requires Distinct(ids)
    ensures SumOver(rs, a, ids, c) == SumWhereIn(rs, a, ids, c)
  {
    if |ids| == 0 {
      SumWhereInNone(rs, a, ids, c);
    } else {
      assert Distinct(ids[1..]);
      assert ids[0] !in ids[1..];
      SumOverIsSumWhereIn(rs, a, ids[1..], c);
      SumWhereInSplit(rs, a, ids, c);
    }
  }

  lemma {:induction false} SumWhereInNone(rs: seq<Estoque>, a: Axis, ids: seq<int>, c: Column)
    requires |ids| == 0
    ensures SumWhereIn(rs, a, ids, c) == 0
  {
    if |rs| > 0 {
      SumWhereInNone(rs[1..], a, ids, c);
    }
  }

  /** When every row's id is listed, the listed rows are all the rows. */
  lemma {:induction false} SumWhereInAll(rs: seq<Estoque>, a: Axis, ids: seq<int>, c: Column)
    requires forall e :: e in rs ==> AxisId(e, a) in ids
    ensures SumWhereIn(rs, a, ids, c) == Total(rs, c)
  {
    if |rs| > 0 {
      assert rs[0] in rs;
      SumWhereInAll(rs[1..], a, ids, c);
    }
  }

  /**
   Grouping by a catalogue whose ids are distinct and cover every row loses
   and double-counts nothing.
   */
  lemma SumOverCatalogue(rs: seq<Estoque>, a: Axis, ids: seq<int>, c: Column)
    requires Distinct(ids)
    requires forall e :: e in rs ==> AxisId(e, a) in ids
    ensures SumOver(rs, a, ids, c) == Total(rs, c)
  {
    SumOverIsSumWhereIn(rs, a, ids, c);
    SumWhereInAll(rs, a, ids, c);
  }

  lemma {:induction false} SectorRowsSum(rs: seq<Estoque>, ss: seq<Sector>)
    ensures SumTotalEstoque(SectorRows(rs, ss)) == SumOver(rs, BySector, SectorIds(ss), Quantidade)
  {
    if |ss| > 0 {
      assert SectorRows(rs, ss)[1..] == SectorRows(rs, ss[1..]);
      assert SectorIds(ss)[1..] == SectorIds(ss[1..]);
      SectorRowsSum(rs, ss[1..]);
    }
  }

  lemma {:induction false} MaterialRowsSum(rs: seq<Estoque>, ms: seq<Material>)
    ensures SumQuantidade(MaterialRows(rs, ms)) == SumOver(rs, ByMaterial, MaterialIds(ms), Quantidade)
    ensures RowsDeficit(MaterialRows(rs, ms)) == Deficit(rs, ms)
  {
    if |ms| > 0 {
      assert MaterialRows(rs, ms)[1..] == MaterialRows(rs, ms[1..]);
      assert MaterialIds(ms)[1..] == MaterialIds(ms[1..]);
      MaterialRowsSum(rs, ms[1..]);
    }
  }

  /**
   The three stock totals of the report agree: `totalItens`, the sum of the
   per-material `quantidade` column and the sum of the per-sector
   `totalEstoque` column all equal the stock held across the whole table.
   */
  lemma TotalsAgree(st: Store)
    requires WellFormed(st)
    ensures Compute(st).summary.totalItens == Total(st.estoque, Quantidade)
    ensures Compute(st).summary.totalItens == SumQuantidade(Compute(st).materiais)
    ensures Compute(st).summary.totalItens == SumTotalEstoque(Compute(st).setores)
  {
    var rs := st.estoque;
    SumOverCatalogue(rs, ByMaterial, MaterialIds(st.materiais), Quantidade);
    SumOverCatalogue(rs, BySector, SectorIds(st.setores), Quantidade);
    MaterialRowsSum(rs, st.materiais);
    SectorRowsSum(rs, st.setores);
  }

  /** The summary's deficit is the one a reader would compute from the published material rows. */
  lemma DeficitMatchesRows(st: Store)
    ensures Compute(st).summary.deficit == RowsDeficit(Compute(st).materiais)
    ensures Compute(st).summary.deficit >= 0
  {
  }

  // ---- Deficit properties ------------------------------------------------

  /** A material nobody has recorded stock for contributes nothing to the deficit. */
  lemma {:induction false} UnrecordedMaterialAddsNothing(rs: seq<Estoque>, m: Material, ms: seq<Material>)
    requires forall e :: e in rs ==> e.materialId != m.id
    ensures Shortfall(rs, m.id) == 0
    ensures Deficit(rs, [m] + ms) == Deficit(rs, ms)
  {
    NoRowsNoSum(rs, ByMaterial, m.id, Quantidade);
    NoRowsNoSum(rs, ByMaterial, m.id, Necessidade);
    assert ([m] + ms)[1..] == ms;
  }

  lemma {:induction false} NoRowsNoSum(rs: seq<Estoque>, a: Axis, id: int, c: Column)
    requires forall e :: e in rs ==> AxisId(e, a) != id
    ensures ColumnSum(rs, a, id, c) == 0
  {
    if |rs| > 0 {
      assert rs[0] in rs;
      NoRowsNoSum(rs[1..], a, id, c);
    }
  }

  /**
   `rs'` is `rs` with some needs raised and some quantities lowered, row by
   row, and no key moved.
   */
  predicate Needier(rs: seq<Estoque>, rs': seq<Estoque>) {
    && |rs| == |rs'|
    && forall i :: 0 <= i < |rs| ==>
         && KeyOf(rs'[i]) == KeyOf(rs[i])
         && rs'[i].necessidade >= rs[i].necessidade
         && rs'[i].quantidade <= rs[i].quantidade
  }

  lemma {:induction false} NeedierSums(rs: seq<Estoque>, rs': seq<Estoque>, mid: MaterialId)
    requires Needier(rs, rs')
    ensures ColumnSum(rs', ByMaterial, mid, Necessidade) >= ColumnSum(rs, ByMaterial, mid, Necessidade)
    ensures ColumnSum(rs', ByMaterial, mid, Quantidade) <= ColumnSum(rs, ByMaterial, mid, Quantidade)
  {
    if |rs| > 0 {
      assert KeyOf(rs'[0]) == KeyOf(rs[0]);
      NeedierSums(rs[1..], rs'[1..], mid);
    }
  }

  /** Raising needs or lowering stock never lowers the deficit. */
  lemma {:induction false} DeficitMonotone(rs: seq<Estoque>, rs': seq<Estoque>, ms: seq<Material>)
    requires Needier(rs, rs')
    ensures Deficit(rs, ms) <= Deficit(rs', ms)
  {
    if |ms| > 0 {
      NeedierSums(rs, rs', ms[0].id);
      DeficitMonotone(rs, rs', ms[1..]);
    }
  }

  /** Upserting an existing row with a higher need and the same stock never lowers the deficit. */
  lemma RaisingNeedNeverLowersDeficit(rs: seq<Estoque>, e: Estoque, ms: seq<Material>)
    requires Find(rs, KeyOf(e)).Some?
    requires e.quantidade == Find(rs, KeyOf(e)).value.quantidade
    requires e.necessidade >= Find(rs, KeyOf(e)).value.necessidade
    ensures Deficit(rs, ms) <= Deficit(Upsert(rs, e), ms)
  {
    var i := Locate(rs, KeyOf(e)).value;
    assert Needier(rs, rs[i := e]);
    DeficitMonotone(rs, rs[i := e], ms);
  }

  /** Upserting an existing row with more stock and the same need never raises the deficit. */
  lemma RaisingQuantityNeverRaisesDeficit(rs: seq<Estoque>, e: Estoque, ms: seq<Material>)
    requires Find(rs, KeyOf(e)).Some?
    requires e.quantidade >= Find(rs, KeyOf(e)).value.quantidade
    requires e.necessidade == Find(rs, KeyOf(e)).value.necessidade
    ensures Deficit(Upsert(rs, e), ms) <= Deficit(rs, ms)
  {
    var i := Locate(rs, KeyOf(e)).value;
    assert Needier(rs[i := e], rs);
    DeficitMonotone(rs[i := e], rs, ms);
  }

  /**
   The deficit is at least the net shortage of the whole ledger: surplus on
   one material never hides a shortage on another.
   */
  lemma {:induction false} DeficitBoundsNetShortage(rs: seq<Estoque>, ms: seq<Material>)
    ensures Deficit(rs, ms)
         >= SumOver(rs, ByMaterial, MaterialIds(ms), Necessidade) - SumOver(rs, ByMaterial, MaterialIds(ms), Quantidade)
  {
    if |ms| > 0 {
      assert MaterialIds(ms)[1..] == MaterialIds(ms[1..]);
      DeficitBoundsNetShortage(rs, ms[1..]);
    }
  }

  /**
   Every material's own shortfall is part of the deficit: a surplus on other
   materials never offsets it.
   */
  lemma {:induction false} DeficitCoversEachShortfall(rs: seq<Estoque>, ms: seq<Material>, m: Material)
    requires m in ms
    ensures Deficit(rs, ms) >= Shortfall(rs, m.id)
  {
    if ms[0] != m {
      assert m in ms[1..];
      DeficitCoversEachShortfall(rs, ms[1..], m);
    }
  }

  lemma NetShortage(st: Store)
    requires WellFormed(st)
    ensures Compute(st).summary.deficit >= Total(st.estoque, Necessidade) - Total(st.estoque, Quantidade)
  {
    DeficitBoundsNetShortage(st.estoque, st.materiais);
    SumOverCatalogue(st.estoque, ByMaterial, MaterialIds(st.materiais), Necessidade);
    SumOverCatalogue(st.estoque, ByMaterial, MaterialIds(st.materiais), Quantidade);
  }
}
