/**
 The stock ledger: the sector and material catalogues and the `estoque`
 table of per-sector stock records, one row per (sector, material) pair.

 The table is a sequence of rows; the database's unique constraint on the
 compound key `setor_id_material_id` is the invariant `UniqueKeys`, and
 `Find` and `Count` give the keyed view of the table.
 */
module Ledger {
  import opened Wrappers

  type SectorId = int
  type MaterialId = int

  datatype Sector = Sector(id: SectorId, nome: string)
  datatype Material = Material(id: MaterialId, nome: string, unidade: string)

  /** The compound key `setor_id_material_id`. */
  datatype Key = Key(setor: SectorId, material: MaterialId)

  /** One stock record: how much of a material a sector holds and needs. */
  datatype Estoque = Estoque(setorId: SectorId, materialId: MaterialId, quantidade: int, necessidade: int)

  datatype Store = Store(setores: seq<Sector>, materiais: seq<Material>, estoque: seq<Estoque>)

  /** The database refused to create a row whose sector or material does not exist. */
  datatype StoreError = ForeignKeyViolation

  function KeyOf(e: Estoque): Key {
    Key(e.setorId, e.materialId)
  }

  /** No two rows share a compound key. */
  predicate UniqueKeys(rs: seq<Estoque>) {
    forall i, j :: 0 <= i < j < |rs| ==> KeyOf(rs[i]) != KeyOf(rs[j])
  }

  /** No id occurs twice: the primary keys of a catalogue. */
  predicate Distinct(ids: seq<int>) {
    forall i, j :: 0 <= i < j < |ids| ==> ids[i] != ids[j]
  }

  /** The ids of a catalogue, in catalogue order, read through the entry's `id` field. */
  function Ids<T>(xs: seq<T>, id: T -> int): (ids: seq<int>)
    ensures |ids| == |xs|
    ensures forall i :: 0 <= i < |xs| ==> ids[i] == id(xs[i])
  {
    seq(|xs|, i requires 0 <= i < |xs| => id(xs[i]))
  }

  /** The primary keys of the sector catalogue. */
  function SectorIds(ss: seq<Sector>): seq<SectorId> {
    Ids(ss, (s: Sector) => s.id)
  }

  /** The primary keys of the material catalogue. */
  function MaterialIds(ms: seq<Material>): seq<MaterialId> {
    Ids(ms, (m: Material) => m.id)
  }

  /**
   The invariants the database keeps: catalogue ids are primary keys, every
   stock row refers to an existing sector and material, and the compound
   key is unique.
   */
  predicate WellFormed(st: Store) {
    && Distinct(SectorIds(st.setores))
    && Distinct(MaterialIds(st.materiais))
    && (forall e :: e in st.estoque ==> e.setorId in SectorIds(st.setores))
    && (forall e :: e in st.estoque ==> e.materialId in MaterialIds(st.materiais))
    && UniqueKeys(st.estoque)
  }

  /** The position of the first row with key `k`, if any. */
  function Locate(rs: seq<Estoque>, k: Key): (r: Option<nat>)
    ensures r.Some? ==> r.value < |rs| && KeyOf(rs[r.value]) == k
    ensures r.Some? ==> forall j :: 0 <= j < r.value ==> KeyOf(rs[j]) != k
    ensures r.None? ==> forall j :: 0 <= j < |rs| ==> KeyOf(rs[j]) != k
  {
    if |rs| == 0 then None
    else if KeyOf(rs[0]) == k then Some(0)
    else match Locate(rs[1..], k)
      case None => None
      case Some(i) => Some(i + 1)
  }

  /** `Locate` answers the first matching position and nothing else. */
  lemma LocateFirst(rs: seq<Estoque>, k: Key, i: nat)
    requires i < |rs| && KeyOf(rs[i]) == k
    requires forall j :: 0 <= j < i ==> KeyOf(rs[j]) != k
    ensures Locate(rs, k) == Some(i)
  {
  }

  /** The keyed view of the table: the record stored under `k`. */
  function Find(rs: seq<Estoque>, k: Key): (r: Option<Estoque>)
    ensures r.Some? ==> r.value in rs && KeyOf(r.value) == k
    ensures r.None? ==> forall e :: e in rs ==> KeyOf(e) != k
  {
    match Locate(rs, k)
    case None => None
    case Some(i) => Some(rs[i])
  }

  /** How many rows carry key `k`. */
  function Count(rs: seq<Estoque>, k: Key): (n: nat)
    ensures n <= |rs|
    ensures n == 0 <==> forall j :: 0 <= j < |rs| ==> KeyOf(rs[j]) != k
  {
    if |rs| == 0 then 0
    else Count(rs[..|rs| - 1], k) + (if KeyOf(rs[|rs| - 1]) == k then 1 else 0)
  }

  /** Under the unique constraint no key is stored twice. */
  lemma {:induction false} UniqueCountAtMostOne(rs: seq<Estoque>, k: Key)
    requires UniqueKeys(rs)
    ensures Count(rs, k) <= 1
  {
    if |rs| > 0 {
      var init := rs[..|rs| - 1];
      assert UniqueKeys(init);
      UniqueCountAtMostOne(init, k);
      if KeyOf(rs[|rs| - 1]) == k {
        assert forall j :: 0 <= j < |init| ==> KeyOf(init[j]) != k by {
          forall j | 0 <= j < |init|
            ensures KeyOf(init[j]) != k
          {
            assert init[j] == rs[j];
          }
        }
      }
    }
  }

  /** Overwriting one row changes the count of a key by what left and what arrived. */
  lemma {:induction false} CountUpdate(rs: seq<Estoque>, i: nat, x: Estoque, k: Key)
    requires i < |rs|
    ensures Count(rs[i := x], k)
         == Count(rs, k) - (if KeyOf(rs[i]) == k then 1 else 0) + (if KeyOf(x) == k then 1 else 0)
  {
    var last := |rs| - 1;
    if i < last {
      assert rs[i := x][..last] == rs[..last][i := x];
      CountUpdate(rs[..last], i, x, k);
    } else {
      assert rs[i := x][..last] == rs[..last];
    }
  }

  lemma CountAppend(rs: seq<Estoque>, x: Estoque, k: Key)
    ensures Count(rs + [x], k) == Count(rs, k) + (if KeyOf(x) == k then 1 else 0)
  {
  }

  /**
   The upsert on the compound key: overwrite the row holding `e`'s key in
   place, or append `e` when there is none.
   */
  function Upsert(rs: seq<Estoque>, e: Estoque): (r: seq<Estoque>)
    ensures e in r
    ensures forall x :: x in r ==> x == e || x in rs
    ensures UniqueKeys(rs) ==> UniqueKeys(r)
  {
    match Locate(rs, KeyOf(e))
    case Some(i) => assert rs[i := e][i] == e; rs[i := e]
    case None => rs + [e]
  }

  /** After an upsert the key holds exactly the written values, once. */
  lemma UpsertStoresRecord(rs: seq<Estoque>, e: Estoque)
    requires UniqueKeys(rs)
    ensures Find(Upsert(rs, e), KeyOf(e)) == Some(e)
    ensures Count(Upsert(rs, e), KeyOf(e)) == 1
  {
    var k := KeyOf(e);
    match Locate(rs, k)
    case Some(i) =>
      LocateFirst(rs[i := e], k, i);
      CountUpdate(rs, i, e, k);
      UniqueCountAtMostOne(rs, k);
    case None =>
      LocateFirst(rs + [e], k, |rs|);
      CountAppend(rs, e, k);
  }

  /** An upsert leaves every other key's record, and its count, as it was. */
  lemma UpsertFrame(rs: seq<Estoque>, e: Estoque, k: Key)
    requires k != KeyOf(e)
    ensures Find(Upsert(rs, e), k) == Find(rs, k)
    ensures Count(Upsert(rs, e), k) == Count(rs, k)
  {
    var r := Upsert(rs, e);
    match Locate(rs, KeyOf(e)) {
      case Some(i) =>
        CountUpdate(rs, i, e, k);
      case None =>
        CountAppend(rs, e, k);
    }
    match Locate(rs, k)
    case Some(p) =>
      LocateFirst(r, k, p);
    case None =>
      assert forall j :: 0 <= j < |r| ==> KeyOf(r[j]) != k;
  }

  /** Repeating an upsert with the same arguments changes nothing further. */
  lemma UpsertIdempotent(rs: seq<Estoque>, e: Estoque)
    ensures Upsert(Upsert(rs, e), e) == Upsert(rs, e)
  {
  }

  /**
   The database upsert behind `/materiais/update`: update the existing row in
   place, otherwise create one, which the foreign keys refuse when the sector
   or the material does not exist.
   */
  function Save(st: Store, sid: SectorId, mid: MaterialId, quantidade: int, necessidade: int)
    : (r: Result<Store, StoreError>)
    ensures r.Failure? <==>
              Find(st.estoque, Key(sid, mid)).None?
              && (sid !in SectorIds(st.setores) || mid !in MaterialIds(st.materiais))
    ensures r.Success? ==>
              r.value == st.(estoque := Upsert(st.estoque, Estoque(sid, mid, quantidade, necessidade)))
  {
    var e := Estoque(sid, mid, quantidade, necessidade);
    if Find(st.estoque, Key(sid, mid)).Some? then Success(st.(estoque := Upsert(st.estoque, e)))
    else if sid !in SectorIds(st.setores) || mid !in MaterialIds(st.materiais) then Failure(ForeignKeyViolation)
    else Success(st.(estoque := Upsert(st.estoque, e)))
  }

  /** A successful save keeps every database invariant. */
  lemma SaveKeepsWellFormed(st: Store, sid: SectorId, mid: MaterialId, quantidade: int, necessidade: int)
    requires WellFormed(st)
    requires Save(st, sid, mid, quantidade, necessidade).Success?
    ensures WellFormed(Save(st, sid, mid, quantidade, necessidade).value)
  {
  }

  /** The rows of one sector, in table order. */
  function OfSector(rs: seq<Estoque>, sid: SectorId): (r: seq<Estoque>)
    ensures |r| <= |rs|
    ensures forall e :: e in r <==> e in rs && e.setorId == sid
    ensures forall e :: multiset(r)[e] == (if e.setorId == sid then multiset(rs)[e] else 0)
  {
    assert |rs| > 0 ==> rs == [rs[0]] + rs[1..];
    if |rs| == 0 then []
    else (if rs[0].setorId == sid then [rs[0]] else []) + OfSector(rs[1..], sid)
  }

  /** The catalogue entry with id `id`, if any. */
  function MaterialById(ms: seq<Material>, id: MaterialId): (r: Option<Material>)
    ensures r.Some? <==> id in MaterialIds(ms)
    ensures r.Some? ==> r.value in ms && r.value.id == id
  {
    if |ms| == 0 then None
    else if ms[0].id == id then Some(ms[0])
    else
      assert MaterialIds(ms) == [ms[0].id] + MaterialIds(ms[1..]);
      MaterialById(ms[1..], id)
  }

  /** A stock row together with the material it refers to. */
  datatype Joined = Joined(estoque: Estoque, material: Option<Material>)

  /** Attach each row's material, as an `include` of the relation does. */
  function Join(rs: seq<Estoque>, ms: seq<Material>): (r: seq<Joined>)
    ensures |r| == |rs|
    ensures forall i :: 0 <= i < |rs| ==> r[i].estoque == rs[i] && r[i].material == MaterialById(ms, rs[i].materialId)
  {
    if |rs| == 0 then [] else [Joined(rs[0], MaterialById(ms, rs[0].materialId))] + Join(rs[1..], ms)
  }

  /** In a well-formed store every joined row finds its material. */
  lemma JoinComplete(st: Store, rs: seq<Estoque>)
    requires WellFormed(st)
    requires forall e :: e in rs ==> e in st.estoque
    ensures forall j :: j in Join(rs, st.materiais) ==> j.material.Some? && j.material.value.id == j.estoque.materialId
  {
  }
}
