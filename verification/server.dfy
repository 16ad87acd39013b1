/**
 The request handlers of the stock-and-report backend as a sequential state
 machine over the ledger and the single `admin_stats` cache slot.

 A handler receives the claims of an already verified token and returns a
 response together with the next state. The central invariant, `Coherent`,
 says that a cached report is always the report of the current ledger.
 */
module Server {
  import opened Wrappers
  import opened Ledger
  import opened Access
  import opened Report

  /** The ledger and the cache slot; `None` is an absent `admin_stats` key. */
  datatype State = State(store: Store, cache: Option<Stats>)

  /**
   What a handler answers: a listing, the saved record, a report, a refusal
   with its HTTP status, a failed database write, or nothing (an expiry).
   */
  datatype Response =
    | Listed(rows: seq<Joined>)
    | Saved(record: Estoque)
    | Served(stats: Stats)
    | Refused(status: int, message: string)
    | Failed(error: StoreError)
    | NoReply

  const NoSectorMessage := "Usuário sem setor"
  const ForbiddenMessage := "Sem permissão"

  /** The requests of the core endpoints, with the body fields they read. */
  datatype Request =
    | ListSector(claims: Claims)
    | UpdateStock(claims: Claims, materialId: MaterialId, quantidade: int, necessidade: int)
    | ReadReport(claims: Claims)

  /** A request, or the cache entry reaching the end of its time to live. */
  datatype Event = Handle(request: Request) | Expire

  /** `GET /materiais/setor`: the caller's own stock rows with their materials, or nothing. */
  function HandleList(st: State, c: Claims): (r: (Response, State))
    ensures r.1 == st
    ensures r.0.Listed?
    ensures CallerSector(c).None? ==> r.0.rows == []
    ensures forall j :: j in r.0.rows ==> CallerSector(c) == Some(j.estoque.setorId) && j.estoque in st.store.estoque
    ensures CallerSector(c).Some? ==>
              forall e :: e in st.store.estoque && e.setorId == CallerSector(c).value ==>
                exists j :: j in r.0.rows && j.estoque == e
    ensures CallerSector(c).Some? ==>
              var mine := OfSector(st.store.estoque, CallerSector(c).value);
              |r.0.rows| == |mine| && forall i :: 0 <= i < |mine| ==> r.0.rows[i].estoque == mine[i]
    ensures forall j :: j in r.0.rows ==> j.material == MaterialById(st.store.materiais, j.estoque.materialId)
    ensures WellFormed(st.store) ==>
              forall j :: j in r.0.rows ==> j.material.Some? && j.material.value.id == j.estoque.materialId
  {
    match CallerSector(c)
    case None => (Listed([]), st)
    case Some(sid) =>
      var mine := OfSector(st.store.estoque, sid);
      var rows := Join(mine, st.store.materiais);
      assert forall e :: e in mine ==> exists j :: j in rows && j.estoque == e by {
        forall e | e in mine
          ensures exists j :: j in rows && j.estoque == e
        {
          var i :| 0 <= i < |mine| && mine[i] == e;
          assert rows[i] in rows;
        }
      }
      assert forall j :: j in rows ==> j.estoque in mine && j.material == MaterialById(st.store.materiais, j.estoque.materialId) by {
        forall j | j in rows
          ensures j.estoque in mine && j.material == MaterialById(st.store.materiais, j.estoque.materialId)
        {
          var i :| 0 <= i < |rows| && rows[i] == j;
        }
      }
      assert WellFormed(st.store) ==>
               forall j :: j in rows ==> j.material.Some? && j.material.value.id == j.estoque.materialId by {
        if WellFormed(st.store) {
          JoinComplete(st.store, mine);
        }
      }
      (Listed(rows), st)
  }

  /**
   `POST /materiais/update`: refuse a caller without a sector; otherwise
   upsert the caller's row for the material and drop the cached report.
   */
  function HandleUpdate(st: State, c: Claims, mid: MaterialId, quantidade: int, necessidade: int)
    : (r: (Response, State))
    ensures CallerSector(c).None? ==> r == (Refused(400, NoSectorMessage), st)
    ensures CallerSector(c).Some? ==>
              (r.0.Saved? <==>
                 || Find(st.store.estoque, Key(CallerSector(c).value, mid)).Some?
                 || (CallerSector(c).value in SectorIds(st.store.setores) && mid in MaterialIds(st.store.materiais)))
    ensures CallerSector(c).Some? && !r.0.Saved? ==> r.0 == Failed(ForeignKeyViolation)
    ensures !r.0.Saved? ==> r.1 == st
    ensures r.0.Saved? ==>
              && CallerSector(c).Some?
              && r.0.record == Estoque(CallerSector(c).value, mid, quantidade, necessidade)
              && r.1.cache.None?
              && r.1.store.setores == st.store.setores
              && r.1.store.materiais == st.store.materiais
              && r.1.store.estoque == Upsert(st.store.estoque, r.0.record)
  {
    match CallerSector(c)
    case None => (Refused(400, NoSectorMessage), st)
    case Some(sid) =>
      match Save(st.store, sid, mid, quantidade, necessidade)
      case Failure(err) => (Failed(err), st)
      case Success(store') => (Saved(Estoque(sid, mid, quantidade, necessidade)), State(store', None))
  }

  /**
   `GET /admin/relatorios`: refuse non-administrators; serve the cached
   report on a hit; on a miss compute the report, cache it and serve it.
   */
  function HandleReport(st: State, c: Claims): (r: (Response, State))
    ensures c.role != ADMIN ==> r == (Refused(403, ForbiddenMessage), st)
    ensures c.role == ADMIN && st.cache.Some? ==> r == (Served(st.cache.value), st)
    ensures c.role == ADMIN && st.cache.None? ==>
              r == (Served(Compute(st.store)), st.(cache := Some(Compute(st.store))))
  {
    if Authorize([ADMIN], c) == Forbidden then (Refused(403, ForbiddenMessage), st)
    else match st.cache
      case Some(cached) => (Served(cached), st)
      case None =>
        var stats := Compute(st.store);
        (Served(stats), st.(cache := Some(stats)))
  }

  /** Time-to-live expiry of the cache entry. */
  function ExpireCache(st: State): (r: State)
    ensures r.store == st.store && r.cache.None?
  {
    st.(cache := None)
  }

  function Step(st: State, ev: Event): (Response, State) {
    match ev
    case Expire => (NoReply, ExpireCache(st))
    case Handle(ListSector(c)) => HandleList(st, c)
    case Handle(UpdateStock(c, mid, q, n)) => HandleUpdate(st, c, mid, q, n)
    case Handle(ReadReport(c)) => HandleReport(st, c)
  }

  /** The responses to a sequence of events, processed one after another, and the final state. */
  function Run(st: State, evs: seq<Event>): (r: (seq<Response>, State))
    ensures |r.0| == |evs|
    decreases |evs|
  {
    if |evs| == 0 then ([], st)
    else
      var (resp, st') := Step(st, evs[0]);
      var (rest, last) := Run(st', evs[1..]);
      ([resp] + rest, last)
  }

  // ---- Cache coherence ---------------------------------------------------

  /** The ledger keeps its database invariants and a cached report is the report of the current ledger. */
  predicate Coherent(st: State) {
    && WellFormed(st.store)
    && (st.cache.Some? ==> st.cache.value == Compute(st.store))
  }

  /** Every event keeps the cache coherent with the ledger. */
  lemma StepKeepsCoherent(st: State, ev: Event)
    requires Coherent(st)
    ensures Coherent(Step(st, ev).1)
  {
  }

  /** Coherence survives any sequence of events. */
  lemma {:induction false} RunKeepsCoherent(st: State, evs: seq<Event>)
    requires Coherent(st)
    ensures Coherent(Run(st, evs).1)
    decreases |evs|
  {
    if |evs| > 0 {
      StepKeepsCoherent(st, evs[0]);
      RunKeepsCoherent(Step(st, evs[0]).1, evs[1..]);
    }
  }

  /**
   In a coherent state the cache is invisible: an administrator is served
   exactly the report of the current ledger, whether it came from the cache
   or was computed, and the state stays coherent.
   */
  lemma ReportIsFresh(st: State, c: Claims)
    requires Coherent(st)
    requires c.role == ADMIN
    ensures HandleReport(st, c).0 == Served(Compute(st.store))
    ensures HandleReport(st, c).1.cache == Some(Compute(st.store))
  {
  }

  /** A non-administrator is refused whatever the cache holds, and neither slot nor ledger changes. */
  lemma ReportForbiddenUnlessAdmin(store: Store, cache: Option<Stats>, c: Claims)
    requires c.role == SETOR
    ensures HandleReport(State(store, cache), c) == (Refused(403, ForbiddenMessage), State(store, cache))
  {
  }

  /**
   Reads see the latest write: after a successful update, the next report an
   administrator reads is computed from the updated ledger, even if the
   previous state held a cached report.
   */
  lemma ReadAfterWrite(st: State, writer: Claims, mid: MaterialId, q: int, n: int, admin: Claims)
    requires admin.role == ADMIN
    requires HandleUpdate(st, writer, mid, q, n).0.Saved?
    ensures HandleReport(HandleUpdate(st, writer, mid, q, n).1, admin).0
         == Served(Compute(HandleUpdate(st, writer, mid, q, n).1.store))
  {
  }

  /** A rejected update touches neither the ledger nor the cache slot. */
  lemma UpdateWithoutSectorChangesNothing(st: State, c: Claims, mid: MaterialId, q: int, n: int)
    requires c.setorId.None? || c.setorId == Some(0)
    ensures HandleUpdate(st, c, mid, q, n) == (Refused(400, NoSectorMessage), st)
  {
  }

  /** A successful update leaves exactly one row for the key, holding the written values. */
  lemma UpdateStoresExactlyOnce(st: State, c: Claims, mid: MaterialId, q: int, n: int)
    requires WellFormed(st.store)
    requires HandleUpdate(st, c, mid, q, n).0.Saved?
    ensures var k := Key(CallerSector(c).value, mid);
            var rs := HandleUpdate(st, c, mid, q, n).1.store.estoque;
            Find(rs, k) == Some(Estoque(k.setor, mid, q, n)) && Count(rs, k) == 1
  {
    UpsertStoresRecord(st.store.estoque, Estoque(CallerSector(c).value, mid, q, n));
  }

  /** Repeating an update gives the same ledger and the same empty cache as doing it once. */
  lemma UpdateIdempotent(st: State, c: Claims, mid: MaterialId, q: int, n: int)
    requires HandleUpdate(st, c, mid, q, n).0.Saved?
    ensures var once := HandleUpdate(st, c, mid, q, n).1;
            HandleUpdate(once, c, mid, q, n).1 == once
  {
    var sid := CallerSector(c).value;
    var e := Estoque(sid, mid, q, n);
    var once := HandleUpdate(st, c, mid, q, n).1;
    UpsertIdempotent(st.store.estoque, e);
    assert Find(once.store.estoque, Key(sid, mid)).Some? by {
      assert e in once.store.estoque;
    }
  }

  // ---- A worked example --------------------------------------------------

  /**
   Two sectors hold one material needed 10 apiece, with stock 4 and 3: the
   deficit is 13. Once the first sector records stock 10, the report an
   administrator reads shows a deficit of 7: need 20 against stock 13.
   */
  lemma DeficitExample()
    ensures var a := Sector(1, "A");
            var b := Sector(2, "B");
            var m := Material(1, "M", "Un");
            var st := State(Store([a, b], [m], [Estoque(1, 1, 4, 10), Estoque(2, 1, 3, 10)]), None);
            var admin := Claims(0, ADMIN, None);
            var writer := Claims(7, SETOR, Some(1));
            var before := HandleReport(st, admin);
            var after := HandleReport(HandleUpdate(before.1, writer, 1, 10, 10).1, admin);
            && before.0.Served? && before.0.stats.summary.deficit == 13
            && after.0.Served? && after.0.stats.summary.deficit == 7
  {
  }
}
