# Inventory stock ledger, aggregate report and report cache

This project models the backend core of an inventory system. Sectors (`setores`)
record how much of each catalogue material (`materiais`) they hold
(`quantidade`) and will need (`necessidade`). Administrators read an aggregate
report that is cached in a single slot (`admin_stats`).

The model is a sequential state machine over an abstract store:

- `Ledger` (`ledger.dfy`) holds the store. It has the sector and material catalogues and
  the `estoque` table as a sequence of rows. The database's unique constraint on
  the compound key `setor_id_material_id` is the invariant `UniqueKeys`. The
  foreign keys and the catalogue primary keys are part of `WellFormed`. `Find`
  is the keyed (map) view of the table and `Count` says how many rows carry a
  key. `Upsert` is the overwrite-or-append on the compound key. `Save` is the
  database upsert, where creating a row that points at a missing sector or
  material is refused.
- `Access` (`access.dfy`) holds the verified token claims, the closed role
  set `ADMIN | SETOR`, and the role guard `authorize`.
- `Report` (`report.dfy`) holds the aggregate report as a pure function
  `Compute` of the store. It has the sector count, `totalItens`, the deficit
  (per-material shortfall of summed need over summed stock, floored at zero,
  added over the catalogue) and the per-sector and per-material totals.
- `Server` (`server.dfy`) holds the three handlers (`/materiais/setor`,
  `/materiais/update`, `/admin/relatorios`), time-to-live expiry as an event
  that empties the cache slot, and runs of events. Its invariant `Coherent`
  says that a cached report always equals `Compute` of the current store.
- `Wrappers` (`wrappers.dfy`) holds `Option` and `Result`.

Identifiers are unbounded integers, and quantities and needs are unbounded
integers that may be negative, because the handler never validates them. A
claim whose `setor_id` is missing or `0` counts as having no sector, which
is how the source's falsy test `!setor_id` behaves. For one material needed 10 by each of two
sectors holding 4 and 3, the report shows a deficit of 13. After the first
sector records stock 10, it shows 7: need 20 against stock 13
(`Server.DeficitExample`).

## Model

| member | source | states |
|---|---|---|
| Ledger.Locate | backend/server.ts:89-91 | the lookup on the compound key finds the first row holding the key, and reports absence only when no row holds it |
| Ledger.LocateFirst | backend/server.ts:89-91 | the lookup answers exactly the first matching row, so it is determined by the table |
| Ledger.Find | backend/server.ts:89-91 | the keyed view returns a row of the table carrying the key, or none when no row carries it |
| Ledger.Count | backend/server.ts:89-91 | the number of rows holding a key is zero exactly when no row holds it |
| Ledger.UniqueCountAtMostOne | backend/server.ts:89-91 | under the unique constraint on `setor_id_material_id` each key is held by at most one row |
| Ledger.Upsert | backend/server.ts:88-94 | the upsert stores the new record, introduces no other record, and preserves key uniqueness |
| Ledger.UpsertStoresRecord | backend/server.ts:88-94 | after the upsert the key holds exactly the written quantity and need, in exactly one row, whether or not a row existed before |
| Ledger.UpsertFrame | backend/server.ts:88-94 | the record and the row count of every other (sector, material) key are unchanged |
| Ledger.UpsertIdempotent | backend/server.ts:88-94 | repeating the upsert with the same arguments gives the same table as doing it once |
| Ledger.Save | backend/server.ts:88-94 | the database upsert fails only when no row exists for the key and the sector or material is unknown; otherwise only the stock table changes, by the upsert |
| Ledger.SaveKeepsWellFormed | backend/server.ts:88-94 | a successful save keeps key uniqueness, the foreign keys and the catalogue keys |
| Ledger.OfSector | backend/server.ts:68-69 | the sector filter returns exactly the table's rows whose sector is the caller's, each as many times as the table holds it, and no other row |
| Ledger.MaterialById | backend/server.ts:70 | the material relation resolves exactly when the id is in the catalogue, and then to the entry with that id |
| Ledger.Join | backend/server.ts:68-71 | each listed row is paired, in order, with the material its `material_id` names |
| Ledger.JoinComplete | backend/server.ts:70 | in a well-formed store every listed row's material relation resolves to the material it names |
| Access.CallerSector | backend/server.ts:84-86 | a caller has a sector exactly when the claims carry a non-zero `setor_id`, which is then the sector used |
| Access.AuthorizeExactlyListed | backend/server.ts:32-37 | the guard admits a caller exactly when the caller's role is among the listed roles, and fails closed otherwise |
| Access.AdminGuard | backend/server.ts:103 | the report route's guard `['ADMIN']` admits administrators and forbids sector users |
| Report.Shortfall | backend/server.ts:130-132 | a material's shortfall is non-negative, at least its summed need minus its summed stock, and is either zero or exactly that difference |
| Report.Deficit | backend/server.ts:129-133 | the deficit is never negative |
| Report.SectorRows | backend/server.ts:135-139 | the report has one row per sector, in catalogue order, whose `totalEstoque` and `totalNecessidade` are that sector's stock and need summed over all its rows |
| Report.MaterialRows | backend/server.ts:140-144 | the report has one row per material, in catalogue order, whose `quantidade` and `necessidade` are that material's stock and need summed over all its rows |
| Report.Compute | backend/server.ts:125-145 | `totalSetores` is the sector count and the number of sector rows; `totalItens` is the sum of the material rows' `quantidade`; the deficit is the material rows' floored need-minus-stock added up |
| Report.SumOverCatalogue | backend/server.ts:128 | summing per-entity totals over a catalogue with distinct ids that covers every row gives the total of the whole table |
| Report.TotalsAgree | backend/server.ts:128-142 | `totalItens` equals the stock of the whole table, the sum of the per-material `quantidade` column and the sum of the per-sector `totalEstoque` column |
| Report.DeficitMatchesRows | backend/server.ts:129-143 | the summary deficit is what the published per-material rows give when each row's need minus stock is floored at zero and added up |
| Report.UnrecordedMaterialAddsNothing | backend/server.ts:129-133 | a material with no stock rows contributes zero to the deficit |
| Report.DeficitMonotone | backend/server.ts:129-133 | raising needs or lowering stock, row by row, never lowers the deficit |
| Report.RaisingNeedNeverLowersDeficit | backend/server.ts:129-133 | upserting an existing row with a higher need and the same stock never lowers the deficit |
| Report.RaisingQuantityNeverRaisesDeficit | backend/server.ts:129-133 | upserting an existing row with more stock and the same need never raises the deficit |
| Report.DeficitBoundsNetShortage | backend/server.ts:129-133 | the deficit is at least the catalogue-wide need minus stock |
| Report.DeficitCoversEachShortfall | backend/server.ts:129-133 | the deficit is at least every catalogued material's own shortfall, so a surplus on other materials never offsets it |
| Report.NetShortage | backend/server.ts:128-133 | in a well-formed store the reported deficit is at least the whole table's need minus its stock |
| Server.HandleList | backend/server.ts:66-73 | the listing returns `[]` for a caller without a sector, otherwise exactly the caller's sector's rows, in table order and with their multiplicity, each paired with the catalogue material its `material_id` names (always present in a well-formed store), and changes nothing |
| Server.HandleUpdate | backend/server.ts:82-100 | an update with no sector is refused with 400 and changes nothing; with a sector it succeeds exactly when the row exists or both sector and material are catalogued, and then returns the written record, upserts it and empties the cache; otherwise it fails with a foreign-key refusal and changes nothing |
| Server.HandleReport | backend/server.ts:103-148 | non-administrators get 403 with the state untouched; a hit serves the cached value as is and changes nothing; a miss serves `Compute` of the current ledger and caches that same report |
| Server.ExpireCache | backend/server.ts:147 | expiry of the time to live empties the slot and leaves the ledger alone |
| Server.StepKeepsCoherent | backend/server.ts:82-148 | every request and every expiry keeps the database invariants and keeps a cached report equal to the report of the current ledger |
| Server.RunKeepsCoherent | backend/server.ts:82-148 | cache coherence holds after any sequential run of requests and expiries |
| Server.ReportIsFresh | backend/server.ts:104-148 | in a coherent state an administrator is served exactly `Compute` of the current ledger, on a hit or a miss, and the slot then holds it |
| Server.ReportForbiddenUnlessAdmin | backend/server.ts:103 | a sector user is refused with 403 whatever the cache holds, and neither the cache nor the ledger changes |
| Server.ReadAfterWrite | backend/server.ts:97-107 | after a successful update, the next administrator report is computed from the updated ledger, even if a report was cached before |
| Server.UpdateWithoutSectorChangesNothing | backend/server.ts:86 | claims with a missing or zero `setor_id` get 400 and leave ledger and cache untouched |
| Server.UpdateStoresExactlyOnce | backend/server.ts:88-94 | after a successful update the ledger holds exactly one row for (caller's sector, material), with the written values |
| Server.UpdateIdempotent | backend/server.ts:88-97 | repeating a successful update yields the same ledger and the same empty cache |
| Server.DeficitExample | backend/server.ts:129-133 | needs 10 + 10 against stock 4 + 3 report a deficit of 13; after the first sector records stock 10 the next report shows 7 |

## Left out

- Authentication (`authenticate`, backend/server.ts:19-30) and login (backend/server.ts:42-63) are left out. JWT signing, verification and expiry and bcrypt password checks are library cryptography, so handlers take the verified claims as input.
- Concurrency is left out. The race between an in-flight cache-miss recompute and an update's cache delete, and the cache stampede, need interleavings. The model is sequential, and `Coherent` is proved for sequential runs only.
- The cache's time to live (backend/server.ts:147) is modelled only as an `Expire` event that may happen between any two requests. Clock time and the `REDIS_TTL` setting are not modelled.
- A failed database write is modelled, but its HTTP status is not. When creating a row hits a foreign-key refusal, the handler does not catch the error. The model returns `Failed` with the state untouched, because the cache delete is never reached. The error handler (backend/server.ts:152-155) is not part of this model.
- The fields of the returned database rows beyond the stock record and its material are not modelled. The joined material is `Option<Material>`; `Server.HandleList` ensures it is present in a well-formed store.
- Request-body validation is not modelled. Missing or non-numeric `material_id`, `quantidade` or `necessidade`, and the database's treatment of an absent field in the update branch, are left out because the inputs are integers here.
- The full material listing (`/materiais/lista`, backend/server.ts:76-79) is left out. It returns the catalogue unchanged.
- JSON serialisation of the cached report is left out. The cache holds the report value itself.
- The demo seed (backend/server.ts:158-182), server start-up and the front-end pages and API client are left out. They have no ledger or report logic.
- JavaScript numbers are floating point. They are modelled as unbounded integers.
