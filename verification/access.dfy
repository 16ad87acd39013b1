/**
 Verified token claims and the role guard that runs before the report
 endpoint. Token signing and verification are outside the model: a handler
 receives the claims the token carried.
 */
module Access {
  import opened Wrappers
  import opened Ledger

  /** The two roles a user can hold. */
  datatype Role = ADMIN | SETOR

  /** What a verified token asserts about its bearer; `setorId` is null for an admin. */
  datatype Claims = Claims(id: int, role: Role, setorId: Option<SectorId>)

  datatype Verdict = Allowed | Forbidden

  /**
   The sector the caller acts for. A missing id and the id 0 are both falsy
   in the source's `!setor_id` test, so both mean "no sector".
   */
  function CallerSector(c: Claims): (r: Option<SectorId>)
    ensures r.Some? ==> r == c.setorId && r.value != 0
    ensures r.None? ==> c.setorId.None? || c.setorId.value == 0
  {
    match c.setorId
    case None => None
    case Some(sid) => if sid == 0 then None else Some(sid)
  }

  /** The role guard: let the request through only when the caller's role is listed. */
  function Authorize(roles: seq<Role>, c: Claims): (v: Verdict)
  {
    if c.role in roles then Allowed else Forbidden
  }

  /** The guard fails closed: it admits exactly the listed roles. */
  lemma AuthorizeExactlyListed(roles: seq<Role>, c: Claims)
    ensures Authorize(roles, c) == Allowed <==> exists i :: 0 <= i < |roles| && roles[i] == c.role
  {
    if c.role in roles {
      var i :| 0 <= i < |roles| && roles[i] == c.role;
    }
  }

  /** The report endpoint's guard admits administrators and nobody else. */
  lemma AdminGuard(c: Claims)
    ensures Authorize([ADMIN], c) == Allowed <==> c.role == ADMIN
    ensures Authorize([ADMIN], c) == Forbidden <==> c.role == SETOR
  {
  }
}
