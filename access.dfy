/**
  Who may see which VPS rows. An admin sees and acts on every row; anyone
  else sees only the rows they own, and a row they do not own is reported
  exactly as a row that does not exist.
 */
module Access {
  import opened Schema

  /** The already-authenticated caller, as carried by its token. */
  datatype Principal = Principal(username: string, role: string)

  /** The `isAdmin` gate: the role must be exactly `admin`. */
  predicate IsAdmin(p: Principal)
  {
    p.role == "admin"
  }

  /** The row is in the caller's view of the table. */
  predicate CanSee(p: Principal, r: Vps)
  {
    IsAdmin(p) || r.owner == p.username
  }

  /** The rows the list route returns: the whole table for an admin, else
      the rows whose owner is the caller, each exactly as stored. */
  function ListFor(p: Principal, vps: map<int, Vps>): (rows: map<int, Vps>)
    ensures IsAdmin(p) ==> rows == vps
    ensures !IsAdmin(p) ==> forall id :: id in rows <==> id in vps && vps[id].owner == p.username
    ensures forall id :: id in rows ==> id in vps && rows[id] == vps[id]
  {
    map id | id in vps && CanSee(p, vps[id]) :: vps[id]
  }

  /** The single-row lookup of the per-VPS routes: `WHERE id = ?` for an
      admin, `WHERE id = ? AND owner = ?` for anyone else. */
  function Lookup(p: Principal, vps: map<int, Vps>, id: int): (r: Option<Vps>)
    ensures r.Some? <==> id in vps && (IsAdmin(p) || vps[id].owner == p.username)
    ensures r.Some? ==> r.value == vps[id]
  {
    if id in vps && CanSee(p, vps[id]) then Some(vps[id]) else None
  }

  /** For a non-admin, a row owned by someone else looks the same as no row:
      the lookup answers as it would if the row were deleted, and the list
      answers as if it were not there. */
  lemma HiddenRowLooksMissing(p: Principal, vps: map<int, Vps>, id: int)
    requires !IsAdmin(p)
    requires id in vps && vps[id].owner != p.username
    ensures Lookup(p, vps, id) == Lookup(p, vps - {id}, id) == None
    ensures ListFor(p, vps) == ListFor(p, vps - {id})
  {
    var a, b := ListFor(p, vps), ListFor(p, vps - {id});
    forall k ensures k in a <==> k in b {}
    assert a.Keys == b.Keys;
  }

  /** The list route and the per-VPS lookup agree on what the caller can see. */
  lemma ListAgreesWithLookup(p: Principal, vps: map<int, Vps>, id: int)
    ensures Lookup(p, vps, id).Some? <==> id in ListFor(p, vps)
    ensures id in ListFor(p, vps) ==> Lookup(p, vps, id) == Some(ListFor(p, vps)[id])
  {
  }
}
