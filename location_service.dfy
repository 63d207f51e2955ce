/** Listing, viewing, editing and deleting locations, and the staff of a location.
    The listing is gated by the caller's role as stored in the user table. */
module LocationService {
  import opened Schema
  import Database
  import BrandService

  /** The optional fields of an edit request that the model keeps; each may be
      missing, null or a value. */
  datatype LocationPatch = LocationPatch(name: Field<string>, brandId: Field<int>, managerId: Field<int>)

  // ---- Listing and viewing -------------------------------------------------

  /** Locations whose brand is owned by `owner`. */
  function OwnerLocations(s: Snapshot, owner: int): (ls: set<int>)
    ensures ls == LocationsOfBrands(s, OwnedBrands(s, owner))
  {
    set l | l in s.locations && s.locations[l].brandId in s.brands &&
            s.brands[s.locations[l].brandId].ownerId == owner
  }

  /** findAll: the caller is looked up by id. No row is NotFound, except for the
      token-only administrator; stored staff and managers are refused; stored owners
      see the locations of their brands; everyone else sees every location. */
  function FindAll(s: Snapshot, userId: int): (r: Result<set<int>>)
    ensures userId !in s.users && userId != AdminId ==> r == Err(NotFound)
    ensures userId in s.users && (s.users[userId].role == Staff || s.users[userId].role == Manager) ==>
      r == Err(Forbidden)
    ensures userId in s.users && s.users[userId].role == Owner ==>
      r.Ok? && forall l :: l in r.value <==>
        l in s.locations && s.locations[l].brandId in s.brands &&
        s.brands[s.locations[l].brandId].ownerId == userId
    ensures (userId in s.users && s.users[userId].role == SuperAdmin) || (userId !in s.users && userId == AdminId) ==>
      r == Ok(s.locations.Keys)
    ensures r.Ok? ==> r.value <= s.locations.Keys
  {
    if userId !in s.users && userId != AdminId then Err(NotFound)
    else if userId in s.users && (s.users[userId].role == Staff || s.users[userId].role == Manager) then
      Err(Forbidden)
    else if userId in s.users && s.users[userId].role == Owner then Ok(OwnerLocations(s, userId))
    else Ok(s.locations.Keys)
  }

  /** An owner's location listing is exactly the locations of the brands its brand
      listing shows. */
  lemma OwnerListingsAgree(s: Snapshot, o: int)
    requires o in s.users && s.users[o].role == Owner
    ensures FindAll(s, o) == Ok(LocationsOfBrands(s, BrandService.FindAll(s, Caller(o, Owner))))
  {
    assert OwnerLocations(s, o) == LocationsOfBrands(s, OwnedBrands(s, o));
  }

  function FindOne(s: Snapshot, id: int): (r: Result<Location>)
    ensures r.Err? <==> id !in s.locations
    ensures r.Err? ==> r.error == NotFound
    ensures r.Ok? ==> r.value == s.locations[id]
  {
    if id !in s.locations then Err(NotFound) else Ok(s.locations[id])
  }

  /** findByBrand: the locations of one brand; an unknown brand simply has none. */
  function FindByBrand(s: Snapshot, brandId: int): (ls: set<int>)
    ensures forall l :: l in ls <==> l in s.locations && s.locations[l].brandId == brandId
  {
    set l | l in s.locations && s.locations[l].brandId == brandId
  }

  /** An owner's location listing is the union of the per-brand listings of its brands. */
  lemma OwnerListingIsUnionOfBrands(s: Snapshot, o: int, l: int)
    requires o in s.users && s.users[o].role == Owner
    ensures l in FindAll(s, o).value <==> exists b :: b in OwnedBrands(s, o) && l in FindByBrand(s, b)
  {
    if l in FindAll(s, o).value {
      assert s.locations[l].brandId in OwnedBrands(s, o);
    }
  }

  /** The LocationStaff rows of one location. */
  function RowsAt(s: Snapshot, id: int): set<StaffRow> {
    set r | r in s.staff && r.locationId == id
  }

  /** findLocationUsers: the staff member of each LocationStaff row of the location. */
  function FindLocationUsers(s: Snapshot, id: int): (r: Result<set<int>>)
    ensures r.Err? <==> id !in s.locations
    ensures r.Err? ==> r.error == NotFound
    ensures r.Ok? ==> forall u :: u in r.value <==> StaffRow(id, u) in s.staff
  {
    if id !in s.locations then Err(NotFound)
    else
      var us := set row | row in RowsAt(s, id) :: row.staffId;
      assert forall u :: StaffRow(id, u) in s.staff ==> StaffRow(id, u) in RowsAt(s, id);
      Ok(us)
  }

  /** The staff ids of rows that all share one location are as many as the rows. */
  lemma {:induction false} StaffIdsCount(rows: set<StaffRow>, id: int)
    requires forall r :: r in rows ==> r.locationId == id
    ensures |set r | r in rows :: r.staffId| == |rows|
    decreases |rows|
  {
    if rows != {} {
      var r :| r in rows;
      var rest := rows - {r};
      StaffIdsCount(rest, id);
      var ids := set x | x in rows :: x.staffId;
      var restIds := set x | x in rest :: x.staffId;
      assert r.staffId !in restIds;
      assert ids == restIds + {r.staffId};
    }
  }

  /** One staff user per LocationStaff row of the location, and under the foreign
      keys every one of them is an existing user. */
  lemma FindLocationUsersOnePerRow(s: Snapshot, id: int)
    requires id in s.locations
    ensures |FindLocationUsers(s, id).value| == |RowsAt(s, id)|
    ensures Valid(s) ==> FindLocationUsers(s, id).value <= s.users.Keys
  {
    StaffIdsCount(RowsAt(s, id), id);
  }

  // ---- Update and remove ---------------------------------------------------

  /** The row after the ORM writes the present fields: a null name or manager is
      stored as NULL; a missing field keeps its column. */
  function ApplyLocationPatch(l: Location, p: LocationPatch): (l': Location)
    requires p.brandId != Null
    ensures p.name == Absent ==> l'.name == l.name
    ensures p.name != Absent ==> l'.name == Written(p.name)
    ensures l'.brandId == if p.brandId.Set? then p.brandId.value else l.brandId
    ensures p.managerId == Absent ==> l'.managerId == l.managerId
    ensures p.managerId != Absent ==> l'.managerId == Written(p.managerId)
  {
    Location(if p.name != Absent then Written(p.name) else l.name,
             if p.brandId.Set? then p.brandId.value else l.brandId,
             if p.managerId != Absent then Written(p.managerId) else l.managerId)
  }

  /** A patch the database accepts: the brand is required, so it cannot be set to
      null, and the brand and manager it names must exist. */
  predicate PatchAccepted(s: Snapshot, p: LocationPatch) {
    && p.brandId != Null
    && (p.brandId.Set? ==> p.brandId.value in s.brands)
    && (p.managerId.Set? ==> p.managerId.value in s.users)
  }

  /** update: any database failure (missing location, a null brand, a brand or
      manager id without a row) becomes NotFound. Neither role nor ownership is
      checked. */
  function UpdateStep(s: Snapshot, id: int, p: LocationPatch): (t: Transition<Location>)
    ensures t.result.Ok? <==> id in s.locations && PatchAccepted(s, p)
    ensures t.result.Err? ==> t.result.error == NotFound && t.next == s
    ensures t.result.Ok? ==>
      t.result.value == ApplyLocationPatch(s.locations[id], p) &&
      t.next == s.(locations := s.locations[id := t.result.value])
  {
    if id !in s.locations || !PatchAccepted(s, p) then Transition(Err(NotFound), s)
    else
      var l := ApplyLocationPatch(s.locations[id], p);
      Transition(Ok(l), s.(locations := s.locations[id := l]))
  }

  lemma UpdatePreservesValid(s: Snapshot, id: int, p: LocationPatch)
    requires Valid(s)
    ensures Valid(UpdateStep(s, id, p).next)
  {
  }

  /** remove: a missing location, or one that staff rows still refer to, becomes
      NotFound. */
  function RemoveStep(s: Snapshot, id: int): (t: Transition<Location>)
    ensures t.result.Ok? <==> id in s.locations && !LocationReferenced(s, id)
    ensures t.result.Err? ==> t.result.error == NotFound && t.next == s
    ensures t.result.Ok? ==>
      t.result.value == s.locations[id] && t.next == s.(locations := s.locations - {id})
  {
    if id !in s.locations || LocationReferenced(s, id) then Transition(Err(NotFound), s)
    else Transition(Ok(s.locations[id]), s.(locations := s.locations - {id}))
  }

  lemma RemovePreservesValid(s: Snapshot, id: int)
    requires Valid(s)
    ensures Valid(RemoveStep(s, id).next)
  {
    var t := RemoveStep(s, id);
    if t.result.Ok? {
      forall r | r in t.next.staff ensures r.locationId in t.next.locations {
        assert r.locationId != id;
      }
    }
  }

  // ---- The service operations that change the store ------------------------

  method Update(db: Database.Store, id: int, p: LocationPatch) returns (r: Result<Location>)
    requires db.Valid()
    modifies db
    ensures db.Valid()
    ensures var t := UpdateStep(old(db.Snap()), id, p); r == t.result && db.Snap() == t.next
    ensures db.nextUserId == old(db.nextUserId) && db.nextBrandId == old(db.nextBrandId)
  {
    UpdatePreservesValid(db.Snap(), id, p);
    if id !in db.locations || !PatchAccepted(db.Snap(), p) {
      return Err(NotFound);
    }
    var l := ApplyLocationPatch(db.locations[id], p);
    db.locations := db.locations[id := l];
    r := Ok(l);
  }

  method Remove(db: Database.Store, id: int) returns (r: Result<Location>)
    requires db.Valid()
    modifies db
    ensures db.Valid()
    ensures var t := RemoveStep(old(db.Snap()), id); r == t.result && db.Snap() == t.next
    ensures db.nextUserId == old(db.nextUserId) && db.nextBrandId == old(db.nextBrandId)
  {
    RemovePreservesValid(db.Snap(), id);
    if id !in db.locations || LocationReferenced(db.Snap(), id) {
      return Err(NotFound);
    }
    r := Ok(db.locations[id]);
    db.locations := db.locations - {id};
  }
}
