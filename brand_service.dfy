/** Creating, listing, viewing, editing and deleting brands. Listing is scoped by
    role along the ownership chain; editing and deleting check the role only. */
module BrandService {
  import opened Schema
  import Database

  datatype CreateBrandDto = CreateBrandDto(name: string, ownerId: int)

  /** A brand row together with its autoincremented id. */
  datatype BrandRow = BrandRow(id: int, brand: Brand)

  /** The optional fields of an edit request; each may be missing, null or a value. */
  datatype BrandPatch = BrandPatch(name: Field<string>, ownerId: Field<int>)

  // ---- Create --------------------------------------------------------------

  /** Who will own a new brand: only owners and the super admin may create one; the
      super admin may name the owner (any non-zero id), everyone else owns it. */
  function NewBrandOwner(c: Caller, dto: CreateBrandDto): (r: Result<int>)
    ensures r.Err? <==> c.role != Owner && c.role != SuperAdmin
    ensures r.Err? ==> r.error == Forbidden
    ensures r.Ok? && c.role == SuperAdmin && dto.ownerId != 0 ==> r.value == dto.ownerId
    ensures r.Ok? && c.role == Owner ==> r.value == c.id
    ensures r.Ok? && !(c.role == SuperAdmin && dto.ownerId != 0) ==> r.value == c.id
    ensures r.Ok? ==> r.value == c.id || r.value == dto.ownerId
  {
    if c.role != Owner && c.role != SuperAdmin then Err(Forbidden)
    else if c.role == SuperAdmin && dto.ownerId != 0 then Ok(dto.ownerId)
    else Ok(c.id)
  }

  /** create: the row is inserted under the next id; an owner id without a user row
      violates the foreign key, an error the service does not catch. */
  function CreateStep(s: Snapshot, c: Caller, dto: CreateBrandDto, newId: int): (t: Transition<BrandRow>)
    requires newId !in s.brands
    ensures t.result.Err? ==> t.next == s
    ensures t.result.Ok? <==> NewBrandOwner(c, dto).Ok? && NewBrandOwner(c, dto).value in s.users
    ensures NewBrandOwner(c, dto).Err? ==> t.result == Err(Forbidden)
    ensures NewBrandOwner(c, dto).Ok? && NewBrandOwner(c, dto).value !in s.users ==>
      t.result == Err(Unhandled)
    ensures t.result.Ok? ==>
      && NewBrandOwner(c, dto).Ok?
      && t.result.value == BrandRow(newId, Brand(dto.name, NewBrandOwner(c, dto).value))
      && t.result.value.brand.ownerId in s.users
      && t.next == s.(brands := s.brands[newId := t.result.value.brand])
  {
    match NewBrandOwner(c, dto)
    case Err(e) => Transition(Err(e), s)
    case Ok(owner) =>
      if owner !in s.users then Transition(Err(Unhandled), s)
      else
        var brand := Brand(dto.name, owner);
        Transition(Ok(BrandRow(newId, brand)), s.(brands := s.brands[newId := brand]))
  }

  /** An owner who names somebody else as owner still gets the brand. */
  lemma OwnerCannotCreateForOthers(s: Snapshot, o: int, dto: CreateBrandDto, newId: int)
    requires newId !in s.brands && o in s.users
    ensures CreateStep(s, Caller(o, Owner), dto, newId).result.Ok?
    ensures CreateStep(s, Caller(o, Owner), dto, newId).result.value.brand.ownerId == o
  {
  }

  lemma CreatePreservesValid(s: Snapshot, c: Caller, dto: CreateBrandDto, newId: int)
    requires Valid(s) && newId !in s.brands
    ensures Valid(CreateStep(s, c, dto, newId).next)
  {
  }

  // ---- Listing and viewing -------------------------------------------------

  /** The ids of the brands the caller may list. */
  function FindAll(s: Snapshot, c: Caller): (bs: set<int>)
    ensures bs <= s.brands.Keys
    ensures c.role == SuperAdmin ==> bs == s.brands.Keys
    ensures c.role == Owner ==> forall b :: b in bs <==> b in s.brands && s.brands[b].ownerId == c.id
  {
    match c.role
    case SuperAdmin => s.brands.Keys
    case Owner => OwnedBrands(s, c.id)
    case Staff =>
      var staffBrands := BrandsOf(s, StaffLocations(s, c.id));
      set b | b in s.brands && b in staffBrands
    case Manager =>
      var managedBrands := BrandsOf(s, ManagedLocations(s, c.id));
      set b | b in s.brands && b in managedBrands
  }

  /** A staff member lists exactly the brands of the locations it works at, and a
      manager exactly those of the locations it manages. */
  lemma FindAllAlongChain(s: Snapshot, c: Caller, b: int)
    ensures c.role == Staff ==>
      (b in FindAll(s, c) <==>
       b in s.brands && exists l :: StaffRow(l, c.id) in s.staff && l in s.locations && s.locations[l].brandId == b)
    ensures c.role == Manager ==>
      (b in FindAll(s, c) <==>
       b in s.brands && exists l :: l in ManagedLocations(s, c.id) && s.locations[l].brandId == b)
  {
  }

  /** Whatever the caller lists, a super admin lists too. */
  lemma SuperAdminSeesEverything(s: Snapshot, c: Caller, id: int)
    ensures FindAll(s, c) <= FindAll(s, Caller(id, SuperAdmin))
  {
  }

  function FindOne(s: Snapshot, id: int): (r: Result<Brand>)
    ensures r.Err? <==> id !in s.brands
    ensures r.Err? ==> r.error == NotFound
    ensures r.Ok? ==> r.value == s.brands[id]
  {
    if id !in s.brands then Err(NotFound) else Ok(s.brands[id])
  }

  // ---- Update and remove ---------------------------------------------------

  /** The row after the ORM writes the fields that are set; a missing one keeps its
      column. */
  function ApplyBrandPatch(b: Brand, p: BrandPatch): (b': Brand)
    ensures b'.name == if p.name.Set? then p.name.value else b.name
    ensures b'.ownerId == if p.ownerId.Set? then p.ownerId.value else b.ownerId
  {
    Brand(if p.name.Set? then p.name.value else b.name,
          if p.ownerId.Set? then p.ownerId.value else b.ownerId)
  }

  /** A patch the database accepts: both columns are required, so neither may be
      null, and a new owner must exist. */
  predicate PatchAccepted(s: Snapshot, p: BrandPatch) {
    p.name != Null && p.ownerId != Null && (p.ownerId.Set? ==> p.ownerId.value in s.users)
  }

  /** update: owners only, and the caller's ownership of the brand is not checked;
      every database failure (missing brand, a null column, an owner id without a
      user row) is reported as NotFound. */
  function UpdateStep(s: Snapshot, role: Role, id: int, p: BrandPatch): (t: Transition<Brand>)
    ensures role != Owner ==> t.result == Err(Forbidden)
    ensures t.result.Err? ==> t.next == s
    ensures t.result.Ok? <==>
      role == Owner && id in s.brands && PatchAccepted(s, p)
    ensures role == Owner && t.result.Err? ==> t.result.error == NotFound
    ensures t.result.Ok? ==>
      && t.result.value == ApplyBrandPatch(s.brands[id], p)
      && t.next == s.(brands := s.brands[id := t.result.value])
  {
    if role != Owner then Transition(Err(Forbidden), s)
    else if id !in s.brands then Transition(Err(NotFound), s)
    else if !PatchAccepted(s, p) then Transition(Err(NotFound), s)
    else
      var b := ApplyBrandPatch(s.brands[id], p);
      Transition(Ok(b), s.(brands := s.brands[id := b]))
  }

  /** Any owner may edit any brand, owned by itself or not, and may even hand it to
      another user; the super admin may not. */
  lemma UpdateChecksRoleOnly(s: Snapshot, o: int, id: int, p: BrandPatch)
    requires id in s.brands && s.brands[id].ownerId != o && p.name != Null && p.ownerId == Set(o) && o in s.users
    ensures UpdateStep(s, Owner, id, p).result.Ok?
    ensures UpdateStep(s, Owner, id, p).next.brands[id].ownerId == o
    ensures UpdateStep(s, SuperAdmin, id, p).result == Err(Forbidden)
  {
  }

  lemma UpdatePreservesValid(s: Snapshot, role: Role, id: int, p: BrandPatch)
    requires Valid(s)
    ensures Valid(UpdateStep(s, role, id, p).next)
  {
  }

  /** remove: owners only, ownership not checked; a missing brand, or one that
      locations still refer to, is reported as NotFound. */
  function RemoveStep(s: Snapshot, role: Role, id: int): (t: Transition<Brand>)
    ensures role != Owner ==> t.result == Err(Forbidden)
    ensures t.result.Err? ==> t.next == s
    ensures t.result.Ok? <==> role == Owner && id in s.brands && !BrandReferenced(s, id)
    ensures role == Owner && t.result.Err? ==> t.result.error == NotFound
    ensures t.result.Ok? ==> t.result.value == s.brands[id] && t.next == s.(brands := s.brands - {id})
  {
    if role != Owner then Transition(Err(Forbidden), s)
    else if id !in s.brands || BrandReferenced(s, id) then Transition(Err(NotFound), s)
    else Transition(Ok(s.brands[id]), s.(brands := s.brands - {id}))
  }

  lemma RemovePreservesValid(s: Snapshot, role: Role, id: int)
    requires Valid(s)
    ensures Valid(RemoveStep(s, role, id).next)
  {
    var t := RemoveStep(s, role, id);
    if t.result.Ok? {
      forall l | l in t.next.locations ensures t.next.locations[l].brandId in t.next.brands {
        assert s.locations[l].brandId != id;
      }
    }
  }

  // ---- The service operations that change the store ------------------------

  method Create(db: Database.Store, c: Caller, dto: CreateBrandDto) returns (r: Result<BrandRow>)
    requires db.Valid()
    modifies db
    ensures db.Valid()
    ensures var t := CreateStep(old(db.Snap()), c, dto, old(db.nextBrandId));
      r == t.result && db.Snap() == t.next
    ensures db.nextUserId == old(db.nextUserId)
    ensures db.nextBrandId ==
      if r.Ok? || r == Err(Unhandled) then old(db.nextBrandId) + 1 else old(db.nextBrandId)
  {
    CreatePreservesValid(db.Snap(), c, dto, db.nextBrandId);
    var owner := NewBrandOwner(c, dto);
    if owner.Err? {
      return Err(owner.error);
    }
    var id := db.nextBrandId;
    db.nextBrandId := id + 1;
    if owner.value !in db.users {
      return Err(Unhandled);
    }
    var brand := Brand(dto.name, owner.value);
    db.brands := db.brands[id := brand];
    r := Ok(BrandRow(id, brand));
  }

  method Update(db: Database.Store, role: Role, id: int, p: BrandPatch) returns (r: Result<Brand>)
    requires db.Valid()
    modifies db
    ensures db.Valid()
    ensures var t := UpdateStep(old(db.Snap()), role, id, p); r == t.result && db.Snap() == t.next
    ensures db.nextUserId == old(db.nextUserId) && db.nextBrandId == old(db.nextBrandId)
  {
    UpdatePreservesValid(db.Snap(), role, id, p);
    if role != Owner {
      return Err(Forbidden);
    }
    if id !in db.brands || !PatchAccepted(db.Snap(), p) {
      return Err(NotFound);
    }
    var b := ApplyBrandPatch(db.brands[id], p);
    db.brands := db.brands[id := b];
    r := Ok(b);
  }

  method Remove(db: Database.Store, role: Role, id: int) returns (r: Result<Brand>)
    requires db.Valid()
    modifies db
    ensures db.Valid()
    ensures var t := RemoveStep(old(db.Snap()), role, id); r == t.result && db.Snap() == t.next
    ensures db.nextUserId == old(db.nextUserId) && db.nextBrandId == old(db.nextBrandId)
  {
    RemovePreservesValid(db.Snap(), role, id);
    if role != Owner {
      return Err(Forbidden);
    }
    if id !in db.brands || BrandReferenced(db.Snap(), id) {
      return Err(NotFound);
    }
    r := Ok(db.brands[id]);
    db.brands := db.brands - {id};
  }
}
