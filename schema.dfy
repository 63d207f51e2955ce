/** The relational store behind the services, as a value: the four tables the
    access-control layer reads and writes, the database constraints they obey,
    and the walks over the ownership chain owner -> brand -> location -> staff. */
module Schema {

  /** The closed set of user roles. */
  datatype Role = SuperAdmin | Owner | Manager | Staff

  /** How a service call fails. Forbidden and NotFound are the two exceptions the
      services raise on purpose; Unhandled stands for an exception the service does
      not catch (a violated database constraint, a missing relation it dereferences). */
  datatype Error = Forbidden | NotFound | Unhandled

  datatype Result<T> = Ok(value: T) | Err(error: Error)

  datatype Option<T> = None | Some(value: T)

  /** JavaScript truthiness of an optional string: present and non-empty. */
  predicate Truthy(o: Option<string>) {
    o.Some? && o.value != ""
  }

  /** One optional field of a JSON request body. The validation pipe lets `null`
      through an optional field, and the ORM then writes NULL, so a missing field
      and a null one differ. */
  datatype Field<T> = Absent | Null | Set(value: T)

  /** JavaScript truthiness of an optional string field: set and non-empty. */
  predicate TruthyField(f: Field<string>) {
    f.Set? && f.value != ""
  }

  /** The column value a present field writes. */
  function Written<T>(f: Field<T>): (o: Option<T>)
    requires f != Absent
    ensures o.Some? <==> f.Set?
    ensures o.Some? ==> o.value == f.value
  {
    if f.Set? then Some(f.value) else None
  }

  /** The identity an access token carries: its subject and its role claim. */
  datatype Caller = Caller(id: int, role: Role)

  /** The subject of the tokens issued for the configured administrator, who has no
      user row. */
  const AdminId: int := -1

  datatype Profile = Profile(firstName: string, lastName: string, phoneNumber: Option<string>)

  /** A user row; `password` and `refreshToken` hold hashes, which stay opaque here. */
  datatype User = User(email: string, password: string, role: Role,
                       refreshToken: Option<string>, profile: Option<Profile>)

  datatype Brand = Brand(name: string, ownerId: int)

  datatype Location = Location(name: Option<string>, brandId: int, managerId: Option<int>)

  /** A LocationStaff row: `staffId` works at `locationId`. */
  datatype StaffRow = StaffRow(locationId: int, staffId: int)

  /** One consistent snapshot of the tables, keyed by primary key. */
  datatype Snapshot = Snapshot(users: map<int, User>, brands: map<int, Brand>,
                               locations: map<int, Location>, staff: set<StaffRow>)

  /** A service call's answer together with the store it leaves behind. */
  datatype Transition<T> = Transition(result: Result<T>, next: Snapshot)

  /** Ids are autoincremented from 1, so the administrator's id -1 is never a key. */
  ghost predicate PositiveIds(s: Snapshot) {
    forall id :: id in s.users ==> id > 0
  }

  /** Users are looked up by email with a unique lookup: emails are unique. */
  ghost predicate UniqueEmails(s: Snapshot) {
    forall a, b :: a in s.users && b in s.users && s.users[a].email == s.users[b].email ==> a == b
  }

  /** Every foreign key refers to an existing row. */
  ghost predicate ForeignKeys(s: Snapshot) {
    && (forall b :: b in s.brands ==> s.brands[b].ownerId in s.users)
    && (forall l :: l in s.locations ==> s.locations[l].brandId in s.brands)
    && (forall l :: l in s.locations && s.locations[l].managerId.Some? ==>
          s.locations[l].managerId.value in s.users)
    && (forall r :: r in s.staff ==> r.locationId in s.locations && r.staffId in s.users)
  }

  ghost predicate Valid(s: Snapshot) {
    PositiveIds(s) && UniqueEmails(s) && ForeignKeys(s)
  }

  /** The database rejects deleting a row that a required relation still refers to
      (the ORM's default, Restrict): a user that owns a brand or has a staff row. */
  predicate UserReferenced(s: Snapshot, id: int) {
    || (exists b :: b in s.brands && s.brands[b].ownerId == id)
    || (exists r :: r in s.staff && r.staffId == id)
  }

  /** The optional manager relation takes the ORM's default, SetNull: deleting a
      user clears the manager of every location it managed. */
  function ClearManager(locations: map<int, Location>, id: int): (ls: map<int, Location>)
    ensures ls.Keys == locations.Keys
    ensures forall l :: l in ls ==>
      && ls[l].managerId != Some(id)
      && ls[l].name == locations[l].name && ls[l].brandId == locations[l].brandId
      && (locations[l].managerId != Some(id) ==> ls[l] == locations[l])
    ensures forall l :: l in locations && locations[l].managerId == Some(id) ==> ls[l].managerId == None
  {
    map l | l in locations :: if locations[l].managerId == Some(id) then locations[l].(managerId := None) else locations[l]
  }

  predicate BrandReferenced(s: Snapshot, id: int) {
    exists l :: l in s.locations && s.locations[l].brandId == id
  }

  predicate LocationReferenced(s: Snapshot, id: int) {
    exists r :: r in s.staff && r.locationId == id
  }

  predicate EmailTaken(s: Snapshot, email: string) {
    exists id :: id in s.users && s.users[id].email == email
  }

  // ---- Walks over the ownership chain ------------------------------------

  /** Ids of the brands `owner` owns. */
  function OwnedBrands(s: Snapshot, owner: int): (bs: set<int>)
    ensures forall b :: b in bs <==> b in s.brands && s.brands[b].ownerId == owner
  {
    set b | b in s.brands && s.brands[b].ownerId == owner
  }

  /** Ids of the locations that belong to one of the brands `bs`. */
  function LocationsOfBrands(s: Snapshot, bs: set<int>): (ls: set<int>)
    ensures forall l :: l in ls <==> l in s.locations && s.locations[l].brandId in bs
  {
    set l | l in s.locations && s.locations[l].brandId in bs
  }

  /** Ids of the locations `manager` manages. */
  function ManagedLocations(s: Snapshot, manager: int): (ls: set<int>)
    ensures forall l :: l in ls <==> l in s.locations && s.locations[l].managerId == Some(manager)
  {
    set l | l in s.locations && s.locations[l].managerId == Some(manager)
  }

  /** Ids of the locations where `user` has a LocationStaff row. */
  function StaffLocations(s: Snapshot, user: int): (ls: set<int>)
    ensures forall l :: l in ls <==> StaffRow(l, user) in s.staff
  {
    set r | r in s.staff && r.staffId == user :: r.locationId
  }

  /** Ids of the users with a LocationStaff row at one of the locations `ls`. */
  function StaffAt(s: Snapshot, ls: set<int>): (us: set<int>)
    ensures forall u :: u in us <==> exists l :: l in ls && StaffRow(l, u) in s.staff
  {
    var us := set r | r in s.staff && r.locationId in ls :: r.staffId;
    assert forall u, l :: l in ls && StaffRow(l, u) in s.staff ==> u in us by {
      forall u, l | l in ls && StaffRow(l, u) in s.staff ensures u in us {
        var r := StaffRow(l, u);
        assert r in s.staff && r.locationId in ls;
      }
    }
    us
  }

  /** Ids of the brands the existing locations among `ls` belong to. */
  function BrandsOf(s: Snapshot, ls: set<int>): (bs: set<int>)
    ensures forall b :: b in bs <==> exists l :: l in ls && l in s.locations && s.locations[l].brandId == b
  {
    set l | l in ls && l in s.locations :: s.locations[l].brandId
  }
}
