/** Listing, viewing, editing and deleting users, and attaching users to brands
    and locations, with the role and ownership-chain checks that guard each. */
module UserService {
  import opened Schema
  import Database

  // ---- Listing and viewing -------------------------------------------------

  /** The optional `role` query parameter of the listing. */
  predicate RoleMatches(filter: Option<Role>, r: Role) {
    filter.None? || filter.value == r
  }

  /** The ids of the users the caller may list, within the role filter. An owner's
      query is assembled as the source assembles it: owned brands, their locations,
      the staff rows of those locations, plus managers of a location of an owned
      brand, plus the caller. */
  function FindAll(s: Snapshot, c: Caller, filter: Option<Role>): (ids: set<int>)
    ensures forall u :: u in ids ==> u in s.users && RoleMatches(filter, s.users[u].role)
    ensures c.role == SuperAdmin ==>
      forall u :: u in s.users && RoleMatches(filter, s.users[u].role) ==> u in ids
    ensures c.role == Staff ==> ids <= {c.id}
    ensures c.id in s.users && RoleMatches(filter, s.users[c.id].role) ==> c.id in ids
  {
    match c.role
    case SuperAdmin =>
      set u | u in s.users && RoleMatches(filter, s.users[u].role)
    case Owner =>
      var brandIds := OwnedBrands(s, c.id);
      var locationIds := LocationsOfBrands(s, brandIds);
      var staffIds := StaffAt(s, locationIds);
      set u | u in s.users && RoleMatches(filter, s.users[u].role) &&
                (|| u in staffIds
                 || (exists l :: l in ManagedLocations(s, u) && s.locations[l].brandId in brandIds)
                 || u == c.id)
    case Manager =>
      var staffIds := StaffAt(s, ManagedLocations(s, c.id));
      set u | u in s.users && RoleMatches(filter, s.users[u].role) && (u in staffIds || u == c.id)
    case Staff =>
      set u | u in s.users && RoleMatches(filter, s.users[u].role) && u == c.id
  }

  /** The brands a user belongs to: those of the locations it staffs and of the
      locations it manages. */
  function UserBrands(s: Snapshot, u: int): (bs: set<int>)
    ensures forall b :: b in bs <==>
      exists l :: l in s.locations && s.locations[l].brandId == b &&
                  (StaffRow(l, u) in s.staff || s.locations[l].managerId == Some(u))
  {
    BrandsOf(s, StaffLocations(s, u)) + BrandsOf(s, ManagedLocations(s, u))
  }

  /** One user, if the caller may see it. */
  function FindOne(s: Snapshot, id: int, c: Caller): (r: Result<User>)
    ensures id !in s.users ==> r == Err(NotFound)
    ensures r.Ok? ==> id in s.users && r.value == s.users[id]
    ensures r.Err? ==> r.error == NotFound || r.error == Forbidden
    ensures id in s.users && (id == c.id || c.role == SuperAdmin) ==> r.Ok?
    ensures id in s.users && r.Err? ==> r.error == Forbidden
  {
    if id !in s.users then Err(NotFound)
    else
      var user := s.users[id];
      match c.role
      case SuperAdmin => Ok(user)
      case Owner =>
        if UserBrands(s, id) * OwnedBrands(s, c.id) != {} || id == c.id then Ok(user)
        else Err(Forbidden)
      case Manager =>
        if StaffLocations(s, id) * ManagedLocations(s, c.id) != {} || id == c.id then Ok(user)
        else Err(Forbidden)
      case Staff =>
        if id != c.id then Err(Forbidden) else Ok(user)
  }

  /** The permission check that guards an update: self and the super admin pass
      before the target is even looked up. */
  function CheckUserAccessPermission(s: Snapshot, target: int, c: Caller): (r: Result<()>)
    ensures target == c.id || c.role == SuperAdmin ==> r.Ok?
    ensures target != c.id && c.role != SuperAdmin && target !in s.users ==> r == Err(NotFound)
    ensures target != c.id && c.role == Staff ==> r.Err?
    ensures r.Err? ==> r.error == NotFound || r.error == Forbidden
    ensures target in s.users && r.Err? ==> r.error == Forbidden
  {
    if target == c.id || c.role == SuperAdmin then Ok(())
    else if target !in s.users then Err(NotFound)
    else match c.role
      case Owner =>
        if UserBrands(s, target) * OwnedBrands(s, c.id) == {} then Err(Forbidden) else Ok(())
      case Manager =>
        if StaffLocations(s, target) * ManagedLocations(s, c.id) == {} then Err(Forbidden) else Ok(())
      case _ => Err(Forbidden)
  }

  /** `u` is reachable from owner `o`: it staffs or manages a location of a brand `o` owns. */
  ghost predicate InOwnerChain(s: Snapshot, o: int, u: int) {
    exists l :: l in s.locations && s.locations[l].brandId in s.brands
      && s.brands[s.locations[l].brandId].ownerId == o
      && (StaffRow(l, u) in s.staff || s.locations[l].managerId == Some(u))
  }

  /** `u` staffs a location that `m` manages. */
  ghost predicate InManagerChain(s: Snapshot, m: int, u: int) {
    exists l :: l in s.locations && s.locations[l].managerId == Some(m) && StaffRow(l, u) in s.staff
  }

  /** An owner sees an existing user exactly when it is the owner or is reachable
      along the ownership chain. */
  lemma OwnerVisibility(s: Snapshot, o: int, u: int)
    requires u in s.users
    ensures FindOne(s, u, Caller(o, Owner)).Ok? <==> u == o || InOwnerChain(s, o, u)
  {
    var owned := OwnedBrands(s, o);
    if UserBrands(s, u) * owned != {} {
      var b :| b in UserBrands(s, u) * owned;
      if b in BrandsOf(s, StaffLocations(s, u)) {
        var l :| l in StaffLocations(s, u) && l in s.locations && s.locations[l].brandId == b;
        assert StaffRow(l, u) in s.staff;
      } else {
        var l :| l in ManagedLocations(s, u) && l in s.locations && s.locations[l].brandId == b;
        assert s.locations[l].managerId == Some(u);
      }
    }
    if InOwnerChain(s, o, u) {
      var l :| l in s.locations && s.locations[l].brandId in s.brands
        && s.brands[s.locations[l].brandId].ownerId == o
        && (StaffRow(l, u) in s.staff || s.locations[l].managerId == Some(u));
      var b := s.locations[l].brandId;
      assert b in owned;
      if StaffRow(l, u) in s.staff {
        assert l in StaffLocations(s, u);
        assert b in BrandsOf(s, StaffLocations(s, u));
      } else {
        assert l in ManagedLocations(s, u);
        assert b in BrandsOf(s, ManagedLocations(s, u));
      }
      assert b in UserBrands(s, u) * owned;
    }
  }

  /** A manager sees an existing user exactly when it is the manager or staffs one of
      the manager's locations. */
  lemma ManagerVisibility(s: Snapshot, m: int, u: int)
    requires u in s.users
    ensures FindOne(s, u, Caller(m, Manager)).Ok? <==> u == m || InManagerChain(s, m, u)
  {
    if InManagerChain(s, m, u) {
      var l :| l in s.locations && s.locations[l].managerId == Some(m) && StaffRow(l, u) in s.staff;
      assert l in StaffLocations(s, u) * ManagedLocations(s, m);
    }
  }

  /** A manager's view ignores the locations the target itself manages: another
      user with no staff rows is hidden from every manager. */
  lemma ManagerIgnoresManagedLocations(s: Snapshot, m: int, u: int)
    requires u in s.users && u != m && StaffLocations(s, u) == {}
    ensures FindOne(s, u, Caller(m, Manager)) == Err(Forbidden)
  {
  }

  /** The listing and the single lookup agree: a caller lists exactly the users it
      may view one by one. */
  lemma FindAllMatchesFindOne(s: Snapshot, c: Caller, u: int)
    ensures u in FindAll(s, c, None) <==> FindOne(s, u, c).Ok?
  {
    if u in s.users {
      match c.role
      case SuperAdmin =>
      case Owner =>
        OwnerVisibility(s, c.id, u);
        var brandIds := OwnedBrands(s, c.id);
        var staffIds := StaffAt(s, LocationsOfBrands(s, brandIds));
        if InOwnerChain(s, c.id, u) {
          var l :| l in s.locations && s.locations[l].brandId in s.brands
            && s.brands[s.locations[l].brandId].ownerId == c.id
            && (StaffRow(l, u) in s.staff || s.locations[l].managerId == Some(u));
          if StaffRow(l, u) in s.staff {
            assert u in staffIds;
          } else {
            assert l in ManagedLocations(s, u);
          }
        }
        if u in FindAll(s, c, None) && u != c.id {
          if u in staffIds {
            var l :| l in LocationsOfBrands(s, brandIds) && StaffRow(l, u) in s.staff;
            assert InOwnerChain(s, c.id, u);
          } else {
            var l :| l in ManagedLocations(s, u) && s.locations[l].brandId in brandIds;
            assert InOwnerChain(s, c.id, u);
          }
        }
      case Manager =>
        ManagerVisibility(s, c.id, u);
        if InManagerChain(s, c.id, u) {
          var l :| l in s.locations && s.locations[l].managerId == Some(c.id) && StaffRow(l, u) in s.staff;
          assert u in StaffAt(s, ManagedLocations(s, c.id));
        }
      case Staff =>
    }
  }

  /** An owner O owns brand 1, whose location 10 is managed by M and staffed by S:
      O may view S, and another owner who owns no brand containing location 10 may not. */
  lemma OwnerChainScenario()
    ensures var o, m, st, other := 1, 2, 3, 4;
      var s := Snapshot(
        map[o := User("o", "", Owner, None, None), m := User("m", "", Manager, None, None),
            st := User("s", "", Staff, None, None), other := User("x", "", Owner, None, None)],
        map[1 := Brand("b1", o), 2 := Brand("b2", other)],
        map[10 := Location(None, 1, Some(m))],
        {StaffRow(10, st)});
      && FindOne(s, st, Caller(o, Owner)).Ok?
      && FindOne(s, st, Caller(other, Owner)) == Err(Forbidden)
      && FindOne(s, st, Caller(m, Manager)).Ok?
  {
    var o, m, st, other := 1, 2, 3, 4;
    var s := Snapshot(
      map[o := User("o", "", Owner, None, None), m := User("m", "", Manager, None, None),
          st := User("s", "", Staff, None, None), other := User("x", "", Owner, None, None)],
      map[1 := Brand("b1", o), 2 := Brand("b2", other)],
      map[10 := Location(None, 1, Some(m))],
      {StaffRow(10, st)});
    assert 10 in StaffLocations(s, st);
    assert 1 in UserBrands(s, st) * OwnedBrands(s, o);
    assert UserBrands(s, st) == {1} by {
      assert StaffLocations(s, st) == {10};
      assert ManagedLocations(s, st) == {};
    }
    assert OwnedBrands(s, other) == {2};
    assert 10 in StaffLocations(s, st) * ManagedLocations(s, m);
  }

  /** The role filter only narrows the unfiltered listing to one role. */
  lemma FindAllFilter(s: Snapshot, c: Caller, role: Role)
    ensures FindAll(s, c, Some(role)) == set u | u in FindAll(s, c, None) && s.users[u].role == role
  {
  }

  /** For an existing target, the update permission and the visibility rule agree. */
  lemma CheckAgreesWithFindOne(s: Snapshot, target: int, c: Caller)
    requires target in s.users
    ensures CheckUserAccessPermission(s, target, c).Ok? <==> FindOne(s, target, c).Ok?
  {
  }

  // ---- Update --------------------------------------------------------------

  /** The optional profile fields of an update request. */
  datatype UpdateUserDto = UpdateUserDto(firstName: Field<string>, lastName: Field<string>,
                                         phoneNumber: Field<string>)

  /** The profile write happens only when some field is truthy. */
  predicate AnyTruthy(d: UpdateUserDto) {
    TruthyField(d.firstName) || TruthyField(d.lastName) || TruthyField(d.phoneNumber)
  }

  /** Names are written only when truthy; the phone number whenever it is present,
      so an explicit null clears it and an empty string is stored as such. */
  function PatchProfile(p: Profile, d: UpdateUserDto): (q: Profile)
    ensures q.firstName == if TruthyField(d.firstName) then d.firstName.value else p.firstName
    ensures q.lastName == if TruthyField(d.lastName) then d.lastName.value else p.lastName
    ensures d.phoneNumber == Absent ==> q.phoneNumber == p.phoneNumber
    ensures d.phoneNumber == Null ==> q.phoneNumber == None
    ensures d.phoneNumber.Set? ==> q.phoneNumber == Some(d.phoneNumber.value)
  {
    Profile(if TruthyField(d.firstName) then d.firstName.value else p.firstName,
            if TruthyField(d.lastName) then d.lastName.value else p.lastName,
            if d.phoneNumber != Absent then Written(d.phoneNumber) else p.phoneNumber)
  }

  /** Patching twice with the same request is patching once. */
  lemma PatchProfileIdempotent(p: Profile, d: UpdateUserDto)
    ensures PatchProfile(PatchProfile(p, d), d) == PatchProfile(p, d)
  {
  }

  /** update: the permission check's failures propagate; every later failure (no
      profile row, no user row) becomes NotFound. */
  function UpdateStep(s: Snapshot, id: int, d: UpdateUserDto, c: Caller): (t: Transition<User>)
    ensures CheckUserAccessPermission(s, id, c).Err? ==>
      t.result == Err(CheckUserAccessPermission(s, id, c).error)
    ensures CheckUserAccessPermission(s, id, c).Ok? && t.result.Err? ==> t.result.error == NotFound
    ensures t.result.Err? ==> t.next == s
    ensures t.result.Ok? <==>
      CheckUserAccessPermission(s, id, c).Ok? && id in s.users &&
      (AnyTruthy(d) ==> s.users[id].profile.Some?)
    ensures t.result.Ok? ==>
      && t.result.value == s.users[id].(profile :=
           if AnyTruthy(d) then Some(PatchProfile(s.users[id].profile.value, d)) else s.users[id].profile)
      && t.next == s.(users := s.users[id := t.result.value])
  {
    var check := CheckUserAccessPermission(s, id, c);
    if check.Err? then Transition(Err(check.error), s)
    else if AnyTruthy(d) then
      if id !in s.users || s.users[id].profile.None? then Transition(Err(NotFound), s)
      else
        var updated := s.users[id].(profile := Some(PatchProfile(s.users[id].profile.value, d)));
        Transition(Ok(updated), s.(users := s.users[id := updated]))
    else if id !in s.users then Transition(Err(NotFound), s)
    else Transition(Ok(s.users[id]), s)
  }

  /** Repeating an update changes nothing more. */
  lemma UpdateIdempotent(s: Snapshot, id: int, d: UpdateUserDto, c: Caller)
    requires UpdateStep(s, id, d, c).result.Ok?
    ensures UpdateStep(UpdateStep(s, id, d, c).next, id, d, c) == UpdateStep(s, id, d, c)
  {
    var t := UpdateStep(s, id, d, c);
    var s' := t.next;
    assert s'.brands == s.brands && s'.locations == s.locations && s'.staff == s.staff;
    if id != c.id && c.role != SuperAdmin {
      assert UserBrands(s', id) == UserBrands(s, id);
      assert StaffLocations(s', id) == StaffLocations(s, id);
      assert OwnedBrands(s', c.id) == OwnedBrands(s, c.id);
      assert ManagedLocations(s', c.id) == ManagedLocations(s, c.id);
    }
    if AnyTruthy(d) {
      PatchProfileIdempotent(s.users[id].profile.value, d);
    }
    assert s'.users[id := t.result.value] == s'.users;
  }

  lemma UpdatePreservesValid(s: Snapshot, id: int, d: UpdateUserDto, c: Caller)
    requires Valid(s)
    ensures Valid(UpdateStep(s, id, d, c).next)
  {
  }

  // ---- Remove --------------------------------------------------------------

  /** remove: only the super admin may delete. The profile rows are deleted first,
      outside any transaction, so a user row the database refuses to delete (it
      owns a brand or has a staff row) is left without its profile, and the caller
      sees NotFound. A deleted manager's locations lose their manager. */
  function RemoveStep(s: Snapshot, id: int, c: Caller): (t: Transition<User>)
    ensures t.result == Err(Forbidden) <==> c.role != SuperAdmin
    ensures c.role != SuperAdmin || id !in s.users ==> t.next == s
    ensures c.role == SuperAdmin && id !in s.users ==> t.result == Err(NotFound)
    ensures t.result.Ok? <==> c.role == SuperAdmin && id in s.users && !UserReferenced(s, id)
    ensures t.result.Ok? ==>
      && t.next == s.(users := s.users - {id}, locations := ClearManager(s.locations, id))
      && t.result.value == s.users[id].(profile := None)
    ensures c.role == SuperAdmin && id in s.users && UserReferenced(s, id) ==>
      t.result == Err(NotFound) &&
      t.next == s.(users := s.users[id := s.users[id].(profile := None)])
  {
    if c.role != SuperAdmin then Transition(Err(Forbidden), s)
    else if id !in s.users then Transition(Err(NotFound), s)
    else
      var bare := s.users[id].(profile := None);
      if UserReferenced(s, id) then Transition(Err(NotFound), s.(users := s.users[id := bare]))
      else Transition(Ok(bare), s.(users := s.users - {id}, locations := ClearManager(s.locations, id)))
  }

  lemma RemovePreservesValid(s: Snapshot, id: int, c: Caller)
    requires Valid(s)
    ensures Valid(RemoveStep(s, id, c).next)
  {
    var t := RemoveStep(s, id, c);
    if t.result.Ok? {
      var s' := t.next;
      forall b | b in s'.brands ensures s'.brands[b].ownerId in s'.users {
        assert s.brands[b].ownerId != id;
      }
      forall l | l in s'.locations && s'.locations[l].managerId.Some?
        ensures s'.locations[l].managerId.value in s'.users
      {
        assert s'.locations[l] == s.locations[l];
      }
      forall r | r in s'.staff ensures r.locationId in s'.locations && r.staffId in s'.users {
        assert r.staffId != id;
      }
    }
  }

  // ---- Assignment to a brand -----------------------------------------------

  datatype AssignUserToBrandDto = AssignUserToBrandDto(userId: int, brandId: int)

  /** assignToBrand: super admin only; then the user must exist and be an owner,
      then the brand must exist; only that brand's owner changes. */
  function AssignToBrandStep(s: Snapshot, c: Caller, dto: AssignUserToBrandDto): (t: Transition<Brand>)
    ensures t.result.Ok? <==>
      c.role == SuperAdmin && dto.userId in s.users && s.users[dto.userId].role == Owner &&
      dto.brandId in s.brands
    ensures t.result.Err? ==> t.next == s
    ensures t.result.Ok? ==>
      && t.result.value == s.brands[dto.brandId].(ownerId := dto.userId)
      && t.next == s.(brands := s.brands[dto.brandId := t.result.value])
  {
    if c.role != SuperAdmin then Transition(Err(Forbidden), s)
    else if dto.userId !in s.users then Transition(Err(NotFound), s)
    else if s.users[dto.userId].role != Owner then Transition(Err(Forbidden), s)
    else if dto.brandId !in s.brands then Transition(Err(NotFound), s)
    else
      var brand := s.brands[dto.brandId].(ownerId := dto.userId);
      Transition(Ok(brand), s.(brands := s.brands[dto.brandId := brand]))
  }

  /** The checks run in order: role, user exists, user is an owner, brand exists. */
  lemma AssignToBrandOrder(s: Snapshot, c: Caller, dto: AssignUserToBrandDto)
    ensures c.role != SuperAdmin ==> AssignToBrandStep(s, c, dto).result == Err(Forbidden)
    ensures c.role == SuperAdmin && dto.userId !in s.users ==>
      AssignToBrandStep(s, c, dto).result == Err(NotFound)
    ensures c.role == SuperAdmin && dto.userId in s.users && s.users[dto.userId].role != Owner ==>
      AssignToBrandStep(s, c, dto).result == Err(Forbidden)
    ensures c.role == SuperAdmin && dto.userId in s.users && s.users[dto.userId].role == Owner &&
            dto.brandId !in s.brands ==>
      AssignToBrandStep(s, c, dto).result == Err(NotFound)
  {
  }

  lemma AssignToBrandPreservesValid(s: Snapshot, c: Caller, dto: AssignUserToBrandDto)
    requires Valid(s)
    ensures Valid(AssignToBrandStep(s, c, dto).next)
  {
  }

  // ---- Assignment to a location --------------------------------------------

  datatype AssignUserToLocationDto = AssignUserToLocationDto(userId: int, locationId: int, isManager: bool)

  /** What an assignment that passed every check did. */
  datatype Assignment = ManagerSet(location: Location) | StaffAdded(row: StaffRow) | AlreadyAssigned

  /** The authorisation part of assignToLocation, for a location that exists:
      anyone for the super admin, the owner of the location's brand for an owner. */
  predicate MayAssignAt(s: Snapshot, c: Caller, locationId: int): (b: bool)
    requires locationId in s.locations
    ensures c.role == SuperAdmin ==> b
    ensures c.role == Manager || c.role == Staff ==> !b
    ensures c.role == Owner ==>
      (b <==> s.locations[locationId].brandId in s.brands &&
              s.brands[s.locations[locationId].brandId].ownerId == c.id)
  {
    c.role == SuperAdmin ||
    (c.role == Owner && s.locations[locationId].brandId in OwnedBrands(s, c.id))
  }

  /** assignToLocation: NotFound for a missing user or location before any
      authorisation; then the caller's right over the location; then the user's
      role must fit the kind of assignment. A staff row that already exists is
      reported and not added again. */
  function AssignToLocationStep(s: Snapshot, c: Caller, dto: AssignUserToLocationDto)
    : (t: Transition<Assignment>)
    ensures dto.userId !in s.users || dto.locationId !in s.locations ==>
      t.result == Err(NotFound)
    ensures dto.userId in s.users && dto.locationId in s.locations && !MayAssignAt(s, c, dto.locationId) ==>
      t.result == Err(Forbidden)
    ensures t.result.Ok? ==>
      && dto.userId in s.users && dto.locationId in s.locations && MayAssignAt(s, c, dto.locationId)
      && s.users[dto.userId].role == (if dto.isManager then Manager else Staff)
    ensures dto.userId in s.users && dto.locationId in s.locations && MayAssignAt(s, c, dto.locationId) ==>
      && (t.result.Ok? <==> s.users[dto.userId].role == (if dto.isManager then Manager else Staff))
      && (t.result.Err? ==> t.result == Err(Forbidden))
    ensures t.result.Err? ==> t.next == s
    ensures t.result == Ok(AlreadyAssigned) <==>
      t.result.Ok? && !dto.isManager && StaffRow(dto.locationId, dto.userId) in s.staff
    ensures t.result.Ok? && t.result.value.ManagerSet? ==>
      dto.isManager &&
      t.next == s.(locations := s.locations[dto.locationId := t.result.value.location]) &&
      t.result.value.location == s.locations[dto.locationId].(managerId := Some(dto.userId))
    ensures t.result.Ok? && t.result.value.StaffAdded? ==>
      && !dto.isManager
      && t.result.value.row == StaffRow(dto.locationId, dto.userId)
      && t.result.value.row !in s.staff
      && t.next == s.(staff := s.staff + {t.result.value.row})
    ensures t.result == Ok(AlreadyAssigned) ==> t.next == s
  {
    if dto.userId !in s.users then Transition(Err(NotFound), s)
    else if dto.locationId !in s.locations then Transition(Err(NotFound), s)
    else if !MayAssignAt(s, c, dto.locationId) then Transition(Err(Forbidden), s)
    else
      var role := s.users[dto.userId].role;
      if dto.isManager then
        if role != Manager then Transition(Err(Forbidden), s)
        else
          var loc := s.locations[dto.locationId].(managerId := Some(dto.userId));
          Transition(Ok(ManagerSet(loc)), s.(locations := s.locations[dto.locationId := loc]))
      else if role != Staff then Transition(Err(Forbidden), s)
      else
        var row := StaffRow(dto.locationId, dto.userId);
        if row in s.staff then Transition(Ok(AlreadyAssigned), s)
        else Transition(Ok(StaffAdded(row)), s.(staff := s.staff + {row}))
  }

  /** Assigning the same staff member to the same location again reports that it is
      already assigned and leaves the store as the first assignment left it. */
  lemma StaffAssignmentIdempotent(s: Snapshot, c: Caller, dto: AssignUserToLocationDto)
    requires !dto.isManager && AssignToLocationStep(s, c, dto).result.Ok?
    ensures var s' := AssignToLocationStep(s, c, dto).next;
      AssignToLocationStep(s', c, dto) == Transition(Ok(AlreadyAssigned), s')
  {
    var s' := AssignToLocationStep(s, c, dto).next;
    assert s'.users == s.users && s'.locations == s.locations && s'.brands == s.brands;
    assert StaffRow(dto.locationId, dto.userId) in s'.staff;
    assert OwnedBrands(s', c.id) == OwnedBrands(s, c.id);
  }

  /** An owner cannot assign anyone at a location of a brand it does not own. */
  lemma OwnerOutsideOwnBrandsForbidden(s: Snapshot, o: int, dto: AssignUserToLocationDto)
    requires dto.userId in s.users && dto.locationId in s.locations
    requires s.locations[dto.locationId].brandId !in s.brands ||
             s.brands[s.locations[dto.locationId].brandId].ownerId != o
    ensures AssignToLocationStep(s, Caller(o, Owner), dto).result == Err(Forbidden)
  {
  }

  lemma AssignToLocationPreservesValid(s: Snapshot, c: Caller, dto: AssignUserToLocationDto)
    requires Valid(s)
    ensures Valid(AssignToLocationStep(s, c, dto).next)
  {
  }

  // ---- The service operations that change the store ------------------------

  method Update(db: Database.Store, id: int, d: UpdateUserDto, c: Caller) returns (r: Result<User>)
    requires db.Valid()
    modifies db
    ensures db.Valid()
    ensures var t := UpdateStep(old(db.Snap()), id, d, c); r == t.result && db.Snap() == t.next
    ensures db.nextUserId == old(db.nextUserId) && db.nextBrandId == old(db.nextBrandId)
  {
    UpdatePreservesValid(db.Snap(), id, d, c);
    var check := CheckUserAccessPermission(db.Snap(), id, c);
    if check.Err? {
      return Err(check.error);
    }
    if AnyTruthy(d) {
      if id !in db.users || db.users[id].profile.None? {
        return Err(NotFound);
      }
      var user := db.users[id];
      db.users := db.users[id := user.(profile := Some(PatchProfile(user.profile.value, d)))];
    }
    if id !in db.users {
      return Err(NotFound);
    }
    r := Ok(db.users[id]);
  }

  method Remove(db: Database.Store, id: int, c: Caller) returns (r: Result<User>)
    requires db.Valid()
    modifies db
    ensures db.Valid()
    ensures var t := RemoveStep(old(db.Snap()), id, c); r == t.result && db.Snap() == t.next
    ensures db.nextUserId == old(db.nextUserId) && db.nextBrandId == old(db.nextBrandId)
  {
    RemovePreservesValid(db.Snap(), id, c);
    if c.role != SuperAdmin {
      return Err(Forbidden);
    }
    if id !in db.users {
      return Err(NotFound);
    }
    var referenced := UserReferenced(db.Snap(), id);
    var bare := db.users[id].(profile := None);
    db.users := db.users[id := bare];
    if referenced {
      return Err(NotFound);
    }
    db.users := db.users - {id};
    db.locations := ClearManager(db.locations, id);
    r := Ok(bare);
  }

  method AssignToBrand(db: Database.Store, c: Caller, dto: AssignUserToBrandDto) returns (r: Result<Brand>)
    requires db.Valid()
    modifies db
    ensures db.Valid()
    ensures var t := AssignToBrandStep(old(db.Snap()), c, dto); r == t.result && db.Snap() == t.next
    ensures db.nextUserId == old(db.nextUserId) && db.nextBrandId == old(db.nextBrandId)
  {
    AssignToBrandPreservesValid(db.Snap(), c, dto);
    if c.role != SuperAdmin {
      return Err(Forbidden);
    }
    if dto.userId !in db.users {
      return Err(NotFound);
    }
    if db.users[dto.userId].role != Owner {
      return Err(Forbidden);
    }
    if dto.brandId !in db.brands {
      return Err(NotFound);
    }
    var brand := db.brands[dto.brandId].(ownerId := dto.userId);
    db.brands := db.brands[dto.brandId := brand];
    r := Ok(brand);
  }

  method AssignToLocation(db: Database.Store, c: Caller, dto: AssignUserToLocationDto)
    returns (r: Result<Assignment>)
    requires db.Valid()
    modifies db
    ensures db.Valid()
    ensures var t := AssignToLocationStep(old(db.Snap()), c, dto); r == t.result && db.Snap() == t.next
    ensures db.nextUserId == old(db.nextUserId) && db.nextBrandId == old(db.nextBrandId)
  {
    AssignToLocationPreservesValid(db.Snap(), c, dto);
    if dto.userId !in db.users || dto.locationId !in db.locations {
      return Err(NotFound);
    }
    if !MayAssignAt(db.Snap(), c, dto.locationId) {
      return Err(Forbidden);
    }
    var role := db.users[dto.userId].role;
    if dto.isManager {
      if role != Manager {
        return Err(Forbidden);
      }
      var loc := db.locations[dto.locationId].(managerId := Some(dto.userId));
      db.locations := db.locations[dto.locationId := loc];
      return Ok(ManagerSet(loc));
    }
    if role != Staff {
      return Err(Forbidden);
    }
    var row := StaffRow(dto.locationId, dto.userId);
    if row in db.staff {
      return Ok(AlreadyAssigned);
    }
    db.staff := db.staff + {row};
    r := Ok(StaffAdded(row));
  }
}
