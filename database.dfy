/** The database the services share, as an object whose tables they update in
    place. Each service call reads one snapshot of it and writes back atomically. */
module Database {
  import opened Schema

  class Store {
    var users: map<int, User>
    var brands: map<int, Brand>
    var locations: map<int, Location>
    var staff: set<StaffRow>
    /** The next values of the autoincremented user and brand ids. */
    var nextUserId: int
    var nextBrandId: int

    /** The tables as one value. */
    function Snap(): (s: Snapshot)
      reads this
      ensures s.users == users && s.brands == brands && s.locations == locations && s.staff == staff
    {
      Snapshot(users, brands, locations, staff)
    }

    /** The database constraints, and the counters are past every id in use. */
    ghost predicate Valid()
      reads this
    {
      && Schema.Valid(Snap())
      && nextUserId > 0 && (forall id :: id in users ==> id < nextUserId)
      && nextBrandId > 0 && (forall id :: id in brands ==> id < nextBrandId)
    }

    constructor ()
      ensures Valid()
      ensures users == map[] && brands == map[] && locations == map[] && staff == {}
      ensures nextUserId == 1 && nextBrandId == 1
    {
      users, brands, locations, staff := map[], map[], map[], {};
      nextUserId, nextBrandId := 1, 1;
    }
  }
}
