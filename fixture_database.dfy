/**
 * The fixture-backed variant of the data-access layer: two in-memory tables,
 * `users` and `properties`, keyed by numeric id and loaded from fixture files
 * before any call. Lookups scan or index the tables; inserts number the new
 * record one past the current size of its table, store it there, and write
 * that number into the record's own `id`.
 */
module FixtureDatabase {
  import opened Wrappers
  import opened Search

  /** A user record. Only `id` is ever written after the record exists. */
  class User {
    var id: Option<nat>
    const name: string
    const email: string
    const password: string

    /** A record as a caller builds it for `addUser`: no id yet. */
    constructor (name: string, email: string, password: string)
      ensures id == None
      ensures this.name == name && this.email == email && this.password == password
    {
      this.id := None;
      this.name := name;
      this.email := email;
      this.password := password;
    }
  }

  /** The descriptive fields of a property listing; prices are in cents. */
  datatype PropertyDetails = PropertyDetails(
    ownerId: int,
    title: string,
    description: string,
    thumbnailPhotoUrl: string,
    coverPhotoUrl: string,
    costPerNight: int,
    street: string,
    city: string,
    province: string,
    postCode: string,
    country: string,
    parkingSpaces: int,
    numberOfBathrooms: int,
    numberOfBedrooms: int)

  /** A property record. Only `id` is ever written after the record exists. */
  class Property {
    var id: Option<nat>
    const details: PropertyDetails

    /** A record as a caller builds it for `addProperty`: no id yet. */
    constructor (details: PropertyDetails)
      ensures id == None && this.details == details
    {
      this.id := None;
      this.details := details;
    }
  }

  // ---- case-insensitive e-mail comparison ----

  predicate IsUpper(c: char) {
    'A' <= c <= 'Z'
  }

  function LowerChar(c: char): (l: char)
    ensures !IsUpper(l)
    ensures IsUpper(c) ==> l as int == c as int + 32
    ensures !IsUpper(c) ==> l == c
  {
    if IsUpper(c) then (c as int + 32) as char else c
  }

  /** ASCII lower-casing, letter by letter. */
  function Lower(s: string): (r: string)
    ensures |r| == |s|
    ensures forall i :: 0 <= i < |s| ==> r[i] == LowerChar(s[i])
    ensures forall i :: 0 <= i < |r| ==> !IsUpper(r[i])
  {
    if s == [] then [] else [LowerChar(s[0])] + Lower(s[1..])
  }

  /** Lower-casing twice is lower-casing once. */
  lemma {:induction false} LowerIdempotent(s: string)
    ensures Lower(Lower(s)) == Lower(s)
  {
    if s != [] {
      assert Lower(s)[1..] == Lower(s[1..]);
      LowerIdempotent(s[1..]);
    }
  }

  /** Two e-mail addresses are the same address when their lower-cased forms are equal. */
  predicate SameEmail(a: string, b: string) {
    Lower(a) == Lower(b)
  }

  /**
   * Two addresses are the same exactly when they have the same length and
   * agree letter by letter once each letter is lower-cased.
   */
  lemma SameEmailLetterwise(a: string, b: string)
    ensures SameEmail(a, b) <==>
      |a| == |b| && forall i :: 0 <= i < |a| ==> LowerChar(a[i]) == LowerChar(b[i])
  {
    if |a| == |b| && forall i :: 0 <= i < |a| ==> LowerChar(a[i]) == LowerChar(b[i]) {
      assert forall i :: 0 <= i < |a| ==> Lower(a)[i] == Lower(b)[i];
    }
  }

  // ---- what the lookups return ----

  /** The keys of the users whose address is the same as `email`. */
  function MatchingKeys(users: map<nat, User>, email: string): set<nat> {
    set k | k in users && SameEmail(users[k].email, email)
  }

  /** The largest element of a non-empty set. */
  ghost function MaxOf(s: set<nat>): (m: nat)
    requires s != {}
    ensures m in s && forall y :: y in s ==> y <= m
  {
    var x :| x in s;
    if s - {x} == {} then
      assert forall y :: y in s ==> y == x || y in s - {x};
      x
    else
      var rest := MaxOf(s - {x});
      assert forall y :: y in s ==> y == x || y in s - {x};
      if x < rest then rest else x
  }

  /** The least element of a non-empty set. */
  ghost function MinOf(s: set<nat>): (m: nat)
    requires s != {}
    ensures m in s && forall y :: y in s ==> m <= y
  {
    var x :| x in s;
    if s - {x} == {} then
      assert forall y :: y in s ==> y == x || y in s - {x};
      x
    else
      var rest := MinOf(s - {x});
      assert forall y :: y in s ==> y == x || y in s - {x};
      if rest < x then rest else x
  }

  /**
   * The user `getUserWithEmail` resolves: among the users whose address is
   * the same as `email`, the one stored under the largest key, since keys
   * are visited in ascending order and every later match replaces the
   * earlier one; `None` (the source's `null`) when no address is the same.
   */
  ghost function LastMatch(users: map<nat, User>, email: string): (r: Option<User>)
    ensures r.None? <==> MatchingKeys(users, email) == {}
    ensures r.Some? ==>
      exists k :: k in MatchingKeys(users, email) && users[k] == r.value
        && forall j :: j in MatchingKeys(users, email) ==> j <= k
  {
    var keys := MatchingKeys(users, email);
    if keys == {} then None else Some(users[MaxOf(keys)])
  }

  /** The part of a table stored under the keys in `ks`. */
  function Restrict<V>(m: map<nat, V>, ks: set<nat>): map<nat, V> {
    map k | k in m && k in ks :: m[k]
  }

  /**
   * Visiting one more key, larger than every key visited so far, keeps the
   * resolved user unless the record under that key matches, in which case it
   * replaces it.
   */
  lemma LastMatchStep(users: map<nat, User>, email: string, visited: set<nat>, k: nat)
    requires k in users && k !in visited
    requires forall v :: v in visited ==> v < k
    ensures LastMatch(Restrict(users, visited + {k}), email)
            == if SameEmail(users[k].email, email) then Some(users[k])
               else LastMatch(Restrict(users, visited), email)
  {
    var before := MatchingKeys(Restrict(users, visited), email);
    var after := MatchingKeys(Restrict(users, visited + {k}), email);
    if SameEmail(users[k].email, email) {
      assert after == before + {k};
      assert MaxOf(after) == k;
    } else {
      assert after == before;
    }
  }

  /** The copy `getAllProperties` makes: keys `1..limit`, each with whatever the table holds there. */
  function FirstProperties(properties: map<nat, Property>, limit: int): map<nat, Option<Property>> {
    map i: nat | 1 <= i <= limit :: if i in properties then Some(properties[i]) else None
  }

  /** The keys of the copy are exactly 1 to `limit`: none when `limit` is below 1. */
  lemma FirstPropertiesKeys(properties: map<nat, Property>, limit: int)
    ensures forall i: nat :: i in FirstProperties(properties, limit) <==> 1 <= i <= limit
  {
  }

  /** The copy has `limit` entries, and none when `limit` is below 1. */
  lemma {:induction false} FirstPropertiesSize(properties: map<nat, Property>, limit: int)
    ensures |FirstProperties(properties, limit)| == if limit < 0 then 0 else limit
    decreases if limit < 0 then 0 else limit
  {
    var r := FirstProperties(properties, limit);
    if limit <= 0 {
      assert r == map[];
    } else {
      var smaller := FirstProperties(properties, limit - 1);
      FirstPropertiesSize(properties, limit - 1);
      assert r.Keys == smaller.Keys + {limit};
      assert limit !in smaller.Keys;
    }
  }

  /** A table whose keys are exactly 1 to its size, as the fixtures are numbered. */
  predicate KeysOneToSize<V>(m: map<nat, V>) {
    (forall k :: k in m ==> 1 <= k <= |m|) && (forall k: nat :: 1 <= k <= |m| ==> k in m)
  }

  /**
   * Inserting under the size plus one, into a table numbered 1 to its size,
   * uses a fresh key, grows the table by one, leaves every other entry as it
   * was and keeps the numbering without gaps.
   */
  lemma InsertNext<V>(m: map<nat, V>, v: V)
    requires KeysOneToSize(m)
    ensures |m| + 1 !in m
    ensures |m[|m| + 1 := v]| == |m| + 1
    ensures forall k :: k in m ==> m[|m| + 1 := v][k] == m[k]
    ensures KeysOneToSize(m[|m| + 1 := v])
  {
  }

  /** The fixture tables. */
  class FixtureStore {
    var users: map<nat, User>
    var properties: map<nat, Property>

    /** The tables as the fixture files give them. */
    constructor (users: map<nat, User>, properties: map<nat, Property>)
      ensures this.users == users && this.properties == properties
    {
      this.users := users;
      this.properties := properties;
    }

    /**
     * `getUserWithEmail`: visit every key of `users` in ascending order and
     * keep the last user whose address is the same as `email`.
     */
    method GetUserWithEmail(email: string) returns (resolved: Option<User>)
      ensures resolved == LastMatch(users, email)
    {
      resolved := None;
      var remaining := users.Keys;
      ghost var visited: set<nat> := {};
      assert MatchingKeys(Restrict(users, visited), email) == {};
      while remaining != {}
        invariant remaining + visited == users.Keys && remaining !! visited
        invariant forall v, r :: v in visited && r in remaining ==> v < r
        invariant resolved == LastMatch(Restrict(users, visited), email)
        decreases remaining
      {
        ghost var least := MinOf(remaining);
        var userId :| userId in remaining && forall r :: r in remaining ==> userId <= r;
        var user := users[userId];
        LastMatchStep(users, email, visited, userId);
        if Lower(user.email) == Lower(email) {
          resolved := Some(user);
        }
        remaining := remaining - {userId};
        visited := visited + {userId};
      }
      assert Restrict(users, visited) == users;
    }

    /** `getUserWithId`: the user stored under `id`, `None` (`undefined`) when there is none. */
    function UserWithId(id: int): (r: Option<User>)
      reads this
      ensures r.Some? <==> id >= 0 && id in users
      ensures r.Some? ==> r.value == users[id]
    {
      if id >= 0 && id in users then Some(users[id]) else None
    }

    /**
     * `addUser`: number the record one past the size of `users`, write the
     * number into the record and store the record under it.
     */
    method AddUser(user: User) returns (added: User)
      modifies this, user
      ensures added == user && user.id == Some(old(|users|) + 1)
      ensures users == old(users)[old(|users|) + 1 := user]
      ensures properties == old(properties)
      ensures UserWithId(old(|users|) + 1) == Some(user)
      ensures KeysOneToSize(old(users)) ==>
        KeysOneToSize(users) && |users| == old(|users|) + 1 && old(|users|) + 1 !in old(users)
    {
      var userId := |users| + 1;
      if KeysOneToSize(users) {
        InsertNext(users, user);
      }
      user.id := Some(userId);
      users := users[userId := user];
      added := user;
    }

    /**
     * `getAllProperties` of the fixture variant: copy the entries under keys
     * 1 to `limit` (10 when the caller omits it); `options` is not looked at.
     */
    method AllProperties(options: Option<SearchOptions>, limit: Option<int>)
      returns (limitedProperties: map<nat, Option<Property>>)
      ensures limitedProperties == FirstProperties(properties, if limit.Some? then limit.value else DefaultLimit)
    {
      var lim := if limit.Some? then limit.value else DefaultLimit;
      limitedProperties := map[];
      var i := 1;
      while i <= lim
        invariant 1 <= i <= if lim < 1 then 1 else lim + 1
        invariant limitedProperties == FirstProperties(properties, i - 1)
        decreases lim - i
      {
        limitedProperties := limitedProperties[i := if i in properties then Some(properties[i]) else None];
        i := i + 1;
      }
      if lim < 1 {
        assert FirstProperties(properties, lim) == map[];
      }
    }

    /**
     * `getAllReservations` of the fixture variant: whatever the guest and the
     * limit, the first two properties, as `getAllProperties(null, 2)` gives them.
     */
    method AllReservations(guestId: int, limit: Option<int>)
      returns (reservations: map<nat, Option<Property>>)
      ensures reservations == FirstProperties(properties, 2)
    {
      reservations := AllProperties(None, Some(2));
    }

    /**
     * `addProperty`: number the record one past the size of `properties`,
     * write the number into the record and store the record under it.
     */
    method AddProperty(property: Property) returns (added: Property)
      modifies this, property
      ensures added == property && property.id == Some(old(|properties|) + 1)
      ensures properties == old(properties)[old(|properties|) + 1 := property]
      ensures users == old(users)
      ensures KeysOneToSize(old(properties)) ==>
        KeysOneToSize(properties) && |properties| == old(|properties|) + 1
        && old(|properties|) + 1 !in old(properties)
    {
      var propertyId := |properties| + 1;
      if KeysOneToSize(properties) {
        InsertNext(properties, property);
      }
      property.id := Some(propertyId);
      properties := properties[propertyId := property];
      added := property;
    }
  }
}
