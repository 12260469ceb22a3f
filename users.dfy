/**
 * The user registry of the course-management backend (user.py): the validated
 * `User` record and the `UserManager` that allocates identifiers and keeps the
 * list of registered users.
 */
module Users {
  import opened Results

  /** The user types the registry accepts, spelled as the registry spells them. */
  const Roles: seq<string> := ["student", "teacher", "admin"]

  /** The fields of a user: identifier, name, password (opaque) and user type. */
  datatype UserRecord = UserRecord(userId: int, name: string, password: string, userType: string)

  /** What the `User` constructor checks before it stores its arguments. */
  predicate WellFormed(u: UserRecord)
  {
    u.userId > 0 && u.name != [] && u.password != [] && u.userType in Roles
  }

  /** A `User` object: one exists only when its constructor's checks passed. */
  type User = u: UserRecord | WellFormed(u) witness UserRecord(1, "a", "a", "student")

  /** The three `ValueError`s that creating a user can raise. */
  datatype UserError =
    | NonPositiveId     // "User ID should be a positive integer."
    | EmptyField        // "Name, password, and user type cannot be empty."
    | UnknownUserType   // "Invalid user type. ..."

  /**
   * The checks shared by `create_a_user` and the `User` constructor: no empty
   * field, then a known user type. The emptiness check comes first, so an empty
   * user type is reported as an empty field.
   */
  function CheckFields(name: string, password: string, userType: string): (r: Outcome<UserError>)
    ensures r.Pass? <==> name != [] && password != [] && userType in Roles
    ensures r.Fail? ==> (r.error == EmptyField <==> name == [] || password == [] || userType == [])
    ensures r.Fail? ==> r.error != NonPositiveId
  {
    if name == [] || password == [] || userType == [] then Fail(EmptyField)
    else if userType !in Roles then Fail(UnknownUserType)
    else Pass
  }

  /** The `User` constructor: the identifier is checked first, then the fields. */
  function NewUser(userId: int, name: string, password: string, userType: string): (r: Result<User, UserError>)
    ensures r.Ok? <==> userId > 0 && name != [] && password != [] && userType in Roles
    ensures r.Ok? ==> r.value == UserRecord(userId, name, password, userType)
    ensures userId <= 0 ==> r == Err(NonPositiveId)
    ensures userId > 0 && (name == [] || password == [] || userType == []) ==> r == Err(EmptyField)
    ensures r == Err(UnknownUserType) <==>
              userId > 0 && name != [] && password != [] && userType != [] && userType !in Roles
  {
    if userId <= 0 then Err(NonPositiveId)
    else match CheckFields(name, password, userType)
      case Fail(e) => Err(e)
      case Pass => Ok(UserRecord(userId, name, password, userType))
  }

  /** Registry order is identifier order: each user's identifier exceeds its predecessor's. */
  predicate IdsAscending(users: seq<User>)
  {
    forall i :: 0 < i < |users| ==> users[i - 1].userId < users[i].userId
  }

  /** Ascending neighbours give ascending pairs, so no identifier occurs twice. */
  lemma {:induction false} AscendingIdsAreDistinct(users: seq<User>)
    requires IdsAscending(users)
    ensures forall i, j :: 0 <= i < j < |users| ==> users[i].userId < users[j].userId
  {
    if users != [] {
      var init := users[..|users| - 1];
      assert IdsAscending(init) by {
        forall i | 0 < i < |init| ensures init[i - 1].userId < init[i].userId {
          assert init[i - 1] == users[i - 1] && init[i] == users[i];
        }
      }
      AscendingIdsAreDistinct(init);
      forall i, j | 0 <= i < j < |users| ensures users[i].userId < users[j].userId {
        if j < |users| - 1 {
          assert users[i] == init[i] && users[j] == init[j];
        } else if i < j - 1 {
          assert users[i] == init[i] && users[j - 1] == init[j - 1];
        }
      }
    }
  }

  /**
   * What `find_users` returns: the users of `users`, in their order there,
   * whose identifier occurs in `ids`.
   */
  function Matching(users: seq<User>, ids: seq<int>): seq<User>
  {
    if users == [] then []
    else
      var rest := Matching(users[..|users| - 1], ids);
      var last := users[|users| - 1];
      if last.userId in ids then rest + [last] else rest
  }

  /** A user is found exactly when it is registered and its identifier was asked for. */
  lemma {:induction false} MatchingMembers(users: seq<User>, ids: seq<int>)
    ensures forall u :: u in Matching(users, ids) <==> u in users && u.userId in ids
  {
    if users != [] {
      var init := users[..|users| - 1];
      MatchingMembers(init, ids);
      assert users == init + [users[|users| - 1]];
    }
  }

  /** `find_users` never returns more users than are registered. */
  lemma {:induction false} MatchingLength(users: seq<User>, ids: seq<int>)
    ensures |Matching(users, ids)| <= |users|
  {
    if users != [] {
      MatchingLength(users[..|users| - 1], ids);
    }
  }

  /** `r` can be obtained from `s` by deleting elements: it keeps `s`'s order. */
  predicate SubsequenceOf<T(==)>(r: seq<T>, s: seq<T>)
    decreases |s|
  {
    if r == [] then true
    else if s == [] then false
    else
      (r[|r| - 1] == s[|s| - 1] && SubsequenceOf(r[..|r| - 1], s[..|s| - 1]))
      || SubsequenceOf(r, s[..|s| - 1])
  }

  /** The users found appear in registry order. */
  lemma {:induction false} MatchingIsSubsequence(users: seq<User>, ids: seq<int>)
    ensures SubsequenceOf(Matching(users, ids), users)
  {
    if users != [] {
      var init := users[..|users| - 1];
      MatchingIsSubsequence(init, ids);
      var rest := Matching(init, ids);
      if users[|users| - 1].userId in ids {
        assert (rest + [users[|users| - 1]])[..|rest|] == rest;
      } else if rest != [] {
        assert SubsequenceOf(rest, users);
      }
    }
  }

  /**
   * Only which identifiers are asked for matters, not their order or repetition:
   * the result follows the registry, never the query.
   */
  lemma {:induction false} MatchingIgnoresQueryOrder(users: seq<User>, ids1: seq<int>, ids2: seq<int>)
    requires forall x :: x in ids1 <==> x in ids2
    ensures Matching(users, ids1) == Matching(users, ids2)
  {
    if users != [] {
      MatchingIgnoresQueryOrder(users[..|users| - 1], ids1, ids2);
    }
  }

  /** Filtering a registry in identifier order gives a result in identifier order. */
  lemma {:induction false} MatchingKeepsIdsAscending(users: seq<User>, ids: seq<int>)
    requires IdsAscending(users)
    ensures IdsAscending(Matching(users, ids))
  {
    if users != [] {
      var init := users[..|users| - 1];
      var last := users[|users| - 1];
      assert IdsAscending(init) by {
        forall i | 0 < i < |init| ensures init[i - 1].userId < init[i].userId {
          assert init[i - 1] == users[i - 1] && init[i] == users[i];
        }
      }
      MatchingKeepsIdsAscending(init, ids);
      var rest := Matching(init, ids);
      if last.userId in ids && rest != [] {
        MatchingMembers(init, ids);
        AscendingIdsAreDistinct(users);
        var prev := rest[|rest| - 1];
        assert prev in init;
        var k :| 0 <= k < |init| && init[k] == prev;
        assert users[k] == prev;
        var r := rest + [last];
        forall i | 0 < i < |r| ensures r[i - 1].userId < r[i].userId {
          if i < |rest| {
            assert r[i - 1] == rest[i - 1] && r[i] == rest[i];
          }
        }
      }
    }
  }

  /** The in-memory registry: every user created so far, and the identifier counter. */
  class UserManager {
    var userList: seq<User>
    var counter: int

    /**
     * The registry invariant: identifiers are strictly increasing in registry
     * order and none exceeds the counter. Identifiers need not be contiguous,
     * since `GenerateId` may be called on its own.
     */
    ghost predicate Valid()
      reads this
    {
      counter >= 0 &&
      IdsAscending(userList) &&
      forall u :: u in userList ==> u.userId <= counter
    }

    /** A fresh registry: no users, counter at zero. */
    constructor ()
      ensures Valid()
      ensures userList == [] && counter == 0
    {
      userList := [];
      counter := 0;
    }

    /** `generate_id`: bump the counter and return its new value. */
    method GenerateId() returns (id: int)
      requires Valid()
      modifies this`counter
      ensures Valid()
      ensures counter == old(counter) + 1 && id == counter
      ensures userList == old(userList)
    {
      counter := counter + 1;
      id := counter;
    }

    /**
     * `create_a_user`: check the fields, then allocate an identifier and append
     * the new user. The checks precede the allocation, so a rejected call
     * leaves both the counter and the list as they were.
     */
    method CreateAUser(name: string, password: string, userType: string) returns (r: Outcome<UserError>)
      requires Valid()
      modifies this
      ensures Valid()
      ensures r == CheckFields(name, password, userType)
      ensures r.Pass? <==> name != [] && password != [] && userType in Roles
      ensures r.Fail? ==> (r.error == EmptyField <==> name == [] || password == [] || userType == [])
      ensures r.Fail? ==> r.error != NonPositiveId
      ensures r.Fail? ==> counter == old(counter) && userList == old(userList)
      ensures r.Pass? ==>
                counter == old(counter) + 1 &&
                userList == old(userList) + [UserRecord(counter, name, password, userType)]
      ensures r.Pass? ==> forall u :: u in old(userList) ==> u.userId < counter
    {
      r := CheckFields(name, password, userType);
      if r.Fail? {
        return;
      }
      var newUserId := GenerateId();
      var created := NewUser(newUserId, name, password, userType);
      assert forall u :: u in userList ==> u.userId < newUserId;
      userList := userList + [created.value];
      assert forall u :: u in userList ==> u in old(userList) || u == created.value;
    }

    /**
     * `find_users`: walk the registry and keep each user whose identifier is
     * in `ids`. Unknown identifiers are dropped without error.
     */
    method FindUsers(ids: seq<int>) returns (found: seq<User>)
      ensures found == Matching(userList, ids)
      ensures forall u :: u in found <==> u in userList && u.userId in ids
      ensures |found| <= |userList|
    {
      found := [];
      for i := 0 to |userList|
        invariant found == Matching(userList[..i], ids)
      {
        assert userList[..i + 1][..i] == userList[..i];
        if userList[i].userId in ids {
          found := found + [userList[i]];
        }
      }
      assert userList[..|userList|] == userList;
      MatchingMembers(userList, ids);
      MatchingLength(userList, ids);
    }
  }

  /** Three users created on a fresh registry, then a direct `generate_id`: it returns 4. */
  method GenerateIdAfterThreeUsers() returns (id: int)
    ensures id == 4
  {
    var m := new UserManager();
    var _ := m.CreateAUser("Brianna", "pwd", "student");
    var _ := m.CreateAUser("Maddy", "pwd", "teacher");
    var _ := m.CreateAUser("Carolina", "pwd", "admin");
    id := m.GenerateId();
  }

  /** Identifiers 1 and 2 pick the first two of three registered users, in registry order. */
  lemma MatchingFirstTwoOfThree(b: User, m: User, c: User)
    requires b.userId == 1 && m.userId == 2 && c.userId == 3
    ensures Matching([b, m, c], [1, 2]) == [b, m]
  {
    assert [b, m, c][..2] == [b, m];
    assert [b, m][..1] == [b];
    assert Matching([b], [1, 2]) == [b];
  }

  /** On the same three users, looking up identifiers 1 and 2 finds Brianna and Maddy, in that order. */
  method FindFirstTwoUsers() returns (found: seq<User>)
    ensures |found| == 2 && found[0].name == "Brianna" && found[1].name == "Maddy"
  {
    var m := new UserManager();
    var brianna := UserRecord(1, "Brianna", "pwd", "student");
    var maddy := UserRecord(2, "Maddy", "pwd", "teacher");
    var carolina := UserRecord(3, "Carolina", "pwd", "admin");
    var _ := m.CreateAUser("Brianna", "pwd", "student");
    var _ := m.CreateAUser("Maddy", "pwd", "teacher");
    var _ := m.CreateAUser("Carolina", "pwd", "admin");
    assert m.userList == [brianna, maddy, carolina];
    MatchingFirstTwoOfThree(brianna, maddy, carolina);
    found := m.FindUsers([1, 2]);
  }
}
