/** The profile store of `io.rs` at the level of the list of profiles: looking a
    profile up by user id, and storing a profile so that the last write for an id wins.
    Opening, reading and writing the file are not modelled; the file's content is a
    value of `UserFile`. */
module Store {
  import opened Prelude
  import opened Structs

  /** The profile file: absent, holding text that is not a JSON list of profiles (an
      empty file among them), or holding such a list. */
  datatype UserFile = NoFile | Unparsable | Records(users: seq<UserData>)

  /** The position of the first profile with id `id`. */
  function IndexOfId(users: seq<UserData>, id: string): (r: Option<nat>)
    ensures r.Some? ==> r.value < |users| && users[r.value].id == id
    ensures r.Some? ==> forall j :: 0 <= j < r.value ==> users[j].id != id
    ensures r.None? <==> forall j :: 0 <= j < |users| ==> users[j].id != id
    decreases |users|
  {
    if users == [] then None
    else if users[0].id == id then Some(0)
    else match IndexOfId(users[1..], id)
      case None => None
      case Some(i) => Some(i + 1)
  }

  /** The first position holding the id is the one `IndexOfId` finds. */
  lemma FirstIndex(users: seq<UserData>, id: string, i: nat)
    requires i < |users| && users[i].id == id
    requires forall j :: 0 <= j < i ==> users[j].id != id
    ensures IndexOfId(users, id) == Some(i)
  {
    var r := IndexOfId(users, id);
    assert r.Some?;
    assert !(r.value < i) && !(i < r.value);
  }

  /** `get_user_data`: the first stored profile with the id; an error when the file is
      missing, is not a list of profiles, or has no profile with that id. */
  function GetUserData(file: UserFile, id: string): (r: Result<UserData>)
    ensures r.Ok? <==> file.Records? && IndexOfId(file.users, id).Some?
    ensures r.Ok? ==> r.value == file.users[IndexOfId(file.users, id).value] && r.value.id == id
  {
    match file
    case NoFile => Err(Io)
    case Unparsable => Err(BadBody)
    case Records(users) =>
      match IndexOfId(users, id)
      case Some(i) => Ok(users[i])
      case None => Err(NotFound)
  }

  /** The list `store_user_data` starts from: the stored list, or an empty one when the
      content does not parse. */
  function ParseUsers(file: UserFile): seq<UserData> {
    if file.Records? then file.users else []
  }

  /** The list after storing `user`: the first profile with the same id is replaced in
      place, or `user` is appended when there is none. */
  function Upsert(users: seq<UserData>, user: UserData): seq<UserData> {
    match IndexOfId(users, user.id)
    case Some(i) => users[i := user]
    case None => users + [user]
  }

  predicate UniqueIds(users: seq<UserData>) {
    forall i, j :: 0 <= i < j < |users| ==> users[i].id != users[j].id
  }

  /** Storing an existing id overwrites that profile where it stands; the length and all
      other profiles stay as they were. */
  lemma UpsertExisting(users: seq<UserData>, user: UserData, i: nat)
    requires i < |users| && users[i].id == user.id
    requires forall j :: 0 <= j < i ==> users[j].id != user.id
    ensures |Upsert(users, user)| == |users|
    ensures Upsert(users, user)[i] == user
    ensures forall j :: 0 <= j < |users| && j != i ==> Upsert(users, user)[j] == users[j]
  {
    FirstIndex(users, user.id, i);
  }

  /** Storing a new id appends it after all existing profiles. */
  lemma UpsertNew(users: seq<UserData>, user: UserData)
    requires forall j :: 0 <= j < |users| ==> users[j].id != user.id
    ensures Upsert(users, user) == users + [user]
  {
  }

  /** After storing, looking the id up gives the stored profile: the last write wins. */
  lemma LastWriteWins(users: seq<UserData>, user: UserData)
    ensures GetUserData(Records(Upsert(users, user)), user.id) == Ok(user)
  {
    var after := Upsert(users, user);
    match IndexOfId(users, user.id)
    case Some(i) =>
      assert after == users[i := user];
      FirstIndex(after, user.id, i);
    case None =>
      assert after == users + [user];
      FirstIndex(after, user.id, |users|);
  }

  /** Storing a profile does not change what any other id looks up to. */
  lemma OthersUnchanged(users: seq<UserData>, user: UserData, id: string)
    requires id != user.id
    ensures GetUserData(Records(Upsert(users, user)), id) == GetUserData(Records(users), id)
  {
    var after := Upsert(users, user);
    match IndexOfId(users, id)
    case Some(i) =>
      assert after[i] == users[i] by {
        match IndexOfId(users, user.id)
        case Some(k) => assert k != i;
        case None =>
      }
      assert forall j :: 0 <= j < i ==> after[j].id != id;
      FirstIndex(after, id, i);
    case None =>
      assert forall j :: 0 <= j < |after| ==> after[j].id != id;
  }

  /** Ids that were unique before a store are unique after it. */
  lemma UpsertKeepsIdsUnique(users: seq<UserData>, user: UserData)
    requires UniqueIds(users)
    ensures UniqueIds(Upsert(users, user))
  {
  }

  /** `store_user_data`, reading the profiles before the file is emptied: the stored list
      (or an empty one for content that does not parse) with `user` upserted. */
  method StoreUserData(file: UserFile, user: UserData) returns (written: UserFile)
    ensures written == Records(Upsert(ParseUsers(file), user))
  {
    var users := ParseUsers(file);
    match GetUserData(file, user.id) {
      case Ok(_) =>
        // `users.iter_mut().find(|x| x.id == user.id).unwrap()`
        var i := 0;
        while users[i].id != user.id
          invariant i <= IndexOfId(users, user.id).value
          decreases IndexOfId(users, user.id).value - i
        {
          i := i + 1;
        }
        users := users[i := user];
      case Err(_) =>
        users := users + [user];
    }
    written := Records(users);
  }

  /** `store_user_data` as written: the file is opened with `truncate(true)`, so it is
      already empty when it is read and when `get_user_data` reads it again; the profile
      is therefore appended to an empty list and the file ends up holding it alone. */
  function StoreUserDataAsWritten(file: UserFile, user: UserData): (written: UserFile)
    ensures written == Records([user])
  {
    var emptied := Unparsable;
    var users := ParseUsers(emptied);
    assert users + [user] == [user];
    match GetUserData(emptied, user.id)
    case Ok(_) => Records(Upsert(users, user))
    case Err(_) => Records(users + [user])
  }

  /** As written, storing one user's profile loses every other user's profile, where
      the upsert keeps them. */
  lemma TruncationLosesOtherProfiles(users: seq<UserData>, user: UserData, other: UserData)
    requires other in users && other.id != user.id
    ensures GetUserData(StoreUserDataAsWritten(Records(users), user), other.id).Err?
    ensures GetUserData(Records(Upsert(users, user)), other.id).Ok?
  {
    OthersUnchanged(users, user, other.id);
    var k :| 0 <= k < |users| && users[k] == other;
    assert IndexOfId(users, other.id).Some?;
  }
}
