/** AuthService: the session's current user, mirrored into the browser's
    key-value store under `apocalypseUser`, and the tier-based access check. */
module AuthService {
  import opened Common

  /** A user record: field name to value (every field the service writes is a string). */
  type User = map<string, string>

  /** The store key the session is mirrored under. */
  const StorageKey := "apocalypseUser"

  /** A stored item: a user record, or text that does not parse as one. */
  datatype StoredItem = UserRecord(user: User) | Malformed(text: string)

  // ---- access control -------------------------------------------------------

  /** The tier a user record carries, if any. */
  function Tier(u: User): Option<string> {
    if "subscriptionTier" in u then Some(u["subscriptionTier"]) else None
  }

  /** hasAccess: no user has no access; otherwise the user's subscription
      tier decides, and a missing or unknown tier has no access. */
  function HasAccess(user: Option<User>, contentType: string, contentId: string): (r: bool)
    ensures r ==> user.Some? && Tier(user.value) in {Some("premium"), Some("standard"), Some("basic")}
    ensures user.Some? && Tier(user.value) == Some("premium") ==> r
  {
    if user.None? then false
    else
      var tier := Tier(user.value);
      if tier == Some("premium") then true
      else if tier == Some("standard") then contentType != "premium-exclusive"
      else if tier == Some("basic") then contentType in ["free", "basic"]
      else false
  }

  lemma NoUserNoAccess(contentType: string, contentId: string)
    ensures !HasAccess(None, contentType, contentId)
  {
  }

  lemma PremiumSeesEverything(u: User, contentType: string, contentId: string)
    requires Tier(u) == Some("premium")
    ensures HasAccess(Some(u), contentType, contentId)
  {
  }

  lemma StandardAccess(u: User, contentType: string, contentId: string)
    requires Tier(u) == Some("standard")
    ensures HasAccess(Some(u), contentType, contentId) <==> contentType != "premium-exclusive"
  {
  }

  lemma BasicAccess(u: User, contentType: string, contentId: string)
    requires Tier(u) == Some("basic")
    ensures HasAccess(Some(u), contentType, contentId) <==> contentType == "free" || contentType == "basic"
  {
  }

  /** With no tier, or any tier outside the table, nothing is accessible. */
  lemma OtherTiersNoAccess(u: User, contentType: string, contentId: string)
    requires Tier(u) !in {Some("premium"), Some("standard"), Some("basic")}
    ensures !HasAccess(Some(u), contentType, contentId)
  {
  }

  /** The content id never matters. */
  lemma ContentIdIrrelevant(user: Option<User>, contentType: string, id1: string, id2: string)
    ensures HasAccess(user, contentType, id1) == HasAccess(user, contentType, id2)
  {
  }

  /** Access only shrinks from premium to standard to basic. */
  lemma TiersNested(u: User, v: User, w: User, contentType: string, contentId: string)
    requires Tier(u) == Some("premium") && Tier(v) == Some("standard") && Tier(w) == Some("basic")
    ensures HasAccess(Some(w), contentType, contentId) ==> HasAccess(Some(v), contentType, contentId)
    ensures HasAccess(Some(v), contentType, contentId) ==> HasAccess(Some(u), contentType, contentId)
  {
  }

  // ---- the user records the session writes ----------------------------------

  /** register's new user: the given email and name, a basic active member.
      The id (`user_` and the clock) and the registration timestamp come from
      the clock and are parameters here. */
  function NewMember(id: string, email: string, name: string, memberSince: string): (u: User)
    ensures u.Keys == {"id", "email", "name", "role", "memberSince", "subscriptionStatus", "subscriptionTier"}
    ensures u["email"] == email && u["name"] == name && u["id"] == id && u["memberSince"] == memberSince
    ensures u["role"] == "member" && u["subscriptionStatus"] == "active" && Tier(u) == Some("basic")
  {
    map["id" := id, "email" := email, "name" := name, "role" := "member", "memberSince" := memberSince,
        "subscriptionStatus" := "active", "subscriptionTier" := "basic"]
  }

  /** login's mock user: the given email on a fixed premium member. */
  function LoginUser(email: string): (u: User)
    ensures u.Keys == {"id", "email", "name", "role", "memberSince", "subscriptionStatus", "subscriptionTier"}
    ensures u["email"] == email && u["id"] == "user_123456" && u["name"] == "Membro Apocalypse"
    ensures u["role"] == "member" && u["memberSince"] == "2025-01-15T00:00:00.000Z"
    ensures u["subscriptionStatus"] == "active" && Tier(u) == Some("premium")
  {
    map["id" := "user_123456", "email" := email, "name" := "Membro Apocalypse", "role" := "member",
        "memberSince" := "2025-01-15T00:00:00.000Z", "subscriptionStatus" := "active",
        "subscriptionTier" := "premium"]
  }

  /** `{ ...currentUser, ...userData }`: every field of the update, and every
      other field of the current user (spreading `null` adds nothing). */
  function MergeProfile(current: Option<User>, userData: User): (r: User)
    ensures r.Keys == userData.Keys + (if current.Some? then current.value.Keys else {})
    ensures forall k :: k in userData ==> r[k] == userData[k]
    ensures current.Some? ==> forall k :: k in current.value && k !in userData ==> r[k] == current.value[k]
  {
    (if current.Some? then current.value else map[]) + userData
  }

  /** A registered user can see free and basic content and nothing guarded
      by another tier; a logged-in user can see everything. */
  lemma SessionUsersAccess(id: string, email: string, name: string, memberSince: string, contentType: string,
                           contentId: string)
    ensures HasAccess(Some(NewMember(id, email, name, memberSince)), contentType, contentId) <==>
              contentType == "free" || contentType == "basic"
    ensures HasAccess(Some(LoginUser(email)), contentType, contentId)
  {
    BasicAccess(NewMember(id, email, name, memberSince), contentType, contentId);
  }

  /** An update that sets the tier decides access by the new tier alone. */
  lemma UpdatedTierDecides(current: Option<User>, userData: User, contentType: string, contentId: string)
    requires "subscriptionTier" in userData
    ensures HasAccess(Some(MergeProfile(current, userData)), contentType, contentId) ==
            HasAccess(Some(map["subscriptionTier" := userData["subscriptionTier"]]), contentType, contentId)
  {
  }

  // ---- the session ----------------------------------------------------------

  /** The provider's state: the current user, the loading and error flags,
      and the browser store. */
  class AuthSession {
    var currentUser: Option<User>
    var loading: bool
    var error: Option<string>
    var storage: map<string, StoredItem>

    /** The stored record and the current user agree. */
    ghost predicate Mirrored()
      reads this
    {
      currentUser.Some? ==> StorageKey in storage && storage[StorageKey] == UserRecord(currentUser.value)
    }

    /** Mounting the provider: a stored user record becomes the current user;
        stored text that is not a record is removed, unless it is empty
        (an empty string is never parsed); then loading ends. */
    constructor(stored: map<string, StoredItem>)
      ensures loading == false && error == None
      ensures StorageKey in stored && stored[StorageKey].UserRecord? ==>
                currentUser == Some(stored[StorageKey].user) && storage == stored
      ensures StorageKey in stored && stored[StorageKey] != Malformed("") && stored[StorageKey].Malformed? ==>
                currentUser == None && storage == stored - {StorageKey}
      ensures (StorageKey !in stored || stored[StorageKey] == Malformed("")) ==>
                currentUser == None && storage == stored
      ensures Mirrored()
    {
      currentUser := None;
      error := None;
      storage := stored;
      loading := true;
      if StorageKey in stored && stored[StorageKey] != Malformed("") {
        match stored[StorageKey]
        case UserRecord(u) =>
          currentUser := Some(u);
        case Malformed(_) =>
          storage := stored - {StorageKey};
      }
      loading := false;
    }

    /** register: a new basic member becomes the current user and is stored. */
    method Register(email: string, password: string, name: string, id: string, memberSince: string)
      returns (u: User)
      modifies this
      ensures u == NewMember(id, email, name, memberSince)
      ensures currentUser == Some(u)
      ensures storage == old(storage)[StorageKey := UserRecord(u)]
      ensures loading == false && error == None
      ensures Mirrored()
    {
      loading := true;
      error := None;
      u := NewMember(id, email, name, memberSince);
      storage := storage[StorageKey := UserRecord(u)];
      currentUser := Some(u);
      loading := false;
    }

    /** login: the mock premium member with the given email becomes the
        current user and is stored; the password is not checked. */
    method Login(email: string, password: string) returns (u: User)
      modifies this
      ensures u == LoginUser(email)
      ensures currentUser == Some(u)
      ensures storage == old(storage)[StorageKey := UserRecord(u)]
      ensures loading == false && error == None
      ensures Mirrored()
    {
      loading := true;
      error := None;
      u := LoginUser(email);
      storage := storage[StorageKey := UserRecord(u)];
      currentUser := Some(u);
      loading := false;
    }

    /** logout: the stored user is removed and there is no current user. */
    method Logout()
      modifies this`storage, this`currentUser
      ensures storage == old(storage) - {StorageKey}
      ensures currentUser == None
      ensures Mirrored()
    {
      storage := storage - {StorageKey};
      currentUser := None;
    }

    /** updateProfile: the update's fields over the current user's, stored
        and made current. */
    method UpdateProfile(userData: User) returns (u: User)
      modifies this
      ensures u == MergeProfile(old(currentUser), userData)
      ensures currentUser == Some(u)
      ensures storage == old(storage)[StorageKey := UserRecord(u)]
      ensures loading == false && error == None
      ensures Mirrored()
    {
      loading := true;
      error := None;
      u := MergeProfile(currentUser, userData);
      storage := storage[StorageKey := UserRecord(u)];
      currentUser := Some(u);
      loading := false;
    }

    /** hasAccess on the session's current user. */
    function HasAccessNow(contentType: string, contentId: string): (r: bool)
      reads this
      ensures currentUser.None? ==> !r
      ensures r ==> currentUser.Some? && Tier(currentUser.value) in {Some("premium"), Some("standard"), Some("basic")}
    {
      HasAccess(currentUser, contentType, contentId)
    }
  }
}
