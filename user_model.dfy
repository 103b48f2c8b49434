/** The Mongoose `User` schema: its fields, the defaults Mongoose fills in when a
    document is constructed, and the `required` validators that make `save()` fail. */
module UserModel {
  import opened Text

  /** The `role` enum: only "user" and "admin" are admitted. */
  datatype Role = UserRole | AdminRole

  /** A stored user document. `password` and `profilePic` are optional paths;
      `userType` is not a path of the schema, so a document never carries one. */
  datatype User = User(
    id: string,
    name: string,
    email: string,
    password: Option<string>,
    profilePic: Option<string>,
    authProvider: string,
    role: Role,
    createdAt: int)

  /** The fields a caller passes to `new User({...})`; absent ones are `None`. */
  datatype Fields = Fields(
    name: string,
    email: string,
    password: Option<string>,
    profilePic: Option<string>,
    authProvider: Option<string>,
    role: Option<Role>)

  /** `new User(fields)`: `_id` is generated and `created_at` is `Date.now`
      (both parameters here); `auth_provider` defaults to "google", `role` to "user". */
  function NewDocument(f: Fields, id: string, now: int): (u: User)
    ensures u.name == f.name && u.email == f.email && u.id == id && u.createdAt == now
    ensures u.password == f.password && u.profilePic == f.profilePic
    ensures f.authProvider.None? ==> u.authProvider == "google"
    ensures f.authProvider.Some? ==> u.authProvider == f.authProvider.value
    ensures f.role.None? ==> u.role == UserRole
  {
    User(id, f.name, f.email, f.password, f.profilePic,
         match f.authProvider case Some(p) => p case None => "google",
         match f.role case Some(r) => r case None => UserRole,
         now)
  }

  /** The `required` validators: a string path that is missing or empty fails
      validation, and `save()` then rejects the document. */
  predicate Valid(u: User) {
    u.name != "" && u.email != ""
  }

  /** The collection, keyed by email: each document is filed under its own email
      and passed validation when it was saved. */
  ghost predicate StoreValid(users: map<string, User>) {
    forall e :: e in users ==> users[e].email == e && Valid(users[e])
  }

  /** Keying the collection by email is the `unique` index: two different
      documents never share an email. */
  lemma EmailsUnique(users: map<string, User>, e1: string, e2: string)
    requires StoreValid(users) && e1 in users && e2 in users && e1 != e2
    ensures users[e1].email != users[e2].email
  {
  }

  /** Validation depends only on the two required fields; the optional password
      may be absent, as it is for accounts created through Google. */
  lemma ValidIffRequired(f: Fields, id: string, now: int)
    ensures Valid(NewDocument(f, id, now)) <==> f.name != "" && f.email != ""
    ensures Valid(NewDocument(f.(password := None), id, now)) == Valid(NewDocument(f, id, now))
  {
  }
}
