/** The user document (api/models/user.model.js): its fields, the defaults the
    schema fills in, the required-field validation, and the `isAdminEmail` static. */
module UserModel {
  import opened Common

  const DefaultAvatar: string :=
    "https://static.vecteezy.com/system/resources/previews/009/734/564/non_2x/default-avatar-profile-icon-of-social-media-user-vector.jpg"

  /** A stored user. The password is only ever held as a digest. */
  datatype User = User(username: string, email: string, password: Digest,
                       avatar: string, isAdmin: bool, adminPasscode: string)

  /** A user as every API response shows it: the stored fields without the password. */
  datatype PublicUser = PublicUser(id: Id, username: string, email: string,
                                   avatar: string, isAdmin: bool, adminPasscode: string)

  /** `const { password, ...rest } = user._doc` */
  function Public(id: Id, u: User): PublicUser {
    PublicUser(id, u.username, u.email, u.avatar, u.isAdmin, u.adminPasscode)
  }

  /** Two stored users look the same in a response exactly when they differ at
      most in their password: the projection drops the password and nothing else. */
  lemma PublicForgetsOnlyPassword(id: Id, u: User, v: User)
    ensures Public(id, u) == Public(id, v) <==> u.(password := v.password) == v
  {
  }

  /** The fields `User.create` receives; `None` is an absent field. */
  datatype NewUser = NewUser(username: Option<string>, email: Option<string>,
                             password: Option<Digest>, avatar: Option<string>)

  /** Mongoose's `required` validator rejects an absent value and the empty string. */
  predicate Present(v: Option<string>) {
    v.Some? && v.value != ""
  }

  /** Schema validation and defaults for a new user document. A validation
      error carries no status code, so the error middleware answers 500. */
  function CreateUser(f: NewUser): (r: Result<User>)
    ensures r.Ok? <==> Present(f.username) && Present(f.email) && f.password.Some?
    ensures r.Ok? ==> r.value.username == f.username.value && r.value.email == f.email.value
                      && r.value.password == f.password.value
    ensures r.Ok? ==> !r.value.isAdmin && r.value.adminPasscode == ""
    ensures r.Ok? ==> r.value.avatar == (if f.avatar.Some? then f.avatar.value else DefaultAvatar)
    ensures r.Err? ==> r.error.status == 500
  {
    if !Present(f.username) || !Present(f.email) || f.password.None? then
      Err(HttpError(500, "User validation failed"))
    else
      Ok(User(f.username.value, f.email.value, f.password.value,
              if f.avatar.Some? then f.avatar.value else DefaultAvatar,
              false, ""))
  }

  /** `User.isAdminEmail(email)`: strict equality with the configured admin email;
      an undefined email never matches. */
  predicate IsAdminEmail(email: Option<string>, env: Env) {
    email == Some(AdminEmail(env))
  }

  lemma IsAdminEmailDefault(email: Option<string>, env: Env)
    requires env.adminEmail.None? || env.adminEmail == Some("")
    ensures IsAdminEmail(email, env) <==> email == Some("x@x")
  {
  }
}
