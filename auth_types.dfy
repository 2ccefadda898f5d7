/** The session record and its user, as declared in src/vite-env.d.ts. */
module AuthTypes {
  import opened Wrappers

  /** The role tags a user can carry. */
  datatype Role = Customer | Admin | SuperAdmin

  /** The identity record of a signed-in user (IUser). */
  datatype User = User(
    id: string,
    fullName: string,
    email: string,
    avatar: Option<string>,
    phoneNumber: Option<string>,
    isEmailVerified: bool,
    roles: seq<Role>,
    createdAt: string,
    updatedAt: string)

  /** A session (IAuth): the user and its two bearer tokens. */
  datatype Auth = Auth(user: User, accessToken: string, refreshToken: string)

  /** A news record (INews), the row type of the news screen. */
  datatype News = News(
    id: string,
    title: string,
    imageUrl: string,
    newsLink: string,
    status: bool,
    isBanner: bool,
    createdAt: string,
    updatedAt: string)
}
