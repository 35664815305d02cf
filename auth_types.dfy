/** The wire records of the authentication API (src/app/utils/types/auth.type.ts). */
module AuthTypes {

  /** The user record the backend issues; the JSON number `id` is modelled as an integer. */
  datatype User = User(id: int, username: string, email: string)

  /** The payload of a successful login: a bearer token and the user it belongs to. */
  datatype AuthResponse = AuthResponse(accessToken: string, user: User)
}
