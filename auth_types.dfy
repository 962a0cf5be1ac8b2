/** The session's response shapes (src/features/auth/types/auth-types.ts).
    Optional fields (`?:` or `| null`) are `Option`s. */
module AuthTypes {
  import opened Wrappers

  datatype AuthUser = AuthUser(id: string, name: string, email: string, photo: Option<string>, createdAt: Option<string>)

  datatype LoginResponse = LoginResponse(message: string, user: AuthUser, accessToken: string, refreshToken: Option<string>)

  /** Registration may come back without a token. */
  datatype RegisterResponse = RegisterResponse(message: string, user: AuthUser, accessToken: Option<string>, refreshToken: Option<string>)

  datatype ProfileResponse = ProfileResponse(user: AuthUser)
}
