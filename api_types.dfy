/** Login types shared by server and client (api-types/src/lib.rs). */
module ApiTypes {

  /** What a user submits to log in. */
  datatype LoginInfo = LoginInfo(username: string) {

    /** A login is acceptable exactly when the user name is not empty. */
    predicate IsValid() {
      username != ""
    }
  }
}
