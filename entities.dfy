/** The user entity and the two request bodies of the users endpoint. */
module Entities {
  import opened JavaStrings

  /** The fields of the User entity that the users kernel reads and writes. */
  datatype User = User(name: JString, email: JString, password: JString)

  /** The registration request body. */
  datatype UserDTO = UserDTO(name: JString, email: JString, password: JString)

  /** The authentication request body. */
  datatype CredentialsDTO = CredentialsDTO(email: JString, password: JString)
}
