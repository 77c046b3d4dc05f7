/** Field copies between the User entity and its request body. */
module UserMapper {
  import opened Entities

  /** The body built from an entity: the three fields, unchanged. */
  function ToDTO(user: User): (dto: UserDTO)
    ensures dto.name == user.name && dto.email == user.email && dto.password == user.password
  {
    UserDTO(user.name, user.email, user.password)
  }

  /** The entity built from a body: the three fields, with no trimming or hashing. */
  function ToEntity(dto: UserDTO): (user: User)
    ensures user.name == dto.name && user.email == dto.email && user.password == dto.password
  {
    User(dto.name, dto.email, dto.password)
  }

  lemma BodyRoundTrip(dto: UserDTO)
    ensures ToDTO(ToEntity(dto)) == dto
  {
  }

  lemma EntityRoundTrip(user: User)
    ensures ToEntity(ToDTO(user)) == user
  {
  }
}
