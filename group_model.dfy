/**
 * The group record kept by the authoritative store, the two request and
 * response shapes of the group API, and the mapper between them.  The
 * mapper's clock and id generator are injected in the service; here their
 * readings are parameters.
 */
module GroupModel {
  import opened ChatTypes

  /** A chat group as stored (Group.java). */
  datatype Group = Group(
    groupID: Uuid,
    title: string,
    description: string,
    admin: Uuid,
    members: seq<Uuid>,
    createdAt: Instant,
    updatedAt: Instant)

  /** The body of a create or update request (CreateGroupDto.java). */
  datatype CreateGroupDto = CreateGroupDto(
    title: string,
    description: string,
    admin: Uuid,
    members: seq<Uuid>)

  /** The group as the API returns it (GroupDto.java). */
  datatype GroupDto = GroupDto(
    groupID: Uuid,
    title: string,
    description: string,
    admin: Uuid,
    members: seq<Uuid>,
    createdAt: Instant,
    updatedAt: Instant)

  /**
   * GroupMapper.toDomain: a new group whose id is the generator's next id
   * and whose two timestamps are two separate readings of the clock.
   */
  function ToDomain(dto: CreateGroupDto, generatedId: Uuid, firstRead: Instant, secondRead: Instant): (g: Group)
    ensures g.groupID == generatedId && g.createdAt == firstRead && g.updatedAt == secondRead
    ensures g.title == dto.title && g.description == dto.description && g.admin == dto.admin && g.members == dto.members
  {
    Group(generatedId, dto.title, dto.description, dto.admin, dto.members, firstRead, secondRead)
  }

  /** GroupMapper.toDto: every field of the group, unchanged. */
  function ToDto(g: Group): (d: GroupDto)
    ensures d.groupID == g.groupID && d.title == g.title && d.description == g.description
    ensures d.admin == g.admin && d.members == g.members
    ensures d.createdAt == g.createdAt && d.updatedAt == g.updatedAt
  {
    GroupDto(g.groupID, g.title, g.description, g.admin, g.members, g.createdAt, g.updatedAt)
  }

  /** The response carries every field the request supplied. */
  predicate Carries(d: GroupDto, dto: CreateGroupDto)
  {
    d.title == dto.title && d.description == dto.description
    && d.admin == dto.admin && d.members == dto.members
  }

  /**
   * A created group reaches the caller with the request's title,
   * description, admin and members, the generated id and the two clock
   * readings; nothing else of the request or the environment matters.
   */
  lemma CreatedDtoCarriesRequest(dto: CreateGroupDto, generatedId: Uuid, firstRead: Instant, secondRead: Instant)
    ensures Carries(ToDto(ToDomain(dto, generatedId, firstRead, secondRead)), dto)
    ensures ToDto(ToDomain(dto, generatedId, firstRead, secondRead)).groupID == generatedId
    ensures ToDto(ToDomain(dto, generatedId, firstRead, secondRead)).createdAt == firstRead
    ensures ToDto(ToDomain(dto, generatedId, firstRead, secondRead)).updatedAt == secondRead
  {
  }

  /** toDomain keeps nothing of the request beyond its four fields. */
  lemma ToDomainDependsOnlyOnRequestFields(a: CreateGroupDto, b: CreateGroupDto, generatedId: Uuid, firstRead: Instant, secondRead: Instant)
    ensures ToDomain(a, generatedId, firstRead, secondRead) == ToDomain(b, generatedId, firstRead, secondRead)
        <==> a == b
  {
  }

  /** Under a clock that does not move between its two readings, both timestamps agree. */
  lemma FixedClockStampsAgree(dto: CreateGroupDto, generatedId: Uuid, now: Instant)
    ensures ToDomain(dto, generatedId, now, now).createdAt == ToDomain(dto, generatedId, now, now).updatedAt
  {
  }

  /** toDto loses no field: two groups with the same response are the same group. */
  lemma ToDtoLosesNothing(a: Group, b: Group)
    ensures ToDto(a) == ToDto(b) <==> a == b
  {
  }
}
