/** Session profiles and texture handles (the client's mcuser package). */
module Profile {
  import opened Wrappers
  import opened Upstream

  /** Where a skin texture lives: the cache key and the URL to fetch it from. */
  datatype TextureRef = TextureRef(Key: string, URL: string)

  /** The part of an upstream session-profile reply the client keeps. */
  datatype SessionProfile = SessionProfile(Name: string, Skin: TextureRef)

  /** A player profile resolved from a UUID; replaced, never changed in place. */
  datatype McUser = McUser(
    UUID: string,
    Username: string,
    Timestamp: Timestamp,
    Status: Status,
    Skin: TextureRef)

  /** A profile is valid when the session-profile lookup that produced it succeeded. */
  predicate IsValid(u: McUser) {
    u.Status == StatusOk
  }

  /**
   * The fresh profile built from one session-profile lookup for `uuid`: valid
   * exactly when the lookup succeeded, and then holding the username and skin
   * the reply named.
   */
  function NewMcUser(uuid: string, reply: Result<SessionProfile, ApiError>, now: Timestamp): (u: McUser)
    ensures IsValid(u) <==> reply.Ok?
    ensures u.UUID == uuid && u.Timestamp == now
    ensures reply.Ok? ==> u.Username == reply.value.Name && u.Skin == reply.value.Skin
    ensures reply.Err? ==> u.Status == StatusError(reply.error)
  {
    match reply
    case Ok(p) => McUser(uuid, p.Name, now, StatusOk, p.Skin)
    case Err(e) => McUser(uuid, "", now, StatusError(e), TextureRef("", ""))
  }

  /**
   * What a texture request hands back: the texture's cache key and, when the
   * fetch succeeded, a reader over the fetched bytes (modelled by the bytes it
   * yields).
   */
  datatype TextureIO = TextureIO(TextureID: string, ReadCloser: Option<seq<byte>>)
}
