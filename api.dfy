/**
 * The identity client: three requests that each call the upstream API once,
 * apply the stale-on-error rule and write what they decided into the cache
 * tiers. Usernames and UUIDs are expected to be normalised by the caller.
 */
module Api {
  import opened Wrappers
  import opened Upstream
  import Uuid
  import Profile
  import Storage
  import opened StaleOnError

  /**
   * The username -> UUID entry recorded when a profile lookup succeeds: the
   * profile's UUID, timestamp and status, so it is valid exactly when the
   * profile is.
   */
  function UsernameEntry(u: Profile.McUser): (e: Uuid.UUIDEntry)
    ensures Uuid.IsValid(e) <==> Profile.IsValid(u)
    ensures e.UUID == u.UUID && e.Timestamp == u.Timestamp && e.Status == u.Status
  {
    Uuid.UUIDEntry(u.UUID, u.Timestamp, u.Status)
  }

  /** A fetched response body: the bytes read from it, and the error that cut the read short, if any. */
  datatype Body = Body(bytes: seq<byte>, readErr: Option<ApiError>)

  class McClient {
    /** username -> UUID entry tier */
    var uuidCache: map<string, Uuid.UUIDEntry>
    /** UUID -> profile tier */
    var userCache: map<string, Profile.McUser>
    /** texture key -> texture bytes tier */
    var textureCache: map<string, seq<byte>>
    /** How many texture fetches have failed (the texture-fetch-error metric). */
    ghost var textureFetchErrors: nat

    constructor ()
      ensures uuidCache == map[] && userCache == map[] && textureCache == map[]
      ensures textureFetchErrors == 0
    {
      uuidCache, userCache, textureCache := map[], map[], map[];
      textureFetchErrors := 0;
    }

    /**
     * Resolves `username` to a UUID entry, given the caller's prior entry and
     * the upstream lookup's reply at time `now`.
     */
    method RequestUUIDEntry(username: string, uuidEntry: Uuid.UUIDEntry, reply: Result<string, ApiError>, now: Timestamp)
      returns (r: Uuid.UUIDEntry)
      modifies this`uuidCache
      ensures var entryFresh := Uuid.NewUUIDEntry(reply, now);
        Outcome(r, uuidCache) == Refresh(old(uuidCache), username, entryFresh, uuidEntry, Uuid.IsValid)
      ensures reply.Err? && Uuid.IsValid(uuidEntry) ==> r == uuidEntry && uuidCache == old(uuidCache)
      ensures reply.Ok? || !Uuid.IsValid(uuidEntry) ==>
        r == Uuid.NewUUIDEntry(reply, now) && uuidCache == old(uuidCache)[username := r]
    {
      var uuidEntryFresh := Uuid.NewUUIDEntry(reply, now);
      if !Uuid.IsValid(uuidEntryFresh) && Uuid.IsValid(uuidEntry) {
        // The fresh lookup failed but the prior entry is good: keep it, write nothing.
        return uuidEntry;
      }
      uuidCache := Storage.Insert(uuidCache, username, uuidEntryFresh);
      return uuidEntryFresh;
    }

    /**
     * Resolves `uuid` to a profile, given the caller's prior profile and the
     * upstream session-profile reply at time `now`. A valid fresh profile also
     * records its username -> UUID mapping in the UUID tier.
     */
    method RequestMcUser(uuid: string, mcUser: Profile.McUser, reply: Result<Profile.SessionProfile, ApiError>, now: Timestamp)
      returns (r: Profile.McUser)
      modifies this`userCache, this`uuidCache
      ensures var userFresh := Profile.NewMcUser(uuid, reply, now);
        Outcome(r, userCache) == Refresh(old(userCache), uuid, userFresh, mcUser, Profile.IsValid)
      ensures reply.Err? && Profile.IsValid(mcUser) ==>
        r == mcUser && userCache == old(userCache) && uuidCache == old(uuidCache)
      ensures reply.Ok? || !Profile.IsValid(mcUser) ==>
        r == Profile.NewMcUser(uuid, reply, now) && userCache == old(userCache)[uuid := r]
      ensures reply.Ok? ==> uuidCache == old(uuidCache)[r.Username := UsernameEntry(r)]
      ensures reply.Err? ==> uuidCache == old(uuidCache)
    {
      var mcUserFresh := Profile.NewMcUser(uuid, reply, now);
      if !Profile.IsValid(mcUserFresh) && Profile.IsValid(mcUser) {
        // The fresh lookup failed but the prior profile is good: keep it, write nothing.
        return mcUser;
      }
      if Profile.IsValid(mcUserFresh) {
        // Secondary index: the username this profile carries maps to its UUID.
        uuidCache := Storage.Insert(uuidCache, mcUserFresh.Username, UsernameEntry(mcUserFresh));
      }
      userCache := Storage.Insert(userCache, uuid, mcUserFresh);
      return mcUserFresh;
    }

    /**
     * Fetches the texture cached under `textureKey`, given the upstream fetch
     * reply. A failed fetch is counted and returned with nothing cached; a
     * successful one caches the bytes read and hands back a reader over them,
     * together with any error that cut the read short.
     */
    method RequestTexture(textureKey: string, reply: Result<Body, ApiError>)
      returns (textureIO: Profile.TextureIO, err: Option<ApiError>)
      modifies this`textureCache, this`textureFetchErrors
      ensures textureIO.TextureID == textureKey
      ensures reply.Err? ==>
        && err == Some(reply.error)
        && textureIO.ReadCloser == None
        && textureCache == old(textureCache)
        && textureFetchErrors == old(textureFetchErrors) + 1
      ensures reply.Ok? ==>
        && err == reply.value.readErr
        && textureIO.ReadCloser == Some(reply.value.bytes)
        && textureCache == old(textureCache)[textureKey := reply.value.bytes]
        && textureFetchErrors == old(textureFetchErrors)
    {
      textureIO := Profile.TextureIO(textureKey, None);
      if reply.Err? {
        textureFetchErrors := textureFetchErrors + 1;
        err := Some(reply.error);
        return;
      }
      var textureBytes := reply.value.bytes;
      err := reply.value.readErr;
      textureCache := Storage.Insert(textureCache, textureKey, textureBytes);
      textureIO := textureIO.(ReadCloser := Some(textureBytes));
    }
  }
}
