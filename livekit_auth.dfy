/** The claim set of a LiveKit access token.  The HS256 signature over it
    (section 3.2 of RFC 7518) is not modelled: a token is its claims.  The
    API key comes from the settings and the current Unix time from the clock;
    both are parameters here. */
module LiveKitAuth {
  import opened Wrappers
  import opened Json

  datatype VideoGrant = VideoGrant(room: string, roomJoin: bool, canPublish: bool, canSubscribe: bool)

  datatype Claims = Claims(
    iss: string,
    sub: string,
    jti: string,
    nbf: int,
    exp: int,
    video: VideoGrant,
    /** The `metadata` claim: absent, or the JSON text of the metadata dict. */
    metadata: Option<JsonText>)

  /** `create_livekit_token(user_id, room_name, metadata, can_publish,
      can_subscribe, ttl)` at Unix time `now`.  The claims name the
      participant and the room, are valid from `now` for exactly `ttl`
      seconds, always grant joining, and copy the two permissions. */
  function CreateToken(
    apiKey: string, now: int, userId: string, roomName: string,
    metadata: Option<seq<(string, Json)>> := None,
    canPublish: bool := true, canSubscribe: bool := true, ttl: int := 3600): (c: Claims)
    ensures c.iss == apiKey && c.sub == userId
    ensures c.nbf == now && c.exp - c.nbf == ttl
    ensures |c.jti| == |roomName| + 1 + |userId|
    ensures c.jti[..|roomName|] == roomName && c.jti[|roomName|] == ':' && c.jti[|roomName| + 1..] == userId
    ensures c.video.room == roomName && c.video.roomJoin
    ensures c.video.canPublish == canPublish && c.video.canSubscribe == canSubscribe
  {
    var metadataText :=
      if metadata.Some? && metadata.value != [] then Some(Dumps(JObject(metadata.value), false)) else None;
    var jti := roomName + ":" + userId;
    assert jti[|roomName| + 1..] == userId;
    Claims(
      iss := apiKey,
      sub := userId,
      jti := jti,
      nbf := now,
      exp := now + ttl,
      video := VideoGrant(roomName, true, canPublish, canSubscribe),
      metadata := metadataText)
  }

  /** The `metadata` claim is present exactly when the metadata dict is
      non-empty, and then decodes back to that dict. */
  lemma CreateTokenMetadata(
    apiKey: string, now: int, userId: string, roomName: string,
    metadata: Option<seq<(string, Json)>>, canPublish: bool, canSubscribe: bool, ttl: int)
    ensures var c := CreateToken(apiKey, now, userId, roomName, metadata, canPublish, canSubscribe, ttl);
      && (c.metadata.Some? <==> metadata.Some? && metadata.value != [])
      && (c.metadata.Some? ==> Loads(c.metadata.value) == Success(JObject(metadata.value)))
  {
  }

  /** Without optional arguments the token lasts an hour and allows both
      publishing and subscribing. */
  lemma CreateTokenDefaults(apiKey: string, now: int, userId: string, roomName: string)
    ensures var c := CreateToken(apiKey, now, userId, roomName);
      c.exp == now + 3600 && c.video.canPublish && c.video.canSubscribe && c.metadata.None?
  {
  }
}
