/** `CreatePlayLogSerializer`: the client names only the song; the user, the
    address and the user agent come from the request. */
module PlayLogSerializers {
  import opened Wrappers
  import opened Decimal
  import opened PlayLogModels

  const SongField := "song"
  const Required := "This field is required."

  /** The request body's fields, each with an integer value. */
  type Payload = map<string, int>

  function DoesNotExist(pk: int): string {
    "Invalid pk \"" + IntToString(pk) + "\" - object does not exist."
  }

  /** Validation reads the `song` field only; it must name an existing
      song. Any other field of the body is ignored. */
  function ValidateSong(payload: Payload, songs: set<int>): (r: Result<int, string>)
    ensures SongField !in payload ==> r == Err(Required)
    ensures SongField in payload ==>
      (r.Ok? <==> payload[SongField] in songs)
      && (r.Ok? ==> r.value == payload[SongField])
      && (r.Err? ==> r.error == DoesNotExist(payload[SongField]))
  {
    if SongField !in payload then Err(Required)
    else if payload[SongField] in songs then Ok(payload[SongField])
    else Err(DoesNotExist(payload[SongField]))
  }

  /** Only the `song` field matters: bodies that agree on it validate alike. */
  lemma OnlySongCounts(p1: Payload, p2: Payload, songs: set<int>)
    requires (SongField in p1) == (SongField in p2)
    requires SongField in p1 ==> p1[SongField] == p2[SongField]
    ensures ValidateSong(p1, songs) == ValidateSong(p2, songs)
  {
  }

  /** `create`: the log's user is the requester whatever the body says; the
      address follows the X-Forwarded-For rule and the agent defaults to ''. */
  method Create(t: PlayLogTable, requester: int, song: int, meta: Meta, now: int) returns (log: PlayLog)
    modifies t
    ensures t.rows == old(t.rows) + [log] && t.nextId == old(t.nextId) + 1
    ensures log == PlayLog(old(t.nextId), requester, song, now, ClientIp(meta), Some(UserAgent(meta)))
  {
    var ip := ClientIp(meta);
    var ua := UserAgent(meta);
    log := t.Create(requester, song, now, ip, Some(ua));
  }
}
