/** The play-log model and `log_play`, which records who played which song
    and, when a request is at hand, the client's address and user agent. */
module PlayLogModels {
  import opened Wrappers
  import opened Text

  const ForwardedFor := "HTTP_X_FORWARDED_FOR"
  const RemoteAddr := "REMOTE_ADDR"
  const UserAgentHeader := "HTTP_USER_AGENT"

  /** A request's `META` dictionary. */
  type Meta = map<string, string>

  datatype PlayLog = PlayLog(id: int, user: int, song: int, playedAt: int,
                             ipAddress: Option<string>, userAgent: Option<string>)

  /** `META.get(key)`. */
  function Get(meta: Meta, key: string): (r: Option<string>)
    ensures r.Some? <==> key in meta
    ensures r.Some? ==> r.value == meta[key]
  {
    if key in meta then Some(meta[key]) else None
  }

  /** The client address: the first comma-separated entry of a non-empty
      X-Forwarded-For header, otherwise REMOTE_ADDR (None when absent). */
  function ClientIp(meta: Meta): (ip: Option<string>)
    ensures ForwardedFor in meta && meta[ForwardedFor] != "" ==>
      ip.Some? && ip.value <= meta[ForwardedFor] && ',' !in ip.value
      && (',' in meta[ForwardedFor] ==> meta[ForwardedFor][|ip.value|] == ',')
      && (',' !in meta[ForwardedFor] ==> ip.value == meta[ForwardedFor])
    ensures !(ForwardedFor in meta && meta[ForwardedFor] != "") ==> ip == Get(meta, RemoteAddr)
  {
    var forwarded := Get(meta, ForwardedFor);
    if forwarded.Some? && forwarded.value != "" then Some(BeforeFirst(forwarded.value, ','))
    else Get(meta, RemoteAddr)
  }

  /** A header naming a proxy chain yields the address written first. */
  lemma FirstHopWins(client: string, rest: string, meta: Meta)
    requires ',' !in client
    requires ForwardedFor in meta && meta[ForwardedFor] == client + [','] + rest
    ensures ClientIp(meta) == Some(client)
  {
    BeforeFirstSplit(client, rest, ',');
  }

  /** `META.get('HTTP_USER_AGENT', '')`. */
  function UserAgent(meta: Meta): (ua: string)
    ensures UserAgentHeader in meta ==> ua == meta[UserAgentHeader]
    ensures UserAgentHeader !in meta ==> ua == ""
  {
    GetOr(Get(meta, UserAgentHeader), "")
  }

  /** The play-log table. */
  class PlayLogTable {
    var rows: seq<PlayLog>
    var nextId: int

    constructor ()
      ensures rows == [] && nextId == 1
    {
      rows, nextId := [], 1;
    }

    /** Stores a new log under the next id, played now. */
    method Create(user: int, song: int, now: int, ip: Option<string>, ua: Option<string>) returns (log: PlayLog)
      modifies this
      ensures log == PlayLog(old(nextId), user, song, now, ip, ua)
      ensures rows == old(rows) + [log] && nextId == old(nextId) + 1
    {
      log := PlayLog(nextId, user, song, now, ip, ua);
      rows := rows + [log];
      nextId := nextId + 1;
    }

    /** `log_play`: without a request neither address nor agent is known;
        with one both are read from its headers. */
    method LogPlay(user: int, song: int, request: Option<Meta>, now: int) returns (log: PlayLog)
      modifies this
      ensures rows == old(rows) + [log] && nextId == old(nextId) + 1
      ensures log.id == old(nextId) && log.user == user && log.song == song && log.playedAt == now
      ensures request.None? ==> log.ipAddress.None? && log.userAgent.None?
      ensures request.Some? ==>
        log.ipAddress == ClientIp(request.value) && log.userAgent == Some(UserAgent(request.value))
    {
      var ip: Option<string> := None;
      var ua: Option<string> := None;
      if request.Some? {
        ip := ClientIp(request.value);
        ua := Some(UserAgent(request.value));
      }
      log := Create(user, song, now, ip, ua);
    }
  }
}
