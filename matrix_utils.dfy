/** String helpers for Matrix user ids and room aliases (src/utils/matrix.utils.ts).
    The homeserver URL is parsed by the host's URL parser; here its hostname is a parameter. */
module MatrixUtils {

  /** `s.startsWith(c)` for a one-character prefix. */
  predicate StartsWith(s: string, c: char)
  {
    |s| > 0 && s[0] == c
  }

  /** The test `formatUserId` uses to recognise an id that is already fully qualified. */
  predicate IsQualifiedUserId(s: string)
    ensures IsQualifiedUserId(s) ==> |s| >= 2 && s[0] == '@'
  {
    StartsWith(s, '@') && ':' in s
  }

  /** `formatUserId(username, homeserver)` with `new URL(homeserver).hostname` given as `hostname`. */
  function FormatUserId(username: string, hostname: string): (r: string)
    ensures IsQualifiedUserId(r)
    ensures IsQualifiedUserId(username) ==> r == username
    ensures !IsQualifiedUserId(username) ==>
      && |r| == |username| + |hostname| + 2
      && r[0] == '@'
      && r[1..|username| + 1] == username
      && r[|username| + 1] == ':'
      && r[|username| + 2..] == hostname
  {
    if IsQualifiedUserId(username) then username
    else
      var r := "@" + username + ":" + hostname;
      assert r[|username| + 1] == ':';
      r
  }

  /** Formatting an id a second time with the same hostname changes nothing. */
  lemma FormatUserIdIdempotent(username: string, hostname: string)
    ensures FormatUserId(FormatUserId(username, hostname), hostname) == FormatUserId(username, hostname)
  {
  }

  /** `formatRoomAlias`: prefix '#' unless the input already starts with it. */
  function FormatRoomAlias(roomId: string): (r: string)
    ensures StartsWith(r, '#')
    ensures StartsWith(roomId, '#') ==> r == roomId
    ensures !StartsWith(roomId, '#') ==> |r| == |roomId| + 1 && r[1..] == roomId
  {
    if StartsWith(roomId, '#') then roomId else "#" + roomId
  }

  lemma FormatRoomAliasIdempotent(roomId: string)
    ensures FormatRoomAlias(FormatRoomAlias(roomId)) == FormatRoomAlias(roomId)
  {
  }

  /** `s.split(':')[0]`: the longest prefix of `s` without a ':'. */
  function UpToFirstColon(s: string): (r: string)
    ensures r <= s
    ensures ':' !in r
    ensures |r| < |s| ==> s[|r|] == ':'
  {
    if s == [] || s[0] == ':' then [] else [s[0]] + UpToFirstColon(s[1..])
  }

  /** `truncateUsername`: `userId.split(':')[0].substring(1)`, the localpart of a user id. */
  function TruncateUsername(userId: string): (r: string)
    ensures ':' !in r
    ensures |userId| == 0 || userId[0] == ':' ==> r == []
    ensures |userId| > 0 && userId[0] != ':' ==>
      && |r| < |userId|
      && r == userId[1..|r| + 1]
      && (|r| + 1 == |userId| || userId[|r| + 1] == ':')
  {
    var head := UpToFirstColon(userId);
    if |head| == 0 then [] else head[1..]
  }

  /** Formatting a bare name into a user id and truncating it again gives the name back. */
  lemma TruncateFormatRoundTrip(name: string, hostname: string)
    requires ':' !in name
    ensures TruncateUsername(FormatUserId(name, hostname)) == name
  {
  }
}
