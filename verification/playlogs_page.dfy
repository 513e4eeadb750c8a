/** The play-logs page: the case-insensitive search filter over the loaded
    logs. Its relative-time label is `TimeAgo.Describe`. */
module PlayLogsPage {
  import opened Text

  /** The three fields of a listed log the search looks at. */
  datatype PlayLogRow = PlayLogRow(songTitle: string, songArtist: string, userName: string)

  /** The search term, lower-cased, occurs in the lower-cased title, artist
      or user name. */
  predicate Matches(log: PlayLogRow, term: string)
    ensures term == "" ==> Matches(log, term)
  {
    var t := ToLower(term);
    Contains(ToLower(log.songTitle), t) || Contains(ToLower(log.songArtist), t)
      || Contains(ToLower(log.userName), t)
  }

  /** `a` is `b` with some elements dropped, in the original order. */
  predicate IsSubsequence<T(==)>(a: seq<T>, b: seq<T>)
    decreases |b|
  {
    a == [] || (b != [] && ((a[0] == b[0] && IsSubsequence(a[1..], b[1..])) || IsSubsequence(a, b[1..])))
  }

  /** `filteredLogs`: the logs matching the term, in their listed order. */
  function Filter(logs: seq<PlayLogRow>, term: string): (r: seq<PlayLogRow>)
    ensures |r| <= |logs|
    ensures forall i :: 0 <= i < |r| ==> Matches(r[i], term)
    ensures forall log :: log in r <==> log in logs && Matches(log, term)
  {
    if logs == [] then []
    else if Matches(logs[0], term) then [logs[0]] + Filter(logs[1..], term)
    else Filter(logs[1..], term)
  }

  /** An empty search keeps every log. */
  lemma {:induction false} EmptyTermKeepsAll(logs: seq<PlayLogRow>)
    ensures Filter(logs, "") == logs
  {
    if logs != [] {
      assert ToLower("") == "";
      assert Contains(ToLower(logs[0].songTitle), "");
      EmptyTermKeepsAll(logs[1..]);
      assert logs == [logs[0]] + logs[1..];
    }
  }

  /** The result keeps the relative order of the input. */
  lemma {:induction false} FilterIsSubsequence(logs: seq<PlayLogRow>, term: string)
    ensures IsSubsequence(Filter(logs, term), logs)
  {
    if logs != [] {
      FilterIsSubsequence(logs[1..], term);
      var r := Filter(logs, term);
      if Matches(logs[0], term) {
        assert r[0] == logs[0] && r[1..] == Filter(logs[1..], term);
      }
    }
  }

  /** Filtering a filtered list again changes nothing. */
  lemma {:induction false} FilterIdempotent(logs: seq<PlayLogRow>, term: string)
    ensures Filter(Filter(logs, term), term) == Filter(logs, term)
  {
    if logs != [] {
      FilterIdempotent(logs[1..], term);
      if Matches(logs[0], term) {
        var r := Filter(logs, term);
        assert r[0] == logs[0] && r[1..] == Filter(logs[1..], term);
      }
    }
  }
}
