/** The song-selection logic that the playlist dialogs share: toggling an id
    in the selection, the add/remove diff between a playlist's songs and the
    selection, and the sequential issuing of the add and remove requests. */
module PlaylistSelection {
  import opened Wrappers

  /** The song record the playlist dialogs list. */
  datatype Song = Song(id: int, title: string, artist: string, duration: Option<int>, fileUrl: Option<string>)

  /** The playlist record the dialogs receive. */
  datatype PlaylistData = PlaylistData(
    id: int,
    name: string,
    description: Option<string>,
    createdByName: string,
    isPublic: bool,
    songCount: int,
    songs: Option<seq<Song>>)

  /** The ids of a list, as a set. */
  function AsSet(s: seq<int>): set<int> {
    set x | x in s
  }

  predicate NoDuplicates(s: seq<int>) {
    forall i, j :: 0 <= i < j < |s| ==> s[i] != s[j]
  }

  /** `s.filter(x => !excluded.includes(x))`: the elements of `s` outside
      `excluded`, in their order. */
  function Keep(s: seq<int>, excluded: seq<int>): (r: seq<int>)
    ensures forall x :: x in r <==> x in s && x !in excluded
    ensures |r| <= |s|
    ensures NoDuplicates(s) ==> NoDuplicates(r)
  {
    if s == [] then []
    else if s[0] in excluded then Keep(s[1..], excluded)
    else
      var rest := Keep(s[1..], excluded);
      assert NoDuplicates(s) ==> s[0] !in s[1..];
      [s[0]] + rest
  }

  /** `toggleSongSelection`: removes every occurrence of `id` when it is
      selected, appends it otherwise. */
  function Toggle(selected: seq<int>, id: int): (r: seq<int>)
    ensures id in r <==> id !in selected
    ensures forall x | x != id :: x in r <==> x in selected
    ensures NoDuplicates(selected) ==> NoDuplicates(r)
  {
    if id in selected then Keep(selected, [id]) else selected + [id]
  }

  /** Toggling the same id twice restores the selection as a set, and exactly
      when the id was not selected. */
  lemma ToggleTwice(selected: seq<int>, id: int)
    ensures forall x :: x in Toggle(Toggle(selected, id), id) <==> x in selected
    ensures id !in selected ==> Toggle(Toggle(selected, id), id) == selected
  {
    if id !in selected {
      KeepNothingExcluded(selected, [id]);
    }
  }

  /** Filtering out ids that do not occur changes nothing. */
  lemma {:induction false} KeepNothingExcluded(s: seq<int>, excluded: seq<int>)
    requires forall x :: x in excluded ==> x !in s
    ensures Keep(s + excluded, excluded) == s
  {
    if s == [] {
      assert s + excluded == excluded;
      KeepAllExcluded(excluded, excluded);
    } else {
      assert (s + excluded)[1..] == s[1..] + excluded && (s + excluded)[0] == s[0];
      assert s[0] in s;
      KeepNothingExcluded(s[1..], excluded);
      assert s == [s[0]] + s[1..];
    }
  }

  /** Filtering out every element leaves nothing. */
  lemma {:induction false} KeepAllExcluded(s: seq<int>, excluded: seq<int>)
    requires forall i :: 0 <= i < |s| ==> s[i] in excluded
    ensures Keep(s, excluded) == []
  {
    if s != [] {
      KeepAllExcluded(s[1..], excluded);
      assert Keep(s, excluded) == Keep(s[1..], excluded);
    }
  }

  /** `songsToAdd`: selected ids that the playlist does not hold yet. */
  function SongsToAdd(current: seq<int>, selected: seq<int>): (r: seq<int>)
    ensures forall x :: x in r <==> x in selected && x !in current
  {
    Keep(selected, current)
  }

  /** `songsToRemove`: ids of the playlist that are no longer selected. */
  function SongsToRemove(current: seq<int>, selected: seq<int>): (r: seq<int>)
    ensures forall x :: x in r <==> x in current && x !in selected
  {
    Keep(current, selected)
  }

  /** The ids the playlist holds, or none when it carries no song list. */
  function SongIds(songs: Option<seq<Song>>): (r: seq<int>)
    ensures songs.None? ==> r == []
    ensures songs.Some? ==> |r| == |songs.value| && forall i :: 0 <= i < |r| ==> r[i] == songs.value[i].id
  {
    match songs
    case None => []
    case Some(ss) => seq(|ss|, i requires 0 <= i < |ss| => ss[i].id)
  }

  /** A request to the playlist endpoints. */
  datatype Call = AddSong(playlist: int, song: int) | RemoveSong(playlist: int, song: int)

  function AddCalls(playlist: int, ids: seq<int>): (r: seq<Call>)
    ensures |r| == |ids| && forall i :: 0 <= i < |r| ==> r[i] == AddSong(playlist, ids[i])
  {
    seq(|ids|, i requires 0 <= i < |ids| => AddSong(playlist, ids[i]))
  }

  function RemoveCalls(playlist: int, ids: seq<int>): (r: seq<Call>)
    ensures |r| == |ids| && forall i :: 0 <= i < |r| ==> r[i] == RemoveSong(playlist, ids[i])
  {
    seq(|ids|, i requires 0 <= i < |ids| => RemoveSong(playlist, ids[i]))
  }

  /** Every add, in list order, before every remove, in list order. */
  function Plan(playlist: int, current: seq<int>, selected: seq<int>): seq<Call> {
    AddCalls(playlist, SongsToAdd(current, selected)) + RemoveCalls(playlist, SongsToRemove(current, selected))
  }

  /** The effect of the requests on the playlist's membership, one at a time
      (adding a member again changes nothing). */
  function Applied(members: set<int>, calls: seq<Call>): set<int>
    decreases |calls|
  {
    if calls == [] then members
    else
      var m := match calls[0]
        case AddSong(_, s) => members + {s}
        case RemoveSong(_, s) => members - {s};
      Applied(m, calls[1..])
  }

  lemma {:induction false} AppliedAdds(members: set<int>, playlist: int, ids: seq<int>)
    ensures Applied(members, AddCalls(playlist, ids)) == members + AsSet(ids)
    decreases |ids|
  {
    if ids != [] {
      assert AddCalls(playlist, ids)[1..] == AddCalls(playlist, ids[1..]);
      AppliedAdds(members + {ids[0]}, playlist, ids[1..]);
      assert AsSet(ids) == {ids[0]} + AsSet(ids[1..]);
    }
  }

  lemma {:induction false} AppliedRemoves(members: set<int>, playlist: int, ids: seq<int>)
    ensures Applied(members, RemoveCalls(playlist, ids)) == members - AsSet(ids)
    decreases |ids|
  {
    if ids != [] {
      assert RemoveCalls(playlist, ids)[1..] == RemoveCalls(playlist, ids[1..]);
      AppliedRemoves(members - {ids[0]}, playlist, ids[1..]);
      assert AsSet(ids) == {ids[0]} + AsSet(ids[1..]);
    }
  }

  lemma {:induction false} AppliedConcat(members: set<int>, a: seq<Call>, b: seq<Call>)
    ensures Applied(members, a + b) == Applied(Applied(members, a), b)
    decreases |a|
  {
    if a != [] {
      assert (a + b)[1..] == a[1..] + b && (a + b)[0] == a[0];
      var m := match a[0]
        case AddSong(_, s) => members + {s}
        case RemoveSong(_, s) => members - {s};
      AppliedConcat(m, a[1..], b);
      assert Applied(members, a + b) == Applied(m, (a + b)[1..]);
      assert Applied(members, a) == Applied(m, a[1..]);
    } else {
      assert a + b == b;
    }
  }

  /** The ids to add and to remove never overlap. */
  lemma DiffDisjoint(current: seq<int>, selected: seq<int>)
    ensures forall x :: !(x in SongsToAdd(current, selected) && x in SongsToRemove(current, selected))
  {
  }

  /** Issuing every add and then every remove turns the playlist's songs into
      exactly the selection: current ∪ added \ removed = selected. */
  lemma PlanReachesSelection(playlist: int, current: seq<int>, selected: seq<int>)
    ensures Applied(AsSet(current), Plan(playlist, current, selected)) == AsSet(selected)
  {
    var adds := SongsToAdd(current, selected);
    var removes := SongsToRemove(current, selected);
    AppliedConcat(AsSet(current), AddCalls(playlist, adds), RemoveCalls(playlist, removes));
    AppliedAdds(AsSet(current), playlist, adds);
    AppliedRemoves(AsSet(current) + AsSet(adds), playlist, removes);
  }

  /** The server accepted every one of the planned requests. */
  predicate AllAccepted(plan: seq<Call>, ok: nat -> bool) {
    forall m :: 0 <= m < |plan| ==> ok(m)
  }

  /** The body of a create request. */
  datatype CreateRequest = CreateRequest(name: string, description: string, songIds: seq<int>)

  /** The body of a metadata update request for playlist `id`. */
  datatype MetadataUpdate = MetadataUpdate(id: int, name: string, description: string)

  /** The sequential `for` loops of `handleSubmit`: issues the planned requests
      one after another and stops at the first one that fails (its `await`
      throws into the `catch`). `ok(i)` is the server's answer to request i. */
  method IssueInOrder(plan: seq<Call>, ok: nat -> bool) returns (issued: seq<Call>, allOk: bool)
    ensures issued <= plan
    ensures forall m :: 0 <= m < |issued| - 1 ==> ok(m)
    ensures allOk <==> issued == plan && AllAccepted(plan, ok)
    ensures !allOk ==> issued != [] && !ok(|issued| - 1)
  {
    issued := [];
    var i := 0;
    while i < |plan|
      invariant 0 <= i <= |plan|
      invariant issued == plan[..i]
      invariant forall m :: 0 <= m < i ==> ok(m)
    {
      issued := issued + [plan[i]];
      if !ok(i) {
        return issued, false;
      }
      i := i + 1;
    }
    allOk := true;
  }
}
