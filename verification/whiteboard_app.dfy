/** The whiteboard peer's naming scheme and its bookkeeping maps.

    A shared board travels as `host:port:boardid%version%PATHS`: the board's name is
    `host:port:boardid`, the peer that shares it is `host:port`. The accessors below take
    such strings apart with Java's `String.split`; where Java would throw (a missing field,
    a number that does not parse) they return `None`.

    The peer keeps four maps: its boards by name, its sessions with other peers by
    endpoint id, the listeners of each board it shares, and the boards other peers share,
    filed under the sharer's `host:port`. */
module App {
  import opened Common
  import opened JavaText

  // ---------------------------------------------------------------------------
  // Field accessors

  /** `getBoardName`: everything before the first `%`, or the whole string. */
  function GetBoardName(data: string): (name: string)
    ensures '%' !in name
    ensures |name| <= |data| && name == data[..|name|]
    ensures name == data || data[|name|] == '%'
  {
    var parts := SplitLimited(data, '%', 2);
    assert |parts| == 2 ==> data == parts[0] + ['%'] + parts[1];
    parts[0]
  }

  /** `getBoardData`: everything after the first `%`; with no `%` at all Java indexes past
      the end of the split result. */
  function GetBoardData(data: string): (r: Option<string>)
    ensures r.Some? <==> '%' in data
    ensures r.Some? ==> data == GetBoardName(data) + "%" + r.value
  {
    var parts := SplitLimited(data, '%', 2);
    assert |parts| == 2 ==> data == parts[0] + ['%'] + parts[1];
    if |parts| < 2 then None else Some(parts[1])
  }

  /** The second `%` field (the version's text) and the third (the paths), when present. */
  function VersionAndPaths(data: string): (r: (Option<string>, Option<string>))
    ensures r.0.Some? ==> '%' !in r.0.value && GetBoardData(data).Some?
    ensures r.1.Some? ==> r.0.Some? && data == GetBoardName(data) + "%" + r.0.value + "%" + r.1.value
  {
    var parts := SplitLimited(data, '%', 3);
    assert |parts| >= 2 ==> data == parts[0] + ['%'] + Join(parts[1..], '%');
    assert |parts| == 3 ==> Join(parts[1..], '%') == parts[1] + ['%'] + parts[2];
    if |parts| < 2 then (None, None)
    else if |parts| < 3 then (Some(parts[1]), None)
    else (Some(parts[1]), Some(parts[2]))
  }

  /** `getBoardVersion`: `Long.parseLong` of the second `%` field. */
  function GetBoardVersion(data: string): (r: Option<int>)
    ensures r.Some? ==> -(LongMax as int) - 1 <= r.value <= LongMax
    ensures r.Some? ==> GetBoardData(data).Some?
  {
    var version := VersionAndPaths(data).0;
    if version.None? then None else ParseInteger(version.value, LongMax)
  }

  /** `getBoardPaths`: the rest after the second `%`, which may hold further `%`s. */
  function GetBoardPaths(data: string): (r: Option<string>)
    ensures r.Some? ==> exists version: string {:trigger GetBoardName(data) + "%" + version} ::
      '%' !in version && data == GetBoardName(data) + "%" + version + "%" + r.value
  {
    var vp := VersionAndPaths(data);
    vp.1
  }

  /** The `:`-separated fields, as `data.split(":")` returns them. */
  function AddressFields(data: string): seq<string> {
    Split(data, ':', 0)
  }

  /** `getIP`: the first `:` field. An input made of colons alone splits into nothing. */
  function GetIP(data: string): (r: Option<string>)
    ensures r.Some? ==> ':' !in r.value && |r.value| <= |data| && r.value == data[..|r.value|]
    ensures ':' !in data ==> r == Some(data)
  {
    var parts := AddressFields(data);
    if |parts| == 0 then None else Some(parts[0])
  }

  /** `getPort`: `Integer.parseInt` of the second `:` field. */
  function GetPort(data: string): (r: Option<int>)
    ensures r.Some? ==> -(IntMax as int) - 1 <= r.value <= IntMax
    ensures r.Some? ==> ':' in data
  {
    var parts := AddressFields(data);
    if |parts| < 2 then None else ParseInteger(parts[1], IntMax)
  }

  /** `getBoardIdAndData`: the third `:` field only; anything after a further `:` is
      dropped. */
  function GetBoardIdAndData(data: string): (r: Option<string>)
    ensures r.Some? ==> ':' !in r.value
    ensures r.Some? ==> GetPort(data).Some? || GetIP(data).Some?
  {
    var parts := AddressFields(data);
    if |parts| < 3 then None else Some(parts[2])
  }

  /** The key a shared board is filed under: `getIP(data) + ":" + getPort(data)`, the port
      written back from the parsed `int`. */
  function SharerKey(data: string): (r: Option<string>)
    ensures r.Some? <==> GetIP(data).Some? && GetPort(data).Some?
    ensures r.Some? ==> r.value == GetIP(data).value + ":" + IntToString(GetPort(data).value)
  {
    match (GetIP(data), GetPort(data))
    case (Some(ip), Some(port)) => Some(ip + ":" + IntToString(port))
    case _ => None
  }

  /** The three `%` fields of a board update come back out of it; the paths may contain
      `%` themselves. */
  lemma BoardFieldsRoundTrip(name: string, version: int, paths: string)
    requires '%' !in name
    requires -(LongMax as int) - 1 <= version <= LongMax
    ensures var data := name + "%" + IntToString(version) + "%" + paths;
      && GetBoardName(data) == name
      && GetBoardData(data) == Some(IntToString(version) + "%" + paths)
      && GetBoardVersion(data) == Some(version)
      && GetBoardPaths(data) == Some(paths)
  {
    var v := IntToString(version);
    var data := name + "%" + v + "%" + paths;
    IntTextHasNoSeparator(version);
    assert data == name + ['%'] + (v + "%" + paths);
    SplitLimitedCons(name, '%', v + "%" + paths, 2);
    SplitLimitedCons(name, '%', v + "%" + paths, 3);
    assert v + "%" + paths == v + ['%'] + paths;
    SplitLimitedCons(v, '%', paths, 2);
    assert SplitLimited(v + "%" + paths, '%', 1) == [v + "%" + paths];
    assert SplitLimited(paths, '%', 1) == [paths];
    ParseIntToString(version, LongMax);
  }

  /** A separator-free string's split is the string itself. */
  lemma SplitAllSingle(s: string, sep: char)
    requires sep !in s
    ensures SplitAll(s, sep) == [s]
  {
  }

  /** The rendering of an `int` holds neither separator. */
  lemma IntTextHasNoSeparator(i: int)
    ensures ':' !in IntToString(i) && '%' !in IntToString(i)
  {
    var t := IntToString(i);
    forall k | 0 <= k < |t| ensures t[k] != ':' && t[k] != '%' {
      assert t[k] == '-' || IsDigit(t[k]);
    }
  }

  /** Java keeps every field up to the last non-empty one. */
  lemma DropKeepsUpToNonEmpty(all: seq<string>, n: nat)
    requires n < |all| && all[n] != ""
    ensures |DropTrailingEmpty(all)| > n && DropTrailingEmpty(all)[..n + 1] == all[..n + 1]
  {
    var r := DropTrailingEmpty(all);
    assert r[..n + 1] == all[..|r|][..n + 1];
  }

  /** The first field of `id + tail` is `id` when `tail` is empty or starts a new field. */
  lemma FirstFieldOf(id: string, tail: string)
    requires ':' !in id
    requires tail == "" || tail[0] == ':'
    ensures SplitAll(id + tail, ':')[0] == id
  {
    if tail == "" {
      assert id + tail == id;
      SplitAllSingle(id, ':');
    } else {
      var rest := tail[1..];
      assert tail == [':'] + rest;
      assert id + tail == id + [':'] + rest;
      SplitAllCons(id, ':', rest);
    }
  }

  /** All the `:` pieces of `ip:p:id` followed by nothing or by a further `:` field start
      with those three. */
  lemma AddressSplit(ip: string, p: string, id: string, tail: string)
    requires ':' !in ip && ':' !in p && ':' !in id
    requires tail == "" || tail[0] == ':'
    ensures var all := SplitAll(ip + ":" + p + ":" + id + tail, ':');
      |all| >= 3 && all[0] == ip && all[1] == p && all[2] == id
  {
    var rest := id + tail;
    assert ip + ":" + p + ":" + id + tail == ip + [':'] + (p + [':'] + rest);
    SplitAllCons(ip, ':', p + [':'] + rest);
    SplitAllCons(p, ':', rest);
    FirstFieldOf(id, tail);
  }

  /** The `:` fields of `ip:p:id` followed by nothing or by a further `:` field. */
  lemma AddressFieldsOf(ip: string, p: string, id: string, tail: string)
    requires ':' !in ip && ':' !in p && ':' !in id && id != ""
    requires tail == "" || tail[0] == ':'
    ensures var parts := AddressFields(ip + ":" + p + ":" + id + tail);
      |parts| >= 3 && parts[0] == ip && parts[1] == p && parts[2] == id
  {
    var data := ip + ":" + p + ":" + id + tail;
    var all := SplitAll(data, ':');
    AddressSplit(ip, p, id, tail);
    assert ':' in data by {
      assert data[|ip|] == ':';
    }
    DropKeepsUpToNonEmpty(all, 2);
    var parts := DropTrailingEmpty(all);
    assert parts[..3] == all[..3];
    assert AddressFields(data) == parts;
  }

  /** The three `:` fields of `host:port:boardid` come back out of it, and so does the
      sharer key `host:port`; whatever follows a further `:` is ignored. */
  lemma AddressRoundTrip(ip: string, port: int, id: string, tail: string)
    requires ':' !in ip && ':' !in id && id != ""
    requires -(IntMax as int) - 1 <= port <= IntMax
    requires tail == "" || tail[0] == ':'
    ensures var data := ip + ":" + IntToString(port) + ":" + id + tail;
      && GetIP(data) == Some(ip)
      && GetPort(data) == Some(port)
      && GetBoardIdAndData(data) == Some(id)
      && SharerKey(data) == Some(ip + ":" + IntToString(port))
  {
    IntTextHasNoSeparator(port);
    AddressFieldsOf(ip, IntToString(port), id, tail);
    ParseIntToString(port, IntMax);
  }

  /** A board name whose id is empty (`host:port:`) has no third field after Java drops
      the trailing empty string, so `getBoardIdAndData` fails on it. */
  lemma EmptyBoardIdHasNoField(ip: string, port: int)
    requires ':' !in ip
    ensures GetBoardIdAndData(ip + ":" + IntToString(port) + ":") == None
  {
    IntTextHasNoSeparator(port);
    NoThirdField(ip, IntToString(port));
  }

  /** `a:b:` splits into at most two fields: the empty third one is dropped. */
  lemma NoThirdField(a: string, b: string)
    requires ':' !in a && ':' !in b
    ensures |AddressFields(a + ":" + b + ":")| <= 2
  {
    var data := a + ":" + b + ":";
    assert SplitAll(data, ':') == [a, b, ""] by {
      assert data == a + [':'] + (b + [':'] + "");
      SplitAllCons(a, ':', b + [':'] + "");
      SplitAllCons(b, ':', "");
      SplitAllSingle("", ':');
    }
    assert ':' in data by {
      assert data[|a|] == ':';
    }
    assert DropTrailingEmpty([a, b, ""]) == DropTrailingEmpty([a, b]) by {
      assert [a, b, ""][..2] == [a, b];
    }
  }

  // ---------------------------------------------------------------------------
  // Boards and the bookkeeping maps

  /** A board as the app's map holds it; the Whiteboard class itself is not part of this
      model. `remote` is the flag the app passes: true for a board another peer shares. */
  datatype Whiteboard = Whiteboard(name: string, remote: bool)

  /** The listener lists after a peer is gone: one occurrence of its id leaves every list,
      and every board keeps its entry. */
  function WithoutListener(lists: map<string, seq<string>>, id: string): (r: map<string, seq<string>>)
    ensures r.Keys == lists.Keys
  {
    map b | b in lists :: RemoveFirst(lists[b], id)
  }

  /** The listener lists part way through `peerStopped`: the boards in `pending` are not
      cleaned yet. */
  ghost function PartlyWithoutListener(lists: map<string, seq<string>>, id: string, pending: set<string>): map<string, seq<string>> {
    map b | b in lists :: if b in pending then lists[b] else RemoveFirst(lists[b], id)
  }

  /** Cleaning one pending board moves it out of `pending`. */
  lemma CleanOneBoard(lists: map<string, seq<string>>, id: string, pending: set<string>, b: string)
    requires pending <= lists.Keys && b in pending
    ensures var now := PartlyWithoutListener(lists, id, pending);
      b in now && now[b] == lists[b] &&
      now[b := RemoveFirst(lists[b], id)] == PartlyWithoutListener(lists, id, pending - {b})
  {
  }

  /** Each list loses exactly one copy of the id when it had one, and nothing else. */
  lemma WithoutListenerRemovesOne(lists: map<string, seq<string>>, id: string, b: string)
    requires b in lists
    ensures multiset(WithoutListener(lists, id)[b]) == multiset(lists[b]) - multiset{id}
    ensures id in lists[b] ==> |WithoutListener(lists, id)[b]| == |lists[b]| - 1
    ensures id !in lists[b] ==> WithoutListener(lists, id)[b] == lists[b]
  {
    RemoveFirstMultiset(lists[b], id);
  }

  /** A listener that registered once and then went away leaves the lists as they were,
      except that the board it listened to keeps an entry (possibly empty). */
  lemma ListenThenStopKeepsKey(lists: map<string, seq<string>>, board: string, id: string)
    requires forall b :: b in lists ==> id !in lists[b]
    ensures WithoutListener(Appended(lists, board, id), id) ==
      lists[board := if board in lists then lists[board] else []]
  {
    var before := if board in lists then lists[board] else [];
    var listened := Appended(lists, board, id);
    assert listened == lists[board := before + [id]];
    RemoveFirstOfAppended(before, id);
    forall b | b in listened
      ensures WithoutListener(listened, id)[b] == lists[board := before][b]
    {
      if b != board {
        assert RemoveFirst(lists[b], id) == lists[b];
      }
    }
  }

  /** Listening twice keeps both copies, so a stopped peer still listens once. */
  lemma DuplicateListenerSurvivesStop(lists: map<string, seq<string>>, board: string, id: string)
    ensures id in WithoutListener(Appended(Appended(lists, board, id), board, id), id)[board]
  {
    var twice := Appended(Appended(lists, board, id), board, id)[board];
    assert twice[|twice| - 1] == id;
    RemoveFirstMultiset(twice, id);
    assert multiset(twice)[id] >= 2;
  }

  /** `onUnshareBoard`'s update of the shared-board map: one occurrence of the board leaves
      its sharer's list when the sharer is known; an emptied list stays. */
  function Unshared(boards: map<string, seq<string>>, sharer: string, board: string): (r: map<string, seq<string>>)
    ensures r.Keys == boards.Keys
    ensures sharer in boards ==> multiset(r[sharer]) == multiset(boards[sharer]) - multiset{board}
    ensures forall s :: s in boards && s != sharer ==> r[s] == boards[s]
  {
    if sharer in boards then
      RemoveFirstMultiset(boards[sharer], board);
      boards[sharer := RemoveFirst(boards[sharer], board)]
    else boards
  }

  /** Sharing a board not yet listed and unsharing it again restores the map, except that
      the sharer now has an entry of its own. */
  lemma ShareThenUnshare(boards: map<string, seq<string>>, sharer: string, board: string)
    requires sharer in boards ==> board !in boards[sharer]
    ensures Unshared(Appended(boards, sharer, board), sharer, board) ==
      boards[sharer := if sharer in boards then boards[sharer] else []]
  {
    var before := if sharer in boards then boards[sharer] else [];
    var shared := boards[sharer := before + [board]];
    assert Appended(boards, sharer, board) == shared;
    UnsharedKnown(shared, sharer, board);
    RemoveFirstOfAppended(before, board);
    UpdateTwice(boards, sharer, before + [board], before);
  }

  lemma UnsharedKnown(boards: map<string, seq<string>>, sharer: string, board: string)
    requires sharer in boards
    ensures Unshared(boards, sharer, board) == boards[sharer := RemoveFirst(boards[sharer], board)]
  {
  }

  /** The name `createBoard` gives a new board: the peer's `host:port`, then `board` and
      the creation time in milliseconds. */
  function NewBoardName(peerport: string, millis: int): string {
    peerport + ":board" + IntToString(millis)
  }

  lemma BoardIdHasNoSeparator(millis: int)
    ensures ':' !in "board" + IntToString(millis) && '%' !in "board" + IntToString(millis)
  {
    IntTextHasNoSeparator(millis);
    var id := "board" + IntToString(millis);
    forall k | 0 <= k < |id| ensures id[k] != ':' && id[k] != '%' {
      if k >= 5 {
        assert id[k] == IntToString(millis)[k - 5];
      }
    }
  }

  /** A board created by a connected peer is filed, when shared, under that peer's own
      `host:port`, and its id field is `board<millis>`. */
  lemma NewBoardNameParses(ip: string, port: int, millis: int)
    requires ':' !in ip
    requires -(IntMax as int) - 1 <= port <= IntMax
    ensures SharerKey(NewBoardName(ip + ":" + IntToString(port), millis)) == Some(ip + ":" + IntToString(port))
    ensures GetBoardIdAndData(NewBoardName(ip + ":" + IntToString(port), millis)) == Some("board" + IntToString(millis))
  {
    var id := "board" + IntToString(millis);
    var p := IntToString(port);
    BoardIdHasNoSeparator(millis);
    assert NewBoardName(ip + ":" + p, millis) == ip + ":" + p + ":" + id + "";
    AddressRoundTrip(ip, port, id, "");
  }

  /** A new board's name holds no `%`, so it is its own board name. */
  lemma NewBoardNameIsWhole(ip: string, port: int, millis: int)
    requires '%' !in ip
    ensures GetBoardName(NewBoardName(ip + ":" + IntToString(port), millis)) == NewBoardName(ip + ":" + IntToString(port), millis)
  {
    var id := "board" + IntToString(millis);
    var p := IntToString(port);
    var name := NewBoardName(ip + ":" + p, millis);
    BoardIdHasNoSeparator(millis);
    IntTextHasNoSeparator(port);
    assert name == ip + (":" + p + ":" + id);
    assert '%' !in ":" + p + ":" + id;
  }

  /** The field's default `standalone`, meant for a non-distributed run, would give board
      names without a port, which `getPort` cannot read; the constructor replaces it with
      the peer's own address before any board is created. */
  lemma StandaloneNameHasNoPort(millis: int)
    ensures SharerKey(NewBoardName("standalone", millis)) == None
  {
    assert ':' !in "standalone";
    PortlessFields("standalone", millis);
    BoardIdIsNotANumber(millis);
  }

  /** A peer name without a port gives board names with only two `:` fields. */
  lemma PortlessFields(peer: string, millis: int)
    requires ':' !in peer
    ensures AddressFields(NewBoardName(peer, millis)) == [peer, "board" + IntToString(millis)]
  {
    var rest := "board" + IntToString(millis);
    assert NewBoardName(peer, millis) == peer + [':'] + rest;
    BoardIdHasNoSeparator(millis);
    TwoFields(peer, rest);
  }

  /** Two non-empty-ended fields joined by one `:` split back into exactly those two. */
  lemma TwoFields(p: string, rest: string)
    requires ':' !in p && ':' !in rest && rest != ""
    ensures AddressFields(p + [':'] + rest) == [p, rest]
  {
    var name := p + [':'] + rest;
    assert SplitAll(name, ':') == [p, rest] by {
      SplitAllCons(p, ':', rest);
      SplitAllSingle(rest, ':');
    }
    assert ':' in name by {
      assert name[|p|] == ':';
    }
  }

  lemma BoardIdIsNotANumber(millis: int)
    ensures ParseInteger("board" + IntToString(millis), IntMax) == None
  {
    assert ("board" + IntToString(millis))[0] == 'b';
  }

  class WhiteboardApp {
    var whiteboards: map<string, Whiteboard>
    /** Endpoints of the peers connected to this one, by their endpoint id (a static field
        in the source, shared by every app instance). */
    var sessions: map<string, Conn>
    /** For each board this peer shares, the ids of the peers listening to it. */
    var boardListeningLists: map<string, seq<string>>
    /** Boards shared by other peers, filed under the sharer's `host:port`. */
    var sharingBoards: map<string, seq<string>>
    /** This peer's `host:port`. */
    var peerport: string

    /** Starts a peer listening on `peerPort`; `loopback` stands for the host address of
        the loopback interface. The field's `standalone` default is overwritten while the
        constructor connects to the server, before any board exists. */
    constructor (loopback: string, peerPort: int)
      ensures whiteboards == map[] && sessions == map[]
      ensures boardListeningLists == map[] && sharingBoards == map[]
      ensures peerport == loopback + ":" + IntToString(peerPort)
    {
      whiteboards := map[];
      sessions := map[];
      boardListeningLists := map[];
      sharingBoards := map[];
      peerport := loopback + ":" + IntToString(peerPort);
    }

    /** The `peerStarted` handler: the new session is stored under the other endpoint's id. */
    method OnPeerStarted(id: string, endpoint: Conn)
      modifies this
      ensures sessions == old(sessions)[id := endpoint]
      ensures whiteboards == old(whiteboards) && boardListeningLists == old(boardListeningLists)
      ensures sharingBoards == old(sharingBoards) && peerport == old(peerport)
    {
      sessions := sessions[id := endpoint];
    }

    /** The `peerStopped` handler: the session goes, and one occurrence of the peer's id
        leaves every listener list, board by board in the map's own order. */
    method OnPeerStopped(id: string)
      modifies this
      ensures sessions == old(sessions) - {id}
      ensures boardListeningLists == WithoutListener(old(boardListeningLists), id)
      ensures whiteboards == old(whiteboards) && sharingBoards == old(sharingBoards)
      ensures peerport == old(peerport)
    {
      sessions := sessions - {id};
      ghost var lists := boardListeningLists;
      var rest := boardListeningLists.Keys;
      assert boardListeningLists == PartlyWithoutListener(lists, id, rest);
      while rest != {}
        invariant rest <= lists.Keys
        invariant boardListeningLists == PartlyWithoutListener(lists, id, rest)
        invariant whiteboards == old(whiteboards) && sharingBoards == old(sharingBoards)
        invariant sessions == old(sessions) - {id} && peerport == old(peerport)
        decreases |rest|
      {
        var b :| b in rest;
        CleanOneBoard(lists, id, rest, b);
        RemoveListener(b, id);
        rest := rest - {b};
      }
      assert boardListeningLists == WithoutListener(lists, id);
    }

    /** One step of `peerStopped`: one occurrence of the id leaves one board's list. */
    method RemoveListener(board: string, id: string)
      requires board in boardListeningLists
      modifies this
      ensures boardListeningLists == old(boardListeningLists[board := RemoveFirst(boardListeningLists[board], id)])
      ensures whiteboards == old(whiteboards) && sharingBoards == old(sharingBoards)
      ensures sessions == old(sessions) && peerport == old(peerport)
    {
      boardListeningLists := boardListeningLists[board := RemoveFirst(boardListeningLists[board], id)];
    }

    /** The `peerError` handler: only the session goes; the listener lists keep the id. */
    method OnPeerError(id: string)
      modifies this
      ensures sessions == old(sessions) - {id}
      ensures whiteboards == old(whiteboards) && boardListeningLists == old(boardListeningLists)
      ensures sharingBoards == old(sharingBoards) && peerport == old(peerport)
    {
      sessions := sessions - {id};
    }

    /** `onBoardListen`: the listener is appended to the board's list, which is created when
        missing; a listener already on the list is added again. */
    method OnBoardListen(listener: string, board: string)
      modifies this
      ensures boardListeningLists == Appended(old(boardListeningLists), board, listener)
      ensures whiteboards == old(whiteboards) && sessions == old(sessions)
      ensures sharingBoards == old(sharingBoards) && peerport == old(peerport)
    {
      if board !in boardListeningLists {
        boardListeningLists := boardListeningLists[board := []];
      }
      boardListeningLists := boardListeningLists[board := boardListeningLists[board] + [listener]];
    }

    /** `onBoardUnListen`: the board's whole listener entry goes. */
    method OnBoardUnListen(board: string)
      modifies this
      ensures boardListeningLists == old(boardListeningLists) - {board}
      ensures whiteboards == old(whiteboards) && sessions == old(sessions)
      ensures sharingBoards == old(sharingBoards) && peerport == old(peerport)
    {
      boardListeningLists := boardListeningLists - {board};
    }

    /** `addBoard`: a board of the same name is replaced. */
    method AddBoard(board: Whiteboard)
      modifies this
      ensures whiteboards == old(whiteboards)[board.name := board]
      ensures sessions == old(sessions) && boardListeningLists == old(boardListeningLists)
      ensures sharingBoards == old(sharingBoards) && peerport == old(peerport)
    {
      whiteboards := whiteboards[board.name := board];
    }

    /** `deleteBoard`: removes the board when there is one, and leaves the map alone
        otherwise. */
    method DeleteBoard(name: string)
      modifies this
      ensures whiteboards == old(whiteboards) - {name}
      ensures name !in old(whiteboards) ==> whiteboards == old(whiteboards)
      ensures sessions == old(sessions) && boardListeningLists == old(boardListeningLists)
      ensures sharingBoards == old(sharingBoards) && peerport == old(peerport)
    {
      if name in whiteboards {
        whiteboards := whiteboards - {name};
      }
    }

    /** `createBoard`, with the clock reading as a parameter. */
    method CreateBoard(millis: int)
      modifies this
      ensures whiteboards == old(whiteboards)[NewBoardName(peerport, millis) := Whiteboard(NewBoardName(peerport, millis), false)]
      ensures sessions == old(sessions) && boardListeningLists == old(boardListeningLists)
      ensures sharingBoards == old(sharingBoards) && peerport == old(peerport)
    {
      var name := peerport + ":board" + IntToString(millis);
      AddBoard(Whiteboard(name, false));
    }

    /** `onShareBoard`: the board is filed under its sharer's `host:port` and a remote board
        of that name is added. When the sharer key cannot be read (no port field, or a port
        that is not an `int`) the handler throws before changing anything: `ok` is false. */
    method OnShareBoard(sharedBoard: string) returns (ok: bool)
      modifies this
      ensures ok <==> SharerKey(sharedBoard).Some?
      ensures ok ==> sharingBoards == Appended(old(sharingBoards), SharerKey(sharedBoard).value, sharedBoard)
      ensures ok ==> whiteboards == old(whiteboards)[GetBoardName(sharedBoard) := Whiteboard(GetBoardName(sharedBoard), true)]
      ensures !ok ==> sharingBoards == old(sharingBoards) && whiteboards == old(whiteboards)
      ensures sessions == old(sessions) && boardListeningLists == old(boardListeningLists)
      ensures peerport == old(peerport)
    {
      var key := SharerKey(sharedBoard);
      if key.None? {
        return false;
      }
      var sharer := key.value;
      ghost var before := sharingBoards;
      if sharer !in sharingBoards {
        sharingBoards := sharingBoards[sharer := []];
      }
      sharingBoards := sharingBoards[sharer := sharingBoards[sharer] + [sharedBoard]];
      assert sharingBoards == Appended(before, sharer, sharedBoard);
      var name := GetBoardName(sharedBoard);
      AddBoard(Whiteboard(name, true));
      ok := true;
    }

    /** `onUnshareBoard`: only for a known sharer, one occurrence of the board leaves its
        list (an emptied list stays) and the local board of that name is deleted. */
    method OnUnshareBoard(unsharedBoard: string) returns (ok: bool)
      modifies this
      ensures ok <==> SharerKey(unsharedBoard).Some?
      ensures ok ==> sharingBoards == Unshared(old(sharingBoards), SharerKey(unsharedBoard).value, unsharedBoard)
      ensures ok && SharerKey(unsharedBoard).value in old(sharingBoards) ==>
        whiteboards == old(whiteboards) - {GetBoardName(unsharedBoard)}
      ensures !(ok && SharerKey(unsharedBoard).value in old(sharingBoards)) ==>
        sharingBoards == old(sharingBoards) && whiteboards == old(whiteboards)
      ensures sessions == old(sessions) && boardListeningLists == old(boardListeningLists)
      ensures peerport == old(peerport)
    {
      var key := SharerKey(unsharedBoard);
      if key.None? {
        return false;
      }
      ok := true;
      var sharer := key.value;
      if sharer in sharingBoards {
        sharingBoards := sharingBoards[sharer := RemoveFirst(sharingBoards[sharer], unsharedBoard)];
        DeleteBoard(GetBoardName(unsharedBoard));
      }
    }
  }
}
