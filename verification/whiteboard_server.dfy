/** The whiteboard server's directory of shared boards.

    The server keeps its connected clients by endpoint id, and for every client that
    shares boards the list of their names (`host:port:boardid`), filed under that client's
    endpoint id. Its only output is the events it emits to clients, recorded here in an
    outbox in emission order. Where the source iterates a `HashMap`'s key set the order is
    unspecified: the model takes it as a ghost out-parameter, any duplicate-free
    enumeration of the keys. */
module Server {
  import opened Common
  import App

  /** Events the server receives from a client. */
  const ShareBoard := "SHARE_BOARD"
  const UnshareBoard := "UNSHARE_BOARD"
  /** Events the server emits to clients. */
  const SharingBoard := "SHARING_BOARD"
  const UnsharingBoard := "UNSHARING_BOARD"

  // ---------------------------------------------------------------------------
  // The share table

  /** No sharer is filed with an empty list: the table only holds sharers that share. */
  predicate NoEmptyLists(boards: map<string, seq<string>>) {
    forall s :: s in boards ==> boards[s] != []
  }

  /** `removeShareBoard`: for a known sharer, one occurrence of the board leaves its list,
      and a list left empty takes the sharer out of the table. */
  function WithoutShare(boards: map<string, seq<string>>, sharer: string, board: string): (r: map<string, seq<string>>)
    ensures sharer !in boards ==> r == boards
    ensures r.Keys <= boards.Keys && r.Keys >= boards.Keys - {sharer}
    ensures forall s :: s in boards && s != sharer ==> r[s] == boards[s]
    ensures sharer in boards ==>
      (sharer in r <==> multiset(boards[sharer]) - multiset{board} != multiset{})
    ensures sharer in r ==> multiset(r[sharer]) == multiset(boards[sharer]) - multiset{board}
    ensures sharer in r ==> r[sharer] == RemoveFirst(boards[sharer], board)
  {
    if sharer !in boards then boards
    else
      var rest := RemoveFirst(boards[sharer], board);
      RemoveFirstMultiset(boards[sharer], board);
      if rest == [] then boards - {sharer} else boards[sharer := rest]
  }

  /** Adding keeps the table free of empty lists. */
  lemma AddKeepsNoEmptyLists(boards: map<string, seq<string>>, sharer: string, board: string)
    requires NoEmptyLists(boards)
    ensures NoEmptyLists(Appended(boards, sharer, board))
  {
  }

  /** Removing keeps the table free of empty lists. */
  lemma RemoveKeepsNoEmptyLists(boards: map<string, seq<string>>, sharer: string, board: string)
    requires NoEmptyLists(boards)
    ensures NoEmptyLists(WithoutShare(boards, sharer, board))
  {
  }

  /** Sharing a board and unsharing it again gives the table back exactly, an entry
      created for the share included. */
  lemma ShareThenUnshareRestores(boards: map<string, seq<string>>, sharer: string, board: string)
    requires NoEmptyLists(boards)
    requires sharer in boards ==> board !in boards[sharer]
    ensures WithoutShare(Appended(boards, sharer, board), sharer, board) == boards
  {
    var before := if sharer in boards then boards[sharer] else [];
    var shared := boards[sharer := before + [board]];
    assert Appended(boards, sharer, board) == shared;
    WithoutShareKnown(shared, sharer, board);
    RemoveFirstOfAppended(before, board);
    if sharer in boards {
      UpdateTwice(boards, sharer, before + [board], before);
      UpdateSame(boards, sharer);
    } else {
      RemoveAdded(boards, sharer, before + [board]);
    }
  }

  lemma WithoutShareKnown(boards: map<string, seq<string>>, sharer: string, board: string)
    requires sharer in boards
    ensures var rest := RemoveFirst(boards[sharer], board);
      WithoutShare(boards, sharer, board) == if rest == [] then boards - {sharer} else boards[sharer := rest]
  {
  }

  // ---------------------------------------------------------------------------
  // Broadcasting

  /** The users in list order, without the sharer. */
  function Recipients(users: seq<string>, sharer: string): (r: seq<string>)
    ensures |r| <= |users|
    ensures forall u :: u in r <==> u in users && u != sharer
    ensures forall u :: u != sharer ==> multiset(r)[u] == multiset(users)[u]
    ensures sharer !in r
  {
    if users == [] then []
    else
      var init := users[..|users| - 1];
      var last := users[|users| - 1];
      assert users == init + [last];
      Recipients(init, sharer) + (if last == sharer then [] else [last])
  }

  lemma RecipientsSnoc(users: seq<string>, i: nat, sharer: string)
    requires i < |users|
    ensures Recipients(users[..i + 1], sharer) ==
      Recipients(users[..i], sharer) + (if users[i] == sharer then [] else [users[i]])
  {
    assert users[..i + 1][..i] == users[..i];
  }

  /** One emission of `event` with `msg` to the session of each recipient, in order. */
  function Notices(recipients: seq<string>, sessions: map<string, Conn>, event: string, msg: string): (r: seq<Emission>)
    requires forall u :: u in recipients ==> u in sessions
    ensures |r| == |recipients|
    ensures forall i :: 0 <= i < |r| ==> r[i] == Emission(sessions[recipients[i]], event, msg)
  {
    seq(|recipients|, i requires 0 <= i < |recipients| => Emission(sessions[recipients[i]], event, msg))
  }

  lemma NoticesSnoc(recipients: seq<string>, u: string, sessions: map<string, Conn>, event: string, msg: string)
    requires forall v :: v in recipients ==> v in sessions
    requires u in sessions
    ensures Notices(recipients + [u], sessions, event, msg) ==
      Notices(recipients, sessions, event, msg) + [Emission(sessions[u], event, msg)]
  {
  }

  /** How far `broadcast` gets through `users`: to the first user other than the sharer
      that has no session (looking it up throws), or to the end. */
  function Reach(users: seq<string>, sessions: map<string, Conn>, sharer: string): (k: nat)
    ensures k <= |users|
    ensures forall j :: 0 <= j < k ==> users[j] == sharer || users[j] in sessions
    ensures k < |users| ==> users[k] != sharer && users[k] !in sessions
  {
    if users == [] || (users[0] != sharer && users[0] !in sessions) then 0
    else 1 + Reach(users[1..], sessions, sharer)
  }

  /** Broadcasting to all clients, as the handlers do, reaches every client but the sharer
      exactly once and the sharer never. */
  lemma BroadcastToAllClients(users: seq<string>, clients: map<string, Conn>, sharer: string)
    requires Distinct(users) && forall u :: u in users <==> u in clients
    ensures Reach(users, clients, sharer) == |users|
    ensures forall u :: u in clients && u != sharer ==> multiset(Recipients(users, sharer))[u] == 1
    ensures sharer !in Recipients(users, sharer)
  {
    forall u | u in clients && u != sharer
      ensures multiset(Recipients(users, sharer))[u] == 1
    {
      DistinctOccursOnce(users, u);
    }
  }

  // ---------------------------------------------------------------------------
  // Sending every shared board

  /** The boards of the listed sharers, sharer after sharer. */
  function Flatten(order: seq<string>, boards: map<string, seq<string>>): seq<string>
    requires forall s :: s in order ==> s in boards
  {
    if order == [] then [] else boards[order[0]] + Flatten(order[1..], boards)
  }

  ghost function PickSharer(boards: map<string, seq<string>>): (s: string)
    requires boards != map[]
    ensures s in boards
  {
    var s :| s in boards; s
  }

  /** Every shared board, counted as often as it is listed, whatever the order. */
  ghost function AllShared(boards: map<string, seq<string>>): multiset<string>
    decreases |boards.Keys|
  {
    if boards == map[] then multiset{}
    else
      var s := PickSharer(boards);
      assert (boards - {s}).Keys < boards.Keys;
      multiset(boards[s]) + AllShared(boards - {s})
  }

  /** `AllShared` can be taken apart at any sharer, not only the one it picks. */
  lemma {:induction false} AllSharedAt(boards: map<string, seq<string>>, s: string)
    requires s in boards
    ensures AllShared(boards) == multiset(boards[s]) + AllShared(boards - {s})
    decreases |boards.Keys|
  {
    var p := PickSharer(boards);
    if p != s {
      var withoutP, withoutS := boards - {p}, boards - {s};
      assert AllShared(boards) == multiset(boards[p]) + AllShared(withoutP);
      assert AllShared(withoutP) == multiset(boards[s]) + AllShared(withoutP - {s}) by {
        assert withoutP.Keys < boards.Keys;
        AllSharedAt(withoutP, s);
      }
      assert AllShared(withoutS) == multiset(boards[p]) + AllShared(withoutS - {p}) by {
        assert withoutS.Keys < boards.Keys;
        AllSharedAt(withoutS, p);
      }
      assert withoutP - {s} == withoutS - {p};
    }
  }

  lemma {:induction false} FlattenIgnoresOthers(order: seq<string>, boards: map<string, seq<string>>, s: string)
    requires forall t :: t in order ==> t in boards
    requires s !in order
    ensures Flatten(order, boards) == Flatten(order, boards - {s})
  {
    if order != [] {
      FlattenIgnoresOthers(order[1..], boards, s);
    }
  }

  /** Sending the sharers' lists one after the other, in any enumeration of the sharers,
      sends every shared board exactly as often as it is listed. */
  lemma {:induction false} FlattenSendsEverything(order: seq<string>, boards: map<string, seq<string>>)
    requires Distinct(order)
    requires forall s :: s in order <==> s in boards
    ensures multiset(Flatten(order, boards)) == AllShared(boards)
  {
    if order == [] {
      assert boards.Keys == {};
      assert boards == map[];
    } else {
      var s := order[0];
      var rest := order[1..];
      assert s !in rest by {
        forall j | 0 <= j < |rest| ensures rest[j] != s {
          assert rest[j] == order[j + 1];
        }
      }
      assert Distinct(rest);
      FlattenIgnoresOthers(rest, boards, s);
      forall t ensures t in rest <==> t in boards - {s} {
        if t in rest {
          var j :| 0 <= j < |rest| && rest[j] == t;
          assert order[j + 1] == t;
        }
        if t in boards - {s} {
          assert t in order;
          var j :| 0 <= j < |order| && order[j] == t;
          assert j != 0;
          assert rest[j - 1] == t;
        }
      }
      FlattenSendsEverything(rest, boards - {s});
      AllSharedAt(boards, s);
    }
  }

  /** What the first `i` rounds of the broadcast loop emit, when none of them met a user
      without a session. */
  ghost function Emitted(users: seq<string>, sessions: map<string, Conn>, sharer: string, event: string, msg: string, i: nat): seq<Emission>
    requires i <= |users|
    requires forall j :: 0 <= j < i ==> users[j] == sharer || users[j] in sessions
  {
    if i == 0 then []
    else
      var last := if users[i - 1] == sharer then [] else [Emission(sessions[users[i - 1]], event, msg)];
      Emitted(users, sessions, sharer, event, msg, i - 1) + last
  }

  /** Round by round, the loop emits the notices of the recipients among the users seen. */
  lemma {:induction false} EmittedIsNotices(users: seq<string>, sessions: map<string, Conn>, sharer: string, event: string, msg: string, i: nat)
    requires i <= |users|
    requires forall j :: 0 <= j < i ==> users[j] == sharer || users[j] in sessions
    ensures forall u :: u in Recipients(users[..i], sharer) ==> u in sessions
    ensures Emitted(users, sessions, sharer, event, msg, i) == Notices(Recipients(users[..i], sharer), sessions, event, msg)
    decreases i
  {
    if i > 0 {
      EmittedIsNotices(users, sessions, sharer, event, msg, i - 1);
      BroadcastStep(users, i - 1, sessions, sharer, event, msg);
    }
  }

  /** `Reach` is the index of the first user, other than the sharer, without a session. */
  lemma {:induction false} ReachIs(users: seq<string>, sessions: map<string, Conn>, sharer: string, i: nat)
    requires i <= |users|
    requires forall j :: 0 <= j < i ==> users[j] == sharer || users[j] in sessions
    requires i < |users| ==> users[i] != sharer && users[i] !in sessions
    ensures Reach(users, sessions, sharer) == i
    decreases i
  {
    if i > 0 {
      ReachIs(users[1..], sessions, sharer, i - 1);
    }
  }

  /** One more user of the list: the sharer adds nothing, anyone else with a session adds
      one emission at the end. */
  lemma BroadcastStep(users: seq<string>, i: nat, sessions: map<string, Conn>, sharer: string, event: string, msg: string)
    requires i < |users| && (users[i] == sharer || users[i] in sessions)
    requires forall u :: u in Recipients(users[..i], sharer) ==> u in sessions
    ensures forall u :: u in Recipients(users[..i + 1], sharer) ==> u in sessions
    ensures Notices(Recipients(users[..i + 1], sharer), sessions, event, msg) ==
      Notices(Recipients(users[..i], sharer), sessions, event, msg) +
      (if users[i] == sharer then [] else [Emission(sessions[users[i]], event, msg)])
  {
    RecipientsSnoc(users, i, sharer);
    if users[i] != sharer {
      NoticesSnoc(Recipients(users[..i], sharer), users[i], sessions, event, msg);
    }
  }

  /** One `sharingBoard` emission per board, to one endpoint. */
  function SharingNotices(to: Conn, boards: seq<string>): (r: seq<Emission>)
    ensures |r| == |boards|
    ensures forall i :: 0 <= i < |r| ==> r[i] == Emission(to, SharingBoard, boards[i])
  {
    seq(|boards|, i requires 0 <= i < |boards| => Emission(to, SharingBoard, boards[i]))
  }

  lemma SharingNoticesSnoc(to: Conn, boards: seq<string>, board: string)
    ensures SharingNotices(to, boards + [board]) ==
      SharingNotices(to, boards) + [Emission(to, SharingBoard, board)]
  {
  }

  lemma SharingNoticesAppend(to: Conn, a: seq<string>, b: seq<string>)
    ensures SharingNotices(to, a + b) == SharingNotices(to, a) + SharingNotices(to, b)
  {
  }

  class WhiteboardServer {
    /** Connected clients by endpoint id. */
    var clients: map<string, Conn>
    /** Shared boards, by the endpoint id of the client sharing them. */
    var sharingBoards: map<string, seq<string>>
    /** Every emission so far, oldest first. */
    var outbox: seq<Emission>

    constructor ()
      ensures clients == map[] && sharingBoards == map[] && outbox == []
    {
      clients := map[];
      sharingBoards := map[];
      outbox := [];
    }

    /** `addShareBoard`: appended to the sharer's list, which is created when missing. */
    method AddShareBoard(sharer: string, board: string)
      modifies this
      ensures sharingBoards == Appended(old(sharingBoards), sharer, board)
      ensures clients == old(clients) && outbox == old(outbox)
    {
      if sharer !in sharingBoards {
        sharingBoards := sharingBoards[sharer := []];
      }
      sharingBoards := sharingBoards[sharer := sharingBoards[sharer] + [board]];
    }

    /** `removeShareBoard`. */
    method RemoveShareBoard(sharer: string, board: string)
      modifies this
      ensures sharingBoards == WithoutShare(old(sharingBoards), sharer, board)
      ensures clients == old(clients) && outbox == old(outbox)
    {
      if sharer !in sharingBoards {
        return;
      }
      sharingBoards := sharingBoards[sharer := RemoveFirst(sharingBoards[sharer], board)];
      if sharingBoards[sharer] == [] {
        sharingBoards := sharingBoards - {sharer};
      }
    }

    /** `broadcast`: in list order, every user other than the sharer is sent the event.
        A user without a session stops the loop (the lookup throws): `ok` is then false
        and the users after it get nothing. */
    method Broadcast(users: seq<string>, sessions: map<string, Conn>, sharer: string, event: string, msg: string)
      returns (ok: bool)
      modifies this
      ensures var k := Reach(users, sessions, sharer);
        && ok == (k == |users|)
        && outbox == old(outbox) + Notices(Recipients(users[..k], sharer), sessions, event, msg)
      ensures clients == old(clients) && sharingBoards == old(sharingBoards)
    {
      if users == [] {
        return true;
      }
      var i := 0;
      while i < |users|
        invariant i <= |users|
        invariant forall j :: 0 <= j < i ==> users[j] == sharer || users[j] in sessions
        invariant outbox == old(outbox) + Emitted(users, sessions, sharer, event, msg, i)
        invariant clients == old(clients) && sharingBoards == old(sharingBoards)
      {
        var client := users[i];
        if client != sharer && client !in sessions {
          ReachIs(users, sessions, sharer, i);
          EmittedIsNotices(users, sessions, sharer, event, msg, i);
          return false;
        }
        if client != sharer {
          outbox := outbox + [Emission(sessions[client], event, msg)];
        }
        i := i + 1;
      }
      ReachIs(users, sessions, sharer, i);
      EmittedIsNotices(users, sessions, sharer, event, msg, i);
      assert users[..i] == users;
      ok := true;
    }

    /** The inner loop of `sendSharingPeer`: one sharer's boards go out in list order. */
    method SendBoards(endpoint: Conn, boards: seq<string>)
      modifies this
      ensures outbox == old(outbox) + SharingNotices(endpoint, boards)
      ensures clients == old(clients) && sharingBoards == old(sharingBoards)
    {
      var j := 0;
      while j < |boards|
        invariant 0 <= j <= |boards|
        invariant outbox == old(outbox) + SharingNotices(endpoint, boards[..j])
        invariant clients == old(clients) && sharingBoards == old(sharingBoards)
      {
        assert boards[..j + 1] == boards[..j] + [boards[j]];
        SharingNoticesSnoc(endpoint, boards[..j], boards[j]);
        outbox := outbox + [Emission(endpoint, SharingBoard, boards[j])];
        j := j + 1;
      }
      assert boards[..j] == boards;
    }

    /** `sendSharingPeer`: for each sharer in the table's own order, every board in its
        list is sent to the endpoint. */
    method SendSharingPeer(endpoint: Conn) returns (ghost order: seq<string>)
      modifies this
      ensures Distinct(order) && forall s :: s in order <==> s in sharingBoards
      ensures outbox == old(outbox) + SharingNotices(endpoint, Flatten(order, sharingBoards))
      ensures clients == old(clients) && sharingBoards == old(sharingBoards)
    {
      order := [];
      var rest := sharingBoards.Keys;
      while rest != {}
        invariant rest <= sharingBoards.Keys
        invariant Distinct(order)
        invariant forall s :: s in order <==> s in sharingBoards && s !in rest
        invariant outbox == old(outbox) + SharingNotices(endpoint, Flatten(order, sharingBoards))
        invariant clients == old(clients) && sharingBoards == old(sharingBoards)
        decreases |rest|
      {
        var sharer :| sharer in rest;
        var boards := sharingBoards[sharer];
        ghost var done := Flatten(order, sharingBoards);
        SendBoards(endpoint, boards);
        assert outbox == old(outbox) + SharingNotices(endpoint, done + boards) by {
          SharingNoticesAppend(endpoint, done, boards);
        }
        assert Flatten(order + [sharer], sharingBoards) == done + boards by {
          FlattenSnoc(order, sharingBoards, sharer);
        }
        DistinctSnoc(order, sharer);
        order := order + [sharer];
        rest := rest - {sharer};
      }
    }

    /** The `sessionStarted` handler: the client is stored under its endpoint id, then sent
        every board shared so far. */
    method SessionStarted(id: string, endpoint: Conn) returns (ghost order: seq<string>)
      modifies this
      ensures clients == old(clients)[id := endpoint]
      ensures sharingBoards == old(sharingBoards)
      ensures Distinct(order) && forall s :: s in order <==> s in sharingBoards
      ensures outbox == old(outbox) + SharingNotices(endpoint, Flatten(order, sharingBoards))
    {
      clients := clients[id := endpoint];
      order := SendSharingPeer(endpoint);
    }

    /** The `shareBoard` handler: the argument is cut to its board name, filed under the
        raiser, and announced to every other client, in the client map's order. */
    method ShareBoardReceived(raiser: string, arg: string) returns (ghost users: seq<string>)
      modifies this
      ensures sharingBoards == Appended(old(sharingBoards), raiser, App.GetBoardName(arg))
      ensures clients == old(clients)
      ensures Distinct(users) && forall u :: u in users <==> u in clients
      ensures outbox == old(outbox) + Notices(Recipients(users, raiser), clients, SharingBoard, App.GetBoardName(arg))
    {
      var board := App.GetBoardName(arg);
      AddShareBoard(raiser, board);
      var order := KeysInSomeOrder(clients.Keys);
      users := order;
      BroadcastToAllClients(order, clients, raiser);
      var ok := Broadcast(order, clients, raiser, SharingBoard, board);
      assert order[..|order|] == order;
    }

    /** The `unshareBoard` handler: the same, with `removeShareBoard` and the
        `unsharingBoard` event. */
    method UnshareBoardReceived(raiser: string, arg: string) returns (ghost users: seq<string>)
      modifies this
      ensures sharingBoards == WithoutShare(old(sharingBoards), raiser, App.GetBoardName(arg))
      ensures clients == old(clients)
      ensures Distinct(users) && forall u :: u in users <==> u in clients
      ensures outbox == old(outbox) + Notices(Recipients(users, raiser), clients, UnsharingBoard, App.GetBoardName(arg))
    {
      var board := App.GetBoardName(arg);
      RemoveShareBoard(raiser, board);
      var order := KeysInSomeOrder(clients.Keys);
      users := order;
      BroadcastToAllClients(order, clients, raiser);
      var ok := Broadcast(order, clients, raiser, UnsharingBoard, board);
      assert order[..|order|] == order;
    }

    /** The `sessionStopped` handler: the client and its whole share entry go. */
    method SessionStopped(id: string)
      modifies this
      ensures clients == old(clients) - {id} && sharingBoards == old(sharingBoards) - {id}
      ensures outbox == old(outbox)
    {
      clients := clients - {id};
      sharingBoards := sharingBoards - {id};
    }

    /** The `sessionError` handler: the same two removals, in the other order. */
    method SessionError(id: string)
      modifies this
      ensures clients == old(clients) - {id} && sharingBoards == old(sharingBoards) - {id}
      ensures outbox == old(outbox)
    {
      sharingBoards := sharingBoards - {id};
      clients := clients - {id};
    }
  }

  /** Appending a sharer to the enumeration appends its list to the boards sent. */
  lemma {:induction false} FlattenSnoc(order: seq<string>, boards: map<string, seq<string>>, s: string)
    requires forall t :: t in order ==> t in boards
    requires s in boards
    ensures Flatten(order + [s], boards) == Flatten(order, boards) + boards[s]
  {
    if order == [] {
      assert order + [s] == [s];
      assert [s][1..] == [];
    } else {
      assert (order + [s])[1..] == order[1..] + [s];
      FlattenSnoc(order[1..], boards, s);
    }
  }
}
