/** The room hub: the websocket endpoint's per-connection handler and the presence
    broadcast. Sockets are abstract ids; every `send_text`/`close` the hub performs is
    appended to `out`. Each method is one atomic stretch of the handler between two
    awaits, so the handshake is split at its await: `Accept` (the connection is
    accepted and the room looked up) and `Handshake` (its first message arrives). */
module RoomHub {
  import opened Json

  type SocketId = nat
  type RoomId = string

  datatype Option<T> = None | Some(value: T)

  /** A received text frame together with its decoding. */
  datatype Frame = Frame(text: string, body: Obj)

  /** The per-room document: what `init` reports to a joiner. */
  datatype RoomState = RoomState(code: Val, language: Val)

  const FreshRoom: RoomState := RoomState(Str(""), Str("cpp"))

  /** What the hub sends: the handshake error, the presence list, the joiner's
      `init`, or a client frame forwarded verbatim. */
  datatype OutMsg =
    | RoomMissing
    | Users(list: seq<Val>)
    | Init(state: RoomState)
    | Raw(text: string)

  datatype Event = Send(who: SocketId, msg: OutMsg) | Close(who: SocketId)

  predicate Distinct<T(==)>(s: seq<T>)
  {
    forall i, j :: 0 <= i < j < |s| ==> s[i] != s[j]
  }

  /** `a` is `b` with some elements left out, the rest in `b`'s order. */
  predicate IsSubsequence<T(==)>(a: seq<T>, b: seq<T>)
    decreases |b|
  {
    a == [] || (b != [] && if a[0] == b[0] then IsSubsequence(a[1..], b[1..]) else IsSubsequence(a, b[1..]))
  }

  lemma {:induction false} SubsequenceRefl<T>(s: seq<T>)
    ensures IsSubsequence(s, s)
    decreases |s|
  {
    if s != [] {
      SubsequenceRefl(s[1..]);
    }
  }

  lemma {:induction false} SubsequenceOfCons<T>(y: T, t: seq<T>)
    ensures IsSubsequence(t, [y] + t)
    decreases |t|
  {
    assert ([y] + t)[1..] == t;
    if t != [] {
      if t[0] == y {
        SubsequenceOfCons(t[0], t[1..]);
        assert [t[0]] + t[1..] == t;
      } else {
        SubsequenceRefl(t);
      }
    }
  }

  /** The receivers of a run of events, in order. */
  function Recipients(es: seq<Event>): (r: seq<SocketId>)
    ensures |r| == |es|
    decreases |es|
  {
    if es == [] then [] else [es[0].who] + Recipients(es[1..])
  }

  /** Sending `msg` to every member in list order, except the one `skip` names. */
  function Fanout(members: seq<SocketId>, skip: Option<SocketId>, msg: OutMsg): (r: seq<Event>)
    ensures |r| <= |members|
    decreases |members|
  {
    if members == [] then []
    else (if skip == Some(members[0]) then [] else [Send(members[0], msg)]) +
         Fanout(members[1..], skip, msg)
  }

  /** Every event of a fan-out sends `msg` to a member other than the skipped one. */
  lemma {:induction false} FanoutSendsToMembers(members: seq<SocketId>, skip: Option<SocketId>, msg: OutMsg)
    ensures forall e :: e in Fanout(members, skip, msg) ==>
              e == Send(e.who, msg) && e.who in members && skip != Some(e.who)
    decreases |members|
  {
    if members != [] {
      FanoutSendsToMembers(members[1..], skip, msg);
    }
  }

  lemma ConcatAssoc<T>(a: seq<T>, b: seq<T>, c: seq<T>)
    ensures a + (b + c) == (a + b) + c
  {
  }

  /** Sending to one more member extends the fan-out by one send (or none, for the
      skipped member). */
  lemma {:induction false} FanoutSnoc(members: seq<SocketId>, x: SocketId, skip: Option<SocketId>, msg: OutMsg)
    ensures Fanout(members + [x], skip, msg) ==
              Fanout(members, skip, msg) + (if skip == Some(x) then [] else [Send(x, msg)])
    decreases |members|
  {
    if members == [] {
      assert [x][1..] == [];
    } else {
      var y, rest := members[0], members[1..];
      var head := if skip == Some(y) then [] else [Send(y, msg)];
      var last := if skip == Some(x) then [] else [Send(x, msg)];
      assert (members + [x])[0] == y && (members + [x])[1..] == rest + [x];
      assert Fanout(members + [x], skip, msg) == head + Fanout(rest + [x], skip, msg);
      FanoutSnoc(rest, x, skip, msg);
      assert Fanout(members, skip, msg) == head + Fanout(rest, skip, msg);
      ConcatAssoc(head, Fanout(rest, skip, msg), last);
    }
  }

  /** The fan-out reaches every member except the skipped one exactly as often as it
      occurs in the list, and never the skipped one. */
  lemma FanoutCounts(members: seq<SocketId>, skip: Option<SocketId>, msg: OutMsg)
    ensures forall m :: multiset(Recipients(Fanout(members, skip, msg)))[m] ==
                          if skip == Some(m) then 0 else multiset(members)[m]
  {
    forall m {
      FanoutCount(members, skip, msg, m);
    }
  }

  /** `FanoutCounts` for one socket. */
  lemma {:induction false} FanoutCount(members: seq<SocketId>, skip: Option<SocketId>, msg: OutMsg,
                                       m: SocketId)
    ensures multiset(Recipients(Fanout(members, skip, msg)))[m] ==
              if skip == Some(m) then 0 else multiset(members)[m]
    decreases |members|
  {
    if members != [] {
      var x: SocketId, rest: seq<SocketId> := members[0], members[1..];
      var tail := Fanout(rest, skip, msg);
      var r := Fanout(members, skip, msg);
      FanoutCount(rest, skip, msg, m);
      assert members == [x] + rest;
      var here: nat := if x == m then 1 else 0;
      assert multiset(members)[m] == here + multiset(rest)[m];
      if skip == Some(x) {
        assert r == tail;
      } else {
        assert r == [Send(x, msg)] + tail;
        assert r[1..] == tail;
        assert Recipients(r) == [x] + Recipients(tail);
        assert multiset(Recipients(r))[m] == here + multiset(Recipients(tail))[m];
      }
    }
  }

  /** The fan-out reaches its recipients in member-list order. */
  lemma {:induction false} FanoutInOrder(members: seq<SocketId>, skip: Option<SocketId>, msg: OutMsg)
    ensures IsSubsequence(Recipients(Fanout(members, skip, msg)), members)
    decreases |members|
  {
    if members != [] {
      var x, rest := members[0], members[1..];
      var tail := Fanout(rest, skip, msg);
      var r := Fanout(members, skip, msg);
      FanoutInOrder(rest, skip, msg);
      if skip == Some(x) {
        assert r == tail;
        var rt := Recipients(tail);
        if rt != [] {
          FanoutSendsToMembers(rest, skip, msg);
          assert tail[0] in tail;
          assert rt[0] == tail[0].who != x;
        }
      } else {
        assert r == [Send(x, msg)] + tail;
        assert r[1..] == tail;
        assert Recipients(r) == [x] + Recipients(tail);
        assert Recipients(r)[1..] == Recipients(tail);
      }
    }
  }

  /** With distinct members, everyone but the skipped member gets exactly one send. */
  lemma FanoutOncePerMember(members: seq<SocketId>, skip: Option<SocketId>, msg: OutMsg, m: SocketId)
    requires Distinct(members) && m in members && skip != Some(m)
    ensures multiset(Recipients(Fanout(members, skip, msg)))[m] == 1
  {
    FanoutCounts(members, skip, msg);
    DistinctCountsOne(members, m);
  }

  lemma {:induction false} DistinctCountsOne(s: seq<SocketId>, m: SocketId)
    requires Distinct(s) && m in s
    ensures multiset(s)[m] == 1
    decreases |s|
  {
    assert s == [s[0]] + s[1..];
    DistinctTail(s);
    if s[0] != m {
      DistinctCountsOne(s[1..], m);
    }
  }

  lemma DistinctTail<T>(s: seq<T>)
    requires Distinct(s) && s != []
    ensures Distinct(s[1..]) && s[0] !in s[1..]
  {
    forall j | 0 <= j < |s| - 1 ensures s[1..][j] != s[0] {
      assert s[1..][j] == s[j + 1];
    }
  }

  lemma DistinctCons<T>(y: T, t: seq<T>)
    requires Distinct(t) && y !in t
    ensures Distinct([y] + t)
  {
    var r := [y] + t;
    forall i, j | 0 <= i < j < |r| ensures r[i] != r[j] {
      assert r[j] == t[j - 1];
      if i > 0 {
        assert r[i] == t[i - 1];
      }
    }
  }

  /** Python's `list.remove` after the `in` check: drops the first occurrence of `x`,
      if any. */
  function RemoveFirst(s: seq<SocketId>, x: SocketId): (r: seq<SocketId>)
    ensures |r| == if x in s then |s| - 1 else |s|
    ensures x !in s ==> r == s
    decreases |s|
  {
    if s == [] then []
    else if s[0] == x then s[1..]
    else [s[0]] + RemoveFirst(s[1..], x)
  }

  /** Removing `x` takes exactly one copy of it out of the multiset of members, if it
      was there, and keeps the other members in their order. */
  lemma {:induction false} RemoveFirstContents(s: seq<SocketId>, x: SocketId)
    ensures multiset(RemoveFirst(s, x)) == multiset(s) - multiset{x}
    ensures IsSubsequence(RemoveFirst(s, x), s)
    decreases |s|
  {
    if s != [] {
      assert s == [s[0]] + s[1..];
      if s[0] == x {
        SubsequenceOfCons(s[0], s[1..]);
      } else {
        RemoveFirstContents(s[1..], x);
        var r := RemoveFirst(s, x);
        assert r[0] == s[0] && r[1..] == RemoveFirst(s[1..], x);
      }
    }
  }

  /** In a list without repetitions, removing a member leaves a list without
      repetitions that no longer holds it. */
  lemma {:induction false} RemoveFirstDistinct(s: seq<SocketId>, x: SocketId)
    requires Distinct(s)
    ensures Distinct(RemoveFirst(s, x)) && x !in RemoveFirst(s, x)
    decreases |s|
  {
    if s != [] {
      DistinctTail(s);
      if s[0] != x {
        var rest := RemoveFirst(s[1..], x);
        RemoveFirstDistinct(s[1..], x);
        RemoveFirstContents(s[1..], x);
        forall y | y in rest ensures y in s[1..] {
          assert y in multiset(rest);
        }
        DistinctCons(s[0], rest);
      }
    }
  }

  /** The presence list: one entry per member, in member order, each the name that
      member joined with (`usernames.get(ws, "User")`). */
  function UsersList(members: seq<SocketId>, names: map<SocketId, Val>): (r: seq<Val>)
    ensures |r| == |members|
    ensures forall i :: 0 <= i < |members| && members[i] in names ==> r[i] == names[members[i]]
    ensures forall i :: 0 <= i < |members| && members[i] !in names ==> r[i] == Str("User")
  {
    seq(|members|, i requires 0 <= i < |members| =>
      if members[i] in names then names[members[i]] else Str("User"))
  }

  /** The room document after a client message: only a message whose type is exactly
      `code` or `language` overwrites that one field, with the message's value for it
      (null when absent). */
  function UpdateState(st: RoomState, body: Obj): (r: RoomState)
    ensures HasType(body, "code") ==> r == RoomState(Get(body, "code"), st.language)
    ensures HasType(body, "language") ==> r == RoomState(st.code, Get(body, "language"))
    ensures !HasType(body, "code") && !HasType(body, "language") ==> r == st
  {
    if HasType(body, "code") then st.(code := Get(body, "code"))
    else if HasType(body, "language") then st.(language := Get(body, "language"))
    else st
  }

  /** Every handler in the receive loop serves an existing room its socket was
      admitted to. */
  ghost predicate LiveAdmitted(live: map<SocketId, RoomId>, rooms: set<RoomId>,
                               admitted: map<SocketId, RoomId>)
  {
    forall ws :: ws in live ==> live[ws] in rooms && ws in admitted && admitted[ws] == live[ws]
  }

  /** Each member is a socket admitted to that room. */
  ghost predicate AdmittedTo(members: seq<SocketId>, admitted: map<SocketId, RoomId>, room: RoomId)
  {
    forall m :: m in members ==> m in admitted && admitted[m] == room
  }

  /** Member lists hold no socket twice and only sockets admitted to that room. */
  ghost predicate MembersAdmitted(rooms: map<RoomId, seq<SocketId>>, admitted: map<SocketId, RoomId>)
  {
    forall r :: r in rooms ==> Distinct(rooms[r]) && AdmittedTo(rooms[r], admitted, r)
  }

  /** Admitting a new socket keeps every existing member list admitted. */
  lemma AdmitNew(rooms: map<RoomId, seq<SocketId>>, admitted: map<SocketId, RoomId>,
                 ws: SocketId, room: RoomId)
    requires MembersAdmitted(rooms, admitted) && ws !in admitted
    ensures MembersAdmitted(rooms, admitted[ws := room])
  {
    forall r | r in rooms ensures AdmittedTo(rooms[r], admitted[ws := room], r) {
      assert AdmittedTo(rooms[r], admitted, r);
    }
  }

  /** A socket new to every room may be appended to an existing room's list. */
  lemma AppendNew(rooms: map<RoomId, seq<SocketId>>, admitted: map<SocketId, RoomId>,
                  ws: SocketId, room: RoomId)
    requires MembersAdmitted(rooms, admitted) && ws !in admitted && room in rooms
    ensures MembersAdmitted(rooms[room := rooms[room] + [ws]], admitted[ws := room])
  {
    AdmitNew(rooms, admitted, ws, room);
    var prev := rooms[room];
    var s := prev + [ws];
    assert AdmittedTo(prev, admitted, room);
    forall i, j | 0 <= i < j < |s| ensures s[i] != s[j] {
      assert s[i] == prev[i];
      if j == |prev| {
        assert s[i] in prev;
      } else {
        assert s[j] == prev[j];
      }
    }
    assert AdmittedTo(s, admitted[ws := room], room);
  }

  /** A socket new to every room may start a handler for a room that exists or is
      being created. */
  lemma LiveNew(live: map<SocketId, RoomId>, rooms: map<RoomId, seq<SocketId>>,
                admitted: map<SocketId, RoomId>, ws: SocketId, room: RoomId, members: seq<SocketId>)
    requires LiveAdmitted(live, rooms.Keys, admitted) && ws !in admitted
    ensures LiveAdmitted(live[ws := room], rooms[room := members].Keys, admitted[ws := room])
  {
  }

  /** Setting the same key in three maps with equal key sets keeps the key sets equal. */
  lemma SameKeysAfterSet<A, B, C>(a: map<RoomId, A>, b: map<RoomId, B>, c: map<RoomId, C>,
                                  k: RoomId, x: A, y: B, z: C)
    requires a.Keys == b.Keys == c.Keys
    ensures a[k := x].Keys == b[k := y].Keys == c[k := z].Keys
  {
    assert a[k := x].Keys == a.Keys + {k};
    assert b[k := y].Keys == b.Keys + {k};
    assert c[k := z].Keys == c.Keys + {k};
  }

  /** Overwriting the value of a key already present leaves the key set as it is. */
  lemma KeysAfterOverwrite<V>(m: map<RoomId, V>, k: RoomId, v: V)
    requires k in m
    ensures m[k := v].Keys == m.Keys
  {
  }

  /** A handler leaving the receive loop keeps the others admitted. */
  lemma LiveRemove(live: map<SocketId, RoomId>, rooms: set<RoomId>, admitted: map<SocketId, RoomId>,
                   ws: SocketId)
    requires LiveAdmitted(live, rooms, admitted)
    ensures LiveAdmitted(live - {ws}, rooms, admitted)
  {
  }

  /** A socket new to every room may become the only member of a room. */
  lemma CreateNew(rooms: map<RoomId, seq<SocketId>>, admitted: map<SocketId, RoomId>,
                  ws: SocketId, room: RoomId)
    requires MembersAdmitted(rooms, admitted) && ws !in admitted
    ensures MembersAdmitted(rooms[room := [ws]], admitted[ws := room])
  {
    AdmitNew(rooms, admitted, ws, room);
    assert AdmittedTo([ws], admitted[ws := room], room);
  }

  /** A socket never admitted is in no member list. */
  lemma NotAdmittedNotMember(rooms: map<RoomId, seq<SocketId>>, admitted: map<SocketId, RoomId>,
                             ws: SocketId)
    requires MembersAdmitted(rooms, admitted) && ws !in admitted
    ensures forall r :: r in rooms ==> ws !in rooms[r]
  {
    forall r | r in rooms ensures ws !in rooms[r] {
      assert AdmittedTo(rooms[r], admitted, r);
    }
  }

  lemma RemoveKeepsAdmitted(members: seq<SocketId>, x: SocketId, admitted: map<SocketId, RoomId>,
                            room: RoomId)
    requires AdmittedTo(members, admitted, room)
    ensures AdmittedTo(RemoveFirst(members, x), admitted, room)
  {
    var r := RemoveFirst(members, x);
    RemoveFirstContents(members, x);
    forall m | m in r ensures m in members {
      assert m in multiset(r);
    }
  }

  lemma ReplaceMembers(rooms: map<RoomId, seq<SocketId>>, admitted: map<SocketId, RoomId>,
                       room: RoomId, members: seq<SocketId>)
    requires MembersAdmitted(rooms, admitted)
    requires Distinct(members) && AdmittedTo(members, admitted, room)
    ensures MembersAdmitted(rooms[room := members], admitted)
  {
  }

  class Hub {
    var rooms: map<RoomId, seq<SocketId>>
    var usernames: map<SocketId, Val>
    var admins: map<RoomId, SocketId>
    var roomState: map<RoomId, RoomState>
    /** Handlers waiting for the first message of a connection whose room did not
        exist when it was accepted. */
    var pending: map<SocketId, RoomId>
    /** Handlers in the receive loop, with their room. */
    var live: map<SocketId, RoomId>
    var out: seq<Event>
    /** Every socket ever accepted. */
    ghost var seen: set<SocketId>
    /** Every socket ever appended to a member list, with that room. */
    ghost var admitted: map<SocketId, RoomId>

    ghost predicate Valid()
      reads this`rooms, this`admins, this`roomState, this`pending, this`live, this`seen,
            this`admitted
    {
      rooms.Keys == admins.Keys == roomState.Keys &&
      admitted.Keys <= seen && pending.Keys <= seen && pending.Keys !! admitted.Keys &&
      LiveAdmitted(live, rooms.Keys, admitted) && MembersAdmitted(rooms, admitted)
    }

    constructor ()
      ensures Valid()
      ensures rooms == map[] && usernames == map[] && admins == map[] && roomState == map[]
      ensures pending == map[] && live == map[] && out == []
      ensures seen == {} && admitted == map[]
    {
      rooms, usernames, admins, roomState := map[], map[], map[], map[];
      pending, live, out := map[], map[], [];
      seen, admitted := {}, map[];
    }

    /** Sends `msg` to the members of `room` in list order, skipping `skip`. */
    method Deliver(room: RoomId, skip: Option<SocketId>, msg: OutMsg)
      requires room in rooms
      modifies this`out
      ensures out == old(out) + Fanout(rooms[room], skip, msg)
    {
      var members := rooms[room];
      var i := 0;
      while i < |members|
        invariant 0 <= i <= |members|
        invariant out == old(out) + Fanout(members[..i], skip, msg)
      {
        FanoutSnoc(members[..i], members[i], skip, msg);
        assert members[..i + 1] == members[..i] + [members[i]];
        if skip != Some(members[i]) {
          out := out + [Send(members[i], msg)];
        }
        i := i + 1;
      }
      assert members[..|members|] == members;
    }

    /** `broadcast_users`: every member, the newest included, gets the presence list. */
    method BroadcastUsers(room: RoomId)
      requires room in rooms
      modifies this`out
      ensures out == old(out) + Fanout(rooms[room], None, Users(UsersList(rooms[room], usernames)))
    {
      var users := UsersList(rooms[room], usernames);
      Deliver(room, None, Users(users));
    }

    /** A new connection to `room` has been accepted. If the room exists the socket
        joins its member list at once; otherwise the handler waits for the first
        message. */
    method Accept(ws: SocketId, room: RoomId)
      requires Valid() && ws !in seen
      modifies this`rooms, this`pending, this`live, this`seen, this`admitted
      ensures Valid()
      ensures seen == old(seen) + {ws}
      ensures old(room in rooms) ==>
                rooms == old(rooms)[room := old(rooms)[room] + [ws]] &&
                live == old(live)[ws := room] && pending == old(pending)
      ensures old(room !in rooms) ==>
                rooms == old(rooms) && live == old(live) && pending == old(pending)[ws := room]
    {
      seen := seen + {ws};
      if room in rooms {
        AppendNew(rooms, admitted, ws, room);
        LiveNew(live, rooms, admitted, ws, room, rooms[room] + [ws]);
        rooms := rooms[room := rooms[room] + [ws]];
        live := live[ws := room];
        admitted := admitted[ws := room];
      } else {
        pending := pending[ws := room];
      }
    }

    /** The first message of a connection to a room that was absent when it was
        accepted (`None`: the connection dropped or the message was not JSON). Only
        `create` admits the socket: it becomes the room's admin and only member, and
        the room document starts empty in C++. Anything else gets one error and the
        connection is closed, never to be a member. */
    method Handshake(ws: SocketId, first: Option<Frame>)
      requires Valid() && ws in pending
      modifies this`rooms, this`admins, this`roomState, this`pending, this`live, this`out,
               this`admitted
      ensures Valid()
      ensures pending == old(pending) - {ws}
      ensures ws !in old(live)
      ensures first.Some? && HasType(first.value.body, "create") ==>
                var room := old(pending)[ws];
                rooms == old(rooms)[room := [ws]] && admins == old(admins)[room := ws] &&
                roomState == old(roomState)[room := FreshRoom] &&
                live == old(live)[ws := room] && out == old(out)
      ensures first.Some? && !HasType(first.value.body, "create") ==>
                rooms == old(rooms) && admins == old(admins) && roomState == old(roomState) &&
                live == old(live) && ws !in admitted &&
                (forall r :: r in rooms ==> ws !in rooms[r]) &&
                out == old(out) + [Send(ws, RoomMissing), Close(ws)]
      ensures first.None? ==>
                rooms == old(rooms) && admins == old(admins) && roomState == old(roomState) &&
                live == old(live) && ws !in admitted &&
                (forall r :: r in rooms ==> ws !in rooms[r]) && out == old(out)
    {
      NotAdmittedNotMember(rooms, admitted, ws);
      if first.None? {
        pending := pending - {ws};
        return;
      }
      if !HasType(first.value.body, "create") {
        pending := pending - {ws};
        out := out + [Send(ws, RoomMissing), Close(ws)];
        return;
      }
      Create(ws);
    }

    /** The `create` branch of the handshake of the waiting socket `ws`: it becomes
        the admin and only member of the room it asked for (whatever that room's list
        held), the room document starts empty in C++, and the handler leaves the wait
        for the receive loop. */
    method Create(ws: SocketId)
      requires Valid() && ws in pending
      modifies this`rooms, this`admins, this`roomState, this`pending, this`live, this`admitted
      ensures Valid()
      ensures var room := old(pending)[ws];
              rooms == old(rooms)[room := [ws]] && admins == old(admins)[room := ws] &&
              roomState == old(roomState)[room := FreshRoom] && live == old(live)[ws := room] &&
              pending == old(pending) - {ws}
    {
      var room := pending[ws];
      CreateNew(rooms, admitted, ws, room);
      SameKeysAfterSet(rooms, admins, roomState, room, [ws], ws, FreshRoom);
      LiveNew(live, rooms, admitted, ws, room, [ws]);
      rooms, admins, roomState := rooms[room := [ws]], admins[room := ws], roomState[room := FreshRoom];
      pending, live, admitted := pending - {ws}, live[ws := room], admitted[ws := room];
    }

    /** A message `f` from the live connection `ws`. `join` records the name (a
        `join` without one raises, ending the handler while the socket stays a
        member), sends the presence list to every member and `init` to the joiner, and
        is not forwarded. Every other message may update the room document and is
        forwarded verbatim to every other member. */
    method Receive(ws: SocketId, f: Frame)
      requires Valid() && ws in live
      modifies this`usernames, this`roomState, this`live, this`out
      ensures Valid()
      ensures var room := old(live)[ws];
              HasType(f.body, "join") && "username" in f.body ==>
                usernames == old(usernames)[ws := f.body["username"]] &&
                roomState == old(roomState) && live == old(live) &&
                out == old(out) + Fanout(rooms[room], None, Users(UsersList(rooms[room], usernames))) +
                       [Send(ws, Init(roomState[room]))]
      ensures HasType(f.body, "join") && "username" !in f.body ==>
                usernames == old(usernames) && roomState == old(roomState) &&
                live == old(live) - {ws} && out == old(out)
      ensures var room := old(live)[ws];
              !HasType(f.body, "join") ==>
                usernames == old(usernames) && live == old(live) &&
                roomState == old(roomState)[room := UpdateState(old(roomState)[room], f.body)] &&
                out == old(out) + Fanout(rooms[room], Some(ws), Raw(f.text))
    {
      var room := live[ws];
      if HasType(f.body, "join") {
        if "username" !in f.body {
          LiveRemove(live, rooms.Keys, admitted, ws);
          live := live - {ws};
          return;
        }
        Join(ws, f.body["username"]);
        return;
      }
      KeysAfterOverwrite(roomState, room, UpdateState(roomState[room], f.body));
      roomState := roomState[room := UpdateState(roomState[room], f.body)];
      Deliver(room, Some(ws), Raw(f.text));
    }

    /** The `join` branch for a message carrying the name `name`: record it, send the
        presence list to every member (the joiner included), then `init` with the room
        document to the joiner. */
    method Join(ws: SocketId, name: Val)
      requires Valid() && ws in live
      modifies this`usernames, this`out
      ensures Valid()
      ensures var room := live[ws];
              usernames == old(usernames)[ws := name] &&
              out == old(out) + Fanout(rooms[room], None, Users(UsersList(rooms[room], usernames))) +
                     [Send(ws, Init(roomState[room]))]
    {
      var room := live[ws];
      usernames := usernames[ws := name];
      BroadcastUsers(room);
      out := out + [Send(ws, Init(roomState[room]))];
    }

    /** The live connection `ws` closed: it leaves its room's member list and the
        remaining members get the new presence list. Its name, the admin slot, the
        room document and the room itself stay. */
    method Disconnect(ws: SocketId)
      requires Valid() && ws in live
      modifies this`rooms, this`live, this`out
      ensures Valid()
      ensures var room := old(live)[ws];
              rooms == old(rooms)[room := RemoveFirst(old(rooms)[room], ws)] &&
              ws !in rooms[room] && live == old(live) - {ws} &&
              out == old(out) + Fanout(rooms[room], None, Users(UsersList(rooms[room], usernames)))
    {
      var room := live[ws];
      var rest := RemoveFirst(rooms[room], ws);
      RemoveFirstDistinct(rooms[room], ws);
      RemoveKeepsAdmitted(rooms[room], ws, admitted, room);
      ReplaceMembers(rooms, admitted, room, rest);
      KeysAfterOverwrite(rooms, room, rest);
      LiveRemove(live, rooms.Keys, admitted, ws);
      rooms, live := rooms[room := rest], live - {ws};
      BroadcastUsers(room);
    }
  }

  /** Two connections to the same absent room that both open with `create`: the
      second handshake empties the member list again, so the first creator, still
      connected, is no longer a member. */
  method ConcurrentCreates(room: RoomId) returns (members: seq<SocketId>, firstLive: bool, admin: SocketId)
    ensures members == [2] && firstLive && admin == 2
  {
    var hub := new Hub();
    var create := Frame("{\"type\": \"create\"}", map["type" := Str("create")]);
    hub.Accept(1, room);
    hub.Accept(2, room);
    hub.Handshake(1, Some(create));
    assert hub.rooms[room] == [1];
    hub.Handshake(2, Some(create));
    members, firstLive, admin := hub.rooms[room], 1 in hub.live, hub.admins[room];
  }

  /** A connection to an absent room that opens with `join` is refused: it gets the
      error and a close, is in no member list and no longer waits on a handshake, so
      `Create` can never admit it. */
  method RefusedStaysOut(room: RoomId)
    returns (sends: seq<Event>, waiting: bool, rooms: map<RoomId, seq<SocketId>>)
    ensures sends == [Send(1, RoomMissing), Close(1)] && !waiting
    ensures forall r :: r in rooms ==> 1 !in rooms[r]
  {
    var hub := new Hub();
    var join := Frame("{\"type\": \"join\"}", map["type" := Str("join")]);
    hub.Accept(1, room);
    assert !HasType(join.body, "create") by {
      assert "join"[0] != "create"[0];
    }
    hub.Handshake(1, Some(join));
    sends, waiting, rooms := hub.out, 1 in hub.pending, hub.rooms;
  }

  /** A room created by socket 1 that socket 2 then joined. */
  method TwoMemberRoom(room: RoomId) returns (hub: Hub)
    ensures fresh(hub) && hub.Valid()
    ensures room in hub.rooms && hub.rooms[room] == [1, 2] && 1 in hub.live && hub.live[1] == room
  {
    hub := new Hub();
    var create := Frame("{\"type\": \"create\"}", map["type" := Str("create")]);
    hub.Accept(1, room);
    hub.Handshake(1, Some(create));
    assert hub.rooms[room] == [1];
    hub.Accept(2, room);
    assert [1] + [2] == [1, 2];
  }

  /** A message other than `join` from one member of a two-member room is forwarded
      to the other member only. */
  method ForwardSkipsSender(room: RoomId, chat: Frame) returns (sends: seq<Event>)
    requires !HasType(chat.body, "join")
    ensures sends == [Send(2, Raw(chat.text))]
  {
    var hub := TwoMemberRoom(room);
    var before := hub.out;
    var fwd := Raw(chat.text);
    assert Fanout([1, 2], Some(1), fwd) == [Send(2, fwd)] by {
      assert [1, 2][1..] == [2] && [2][1..] == [];
      assert Fanout([2], Some(1), fwd) == [Send(2, fwd)] + Fanout([], Some(1), fwd);
    }
    hub.Receive(1, chat);
    assert hub.out == before + [Send(2, fwd)];
    sends := hub.out[|before|..];
  }
}
