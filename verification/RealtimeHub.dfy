/** The realtime hub: subscriptions, access revisions and presence (server/realtime/hub.ts). */
module RealtimeHub {
  import opened Common

  type Socket = nat
  type SessionHash = nat
  type SpaceId = nat
  /** User identifiers are fixed-width lower-case UUIDs: their string order is the order of the numbers they spell. */
  type UserId = nat

  datatype ClientState = ClientState(userId: UserId, sessionHash: SessionHash, subscriptions: set<SpaceId>)

  datatype RevocationReason = MembershipRemoved | SpaceDeleted

  datatype CommandType = SubscribeType | UnsubscribeType | ChatType

  datatype AccessRevision = AccessRevision(spaceId: SpaceId, userId: UserId, memberRevision: nat, spaceRevision: nat)

  datatype ServerEvent =
    | SpaceSnapshot(spaceId: SpaceId, presentUserIds: seq<UserId>)
    | PresenceUpdated(spaceId: SpaceId, presentUserIds: seq<UserId>)
    | AccessRevoked(spaceId: SpaceId, reason: RevocationReason)
    | ChatMessageCreated(spaceId: SpaceId, message: nat)
    | Ack(spaceId: SpaceId, command: CommandType)

  // ---------------------------------------------------------------- the hub as a value

  type Clients = map<Socket, ClientState>

  datatype HubView = HubView(
    clients: Clients, memberRevisions: map<(SpaceId, UserId), nat>, spaceRevisions: map<SpaceId, nat>)

  predicate Subscribed(clients: Clients, socket: Socket, spaceId: SpaceId) {
    socket in clients && spaceId in clients[socket].subscriptions
  }

  /** The users with a socket subscribed to the space. */
  function Present(clients: Clients, spaceId: SpaceId): set<UserId> {
    set socket | socket in clients && spaceId in clients[socket].subscriptions :: clients[socket].userId
  }

  function MemberRevision(v: HubView, spaceId: SpaceId, userId: UserId): nat {
    if (spaceId, userId) in v.memberRevisions then v.memberRevisions[(spaceId, userId)] else 0
  }

  function SpaceRevision(v: HubView, spaceId: SpaceId): nat {
    if spaceId in v.spaceRevisions then v.spaceRevisions[spaceId] else 0
  }

  function Captured(v: HubView, spaceId: SpaceId, userId: UserId): AccessRevision {
    AccessRevision(spaceId, userId, MemberRevision(v, spaceId, userId), SpaceRevision(v, spaceId))
  }

  /** Neither a removal of the user nor a deletion of the space has been processed since the capture. */
  predicate IsCurrent(v: HubView, revision: AccessRevision) {
    Captured(v, revision.spaceId, revision.userId) == revision
  }

  function WithSubscriptions(clients: Clients, socket: Socket, subscriptions: set<SpaceId>): Clients
    requires socket in clients
  {
    clients[socket := clients[socket].(subscriptions := subscriptions)]
  }

  predicate MaySubscribe(v: HubView, socket: Socket, revision: AccessRevision) {
    socket in v.clients && v.clients[socket].userId == revision.userId && IsCurrent(v, revision)
  }

  function AfterSubscribe(v: HubView, socket: Socket, revision: AccessRevision): HubView {
    if MaySubscribe(v, socket, revision)
    then v.(clients := WithSubscriptions(v.clients, socket, v.clients[socket].subscriptions + {revision.spaceId}))
    else v
  }

  function AfterUnsubscribe(v: HubView, socket: Socket, spaceId: SpaceId): HubView {
    if socket in v.clients
    then v.(clients := WithSubscriptions(v.clients, socket, v.clients[socket].subscriptions - {spaceId}))
    else v
  }

  /** The clients with this space taken from the subscriptions of every socket of these users. */
  function Dropped(clients: Clients, sockets: set<Socket>, spaceId: SpaceId): Clients {
    map s | s in clients :: if s in sockets then clients[s].(subscriptions := clients[s].subscriptions - {spaceId}) else clients[s]
  }

  function SocketsOf(clients: Clients, userId: UserId): set<Socket> {
    set s | s in clients && clients[s].userId == userId
  }

  function AfterRevokeMember(v: HubView, spaceId: SpaceId, userId: UserId): HubView {
    v.(memberRevisions := v.memberRevisions[(spaceId, userId) := MemberRevision(v, spaceId, userId) + 1],
       clients := Dropped(v.clients, SocketsOf(v.clients, userId), spaceId))
  }

  function AfterRevokeSpace(v: HubView, spaceId: SpaceId): HubView {
    v.(spaceRevisions := v.spaceRevisions[spaceId := SpaceRevision(v, spaceId) + 1],
       clients := Dropped(v.clients, v.clients.Keys, spaceId))
  }

  function AfterRegister(v: HubView, socket: Socket, userId: UserId, sessionHash: SessionHash): HubView {
    v.(clients := v.clients[socket := ClientState(userId, sessionHash, {})])
  }

  function AfterUnregister(v: HubView, socket: Socket): HubView {
    v.(clients := v.clients - {socket})
  }

  /** Who is subscribed after each change of the hub: nobody else than before, but for the one socket, space or user it names. */
  lemma ChangesTouchOnlyTheirOwn(v: HubView, socket: Socket, spaceId: SpaceId, userId: UserId, session: SessionHash, revision: AccessRevision, s: Socket, k: SpaceId)
    ensures var was := Subscribed(v.clients, s, k);
      && (Subscribed(AfterSubscribe(v, socket, revision).clients, s, k) <==>
            || was
            || (&& s == socket && k == revision.spaceId && socket in v.clients && v.clients[socket].userId == revision.userId
                && revision.memberRevision == MemberRevision(v, k, revision.userId) && revision.spaceRevision == SpaceRevision(v, k)))
      && (Subscribed(AfterUnsubscribe(v, socket, spaceId).clients, s, k) <==> was && !(s == socket && k == spaceId))
      && (Subscribed(AfterRevokeMember(v, spaceId, userId).clients, s, k) <==> was && !(k == spaceId && v.clients[s].userId == userId))
      && (Subscribed(AfterRevokeSpace(v, spaceId).clients, s, k) <==> was && k != spaceId)
      && (Subscribed(AfterRegister(v, socket, userId, session).clients, s, k) <==> was && s != socket)
      && (Subscribed(AfterUnregister(v, socket).clients, s, k) <==> was && s != socket)
  {
  }

  /** And what becomes of the sockets and the revisions. */
  lemma ChangesKeepTheRest(v: HubView, socket: Socket, spaceId: SpaceId, userId: UserId, session: SessionHash, revision: AccessRevision, k: SpaceId, u: UserId)
    ensures AfterSubscribe(v, socket, revision).clients.Keys == AfterUnsubscribe(v, socket, spaceId).clients.Keys
         == AfterRevokeMember(v, spaceId, userId).clients.Keys == AfterRevokeSpace(v, spaceId).clients.Keys == v.clients.Keys
    ensures AfterRegister(v, socket, userId, session).clients.Keys == v.clients.Keys + {socket}
    ensures AfterUnregister(v, socket).clients.Keys == v.clients.Keys - {socket}
    ensures MemberRevision(AfterRevokeMember(v, spaceId, userId), k, u) == MemberRevision(v, k, u) + if k == spaceId && u == userId then 1 else 0
    ensures SpaceRevision(AfterRevokeMember(v, spaceId, userId), k) == SpaceRevision(v, k)
    ensures MemberRevision(AfterRevokeSpace(v, spaceId), k, u) == MemberRevision(v, k, u)
    ensures SpaceRevision(AfterRevokeSpace(v, spaceId), k) == SpaceRevision(v, k) + if k == spaceId then 1 else 0
  {
  }

  // ---------------------------------------------------------------- presence lists

  /** Only this socket's subscription to this space may differ. */
  predicate OthersAlike(a: Clients, b: Clients, socket: Socket, spaceId: SpaceId) {
    && (forall s :: s in a && s != socket && spaceId in a[s].subscriptions ==>
          s in b && spaceId in b[s].subscriptions && a[s].userId == b[s].userId)
    && (forall s :: s in b && s != socket && spaceId in b[s].subscriptions ==>
          s in a && spaceId in a[s].subscriptions && a[s].userId == b[s].userId)
  }

  /** One socket leaves: presence stands if its user is still present. */
  lemma LeavingKeepsPresence(a: Clients, b: Clients, socket: Socket, spaceId: SpaceId)
    requires OthersAlike(a, b, socket, spaceId) && !Subscribed(b, socket, spaceId)
    requires Subscribed(a, socket, spaceId) ==> a[socket].userId in Present(b, spaceId)
    ensures Present(a, spaceId) == Present(b, spaceId)
  {
  }

  /** One socket joins: presence stands if its user was present already. */
  lemma JoiningKeepsPresence(a: Clients, b: Clients, socket: Socket, spaceId: SpaceId)
    requires OthersAlike(a, b, socket, spaceId) && Subscribed(b, socket, spaceId)
    requires b[socket].userId in Present(a, spaceId)
    requires Subscribed(a, socket, spaceId) ==> a[socket].userId == b[socket].userId
    ensures Present(a, spaceId) == Present(b, spaceId)
  {
  }

  /** Presence depends only on who is subscribed. */
  lemma SameSubscriptionsSamePresence(a: Clients, b: Clients, spaceId: SpaceId)
    requires a.Keys == b.Keys
    requires forall s :: s in a ==> a[s].userId == b[s].userId && (spaceId in a[s].subscriptions <==> spaceId in b[s].subscriptions)
    ensures Present(a, spaceId) == Present(b, spaceId)
  {
  }

  /** The list is the set in ascending order. */
  predicate Lists(list: seq<UserId>, users: set<UserId>) {
    && (forall i, j :: 0 <= i < j < |list| ==> list[i] < list[j])
    && (forall u :: u in list ==> u in users)
    && (forall u :: u in users ==> u in list)
  }

  /** A set has only one ascending list. */
  lemma {:induction false} OneListEach(a: seq<UserId>, b: seq<UserId>, users: set<UserId>)
    requires Lists(a, users) && Lists(b, users)
    ensures a == b
    decreases users
  {
    if b != [] {
      LastIsListed(b, users);
    }
    if a != [] {
      LastIsListed(a, users);
      var m := a[|a| - 1];
      assert m in b && b[|b| - 1] in a;
      assert m == b[|b| - 1];
      ListWithoutItsLast(a, users);
      ListWithoutItsLast(b, users);
      OneListEach(a[..|a| - 1], b[..|b| - 1], users - {m});
    }
  }

  lemma LastIsListed(list: seq<UserId>, users: set<UserId>)
    requires list != [] && Lists(list, users)
    ensures list[|list| - 1] in users
  {
    assert list[|list| - 1] in list;
  }

  lemma ListWithAGreater(list: seq<UserId>, users: set<UserId>, u: UserId)
    requires Lists(list, users) && forall v :: v in list ==> v < u
    ensures Lists(list + [u], users + {u})
  {
    assert forall i :: 0 <= i < |list| ==> list[i] in list;
  }

  lemma ListWithoutItsLast(list: seq<UserId>, users: set<UserId>)
    requires list != [] && Lists(list, users)
    ensures Lists(list[..|list| - 1], users - {list[|list| - 1]})
  {
    var front := list[..|list| - 1];
    forall u | u in users - {list[|list| - 1]}
      ensures u in front
    {
      var i :| 0 <= i < |list| && list[i] == u;
      assert front[i] == u;
    }
  }

  /** The presence list a socket saw last for a space. */
  function LastPresence(events: seq<ServerEvent>, spaceId: SpaceId): Option<seq<UserId>> {
    if events == [] then None
    else
      var last := events[|events| - 1];
      if (last.SpaceSnapshot? || last.PresenceUpdated?) && last.spaceId == spaceId then Some(last.presentUserIds)
      else LastPresence(events[..|events| - 1], spaceId)
  }

  /** The socket's last presence list for the space is the true one. */
  predicate SeesPresence(events: seq<ServerEvent>, spaceId: SpaceId, users: set<UserId>) {
    LastPresence(events, spaceId).Some? && Lists(LastPresence(events, spaceId).value, users)
  }

  /** Nothing was sent in between but presence lists. */
  predicate HeardPresence(before: seq<ServerEvent>, after: seq<ServerEvent>) {
    before <= after && forall i :: |before| <= i < |after| ==> after[i].PresenceUpdated?
  }

  /** The snapshot of the space was sent first, and then nothing but presence lists. */
  predicate HeardSnapshot(before: seq<ServerEvent>, after: seq<ServerEvent>, spaceId: SpaceId) {
    && before < after && after[|before|].SpaceSnapshot? && after[|before|].spaceId == spaceId
    && forall i :: |before| < i < |after| ==> after[i].PresenceUpdated?
  }

  lemma AnotherEvent(events: seq<ServerEvent>, e: ServerEvent, spaceId: SpaceId)
    ensures LastPresence(events + [e], spaceId)
         == if (e.SpaceSnapshot? || e.PresenceUpdated?) && e.spaceId == spaceId then Some(e.presentUserIds) else LastPresence(events, spaceId)
  {
    assert (events + [e])[..|events|] == events;
  }

  // ---------------------------------------------------------------- the hub

  class Hub {
    var clients: Clients
    var memberAccessRevisions: map<(SpaceId, UserId), nat>
    var spaceAccessRevisions: map<SpaceId, nat>
    /** The sockets that are open, and what each was sent. */
    var open: set<Socket>
    var sent: map<Socket, seq<ServerEvent>>
    /** The sockets whose buffer is over its limit, or that throw when something is sent. */
    var stuck: set<Socket>

    function View(): HubView
      reads this
    {
      HubView(clients, memberAccessRevisions, spaceAccessRevisions)
    }

    /** Every open subscriber of a space outside these has seen its presence last. */
    ghost predicate PresenceKnown(except: set<SpaceId>)
      reads this
    {
      forall s, k :: s in open && Subscribed(clients, s, k) && k !in except ==> s in sent && SeesPresence(sent[s], k, Present(clients, k))
    }

    /** Every open subscriber of a space has seen its presence last. */
    ghost predicate Valid()
      reads this
    {
      PresenceKnown({}) && open <= sent.Keys
    }

    constructor ()
      ensures Valid() && View() == HubView(map[], map[], map[]) && open == {} && sent == map[]
    {
      clients, memberAccessRevisions, spaceAccessRevisions, open, sent, stuck := map[], map[], map[], {}, map[], {};
    }

    /** Only sockets that cannot take an event close, and what was sent stays sent. */
    twostate predicate OnlySends()
      reads this
    {
      && old(open) - stuck <= open <= old(open)
      && old(sent).Keys <= sent.Keys
      && forall s :: s in old(sent) ==> old(sent)[s] <= sent[s]
    }

    /** A closed socket, or one that cannot take the event, gets nothing; the latter is terminated. */
    method Send(socket: Socket, event: ServerEvent)
      requires open <= sent.Keys
      modifies this`open, this`sent
      ensures open <= sent.Keys && OnlySends()
      ensures forall s :: s != socket ==> (s in open <==> s in old(open))
      ensures forall s :: s in old(sent) && s != socket ==> s in sent && sent[s] == old(sent)[s]
      ensures sent.Keys == old(sent).Keys
      ensures socket in old(open) ==> (socket in open <==> socket !in stuck)
      ensures socket in open ==> sent[socket] == old(sent)[socket] + [event]
      ensures socket !in open ==> sent == old(sent)
      ensures socket !in old(open) ==> open == old(open)
    {
      if socket !in open {
        return;
      }
      if socket in stuck {
        open := open - {socket};
        return;
      }
      sent := sent[socket := sent[socket] + [event]];
    }

    /** Sends the event to every subscriber of the space. */
    method Broadcast(spaceId: SpaceId, event: ServerEvent)
      requires open <= sent.Keys
      modifies this`open, this`sent
      ensures open <= sent.Keys && OnlySends() && sent.Keys == old(sent).Keys
      ensures forall s :: s in open && Subscribed(clients, s, spaceId) ==> sent[s] == old(sent)[s] + [event]
      ensures forall s :: s in old(sent) && s !in open ==> sent[s] == old(sent)[s]
      ensures forall s :: s in old(sent) && !Subscribed(clients, s, spaceId) ==> sent[s] == old(sent)[s] && (s in open <==> s in old(open))
    {
      var todo := clients.Keys;
      while todo != {}
        invariant todo <= clients.Keys
        invariant open <= sent.Keys && OnlySends() && sent.Keys == old(sent).Keys
        invariant forall s :: s in open && Subscribed(clients, s, spaceId) && s !in todo ==> sent[s] == old(sent)[s] + [event]
        invariant forall s :: s in old(sent) && s !in open ==> sent[s] == old(sent)[s]
        invariant forall s :: s in old(sent) && (!Subscribed(clients, s, spaceId) || s in todo) ==>
          sent[s] == old(sent)[s] && (s in open <==> s in old(open))
        decreases todo
      {
        var socket :| socket in todo;
        todo := todo - {socket};
        if spaceId in clients[socket].subscriptions {
          Send(socket, event);
        }
      }
    }

    method IsUserPresent(spaceId: SpaceId, userId: UserId) returns (present: bool)
      ensures present <==> userId in Present(clients, spaceId)
    {
      var todo := clients.Keys;
      while todo != {}
        invariant todo <= clients.Keys
        invariant forall s :: s in clients && s !in todo && spaceId in clients[s].subscriptions ==> clients[s].userId != userId
        decreases todo
      {
        var socket :| socket in todo;
        todo := todo - {socket};
        if clients[socket].userId == userId && spaceId in clients[socket].subscriptions {
          return true;
        }
      }
      present := false;
    }

    method GetPresentUserIds(spaceId: SpaceId) returns (list: seq<UserId>)
      ensures Lists(list, Present(clients, spaceId))
    {
      var userIds: set<UserId> := {};
      var todo := clients.Keys;
      while todo != {}
        invariant todo <= clients.Keys
        invariant forall s :: s in clients && s !in todo && spaceId in clients[s].subscriptions ==> clients[s].userId in userIds
        invariant forall u :: u in userIds ==> u in Present(clients, spaceId)
        decreases todo
      {
        var socket :| socket in todo;
        todo := todo - {socket};
        if spaceId in clients[socket].subscriptions {
          userIds := userIds + {clients[socket].userId};
        }
      }
      assert userIds == Present(clients, spaceId);
      list := SortedList(userIds);
    }

    /** sort(). */
    method SortedList(users: set<UserId>) returns (list: seq<UserId>)
      ensures Lists(list, users)
    {
      list := [];
      var todo := users;
      assert Lists([], users - todo);
      hide Lists;
      while todo != {}
        invariant todo <= users && Lists(list, users - todo)
        invariant forall u, v :: u in list && v in todo ==> u < v
        decreases todo
      {
        LeastExists(todo);
        var least :| least in todo && IsLeast(least, todo);
        ListWithAGreater(list, users - todo, least);
        list := list + [least];
        assert users - todo + {least} == users - (todo - {least});
        todo := todo - {least};
      }
      assert users - todo == users;
    }

    method BroadcastPresence(spaceId: SpaceId, ghost stale: set<SpaceId>)
      requires PresenceKnown(stale) && open <= sent.Keys
      modifies this`open, this`sent
      ensures PresenceKnown(stale - {spaceId}) && open <= sent.Keys && OnlySends() && sent.Keys == old(sent).Keys
      ensures forall s :: s in old(sent) ==> HeardPresence(old(sent)[s], sent[s]) && (!Subscribed(clients, s, spaceId) ==> sent[s] == old(sent)[s])
    {
      var list := GetPresentUserIds(spaceId);
      Broadcast(spaceId, PresenceUpdated(spaceId, list));
      forall s, k | s in open && Subscribed(clients, s, k) && k !in stale - {spaceId}
        ensures SeesPresence(sent[s], k, Present(clients, k))
      {
        AnotherEvent(old(sent)[s], PresenceUpdated(spaceId, list), k);
      }
    }

    // ------------------------------------------------------------ registration and subscriptions

    /** A socket that has just been upgraded: open, and nothing sent to it yet. */
    method Register(socket: Socket, userId: UserId, sessionHash: SessionHash)
      requires Valid() && socket !in clients && socket !in sent
      modifies this
      ensures Valid() && View() == AfterRegister(old(View()), socket, userId, sessionHash)
      ensures open == old(open) + {socket} && sent == old(sent)[socket := []]
    {
      open, sent := open + {socket}, sent[socket := []];
      clients := clients[socket := ClientState(userId, sessionHash, {})];
      forall s, k | s in open && Subscribed(clients, s, k)
        ensures SeesPresence(sent[s], k, Present(clients, k))
      {
        LeavingKeepsPresence(old(clients), clients, socket, k);
      }
    }

    /** The connection is lost, or closed by either side. */
    method SocketCloses(socket: Socket)
      requires Valid()
      modifies this`open
      ensures Valid() && open == old(open) - {socket}
    {
      open := open - {socket};
    }

    method Unregister(socket: Socket)
      requires Valid()
      modifies this`clients, this`open, this`sent
      ensures Valid() && View() == AfterUnregister(old(View()), socket) && OnlySends()
      ensures forall s :: s in old(sent) ==> HeardPresence(old(sent)[s], sent[s])
    {
      if socket !in clients {
        return;
      }
      var state := clients[socket];
      clients := clients - {socket};
      var affectedSpaces := state.subscriptions;
      ghost var stale := set k | k in affectedSpaces && state.userId !in Present(clients, k);
      forall k | k !in stale
        ensures Present(old(clients), k) == Present(clients, k)
      {
        LeavingKeepsPresence(old(clients), clients, socket, k);
      }
      while affectedSpaces != {}
        invariant PresenceKnown(stale * affectedSpaces) && open <= sent.Keys && OnlySends()
        invariant forall s :: s in old(sent) ==> HeardPresence(old(sent)[s], sent[s])
        invariant clients == old(clients) - {socket}
        decreases affectedSpaces
      {
        var spaceId :| spaceId in affectedSpaces;
        var present := IsUserPresent(spaceId, state.userId);
        if !present {
          BroadcastPresence(spaceId, stale * affectedSpaces);
        }
        assert stale * affectedSpaces - {spaceId} == stale * (affectedSpaces - {spaceId});
        assert present ==> stale * (affectedSpaces - {spaceId}) == stale * affectedSpaces;
        affectedSpaces := affectedSpaces - {spaceId};
      }
      assert stale * affectedSpaces == {};
    }

    /** Refused, with the reason, once a removal or a deletion has been processed since the capture. */
    method SubscribeIfCurrent(socket: Socket, revision: AccessRevision) returns (subscribed: bool)
      requires Valid()
      modifies this`clients, this`open, this`sent
      ensures Valid() && View() == AfterSubscribe(old(View()), socket, revision) && OnlySends()
      ensures subscribed == MaySubscribe(old(View()), socket, revision)
      ensures !subscribed && socket in open && socket in clients && clients[socket].userId == revision.userId ==>
        sent[socket] == old(sent)[socket] + [AccessRevoked(
          revision.spaceId, if SpaceRevision(View(), revision.spaceId) != revision.spaceRevision then SpaceDeleted else MembershipRemoved)]
      ensures forall s :: s in old(sent) && s != socket ==> HeardPresence(old(sent)[s], sent[s])
      ensures subscribed && socket in open ==> socket in old(sent) && HeardSnapshot(old(sent)[socket], sent[socket], revision.spaceId)
    {
      if socket !in clients || clients[socket].userId != revision.userId {
        return false;
      }
      if SpaceRevision(View(), revision.spaceId) != revision.spaceRevision {
        SendAccessRevoked(socket, revision.spaceId, SpaceDeleted);
        return false;
      }
      if MemberRevision(View(), revision.spaceId, revision.userId) != revision.memberRevision {
        SendAccessRevoked(socket, revision.spaceId, MembershipRemoved);
        return false;
      }
      var spaceId, userId := revision.spaceId, clients[socket].userId;
      var wasPresent := IsUserPresent(spaceId, userId);
      clients := WithSubscriptions(clients, socket, clients[socket].subscriptions + {spaceId});
      forall k | k != spaceId
        ensures Present(old(clients), k) == Present(clients, k)
      {
        SameSubscriptionsSamePresence(old(clients), clients, k);
      }
      if wasPresent {
        JoiningKeepsPresence(old(clients), clients, socket, spaceId);
      }
      assert forall s, k :: s != socket || k != spaceId ==> (Subscribed(clients, s, k) <==> Subscribed(old(clients), s, k));
      SendSnapshot(socket, spaceId, if wasPresent then {} else {spaceId});
      if !wasPresent {
        BroadcastPresence(spaceId, {spaceId});
        assert {spaceId} - {spaceId} == {};
      }
      subscribed := true;
    }

    method SendAccessRevoked(socket: Socket, spaceId: SpaceId, reason: RevocationReason)
      requires open <= sent.Keys
      modifies this`open, this`sent
      ensures open <= sent.Keys && OnlySends() && sent.Keys == old(sent).Keys
      ensures forall stale :: old(PresenceKnown(stale)) ==> PresenceKnown(stale)
      ensures socket in open ==> sent[socket] == old(sent)[socket] + [AccessRevoked(spaceId, reason)]
      ensures forall s :: s in old(sent) && s != socket ==> sent[s] == old(sent)[s] && (s in open <==> s in old(open))
    {
      Send(socket, AccessRevoked(spaceId, reason));
      forall k
        ensures socket in open ==> LastPresence(sent[socket], k) == LastPresence(old(sent)[socket], k)
      {
        if socket in open {
          AnotherEvent(old(sent)[socket], AccessRevoked(spaceId, reason), k);
        }
      }
    }

    /** The snapshot that answers a subscription is already right; the other subscribers may still be behind. */
    method SendSnapshot(socket: Socket, spaceId: SpaceId, ghost stale: set<SpaceId>)
      requires open <= sent.Keys && Subscribed(clients, socket, spaceId)
      requires forall s, k :: s in open && Subscribed(clients, s, k) && k !in stale && !(s == socket && k == spaceId) ==>
        SeesPresence(sent[s], k, Present(clients, k))
      modifies this`open, this`sent
      ensures open <= sent.Keys && OnlySends() && sent.Keys == old(sent).Keys && PresenceKnown(stale)
      ensures forall s :: s in old(sent) && s != socket ==> sent[s] == old(sent)[s]
      ensures socket in open ==> HeardSnapshot(old(sent)[socket], sent[socket], spaceId)
    {
      var list := GetPresentUserIds(spaceId);
      Send(socket, SpaceSnapshot(spaceId, list));
      forall s, k | s in open && Subscribed(clients, s, k) && k !in stale
        ensures SeesPresence(sent[s], k, Present(clients, k))
      {
        if s == socket {
          AnotherEvent(old(sent)[s], SpaceSnapshot(spaceId, list), k);
        }
      }
    }

    method Unsubscribe(socket: Socket, spaceId: SpaceId)
      requires Valid()
      modifies this`clients, this`open, this`sent
      ensures Valid() && View() == AfterUnsubscribe(old(View()), socket, spaceId) && OnlySends()
      ensures forall s :: s in old(sent) ==> HeardPresence(old(sent)[s], sent[s])
    {
      if !Subscribed(clients, socket, spaceId) {
        if socket in clients {
          assert clients[socket].subscriptions - {spaceId} == clients[socket].subscriptions;
          assert WithSubscriptions(clients, socket, clients[socket].subscriptions) == clients;
        }
        return;
      }
      var userId := clients[socket].userId;
      clients := WithSubscriptions(clients, socket, clients[socket].subscriptions - {spaceId});
      forall k | k != spaceId
        ensures Present(old(clients), k) == Present(clients, k)
      {
        SameSubscriptionsSamePresence(old(clients), clients, k);
      }
      assert forall s, k :: Subscribed(clients, s, k) ==> Subscribed(old(clients), s, k);
      var present := IsUserPresent(spaceId, userId);
      if present {
        LeavingKeepsPresence(old(clients), clients, socket, spaceId);
      } else {
        BroadcastPresence(spaceId, {spaceId});
        assert {spaceId} - {spaceId} == {};
      }
    }

    /** Takes the space from one socket's subscriptions, if it is there, and tells the socket. */
    method DropSubscription(socket: Socket, spaceId: SpaceId, reason: RevocationReason) returns (dropped: bool)
      requires open <= sent.Keys && socket in clients
      modifies this`clients, this`open, this`sent
      ensures open <= sent.Keys && OnlySends() && sent.Keys == old(sent).Keys
      ensures clients == Dropped(old(clients), {socket}, spaceId) && dropped == Subscribed(old(clients), socket, spaceId)
      ensures old(PresenceKnown({spaceId})) ==> PresenceKnown({spaceId})
      ensures !dropped ==> clients == old(clients) && open == old(open) && sent == old(sent)
      ensures forall s :: s in old(sent) && s != socket ==> sent[s] == old(sent)[s] && (s in open <==> s in old(open))
      ensures dropped && socket in open ==> sent[socket] == old(sent)[socket] + [AccessRevoked(spaceId, reason)]
    {
      dropped := spaceId in clients[socket].subscriptions;
      if !dropped {
        assert clients[socket].subscriptions - {spaceId} == clients[socket].subscriptions;
        assert Dropped(clients, {socket}, spaceId) == clients;
        return;
      }
      clients := WithSubscriptions(clients, socket, clients[socket].subscriptions - {spaceId});
      assert clients == Dropped(old(clients), {socket}, spaceId);
      forall k | k != spaceId
        ensures Present(old(clients), k) == Present(clients, k)
      {
        SameSubscriptionsSamePresence(old(clients), clients, k);
      }
      assert forall s, k :: k != spaceId ==> (Subscribed(clients, s, k) <==> Subscribed(old(clients), s, k));
      assert old(PresenceKnown({spaceId})) ==> PresenceKnown({spaceId});
      SendAccessRevoked(socket, spaceId, reason);
    }

    /** The loop of both revocations: drops these sockets' subscriptions to the space, and tells each socket that had one. */
    method DropSubscriptions(affected: set<Socket>, spaceId: SpaceId, reason: RevocationReason) returns (changed: bool)
      requires open <= sent.Keys && affected <= clients.Keys && PresenceKnown({spaceId})
      modifies this`clients, this`open, this`sent
      ensures open <= sent.Keys && OnlySends() && sent.Keys == old(sent).Keys && PresenceKnown({spaceId})
      ensures clients == Dropped(old(clients), affected, spaceId)
      ensures !changed ==> forall s :: s in affected ==> !Subscribed(old(clients), s, spaceId)
      ensures forall s :: s in affected && Subscribed(old(clients), s, spaceId) && s in open ==>
        sent[s] == old(sent)[s] + [AccessRevoked(spaceId, reason)]
      ensures forall s :: s in old(sent) && !(s in affected && Subscribed(old(clients), s, spaceId)) ==>
        sent[s] == old(sent)[s] && (s in open <==> s in old(open))
    {
      hide SeesPresence, Present, Lists, LastPresence;
      changed := false;
      var todo := clients.Keys;
      DroppingNothing(clients, affected - todo, spaceId);
      while todo != {}
        invariant todo <= clients.Keys && open <= sent.Keys && OnlySends() && sent.Keys == old(sent).Keys && PresenceKnown({spaceId})
        invariant clients == Dropped(old(clients), affected - todo, spaceId)
        invariant !changed ==> forall s :: s in affected - todo ==> !Subscribed(old(clients), s, spaceId)
        invariant forall s :: s in affected - todo && Subscribed(old(clients), s, spaceId) && s in open ==>
          sent[s] == old(sent)[s] + [AccessRevoked(spaceId, reason)]
        invariant forall s :: s in old(sent) && !(s in affected - todo && Subscribed(old(clients), s, spaceId)) ==>
          sent[s] == old(sent)[s] && (s in open <==> s in old(open))
        decreases todo
      {
        var socket :| socket in todo;
        ghost var rest := todo - {socket};
        if socket in affected {
          assert Subscribed(clients, socket, spaceId) == Subscribed(old(clients), socket, spaceId);
          var dropped := DropSubscription(socket, spaceId, reason);
          changed := changed || dropped;
          assert affected - rest == affected - todo + {socket};
          DroppingOneMore(old(clients), affected - todo, socket, spaceId);
        } else {
          assert affected - rest == affected - todo;
        }
        todo := todo - {socket};
      }
      assert affected - todo == affected;
    }

    /** Tells the user's subscribed sockets, once each, and shows the others that remain who is still present. */
    method RevokeMember(spaceId: SpaceId, userId: UserId)
      requires Valid()
      modifies this`clients, this`memberAccessRevisions, this`open, this`sent
      ensures Valid() && View() == AfterRevokeMember(old(View()), spaceId, userId) && OnlySends()
      ensures forall s :: s in open && s in SocketsOf(old(clients), userId) && Subscribed(old(clients), s, spaceId) ==>
        s in old(sent) && sent[s] == old(sent)[s] + [AccessRevoked(spaceId, MembershipRemoved)]
      ensures forall s :: s in old(sent) && !(s in SocketsOf(old(clients), userId) && Subscribed(old(clients), s, spaceId)) ==>
        HeardPresence(old(sent)[s], sent[s]) && (!Subscribed(old(clients), s, spaceId) ==> sent[s] == old(sent)[s])
    {
      hide SeesPresence, Present, Lists, LastPresence, MemberRevision;
      memberAccessRevisions := memberAccessRevisions[(spaceId, userId) := MemberRevision(View(), spaceId, userId) + 1];
      var changed := DropSubscriptions(SocketsOf(clients, userId), spaceId, MembershipRemoved);
      if changed {
        BroadcastPresence(spaceId, {spaceId});
        assert {spaceId} - {spaceId} == {};
      } else {
        NobodyWasSubscribed(old(clients), clients, SocketsOf(old(clients), userId), spaceId);
      }
    }

    /** Tells every subscriber, once, and nobody else. */
    method RevokeSpace(spaceId: SpaceId)
      requires Valid()
      modifies this`clients, this`spaceAccessRevisions, this`open, this`sent
      ensures Valid() && View() == AfterRevokeSpace(old(View()), spaceId) && OnlySends()
      ensures forall s :: s in open && Subscribed(old(clients), s, spaceId) ==>
        s in old(sent) && sent[s] == old(sent)[s] + [AccessRevoked(spaceId, SpaceDeleted)]
      ensures forall s :: s in old(sent) && !Subscribed(old(clients), s, spaceId) ==> sent[s] == old(sent)[s] && (s in open <==> s in old(open))
    {
      hide SeesPresence, Present, Lists, LastPresence;
      spaceAccessRevisions := spaceAccessRevisions[spaceId := SpaceRevision(View(), spaceId) + 1];
      var changed := DropSubscriptions(clients.Keys, spaceId, SpaceDeleted);
      assert forall s :: !Subscribed(clients, s, spaceId);
    }

    /** Every socket of the session closes; its registration ends with the close event. */
    method CloseSession(sessionHash: SessionHash)
      requires Valid()
      modifies this`open
      ensures Valid() && open == old(open) - set s | s in clients && clients[s].sessionHash == sessionHash
    {
      open := open - set s | s in clients && clients[s].sessionHash == sessionHash;
    }

    method BroadcastMessage(spaceId: SpaceId, message: nat)
      requires Valid()
      modifies this`open, this`sent
      ensures Valid() && OnlySends()
      ensures forall s :: s in open && Subscribed(clients, s, spaceId) ==>
        s in old(sent) && sent[s] == old(sent)[s] + [ChatMessageCreated(spaceId, message)]
      ensures forall s :: s in old(sent) && !Subscribed(clients, s, spaceId) ==> sent[s] == old(sent)[s] && (s in open <==> s in old(open))
    {
      Broadcast(spaceId, ChatMessageCreated(spaceId, message));
      forall s, k | s in open && Subscribed(clients, s, k)
        ensures SeesPresence(sent[s], k, Present(clients, k))
      {
        AnotherEvent(old(sent)[s], ChatMessageCreated(spaceId, message), k);
      }
    }

    /** Acknowledges a command to its own socket alone. */
    method SendAck(socket: Socket, spaceId: SpaceId, command: CommandType)
      requires Valid()
      modifies this`open, this`sent
      ensures Valid() && OnlySends()
      ensures socket in open ==> socket in old(sent) && sent[socket] == old(sent)[socket] + [Ack(spaceId, command)]
      ensures forall s :: s in old(sent) && s != socket ==> s in sent && sent[s] == old(sent)[s]
    {
      Send(socket, Ack(spaceId, command));
      forall s, k | s in open && Subscribed(clients, s, k)
        ensures SeesPresence(sent[s], k, Present(clients, k))
      {
        AnotherEvent(old(sent)[s], Ack(spaceId, command), k);
      }
    }
  }

  lemma DroppingNothing(clients: Clients, sockets: set<Socket>, spaceId: SpaceId)
    requires sockets == {}
    ensures Dropped(clients, sockets, spaceId) == clients
  {
  }

  lemma NobodyWasSubscribed(before: Clients, after: Clients, sockets: set<Socket>, spaceId: SpaceId)
    requires after == Dropped(before, sockets, spaceId) && forall s :: s in sockets ==> !Subscribed(before, s, spaceId)
    ensures after == before
  {
    forall s | s in before
      ensures after[s] == before[s]
    {
      assert s in sockets ==> before[s].subscriptions - {spaceId} == before[s].subscriptions;
    }
  }

  lemma DroppingOneMore(clients: Clients, sockets: set<Socket>, socket: Socket, spaceId: SpaceId)
    ensures Dropped(Dropped(clients, sockets, spaceId), {socket}, spaceId) == Dropped(clients, sockets + {socket}, spaceId)
  {
    forall s | s in clients
      ensures clients[s].subscriptions - {spaceId} - {spaceId} == clients[s].subscriptions - {spaceId}
    {
    }
  }

  predicate IsLeast(m: UserId, s: set<UserId>) {
    m in s && forall u :: u in s ==> m <= u
  }

  lemma {:induction false} LeastExists(s: set<UserId>)
    requires s != {}
    ensures exists m: UserId :: IsLeast(m, s)
  {
    var any :| any in s;
    var rest := s - {any};
    assert forall u :: u in s ==> u == any || u in rest;
    if rest == {} {
      assert IsLeast(any, s);
    } else {
      LeastExists(rest);
      var m: UserId :| IsLeast(m, rest);
      assert IsLeast(if any < m then any else m, s);
    }
  }
}
