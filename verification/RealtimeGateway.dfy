/** The gateway's dispatch of one socket's commands, and its rate limits (server/realtime/gateway.ts). */
module RealtimeGateway {
  import opened Common
  import opened RealtimeHub

  const MAX_COMMANDS_PER_WINDOW := 60
  const MAX_CHAT_SENDS_PER_WINDOW := 20
  const RATE_WINDOW_MS := 60_000

  type Time = int

  datatype Command =
    | SpaceSubscribe(spaceId: SpaceId)
    | SpaceUnsubscribe(spaceId: SpaceId)
    | ChatMessageSend(spaceId: SpaceId, body: nat)

  function TypeOf(command: Command): CommandType {
    match command
    case SpaceSubscribe(_) => SubscribeType
    case SpaceUnsubscribe(_) => UnsubscribeType
    case ChatMessageSend(_, _) => ChatType
  }

  // ---------------------------------------------------------------- the rate limit as a value

  datatype Rate = Rate(windowStartedAt: Time, commandsInWindow: nat, chatSendsInWindow: nat)

  /** The counters after one more command. */
  function Counted(r: Rate, chat: bool, now: Time): Rate {
    var w := if now - r.windowStartedAt >= RATE_WINDOW_MS then Rate(now, 0, 0) else r;
    w.(commandsInWindow := w.commandsInWindow + 1, chatSendsInWindow := w.chatSendsInWindow + if chat then 1 else 0)
  }

  predicate WithinLimits(r: Rate) {
    r.commandsInWindow <= MAX_COMMANDS_PER_WINDOW && r.chatSendsInWindow <= MAX_CHAT_SENDS_PER_WINDOW
  }

  /** A command as the limiter sees it: when it came and whether it sends a chat message. */
  datatype Arrival = Arrival(chat: bool, at: Time)

  function After(start: Rate, arrivals: seq<Arrival>): Rate {
    if arrivals == [] then start
    else Counted(After(start, arrivals[..|arrivals| - 1]), arrivals[|arrivals| - 1].chat, arrivals[|arrivals| - 1].at)
  }

  /** How many of the arrivals are let through, all of them or the chat messages only. */
  function Admitted(start: Rate, arrivals: seq<Arrival>, chatOnly: bool): nat {
    if arrivals == [] then 0
    else
      var last := arrivals[|arrivals| - 1];
      Admitted(start, arrivals[..|arrivals| - 1], chatOnly)
      + if WithinLimits(After(start, arrivals)) && (chatOnly ==> last.chat) then 1 else 0
  }

  /** The clock never runs backwards. */
  predicate InOrder(start: Rate, arrivals: seq<Arrival>) {
    && (forall i :: 0 <= i < |arrivals| ==> start.windowStartedAt <= arrivals[i].at)
    && (forall i, j :: 0 <= i < j < |arrivals| ==> arrivals[i].at <= arrivals[j].at)
  }

  function Limit(chatOnly: bool): nat {
    if chatOnly then MAX_CHAT_SENDS_PER_WINDOW else MAX_COMMANDS_PER_WINDOW
  }

  function CountOf(r: Rate, chatOnly: bool): nat {
    if chatOnly then r.chatSendsInWindow else r.commandsInWindow
  }

  lemma FrontInOrder(start: Rate, arrivals: seq<Arrival>)
    requires arrivals != [] && InOrder(start, arrivals)
    ensures InOrder(start, arrivals[..|arrivals| - 1])
  {
  }

  /** The window only moves forward, to the time of an arrival. */
  lemma {:induction false} WindowsMoveForward(start: Rate, arrivals: seq<Arrival>)
    requires InOrder(start, arrivals)
    ensures var w := After(start, arrivals).windowStartedAt;
      && start.windowStartedAt <= w
      && (arrivals == [] ==> w == start.windowStartedAt)
      && (arrivals != [] ==> w <= arrivals[|arrivals| - 1].at < w + RATE_WINDOW_MS)
      && (w != start.windowStartedAt ==> arrivals != [] && arrivals[0].at <= w)
  {
    if arrivals != [] {
      FrontInOrder(start, arrivals);
      WindowsMoveForward(start, arrivals[..|arrivals| - 1]);
      if |arrivals| > 1 {
        assert arrivals[..|arrivals| - 1][0] == arrivals[0];
        assert arrivals[..|arrivals| - 1][|arrivals| - 2] == arrivals[|arrivals| - 2];
      }
    }
  }

  /**
   * Within one window no more are admitted than the limit leaves. Over two windows that is the limit of a fresh one
   * more, and a third window starts a full period after the second.
   */
  lemma {:induction false} AdmissionsByWindow(start: Rate, arrivals: seq<Arrival>, chatOnly: bool)
    requires InOrder(start, arrivals)
    requires arrivals != [] ==> arrivals[|arrivals| - 1].at - arrivals[0].at < RATE_WINDOW_MS
    ensures var r, n := After(start, arrivals), Admitted(start, arrivals, chatOnly);
      if r.windowStartedAt == start.windowStartedAt
      then n <= CountOf(r, chatOnly) - CountOf(start, chatOnly) && (n > 0 ==> n <= Limit(chatOnly))
      else n <= Limit(chatOnly) + Min(CountOf(r, chatOnly), Limit(chatOnly))
  {
    if arrivals != [] {
      var front, last := arrivals[..|arrivals| - 1], arrivals[|arrivals| - 1];
      FrontInOrder(start, arrivals);
      WindowsMoveForward(start, front);
      WindowsMoveForward(start, arrivals);
      if front != [] {
        assert front[0] == arrivals[0] && front[|front| - 1] == arrivals[|arrivals| - 2];
      }
      AdmissionsByWindow(start, front, chatOnly);
    }
  }

  function CountChats(arrivals: seq<Arrival>): nat {
    if arrivals == [] then 0
    else CountChats(arrivals[..|arrivals| - 1]) + if arrivals[|arrivals| - 1].chat then 1 else 0
  }

  /** The counters count the recent arrivals: those since the window opened, on top of the start's if that is still the window. */
  predicate CountsThese(start: Rate, carried: bool, recent: seq<Arrival>, r: Rate) {
    && r.commandsInWindow == |recent| + (if carried then start.commandsInWindow else 0)
    && r.chatSendsInWindow == CountChats(recent) + (if carried then start.chatSendsInWindow else 0)
    && (if carried then r.windowStartedAt == start.windowStartedAt else recent != [] && recent[0].at == r.windowStartedAt)
    && forall i :: 0 <= i < |recent| ==> recent[i].at < r.windowStartedAt + RATE_WINDOW_MS
  }

  lemma CountedCountsOneMore(start: Rate, carried: bool, recent: seq<Arrival>, r: Rate, last: Arrival)
    requires CountsThese(start, carried, recent, r) && r.windowStartedAt <= last.at
    ensures if last.at - r.windowStartedAt >= RATE_WINDOW_MS
            then CountsThese(start, false, [last], Counted(r, last.chat, last.at))
            else CountsThese(start, carried, recent + [last], Counted(r, last.chat, last.at))
  {
    assert (recent + [last])[..|recent|] == recent;
    assert [last][..0] == [];
  }

  /**
   * Every command since the window opened counts once, admitted or not, and nothing older counts: either the start's window is still
   * open, or it opened with one of the arrivals.
   */
  lemma {:induction false} CountersCountTheWindow(start: Rate, arrivals: seq<Arrival>) returns (carried: bool, from: nat)
    requires InOrder(start, arrivals)
    ensures from <= |arrivals| && (carried ==> from == 0) && CountsThese(start, carried, arrivals[from..], After(start, arrivals))
  {
    if arrivals == [] {
      carried, from := true, 0;
    } else {
      hide CountsThese, Counted;
      var front, last := arrivals[..|arrivals| - 1], arrivals[|arrivals| - 1];
      FrontInOrder(start, arrivals);
      carried, from := CountersCountTheWindow(start, front);
      WindowsMoveForward(start, front);
      var r := After(start, front);
      assert r.windowStartedAt <= last.at by {
        assert front != [] ==> front[|front| - 1] == arrivals[|arrivals| - 2];
      }
      CountedCountsOneMore(start, carried, front[from..], r, last);
      if last.at - r.windowStartedAt >= RATE_WINDOW_MS {
        carried, from := false, |front|;
        assert arrivals[from..] == [last];
      } else {
        assert arrivals[from..] == front[from..] + [last];
      }
    }
  }

  lemma {:induction false} CountersStayBelow(start: Rate, arrivals: seq<Arrival>)
    ensures After(start, arrivals).commandsInWindow <= start.commandsInWindow + |arrivals|
    ensures After(start, arrivals).chatSendsInWindow <= start.chatSendsInWindow + CountChats(arrivals)
  {
    if arrivals != [] {
      CountersStayBelow(start, arrivals[..|arrivals| - 1]);
    }
  }

  /** Whoever stays at 60 commands and 20 chat messages, with those already counted, is never refused. */
  lemma {:induction false} FewCommandsAllPass(start: Rate, arrivals: seq<Arrival>)
    requires start.commandsInWindow + |arrivals| <= 60 && start.chatSendsInWindow + CountChats(arrivals) <= 20
    ensures Admitted(start, arrivals, false) == |arrivals| && Admitted(start, arrivals, true) == CountChats(arrivals)
  {
    if arrivals != [] {
      FewCommandsAllPass(start, arrivals[..|arrivals| - 1]);
      CountersStayBelow(start, arrivals);
    }
  }

  /** In less than a minute, wherever it starts, a socket gets at most 120 commands through, and at most 40 chat messages. */
  lemma AtMostTwiceTheLimit(start: Rate, arrivals: seq<Arrival>, chatOnly: bool)
    requires InOrder(start, arrivals)
    requires arrivals != [] ==> arrivals[|arrivals| - 1].at - arrivals[0].at < RATE_WINDOW_MS
    ensures Admitted(start, arrivals, chatOnly) <= if chatOnly then 40 else 120
  {
    AdmissionsByWindow(start, arrivals, chatOnly);
  }

  // ---------------------------------------------------------------- dispatch

  datatype SocketRuntime = SocketRuntime(userId: UserId, rate: Rate)

  datatype Reply = NotConnected | RateLimited | Acknowledged | AccessHasChanged | NotSubscribed | SpaceNotFound | InternalError

  /** The last thing the socket was sent, if it is still open, is this event. */
  ghost predicate ToldLast(hub: Hub, socket: Socket, event: ServerEvent)
    reads hub
  {
    socket in hub.open ==>
      socket in hub.sent && hub.sent[socket] != [] && hub.sent[socket][|hub.sent[socket]| - 1] == event
  }

  /** Every subscriber's last event is the message, but for the sender, who is told of it and then of the acknowledgement. */
  ghost predicate MessageDelivered(hub: Hub, sender: Socket, spaceId: SpaceId, body: nat)
    reads hub
  {
    && (forall s :: s != sender && Subscribed(hub.clients, s, spaceId) ==> ToldLast(hub, s, ChatMessageCreated(spaceId, body)))
    && (sender in hub.open && Subscribed(hub.clients, sender, spaceId) ==>
          && sender in hub.sent && |hub.sent[sender]| >= 2
          && hub.sent[sender][|hub.sent[sender]| - 2..] == [ChatMessageCreated(spaceId, body), Ack(spaceId, ChatType)])
  }

  /** A lookup of the memberships: what it found, or nothing if it threw. */
  type Lookup = Option<set<(SpaceId, UserId)>>

  predicate Finds(lookup: Lookup, spaceId: SpaceId, userId: UserId) {
    lookup.Some? && (spaceId, userId) in lookup.value
  }

  /** All of these lookups but the last found the user to be a member, and the last ended the command this way. */
  predicate LookupsEndIn(lookups: seq<Lookup>, spaceId: SpaceId, userId: UserId, r: Reply) {
    && lookups != []
    && (forall i :: 0 <= i < |lookups| - 1 ==> Finds(lookups[i], spaceId, userId))
    && var last := lookups[|lookups| - 1];
       match r
       case InternalError => last.None?
       case SpaceNotFound => last.Some? && !Finds(last, spaceId, userId)
       case _ => Finds(last, spaceId, userId)
  }

  class Gateway {
    const hub: Hub
    var runtime: map<Socket, SocketRuntime>
    /** The durable memberships that getSpace looks up. */
    var members: set<(SpaceId, UserId)>
    /** The lookups of the command at hand. */
    ghost var lookups: seq<Lookup>

    constructor (hub: Hub)
      ensures this.hub == hub && runtime == map[] && members == {}
    {
      this.hub := hub;
      runtime, members := map[], {};
    }

    /** Revisions only rise. */
    twostate predicate RevisionsRise()
      reads hub
    {
      && (forall space, user :: MemberRevision(old(hub.View()), space, user) <= MemberRevision(hub.View(), space, user))
      && (forall space :: SpaceRevision(old(hub.View()), space) <= SpaceRevision(hub.View(), space))
    }

    /** Everyone else's work while this socket's command is suspended in an await. */
    method Elsewhere()
      requires hub.Valid()
      modifies this`runtime, this`members, hub
      ensures hub.Valid() && RevisionsRise()
    {
      var changed: set<(SpaceId, UserId)> := Anything();
      members := changed;
      var stuck: set<Socket> := Anything();
      hub.stuck := stuck;
      var turns: nat := Anything();
      for i := 0 to turns
        invariant hub.Valid() && RevisionsRise()
      {
        ElsewhereOnce();
      }
    }

    /** One turn of anybody else: a revocation, a connection made or lost, or another socket's command. */
    method ElsewhereOnce()
      requires hub.Valid()
      modifies this`runtime, hub
      ensures hub.Valid() && RevisionsRise()
    {
      var turn, socket, spaceId, userId := Pick();
      if turn == 0 {
        hub.RevokeMember(spaceId, userId);
      } else if turn == 1 {
        hub.RevokeSpace(spaceId);
      } else if turn == 2 {
        runtime := runtime - {socket};
        hub.Unregister(socket);
      } else if turn == 3 {
        hub.Unsubscribe(socket, spaceId);
      } else if turn == 4 {
        hub.BroadcastMessage(spaceId, userId);
      } else if turn == 5 {
        hub.SocketCloses(socket);
      } else if turn == 6 {
        hub.CloseSession(userId);
      } else if turn == 7 {
        hub.SendAck(socket, spaceId, UnsubscribeType);
      } else if turn == 8 {
        if socket !in hub.clients && socket !in hub.sent {
          runtime := runtime[socket := SocketRuntime(userId, Rate(0, 0, 0))];
          hub.Register(socket, userId, spaceId);
        }
      } else {
        var subscribed := hub.SubscribeIfCurrent(socket, Captured(hub.View(), spaceId, userId));
      }
    }

    method Pick() returns (turn: nat, socket: Socket, spaceId: SpaceId, userId: UserId)
    {
      turn := Anything();
      socket := Anything();
      spaceId := Anything();
      userId := Anything();
    }

    /** getSpace: looks the membership up at some moment of the await, or throws. */
    method GetSpace(spaceId: SpaceId, userId: UserId) returns (found: Option<bool>)
      requires hub.Valid()
      modifies this`runtime, this`members, this`lookups, hub
      ensures hub.Valid() && RevisionsRise()
      ensures |lookups| == |old(lookups)| + 1 && old(lookups) <= lookups
      ensures var lookup := lookups[|old(lookups)|];
        if found.None? then lookup.None? else lookup.Some? && (found.value <==> (spaceId, userId) in lookup.value)
    {
      Elsewhere();
      var isMember := (spaceId, userId) in members;
      ghost var looked := members;
      Elsewhere();
      var throws := Anything();
      lookups := lookups + [if throws then None else Some(looked)];
      found := if throws then None else Some(isMember);
    }

    /** The counters of a connected socket's command, and whether it is over a limit. */
    method CountCommand(socket: Socket, chat: bool, now: Time) returns (limited: bool)
      requires socket in runtime
      modifies this`runtime
      ensures runtime == old(runtime)[socket := old(runtime)[socket].(rate := Counted(old(runtime)[socket].rate, chat, now))]
      ensures limited <==> !WithinLimits(runtime[socket].rate)
    {
      var rate := runtime[socket].rate;
      if now - rate.windowStartedAt >= RATE_WINDOW_MS {
        rate := Rate(now, 0, 0);
      }
      rate := rate.(commandsInWindow := rate.commandsInWindow + 1);
      if chat {
        rate := rate.(chatSendsInWindow := rate.chatSendsInWindow + 1);
      }
      runtime := runtime[socket := runtime[socket].(rate := rate)];
      limited := rate.commandsInWindow > MAX_COMMANDS_PER_WINDOW || rate.chatSendsInWindow > MAX_CHAT_SENDS_PER_WINDOW;
    }

    /** Captures the revisions, checks membership, and subscribes only if neither revision has moved meanwhile. */
    method DispatchSubscribe(socket: Socket, spaceId: SpaceId, userId: UserId) returns (r: Reply)
      requires hub.Valid() && lookups == []
      modifies this`runtime, this`members, this`lookups, hub
      ensures hub.Valid() && RevisionsRise()
      ensures r in {Acknowledged, AccessHasChanged, SpaceNotFound, InternalError}
      ensures |lookups| == 1 && LookupsEndIn(lookups, spaceId, userId, r)
      ensures r == Acknowledged ==>
        && Subscribed(hub.clients, socket, spaceId) && hub.clients[socket].userId == userId
        && Captured(hub.View(), spaceId, userId) == old(Captured(hub.View(), spaceId, userId))
      ensures r == Acknowledged ==> ToldLast(hub, socket, Ack(spaceId, SubscribeType))
      ensures r == AccessHasChanged ==>
        || socket !in hub.clients || hub.clients[socket].userId != userId
        || Captured(hub.View(), spaceId, userId) != old(Captured(hub.View(), spaceId, userId))
    {
      var accessRevision := Captured(hub.View(), spaceId, userId);
      var found := GetSpace(spaceId, userId);
      if found.None? {
        return InternalError;
      }
      if !found.value {
        return SpaceNotFound;
      }
      var subscribed := hub.SubscribeIfCurrent(socket, accessRevision);
      if !subscribed {
        return AccessHasChanged;
      }
      hub.SendAck(socket, spaceId, SubscribeType);
      r := Acknowledged;
    }

    method DispatchUnsubscribe(socket: Socket, spaceId: SpaceId) returns (r: Reply)
      requires hub.Valid()
      modifies hub
      ensures hub.Valid() && r == Acknowledged
      ensures hub.View() == AfterUnsubscribe(old(hub.View()), socket, spaceId)
      ensures ToldLast(hub, socket, Ack(spaceId, UnsubscribeType))
    {
      hub.Unsubscribe(socket, spaceId);
      hub.SendAck(socket, spaceId, UnsubscribeType);
      r := Acknowledged;
    }

    /** The stored message goes to every subscriber, then the acknowledgement to the sender; nothing is awaited in between. */
    method DeliverMessage(socket: Socket, spaceId: SpaceId, body: nat)
      requires hub.Valid()
      modifies hub`open, hub`sent
      ensures hub.Valid()
      ensures MessageDelivered(hub, socket, spaceId, body) && ToldLast(hub, socket, Ack(spaceId, ChatType))
      ensures forall s :: s in old(hub.sent) && s != socket && !Subscribed(hub.clients, s, spaceId) ==> s in hub.sent && hub.sent[s] == old(hub.sent)[s]
    {
      hide SeesPresence, Present;
      hub.BroadcastMessage(spaceId, body);
      hub.SendAck(socket, spaceId, ChatType);
    }

    /**
     * The membership is looked up three times: by getSpace, by sendMessage, and with the insert itself, so a message is
     * stored only while its sender is a member. It is then sent to whoever is subscribed by then.
     */
    method DispatchChat(socket: Socket, spaceId: SpaceId, body: nat, userId: UserId) returns (r: Reply)
      requires hub.Valid() && lookups == []
      modifies this`runtime, this`members, this`lookups, hub
      ensures hub.Valid() && RevisionsRise()
      ensures r in {Acknowledged, NotSubscribed, SpaceNotFound, InternalError}
      ensures r == NotSubscribed <==> !Subscribed(old(hub.clients), socket, spaceId)
      ensures r == NotSubscribed ==> hub.View() == old(hub.View()) && lookups == []
      ensures r != NotSubscribed ==> |lookups| <= 3 && LookupsEndIn(lookups, spaceId, userId, r)
      ensures r == Acknowledged ==>
        |lookups| == 3 && MessageDelivered(hub, socket, spaceId, body) && ToldLast(hub, socket, Ack(spaceId, ChatType))
    {
      hide SeesPresence, Present, MessageDelivered, ToldLast;
      if !Subscribed(hub.clients, socket, spaceId) {
        return NotSubscribed;
      }
      for look := 0 to 3
        invariant hub.Valid() && RevisionsRise()
        invariant |lookups| == look && forall i :: 0 <= i < look ==> Finds(lookups[i], spaceId, userId)
      {
        var found := GetSpace(spaceId, userId);
        if found.None? {
          return InternalError;
        }
        if !found.value {
          return SpaceNotFound;
        }
      }
      DeliverMessage(socket, spaceId, body);
      r := Acknowledged;
    }

    /** One command: counted first, then subscribed, unsubscribed, or sent to the space's subscribers. */
    method Dispatch(socket: Socket, command: Command, now: Time) returns (r: Reply)
      requires hub.Valid()
      modifies this`runtime, this`members, this`lookups, hub
      ensures hub.Valid() && RevisionsRise()
      ensures r == NotConnected <==> socket !in old(runtime)
      ensures socket in old(runtime) ==>
        (r == RateLimited <==> !WithinLimits(Counted(old(runtime)[socket].rate, command.ChatMessageSend?, now)))
      ensures r in {NotConnected, RateLimited, NotSubscribed} ==> hub.View() == old(hub.View()) && lookups == []
      ensures r == RateLimited ==>
        runtime == old(runtime)[socket := old(runtime)[socket].(rate := Counted(old(runtime)[socket].rate, command.ChatMessageSend?, now))]
      ensures r !in {NotConnected, RateLimited} ==>
        (r == NotSubscribed <==> command.ChatMessageSend? && !Subscribed(old(hub.clients), socket, command.spaceId))
      ensures r !in {NotConnected, RateLimited, NotSubscribed} && !command.SpaceUnsubscribe? ==>
        LookupsEndIn(lookups, command.spaceId, old(runtime)[socket].userId, r) && (r == Acknowledged && command.ChatMessageSend? ==> |lookups| == 3)
      ensures r == AccessHasChanged ==>
        var user := old(runtime)[socket].userId;
        && command.SpaceSubscribe?
        && (|| socket !in hub.clients || hub.clients[socket].userId != user
            || Captured(hub.View(), command.spaceId, user) != old(Captured(hub.View(), command.spaceId, user)))
      ensures r == Acknowledged && command.SpaceSubscribe? ==>
        var user := old(runtime)[socket].userId;
        && Subscribed(hub.clients, socket, command.spaceId)
        && Captured(hub.View(), command.spaceId, user) == old(Captured(hub.View(), command.spaceId, user))
      ensures command.SpaceUnsubscribe? && r !in {NotConnected, RateLimited} ==>
        r == Acknowledged && hub.View() == AfterUnsubscribe(old(hub.View()), socket, command.spaceId)
      ensures r == Acknowledged && command.ChatMessageSend? ==> MessageDelivered(hub, socket, command.spaceId, command.body)
      ensures r == Acknowledged ==> ToldLast(hub, socket, Ack(command.spaceId, TypeOf(command)))
    {
      hide SeesPresence, Present, MessageDelivered, ToldLast, LookupsEndIn, WithinLimits;
      lookups := [];
      if socket !in runtime {
        return NotConnected;
      }
      var userId := runtime[socket].userId;
      var limited := CountCommand(socket, command.ChatMessageSend?, now);
      if limited {
        return RateLimited;
      }
      match command {
        case SpaceSubscribe(spaceId) => r := DispatchSubscribe(socket, spaceId, userId);
        case SpaceUnsubscribe(spaceId) => r := DispatchUnsubscribe(socket, spaceId);
        case ChatMessageSend(spaceId, body) => r := DispatchChat(socket, spaceId, body, userId);
      }
    }
  }
}
