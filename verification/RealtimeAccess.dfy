/**
 * Subscribing while memberships change: the gateway captures revisions, checks membership, then subscribes, and a
 * removal reaches the hub some time after it is durable (server/realtime/gateway.ts, members/service.ts, spaces/service.ts).
 */
module RealtimeAccess {
  import opened RealtimeHub

  type CommandId = nat

  /** A durable change of access whose event the hub has yet to process. */
  datatype AccessEvent = MemberRemoved(spaceId: SpaceId, userId: UserId) | SpaceWasDeleted(spaceId: SpaceId)

  /** A subscribe command between its two awaits. */
  datatype SubscribeCommand = SubscribeCommand(socket: Socket, revision: AccessRevision, checked: bool)

  datatype World = World(
    members: set<(SpaceId, UserId)>,
    hub: HubView,
    pending: multiset<AccessEvent>,
    commands: map<CommandId, SubscribeCommand>
  )

  datatype Step =
    | AddMember(spaceId: SpaceId, userId: UserId)
    | RemoveMember(spaceId: SpaceId, userId: UserId)
    | DeleteSpace(spaceId: SpaceId)
    | ProcessEvent(event: AccessEvent)
    | Connect(socket: Socket, userId: UserId, sessionHash: SessionHash)
    | Disconnect(socket: Socket)
    | Capture(command: CommandId, socket: Socket, spaceId: SpaceId)
    | CheckMembership(command: CommandId)
    | Subscribe(command: CommandId)
    | Unsubscribe(socket: Socket, spaceId: SpaceId)

  predicate Enabled(w: World, step: Step) {
    match step
    case ProcessEvent(event) => event in w.pending
    case Connect(socket, _, _) => socket !in w.hub.clients
    case Capture(command, socket, _) => command !in w.commands && socket in w.hub.clients
    case CheckMembership(command) => command in w.commands
    case Subscribe(command) => command in w.commands && w.commands[command].checked
    case _ => true
  }

  function Take(w: World, step: Step): World
    requires Enabled(w, step)
  {
    match step
    case AddMember(space, user) => w.(members := w.members + {(space, user)})
    case RemoveMember(space, user) =>
      if (space, user) in w.members
      then w.(members := w.members - {(space, user)}, pending := w.pending + multiset{MemberRemoved(space, user)})
      else w
    case DeleteSpace(space) =>
      w.(members := (set m | m in w.members && m.0 != space), pending := w.pending + multiset{SpaceWasDeleted(space)})
    case ProcessEvent(event) =>
      w.(pending := w.pending - multiset{event},
         hub := match event
           case MemberRemoved(space, user) => AfterRevokeMember(w.hub, space, user)
           case SpaceWasDeleted(space) => AfterRevokeSpace(w.hub, space))
    case Connect(socket, user, session) => w.(hub := AfterRegister(w.hub, socket, user, session))
    case Disconnect(socket) => w.(hub := AfterUnregister(w.hub, socket))
    case Capture(command, socket, space) =>
      w.(commands := w.commands[command := SubscribeCommand(socket, Captured(w.hub, space, w.hub.clients[socket].userId), false)])
    case CheckMembership(command) =>
      var c := w.commands[command];
      if (c.revision.spaceId, c.revision.userId) in w.members
      then w.(commands := w.commands[command := c.(checked := true)])
      else w.(commands := w.commands - {command})
    case Subscribe(command) =>
      var c := w.commands[command];
      w.(hub := AfterSubscribe(w.hub, c.socket, c.revision), commands := w.commands - {command})
    case Unsubscribe(socket, space) => w.(hub := AfterUnsubscribe(w.hub, socket, space))
  }

  /** The user is a member, or an event that will take the access away is on its way. */
  predicate MemberOrRevoking(w: World, spaceId: SpaceId, userId: UserId) {
    (spaceId, userId) in w.members || MemberRemoved(spaceId, userId) in w.pending || SpaceWasDeleted(spaceId) in w.pending
  }

  predicate SubscriptionsSafe(w: World) {
    forall s, k :: s in w.hub.clients && k in w.hub.clients[s].subscriptions ==> MemberOrRevoking(w, k, w.hub.clients[s].userId)
  }

  predicate CommandSafe(w: World, c: SubscribeCommand) {
    && c.revision.memberRevision <= MemberRevision(w.hub, c.revision.spaceId, c.revision.userId)
    && c.revision.spaceRevision <= SpaceRevision(w.hub, c.revision.spaceId)
    && (c.checked && IsCurrent(w.hub, c.revision) ==> MemberOrRevoking(w, c.revision.spaceId, c.revision.userId))
  }

  predicate CommandsSafe(w: World) {
    forall id :: id in w.commands ==> CommandSafe(w, w.commands[id])
  }

  predicate Safe(w: World) {
    SubscriptionsSafe(w) && CommandsSafe(w)
  }

  lemma ProcessingKeepsSafe(w: World, event: AccessEvent)
    requires Safe(w) && event in w.pending
    ensures Safe(Take(w, ProcessEvent(event)))
  {
    var after := Take(w, ProcessEvent(event));
    forall s, k | s in after.hub.clients && k in after.hub.clients[s].subscriptions
      ensures MemberOrRevoking(after, k, after.hub.clients[s].userId)
    {
      assert MemberOrRevoking(w, k, w.hub.clients[s].userId);
    }
    forall id | id in after.commands
      ensures CommandSafe(after, after.commands[id])
    {
      assert CommandSafe(w, w.commands[id]);
    }
  }

  lemma ChangingMembersKeepsSafe(w: World, step: Step)
    requires Safe(w) && (step.AddMember? || step.RemoveMember? || step.DeleteSpace?)
    ensures Safe(Take(w, step))
  {
    var after := Take(w, step);
    forall space, user | MemberOrRevoking(w, space, user)
      ensures MemberOrRevoking(after, space, user)
    {
    }
  }

  lemma StepsKeepSafe(w: World, step: Step)
    requires Safe(w) && Enabled(w, step)
    ensures Safe(Take(w, step))
  {
    match step
    case ProcessEvent(event) => ProcessingKeepsSafe(w, event);
    case AddMember(_, _) => ChangingMembersKeepsSafe(w, step);
    case RemoveMember(_, _) => ChangingMembersKeepsSafe(w, step);
    case DeleteSpace(_) => ChangingMembersKeepsSafe(w, step);
    case _ =>
  }

  ghost predicate IsRun(worlds: seq<World>, steps: seq<Step>) {
    && |worlds| == |steps| + 1
    && worlds[0].hub == HubView(map[], map[], map[]) && worlds[0].commands == map[]
    && forall i :: 0 <= i < |steps| ==> Enabled(worlds[i], steps[i]) && worlds[i + 1] == Take(worlds[i], steps[i])
  }

  /** In every interleaving, a subscribed socket's user is still a member or the event that ends the subscription is not yet processed. */
  lemma {:induction false} SubscribersKeepAccess(worlds: seq<World>, steps: seq<Step>, i: nat)
    requires IsRun(worlds, steps) && i < |worlds|
    ensures Safe(worlds[i])
  {
    hide Safe, Take, Enabled;
    if i == 0 {
      NobodyIsSafe(worlds[0]);
    } else {
      SubscribersKeepAccess(worlds, steps, i - 1);
      StepsKeepSafe(worlds[i - 1], steps[i - 1]);
    }
  }

  lemma NobodyIsSafe(w: World)
    requires w.hub.clients == map[] && w.commands == map[]
    ensures Safe(w)
  {
  }

  /** Once every event has been processed, exactly the members' sockets can be subscribed. */
  lemma SettledSubscribersAreMembers(worlds: seq<World>, steps: seq<Step>, i: nat, socket: Socket, spaceId: SpaceId)
    requires IsRun(worlds, steps) && i < |worlds| && worlds[i].pending == multiset{}
    requires Subscribed(worlds[i].hub.clients, socket, spaceId)
    ensures (spaceId, worlds[i].hub.clients[socket].userId) in worlds[i].members
  {
    SubscribersKeepAccess(worlds, steps, i);
    assert MemberOrRevoking(worlds[i], spaceId, worlds[i].hub.clients[socket].userId);
  }
}
