/** The server's module-level store as an object: the `users` dictionary,
    `gridSize` and `backgroundImageUrl`, updated in place by one method per
    socket handler. Each method does its updates in the order the handler
    does them and is proved to end in the state, and send the reply, that
    the matching transition of `Registry` prescribes; the class keeps the
    emoji-uniqueness invariant of `Invariants`. */
module SocketServer {
  import opened Registry
  import opened Invariants

  class Server {
    var users: map<string, User>
    var grid: Grid
    var background: string

    /** The store as a value. */
    function Snapshot(): State
      reads this
    {
      State(users, grid, background)
    }

    ghost predicate Valid()
      reads this
    {
      Inv(Snapshot())
    }

    constructor ()
      ensures Valid()
      ensures Snapshot() == Init()
    {
      users := map[];
      grid := InitialGrid;
      background := "";
    }

    method PickUser(id: string, req: PickRequest) returns (reply: Reply)
      requires Valid()
      modifies this
      ensures Valid()
      ensures Transition(Snapshot(), reply) == Registry.PickUser(old(Snapshot()), id, req)
    {
      ghost var before := Snapshot();
      if req.emoji != "" && req.emoji in Emojis && !EmojiTaken(users, req.emoji) {
        users := users[id := User(req.name, Emoji(req.emoji), Origin, 0)];
      } else if req.image != "" {
        users := users[id := User(req.name, Image(req.image), Origin, 0)];
      } else {
        reply := ToCaller(EmojiError(EmojiErrorReason));
        return;
      }
      reply := Broadcast(UsersUpdate(users));
      StepKeepsInv(before, PickUserEvent(id, req));
    }

    method JoinAsGuest(id: string) returns (reply: Reply)
      requires Valid()
      modifies this
      ensures Valid()
      ensures Transition(Snapshot(), reply) == Registry.JoinAsGuest(old(Snapshot()), id)
    {
      ghost var before := Snapshot();
      users := users[id := User(GuestName(id), Guest, GuestSpot, 0)];
      reply := Broadcast(UsersUpdate(users));
      StepKeepsInv(before, JoinAsGuestEvent(id));
    }

    /** Chat changes nothing; it only computes the line to relay, if any. */
    method ChatMessage(id: string, msg: string) returns (reply: Reply)
      ensures Transition(Snapshot(), reply) == Registry.Chat(Snapshot(), id, msg)
      ensures reply.NoReply? <==> id !in users
      ensures id in users ==> reply == Broadcast(Message.ChatMessage(ChatLine(users[id].name, msg)))
    {
      if id in users {
        reply := Broadcast(Message.ChatMessage(ChatLine(users[id].name, msg)));
      } else {
        reply := NoReply;
      }
    }

    method Move(id: string, target: Pos, now: int) returns (reply: Reply)
      requires Valid()
      modifies this
      ensures Valid()
      ensures Transition(Snapshot(), reply) == Registry.Move(old(Snapshot()), id, target, now)
    {
      ghost var before := Snapshot();
      reply := NoReply;
      if id in users {
        var user := users[id];
        if now - user.lastMove < MoveCooldown {
          return;
        }
        user := user.(lastMove := now);
        users := users[id := user];
        var isWithinRange := Distance(user.pos, target) <= MoveRange;
        var isOccupied := OccupiedByOther(users, id, target);
        OccupancyIgnoresOwnRecord(before.users, id, user, target);
        if isWithinRange && !isOccupied {
          user := user.(pos := target);
          users := users[id := user];
          reply := Broadcast(UsersUpdate(users));
        }
      }
      StepKeepsInv(before, MoveEvent(id, target, now));
    }

    method DmMove(userId: string, target: Pos) returns (reply: Reply)
      requires Valid()
      modifies this
      ensures Valid()
      ensures Transition(Snapshot(), reply) == Registry.DmMove(old(Snapshot()), userId, target)
    {
      ghost var before := Snapshot();
      reply := NoReply;
      if userId in users {
        var user := users[userId];
        var isWithinRange := Distance(user.pos, target) <= MoveRange;
        var isOccupied := OccupiedByOther(users, userId, target);
        if isWithinRange && !isOccupied {
          user := user.(pos := target);
          users := users[userId := user];
          reply := Broadcast(UsersUpdate(users));
        }
      }
      StepKeepsInv(before, DmMoveEvent(userId, target));
    }

    method UpdateGridSize(width: int, height: int) returns (reply: Reply)
      requires Valid()
      modifies this
      ensures Valid()
      ensures Transition(Snapshot(), reply) == Registry.UpdateGridSize(old(Snapshot()), width, height)
    {
      grid := Grid(width, height);
      reply := Broadcast(GridSizeUpdate(grid));
    }

    method ChangeBackgroundImage(url: string) returns (reply: Reply)
      requires Valid()
      modifies this
      ensures Valid()
      ensures Transition(Snapshot(), reply) == Registry.ChangeBackgroundImage(old(Snapshot()), url)
    {
      background := url;
      reply := Broadcast(BackgroundImageUpdate(background));
    }

    method Disconnect(id: string) returns (reply: Reply)
      requires Valid()
      modifies this
      ensures Valid()
      ensures Transition(Snapshot(), reply) == Registry.Disconnect(old(Snapshot()), id)
    {
      ghost var before := Snapshot();
      users := users - {id};
      reply := Broadcast(UsersUpdate(users));
      StepKeepsInv(before, DisconnectEvent(id));
    }
  }
}
