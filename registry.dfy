/** The game server's authoritative session registry (server/index.js):
    the participant records keyed by connection id, the board configuration,
    the move rules, and one transition per socket handler. Each transition
    returns the new state together with what the handler sends out. */
module Registry {

  /** A board cell. Coordinates are unbounded integers: the server never
      checks them against the grid. */
  datatype Pos = Pos(x: int, y: int)

  /** The three shapes of record the server stores: one carrying `emoji`,
      one carrying `image`, and the guest record carrying `isGuest`. */
  datatype Appearance = Emoji(token: string) | Image(data: string) | Guest

  /** One participant record `{name, emoji | image | isGuest, x, y, lastMove}`. */
  datatype User = User(name: string, look: Appearance, pos: Pos, lastMove: int)

  datatype Grid = Grid(width: int, height: int)

  /** The server's whole mutable state: `users`, `gridSize`, `backgroundImageUrl`. */
  datatype State = State(users: map<string, User>, grid: Grid, background: string)

  /** The payload of a `pickUser` event. The empty string stands for a field
      that is missing or empty; both are falsy to the handler. */
  datatype PickRequest = PickRequest(name: string, emoji: string, image: string)

  /** What a handler sends. The payloads are the values the handler hands to
      the compression step. On its deflate path that step serialises them at
      once, so `UsersUpdate` carries the registry as the handler leaves it;
      its JSON fallback serialises again later, in the deflate callback. */
  datatype Message =
    | UsersUpdate(users: map<string, User>)
    | GridSizeUpdate(grid: Grid)
    | BackgroundImageUpdate(url: string)
    | ChatMessage(line: string)
    | EmojiError(reason: string)

  /** `Broadcast` is `io.emit` (every connection), `ToCaller` is `socket.emit`. */
  datatype Reply = Broadcast(msg: Message) | ToCaller(msg: Message) | NoReply

  datatype Transition = Transition(next: State, reply: Reply)

  /** One inbound socket event, tagged with the connection that sent it where
      the handler uses it. `now` is the clock reading taken by `move`. */
  datatype Event =
    | PickUserEvent(id: string, req: PickRequest)
    | JoinAsGuestEvent(id: string)
    | ChatEvent(id: string, msg: string)
    | MoveEvent(id: string, target: Pos, now: int)
    | DmMoveEvent(userId: string, target: Pos)
    | UpdateGridSizeEvent(width: int, height: int)
    | ChangeBackgroundImageEvent(url: string)
    | DisconnectEvent(id: string)

  /** The fixed emoji catalog: robot, man mage (a ZWJ sequence), ninja, wolf,
      grinning cat. */
  const Emojis: seq<string> :=
    ["\U{1F916}", "\U{1F9D9}\U{200D}\U{2642}\U{FE0F}", "\U{1F977}", "\U{1F43A}", "\U{1F63A}"]
  /** Largest Manhattan distance one move may cover. */
  const MoveRange: nat := 6
  /** Milliseconds a connection must wait after its last move attempt. */
  const MoveCooldown: nat := 100
  const Origin: Pos := Pos(0, 0)
  /** Where guests are parked, off the visible board. */
  const GuestSpot: Pos := Pos(-1, -1)
  const InitialGrid: Grid := Grid(20, 20)
  const EmojiErrorReason: string := "Emoji already taken or invalid"

  /** The state at start-up: nobody registered, a 20 by 20 grid, no background. */
  function Init(): State
  {
    State(map[], InitialGrid, "")
  }

  function Abs(n: int): nat
  {
    if n < 0 then -n else n
  }

  /** Manhattan distance, `Math.abs(dx) + Math.abs(dy)`. */
  function Distance(a: Pos, b: Pos): nat
  {
    Abs(b.x - a.x) + Abs(b.y - a.y)
  }

  /** Some record other than `self`'s sits on `p`. */
  predicate OccupiedByOther(users: map<string, User>, self: string, p: Pos)
  {
    exists k :: k in users && k != self && users[k].pos == p
  }

  /** Some registered record, whoever owns it, holds emoji `e`. */
  predicate EmojiTaken(users: map<string, User>, e: string)
  {
    exists k :: k in users && users[k].look == Emoji(e)
  }

  /** Whether `p` is held by someone else does not depend on the mover's own
      record, so stamping `lastMove` first does not change the check. */
  lemma OccupancyIgnoresOwnRecord(users: map<string, User>, self: string, u: User, p: Pos)
    ensures OccupiedByOther(users[self := u], self, p) <==> OccupiedByOther(users, self, p)
  {
    if OccupiedByOther(users[self := u], self, p) {
      var k :| k in users[self := u] && k != self && users[self := u][k].pos == p;
      assert k in users && users[k].pos == p;
    }
    if OccupiedByOther(users, self, p) {
      var k :| k in users && k != self && users[k].pos == p;
      assert k in users[self := u] && users[self := u][k].pos == p;
    }
  }

  /** The emoji branch of `pickUser` is taken: `e` is non-empty, in the
      catalog, and not held by any registered record. */
  predicate EmojiAvailable(users: map<string, User>, e: string)
  {
    e != "" && e in Emojis && !EmojiTaken(users, e)
  }

  /** The rule shared by `move` and `dmMove`: within range of the mover's
      current cell and not on a cell held by another record. */
  predicate MoveAllowed(users: map<string, User>, id: string, target: Pos)
    requires id in users
  {
    Distance(users[id].pos, target) <= MoveRange && !OccupiedByOther(users, id, target)
  }

  /** `Guest_` followed by the first four characters of the connection id
      (all of it when shorter). */
  function GuestName(id: string): (name: string)
    ensures |name| >= 6 && name[..6] == "Guest_"
    ensures |name| - 6 == if |id| < 4 then |id| else 4
    ensures name[6..] <= id
  {
    "Guest_" + id[..if |id| < 4 then |id| else 4]
  }

  /** The relayed chat line `name: msg`; it splits back into the name, the
      separator and the message. */
  function ChatLine(name: string, msg: string): (line: string)
    ensures |line| == |name| + 2 + |msg|
    ensures line[..|name|] == name
    ensures line[|name|..|name| + 2] == ": "
    ensures line[|name| + 2..] == msg
  {
    name + ": " + msg
  }

  /** Store `u` under `id` and broadcast the whole registry. */
  function Register(s: State, id: string, u: User): Transition
  {
    var users := s.users[id := u];
    Transition(s.(users := users), Broadcast(UsersUpdate(users)))
  }

  /** The `pickUser` handler: an available emoji wins, otherwise a non-empty
      image, otherwise an `emojiError` to the caller and no change. A success
      overwrites any earlier record of the caller and spawns it at the origin. */
  function PickUser(s: State, id: string, req: PickRequest): (t: Transition)
    ensures t.next.grid == s.grid && t.next.background == s.background
    ensures t.reply.ToCaller? <==> !EmojiAvailable(s.users, req.emoji) && req.image == ""
    ensures t.reply.ToCaller? ==> t.next == s && t.reply.msg == EmojiError(EmojiErrorReason)
    ensures !t.reply.ToCaller? ==>
              && t.next.users.Keys == s.users.Keys + {id}
              && t.reply == Broadcast(UsersUpdate(t.next.users))
              && t.next.users[id].name == req.name
              && t.next.users[id].pos == Origin
              && t.next.users[id].lastMove == 0
              && (forall k :: k in s.users && k != id ==> t.next.users[k] == s.users[k])
    ensures EmojiAvailable(s.users, req.emoji) ==>
              id in t.next.users && t.next.users[id].look == Emoji(req.emoji)
    ensures !EmojiAvailable(s.users, req.emoji) && req.image != "" ==>
              id in t.next.users && t.next.users[id].look == Image(req.image)
    ensures !t.reply.ToCaller? && t.next.users[id].look.Emoji? ==>
              t.next.users[id].look.token in Emojis
              && !EmojiTaken(s.users, t.next.users[id].look.token)
  {
    if EmojiAvailable(s.users, req.emoji) then
      Register(s, id, User(req.name, Emoji(req.emoji), Origin, 0))
    else if req.image != "" then
      Register(s, id, User(req.name, Image(req.image), Origin, 0))
    else
      Transition(s, ToCaller(EmojiError(EmojiErrorReason)))
  }

  /** The `joinAsGuest` handler: always stores a guest record for the caller,
      parked at (-1,-1), and broadcasts. */
  function JoinAsGuest(s: State, id: string): (t: Transition)
    ensures t.next.grid == s.grid && t.next.background == s.background
    ensures t.next.users.Keys == s.users.Keys + {id}
    ensures forall k :: k in s.users && k != id ==> t.next.users[k] == s.users[k]
    ensures t.next.users[id].look == Guest
    ensures t.next.users[id].name == GuestName(id)
    ensures t.next.users[id].pos == GuestSpot && t.next.users[id].lastMove == 0
    ensures t.reply == Broadcast(UsersUpdate(t.next.users))
  {
    Register(s, id, User(GuestName(id), Guest, GuestSpot, 0))
  }

  /** The `chatMessage` handler: relayed to everyone, prefixed with the
      sender's name, when the sender is registered; dropped otherwise. */
  function Chat(s: State, id: string, msg: string): (t: Transition)
    ensures t.next == s
    ensures t.reply.NoReply? <==> id !in s.users
    ensures id in s.users ==>
              t.reply == Broadcast(ChatMessage(ChatLine(s.users[id].name, msg)))
  {
    if id in s.users then Transition(s, Broadcast(ChatMessage(ChatLine(s.users[id].name, msg))))
    else Transition(s, NoReply)
  }

  /** Place `id` on `target`, keeping every other field, and broadcast. */
  function Relocate(s: State, id: string, target: Pos): Transition
    requires id in s.users
  {
    Register(s, id, s.users[id].(pos := target))
  }

  /** The `move` handler. Dropped silently when the caller is unregistered or
      moved less than `MoveCooldown` ago. Otherwise the attempt is stamped
      with `now` first, and the position changes only when the move rule
      holds. The grid size is never consulted. */
  function Move(s: State, id: string, target: Pos, now: int): (t: Transition)
    ensures t.next.grid == s.grid && t.next.background == s.background
    ensures t.next.users.Keys == s.users.Keys
    ensures forall k :: k in s.users && k != id ==> t.next.users[k] == s.users[k]
    ensures id !in s.users || now - s.users[id].lastMove < MoveCooldown ==>
              t == Transition(s, NoReply)
    ensures id in s.users && now - s.users[id].lastMove >= MoveCooldown ==>
              && t.next.users[id].lastMove == now
              && t.next.users[id].name == s.users[id].name
              && t.next.users[id].look == s.users[id].look
              && (t.reply.NoReply? <==> !MoveAllowed(s.users, id, target))
              && t.next.users[id].pos == (if t.reply.NoReply? then s.users[id].pos else target)
    ensures !t.reply.NoReply? ==> t.reply == Broadcast(UsersUpdate(t.next.users))
    ensures id in s.users ==> t.next.users[id].lastMove >= s.users[id].lastMove
  {
    if id !in s.users || now - s.users[id].lastMove < MoveCooldown then
      Transition(s, NoReply)
    else
      var stamped := s.(users := s.users[id := s.users[id].(lastMove := now)]);
      if MoveAllowed(s.users, id, target) then Relocate(stamped, id, target)
      else Transition(stamped, NoReply)
  }

  /** The `dmMove` handler: the move rule applied to any registered record,
      without the cooldown and without touching `lastMove`. */
  function DmMove(s: State, userId: string, target: Pos): (t: Transition)
    ensures t.reply.NoReply? <==> userId !in s.users || !MoveAllowed(s.users, userId, target)
    ensures t.reply.NoReply? ==> t.next == s
    ensures !t.reply.NoReply? ==>
              && t.next.grid == s.grid && t.next.background == s.background
              && t.next.users.Keys == s.users.Keys
              && (forall k :: k in s.users && k != userId ==> t.next.users[k] == s.users[k])
              && t.next.users[userId] == s.users[userId].(pos := target)
              && t.reply == Broadcast(UsersUpdate(t.next.users))
  {
    if userId in s.users && MoveAllowed(s.users, userId, target) then Relocate(s, userId, target)
    else Transition(s, NoReply)
  }

  /** The `updateGridSize` handler: replaces the grid as given, with no
      validation and no clamping of stored positions. */
  function UpdateGridSize(s: State, width: int, height: int): (t: Transition)
    ensures t.next.users == s.users && t.next.background == s.background
    ensures t.next.grid.width == width && t.next.grid.height == height
    ensures t.reply == Broadcast(GridSizeUpdate(t.next.grid))
  {
    var grid := Grid(width, height);
    Transition(s.(grid := grid), Broadcast(GridSizeUpdate(grid)))
  }

  /** The `changeBackgroundImage` handler: replaces the background reference. */
  function ChangeBackgroundImage(s: State, url: string): (t: Transition)
    ensures t.next.users == s.users && t.next.grid == s.grid
    ensures t.next.background == url
    ensures t.reply == Broadcast(BackgroundImageUpdate(url))
  {
    Transition(s.(background := url), Broadcast(BackgroundImageUpdate(url)))
  }

  /** The `disconnect` handler: removes the caller's record, if any, and
      broadcasts the registry in either case. */
  function Disconnect(s: State, id: string): (t: Transition)
    ensures t.next.grid == s.grid && t.next.background == s.background
    ensures t.next.users.Keys == s.users.Keys - {id}
    ensures forall k :: k in t.next.users ==> t.next.users[k] == s.users[k]
    ensures id !in s.users ==> t.next == s
    ensures t.reply == Broadcast(UsersUpdate(t.next.users))
  {
    var users := s.users - {id};
    Transition(s.(users := users), Broadcast(UsersUpdate(users)))
  }

  /** Dispatch one inbound event to its handler. */
  function Step(s: State, e: Event): Transition
  {
    match e
    case PickUserEvent(id, req) => PickUser(s, id, req)
    case JoinAsGuestEvent(id) => JoinAsGuest(s, id)
    case ChatEvent(id, msg) => Chat(s, id, msg)
    case MoveEvent(id, target, now) => Move(s, id, target, now)
    case DmMoveEvent(userId, target) => DmMove(s, userId, target)
    case UpdateGridSizeEvent(width, height) => UpdateGridSize(s, width, height)
    case ChangeBackgroundImageEvent(url) => ChangeBackgroundImage(s, url)
    case DisconnectEvent(id) => Disconnect(s, id)
  }

  /** Handle a sequence of events one after another, each to completion. */
  function Run(s: State, events: seq<Event>): State
    decreases |events|
  {
    if events == [] then s else Run(Step(s, events[0]).next, events[1..])
  }
}
