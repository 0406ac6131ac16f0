# dnd-grid server: session registry and move rules

A Dafny model of the authoritative state of the dnd-grid game server
(`server/index.js`). The server keeps three things:

- a dictionary `users` from connection id to a participant record
  `{name, emoji | image | isGuest, x, y, lastMove}`;
- the board's `gridSize` (initially 20 by 20) and `backgroundImageUrl`
  (initially empty);
- a fixed catalog of five emoji tokens.

Every socket handler is a synchronous transition on that store. The
handlers are `pickUser`, `joinAsGuest`, `chatMessage`, `move`, `dmMove`,
`updateGridSize`, `changeBackgroundImage` and `disconnect`.

Files:

- `registry.dfy`, module `Registry`. It holds the data model and the rule
  predicates (Manhattan range 6, occupancy by another record, emoji taken).
  It has one pure transition per handler, returning the new state and the
  handler's reply. A reply is a broadcast to everyone, a message to the caller
  only, or nothing. `Step` and `Run` apply a sequence of events.
- `invariants.dfy`, module `Invariants`. Each emoji token is held by at most
  one record, and only catalog tokens are held. These facts survive any
  sequence of events, so at most five players hold an emoji at once. The file
  also proves how a position may change, and the cooldown and grid facts
  about moves.
- `server.dfy`, module `SocketServer`. The class `Server` holds the mutable
  store. It has one method per handler, which updates the store in the
  handler's own order; `move` stamps `lastMove` before it validates. Each
  method is proved to reach the state and send the reply that the matching
  `Registry` transition prescribes; the methods that change the store are
  also proved to keep the invariant.
- `scenarios.dfy`, module `Scenarios`. Concrete runs: join, duplicate emoji,
  move, a move dropped by the cooldown, and disconnect. A grid shrink that
  leaves positions alone. A re-join that lifts the move cooldown. Two
  behaviours the server allows: two records on one cell, and a move off the
  grid.

Modelling choices:

- The clock reading `Date.now()` taken by `move` is the parameter `now`.
  Nothing is assumed about it. A `move` still leaves `lastMove` as it was or
  raises it by at least 100, because the guard only lets a later clock
  through.
- The optional `emoji` and `image` fields of `pickUser` are strings. The
  empty string stands for a missing or empty field, since both are falsy
  to the handler.
- Records are values in a map. The handler's identity test `u !== user` is
  key inequality, because every handler stores a freshly built object.
- A `dmMove` naming an id that is not registered changes nothing. In the
  source an inherited property name (such as `toString`) reaches the range
  test with undefined coordinates and fails it, so that case is also a no-op.
- The model follows what the handlers do, including what they leave
  unchecked:
  - positions are never checked against the grid;
  - records may share a cell, since every join spawns at the origin;
  - a join does not check the display name;
  - `move` does not look at `isGuest`;
  - `disconnect` broadcasts the registry even when the caller had no record;
  - a `pickUser` or `joinAsGuest` from a connection that already has a record
    rebuilds it with `lastMove` 0, which lifts the 100 ms cooldown: `lastMove`
    is not monotone per connection.

## Model

| member | source | states |
|---|---|---|
| `Registry.GuestName` | server/index.js:72 | the guest name is `Guest_` followed by the prefix of the connection id of length min(4, len(id)) |
| `Registry.ChatLine` | server/index.js:83 | the relayed line splits back into the sender's name, the separator `": "` and the message, and its length is the sum of their lengths |
| `Registry.OccupancyIgnoresOwnRecord` | server/index.js:93-100 | the occupancy scan gives the same answer before and after the mover's own record is rewritten, so stamping `lastMove` first does not change the check |
| `Registry.PickUser` | server/index.js:53-67 | emojiError to the caller, with no state change, iff the emoji is not (non-empty, in the catalog, held by no record, the caller's included) and no image was given; otherwise the caller's record is stored at the origin with `lastMove` 0 and the request's name, no other record changes, and the new registry is broadcast; an available emoji wins over an image; an emoji stored is in the catalog and was held by nobody before |
| `Registry.JoinAsGuest` | server/index.js:69-79 | always stores a guest record for the caller, named by `GuestName`, at (-1,-1) with `lastMove` 0; other records, grid and background unchanged; the registry is broadcast |
| `Registry.Chat` | server/index.js:81-86 | the state never changes; the line is broadcast iff the sender is registered, and is exactly `ChatLine(name, msg)` |
| `Registry.Move` | server/index.js:88-108 | no-op without reply if the caller is unregistered or moved less than 100 ms ago; otherwise `lastMove` becomes `now` even when the move is rejected; the position becomes the target, and the registry is broadcast, iff the Manhattan distance is at most 6 and no other record is on the target; no other record, no key, no grid or background change; `lastMove` never decreases |
| `Registry.DmMove` | server/index.js:110-126 | for any registered id, the same range and occupancy rule without the cooldown; on acceptance only that record's position changes (its `lastMove` is kept) and the registry is broadcast; otherwise, including an unknown id, nothing changes and nothing is sent |
| `Registry.UpdateGridSize` | server/index.js:128-131 | the grid becomes exactly the requested size, the records and background are untouched (no clamping), and the new grid is broadcast |
| `Registry.ChangeBackgroundImage` | server/index.js:133-138 | the background becomes exactly the given reference, records and grid are untouched, and it is broadcast |
| `Registry.Disconnect` | server/index.js:140-143 | removes the caller's key only, keeps every other record as it was, changes nothing when the caller is absent, and broadcasts the registry in both cases |
| `Invariants.StepKeepsInv` | server/index.js:53-143 | every handler keeps emoji tokens unique across records and drawn from the catalog |
| `Invariants.RunKeepsInv` | server/index.js:53-143 | any sequence of events, each handled to completion, keeps that invariant |
| `Invariants.TokensOfCount` | server/index.js:54-59 | with unique tokens, a set of emoji holders holds exactly as many distinct tokens as it has members |
| `Invariants.EmojiHoldersBounded` | server/index.js:26 | a registry with unique catalog tokens has at most as many emoji holders as the catalog has entries |
| `Invariants.ReachableStatesBounded` | server/index.js:26-143 | every registry reachable from start-up keeps unique catalog tokens and holds at most five emoji players |
| `Invariants.PositionChangesOnlyByRule` | server/index.js:53-126 | a record's position changes only through an accepted `move` or `dmMove` of that record, which stays within distance 6 and lands on a cell no other record held, or through the owner re-joining |
| `Invariants.SecondMoveTooSoonDropped` | server/index.js:91-93 | after an attempt that passed the cooldown, whether it moved or not, a second `move` less than 100 ms later is dropped with the state unchanged |
| `Invariants.StampSurvivesOthers` | server/index.js:88-126 | events that are not a `pickUser`, `joinAsGuest`, `disconnect` or `move` of `id` keep its record registered with the same `lastMove` |
| `Invariants.MoveTooSoonDroppedAcrossTraffic` | server/index.js:91-93 | after an attempt of `id` that passed the cooldown, a later `move` of `id` less than 100 ms on is dropped whatever other connections sent in between, unless `id` itself re-joined, left or moved |
| `Invariants.MoveStampGrows` | server/index.js:92-93 | a `move` leaves `lastMove` as it was or raises it by at least 100 |
| `Invariants.MoveToOwnCellAccepted` | server/index.js:95-104 | a zero-distance move past the cooldown is accepted when no other record shares the cell: the mover is not its own occupant |
| `Invariants.MovesIgnoreGrid` | server/index.js:95-122 | `move` and `dmMove` give the same reply and records under any grid size |
| `Invariants.UsersUpdateIsSnapshot` | server/index.js:66-142 | every `usersUpdate` a handler sends carries exactly the registry the handler leaves behind, as on the source's deflate path |
| `SocketServer.Server.constructor` | server/index.js:26-29 | the store starts empty, with a 20 by 20 grid and no background, and satisfies the invariant |
| `SocketServer.Server.PickUser` | server/index.js:53-67 | the updated store and the reply are those of `Registry.PickUser`; the invariant is kept |
| `SocketServer.Server.JoinAsGuest` | server/index.js:69-79 | the updated store and the reply are those of `Registry.JoinAsGuest`; the invariant is kept |
| `SocketServer.Server.ChatMessage` | server/index.js:81-86 | nothing changes; the reply is the `ChatLine` broadcast iff the sender is registered |
| `SocketServer.Server.Move` | server/index.js:88-108 | stamps `lastMove` before validating, and ends in the store and reply of `Registry.Move`; the invariant is kept |
| `SocketServer.Server.DmMove` | server/index.js:110-126 | the updated store and the reply are those of `Registry.DmMove`; the invariant is kept |
| `SocketServer.Server.UpdateGridSize` | server/index.js:128-131 | the updated store and the reply are those of `Registry.UpdateGridSize` |
| `SocketServer.Server.ChangeBackgroundImage` | server/index.js:133-138 | the updated store and the reply are those of `Registry.ChangeBackgroundImage` |
| `SocketServer.Server.Disconnect` | server/index.js:140-143 | the updated store and the reply are those of `Registry.Disconnect`; the invariant is kept |
| `Scenarios.JoinMoveDisconnect` | server/index.js:53-143 | A joins with the robot at the origin; B asking for the robot gets emojiError and is not added; A moves to (3,3); A's move 50 ms later is dropped; after A disconnects the broadcast registry is empty |
| `Scenarios.GridShrinkKeepsPositions` | server/index.js:128-131 | shrinking the grid to 5 by 5 leaves a record on (15,15) where it is |
| `Scenarios.JoinsShareTheOrigin` | server/index.js:59-61 | two successive joins put both records on the origin |
| `Scenarios.RejoinLiftsCooldown` | server/index.js:59-93 | a move at 1000, then a re-join with an image, then a move at 1020: the re-join resets `lastMove` to 0, so the last move is accepted and A ends on the new cell |
| `Scenarios.MoveLeavesTheGrid` | server/index.js:95-104 | a move from the origin to (-3,0) is accepted under a 20 by 20 grid |

## Left out

- HTTP and socket.io setup, CORS, static file serving, the listening port,
  and logging (server/index.js:1-24, 41, 70, 146-149). These are I/O plumbing.
- The HTTP rate-limit middleware (server/index.js:19-24). It is a foreign
  library, separate from the 100 ms move cooldown.
- `compressData` (server/index.js:31-38), zlib deflate with a JSON fallback.
  It is a foreign asynchronous call. Replies carry the uncompressed value
  handed to it. On the deflate path that value is serialised synchronously
  when the handler runs. The JSON fallback (server/index.js:35) serialises
  it again inside the deflate callback, so on that path a `usersUpdate`
  carries the registry as it is when the callback runs, which the model does
  not capture.
- The pushes of the emoji list, grid size and background on connect
  (server/index.js:43-51), and the asynchronous delivery of every
  broadcast. These are transport concerns.
- The client, `client/script.js`. It handles rendering and input, and its
  range and occupancy checks only predict the server's.
- JavaScript numbers. Coordinates, grid sizes and the clock are modelled
  as integers, since the client sends `parseInt` values. The server itself
  would accept and store fractional values (a move to `{x: 0.5, y: 0}`), and
  non-numeric ones that compare as NaN; neither is modelled. Names and
  messages are assumed to be strings.
- Malformed payloads. Every payload is assumed to be an object whose
  coordinates and sizes are integers. In the source a missing payload throws
  a TypeError out of the handler when it is destructured (server/index.js:53,
  110, 128), and so does a missing or null `position` (95, 113); in `move`
  that throw comes after `lastMove` is stamped (93), leaving a stamped record,
  no move and no reply, a state `Registry.Move` cannot produce. A numeric
  string such as `{x: "3", y: "3"}` passes the range test, because `-`
  coerces it, but escapes the `===` occupancy scan (98-100) and is stored as
  a string; `Invariants.PositionChangesOnlyByRule` therefore speaks of
  integer input only.
- JavaScript key order in `users`. The registry is a map, so the order of
  entries in the broadcast snapshot is not modelled.
- `GuestName` takes characters as Unicode scalar values, where `slice`
  counts UTF-16 code units. The two agree on the ASCII ids socket.io
  assigns.
- In-place mutation of a record object shared through `Object.values`. The
  model rewrites the map entry instead; no other reference to a record
  exists in the handlers.
