/** What the registry keeps true across every handler: an emoji token is held
    by at most one record and always comes from the catalog, so at most as
    many players as there are catalog entries can hold an emoji at once.
    Also the rules that relate a record's position and clock across events. */
module Invariants {
  import opened Registry

  /** No two distinct records hold the same emoji. */
  predicate EmojisUnique(users: map<string, User>)
  {
    forall a, b :: a in users && b in users && a != b && users[a].look.Emoji? ==>
      users[a].look != users[b].look
  }

  /** Every emoji held comes from the catalog. */
  predicate EmojisFromCatalog(users: map<string, User>)
  {
    forall k :: k in users && users[k].look.Emoji? ==> users[k].look.token in Emojis
  }

  predicate Inv(s: State)
  {
    EmojisUnique(s.users) && EmojisFromCatalog(s.users)
  }

  /** The connections whose record carries an emoji. */
  function EmojiHolders(users: map<string, User>): set<string>
  {
    set k | k in users && users[k].look.Emoji?
  }

  /** The emoji tokens held by the connections in `keys`. */
  function TokensOf(users: map<string, User>, keys: set<string>): set<string>
  {
    set k | k in keys && k in users && users[k].look.Emoji? :: users[k].look.token
  }

  function CatalogSet(): set<string>
  {
    set e | e in Emojis
  }

  /** Every handler keeps the invariant. */
  lemma StepKeepsInv(s: State, e: Event)
    requires Inv(s)
    ensures Inv(Step(s, e).next)
  {
  }

  /** Any sequence of events keeps the invariant. */
  lemma {:induction false} RunKeepsInv(s: State, events: seq<Event>)
    requires Inv(s)
    ensures Inv(Run(s, events))
    decreases |events|
  {
    if events != [] {
      StepKeepsInv(s, events[0]);
      RunKeepsInv(Step(s, events[0]).next, events[1..]);
    }
  }

  /** Distinct emoji holders hold distinct tokens, so counting tokens counts holders. */
  lemma {:induction false} TokensOfCount(users: map<string, User>, keys: set<string>)
    requires EmojisUnique(users)
    requires keys <= EmojiHolders(users)
    ensures |TokensOf(users, keys)| == |keys|
    decreases keys
  {
    if keys != {} {
      var k :| k in keys;
      var rest := keys - {k};
      TokensOfCount(users, rest);
      assert TokensOf(users, keys) == TokensOf(users, rest) + {users[k].look.token};
      assert users[k].look.token !in TokensOf(users, rest);
    }
  }

  /** A sequence has at least as many entries as distinct elements. */
  lemma {:induction false} SeqSetSize(s: seq<string>)
    ensures |(set e | e in s)| <= |s|
  {
    if s != [] {
      SeqSetSize(s[1..]);
      assert (set e | e in s) == (set e | e in s[1..]) + {s[0]};
    }
  }

  /** At most as many records as catalog entries hold an emoji. */
  lemma EmojiHoldersBounded(users: map<string, User>)
    requires EmojisUnique(users) && EmojisFromCatalog(users)
    ensures |EmojiHolders(users)| <= |Emojis|
  {
    TokensOfCount(users, EmojiHolders(users));
    assert TokensOf(users, EmojiHolders(users)) <= CatalogSet();
    SeqSetSize(Emojis);
    assert |TokensOf(users, EmojiHolders(users))| <= |CatalogSet()| by {
      var big := CatalogSet();
      var small := TokensOf(users, EmojiHolders(users));
      assert big == small + (big - small);
    }
  }

  /** From start-up, whatever arrives, tokens stay unique and at most five
      players hold an emoji. */
  lemma ReachableStatesBounded(events: seq<Event>)
    ensures Inv(Run(Init(), events))
    ensures |EmojiHolders(Run(Init(), events).users)| <= |Emojis|
  {
    RunKeepsInv(Init(), events);
    EmojiHoldersBounded(Run(Init(), events).users);
  }

  /** A position changes only in two ways: by an accepted `move` or `dmMove`
      of that very record, which stays within range and lands on a cell no
      other record held; or by the owner re-joining, which respawns it. */
  lemma PositionChangesOnlyByRule(s: State, e: Event, k: string)
    requires k in s.users && k in Step(s, e).next.users
    requires Step(s, e).next.users[k].pos != s.users[k].pos
    ensures
      || (&& ((e.MoveEvent? && e.id == k) || (e.DmMoveEvent? && e.userId == k))
          && Distance(s.users[k].pos, Step(s, e).next.users[k].pos) <= MoveRange
          && !OccupiedByOther(s.users, k, Step(s, e).next.users[k].pos))
      || (e.PickUserEvent? && e.id == k)
      || (e.JoinAsGuestEvent? && e.id == k)
  {
  }

  /** The cooldown: once a `move` attempt of `id` got past the cooldown,
      a second attempt fewer than `MoveCooldown` milliseconds later is
      dropped, whether or not the first one moved the record. */
  lemma SecondMoveTooSoonDropped(s: State, id: string, p: Pos, q: Pos, now: int, later: int)
    requires id in s.users && now - s.users[id].lastMove >= MoveCooldown
    requires later - now < MoveCooldown
    ensures var t := Move(s, id, p, now);
            Move(t.next, id, q, later) == Transition(t.next, NoReply)
  {
  }

  /** `e` is an event that may rewrite, remove or re-stamp the record of `id`. */
  predicate Touches(e: Event, id: string)
  {
    || (e.PickUserEvent? && e.id == id)
    || (e.JoinAsGuestEvent? && e.id == id)
    || (e.DisconnectEvent? && e.id == id)
    || (e.MoveEvent? && e.id == id)
  }

  /** Other connections' traffic, and `dmMove`s of `id`, leave the record of
      `id` registered with its `lastMove` stamp as it was. */
  lemma {:induction false} StampSurvivesOthers(s: State, events: seq<Event>, id: string)
    requires id in s.users
    requires forall i :: 0 <= i < |events| ==> !Touches(events[i], id)
    ensures id in Run(s, events).users
    ensures Run(s, events).users[id].lastMove == s.users[id].lastMove
    decreases |events|
  {
    if events != [] {
      assert !Touches(events[0], id);
      StampSurvivesOthers(Step(s, events[0]).next, events[1..], id);
    }
  }

  /** The cooldown is per connection: after an attempt of `id` that passed
      it, a later `move` of `id` less than `MoveCooldown` milliseconds on is
      dropped, whatever other connections did in between, as long as `id`
      itself did not re-join, leave or move. */
  lemma MoveTooSoonDroppedAcrossTraffic(s: State, id: string, p: Pos, q: Pos, now: int, later: int,
                                        events: seq<Event>)
    requires id in s.users && now - s.users[id].lastMove >= MoveCooldown
    requires later - now < MoveCooldown
    requires forall i :: 0 <= i < |events| ==> !Touches(events[i], id)
    ensures var mid := Run(Move(s, id, p, now).next, events);
            Move(mid, id, q, later) == Transition(mid, NoReply)
  {
    StampSurvivesOthers(Move(s, id, p, now).next, events, id);
  }

  /** Each accepted `move` is at least `MoveCooldown` after the previous
      attempt: the stamp grows by that much or stays. */
  lemma MoveStampGrows(s: State, id: string, p: Pos, now: int)
    requires id in s.users
    ensures var t := Move(s, id, p, now);
            t.next.users[id].lastMove == s.users[id].lastMove
            || t.next.users[id].lastMove >= s.users[id].lastMove + MoveCooldown
  {
  }

  /** Staying put is a valid move: the mover's own record is no occupant.
      (When another record shares the cell, as after two joins at the
      origin, it is rejected like any occupied target.) */
  lemma MoveToOwnCellAccepted(s: State, id: string, now: int)
    requires id in s.users && now - s.users[id].lastMove >= MoveCooldown
    requires forall k :: k in s.users && k != id ==> s.users[k].pos != s.users[id].pos
    ensures Move(s, id, s.users[id].pos, now).reply == Broadcast(UsersUpdate(Move(s, id, s.users[id].pos, now).next.users))
  {
  }

  /** Neither move handler looks at the grid: the same request gets the same
      answer and the same records under any grid size. */
  lemma MovesIgnoreGrid(s: State, g: Grid, id: string, target: Pos, now: int)
    ensures Move(s.(grid := g), id, target, now).reply == Move(s, id, target, now).reply
    ensures Move(s.(grid := g), id, target, now).next.users == Move(s, id, target, now).next.users
    ensures DmMove(s.(grid := g), id, target).reply == DmMove(s, id, target).reply
    ensures DmMove(s.(grid := g), id, target).next.users == DmMove(s, id, target).next.users
  {
  }

  /** Every `usersUpdate` a handler sends carries exactly the registry it
      leaves behind. */
  lemma UsersUpdateIsSnapshot(s: State, e: Event)
    ensures var t := Step(s, e);
            t.reply.Broadcast? && t.reply.msg.UsersUpdate? ==> t.reply.msg.users == t.next.users
  {
  }
}
