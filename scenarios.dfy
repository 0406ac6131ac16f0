/** Concrete runs of the handlers: the join/move/disconnect story, the grid
    shrinking under a participant, a re-join that lifts the move cooldown,
    and two behaviours the server does not prevent (two records on one
    cell, a move off the grid). */
module Scenarios {
  import opened Registry

  const Robot: string := Emojis[0]

  /** A joins with the robot at the origin; B asks for the robot too and gets
      an `emojiError` without being added; A moves six steps to (3,3); a
      second move of A 50 ms later is dropped and A stays on (3,3); once A
      disconnects the broadcast registry no longer holds A. */
  lemma JoinMoveDisconnect()
    ensures var s0 := Init();
            var t1 := PickUser(s0, "A", PickRequest("alice", Robot, ""));
            var t2 := PickUser(t1.next, "B", PickRequest("bob", Robot, ""));
            var t3 := Move(t2.next, "A", Pos(3, 3), 1000);
            var t4 := Move(t3.next, "A", Pos(3, 4), 1050);
            var t5 := Disconnect(t4.next, "A");
            && t1.next.users["A"] == User("alice", Emoji(Robot), Origin, 0)
            && t2.reply == ToCaller(EmojiError(EmojiErrorReason)) && "B" !in t2.next.users
            && t3.reply.Broadcast? && t3.next.users["A"].pos == Pos(3, 3)
            && t4.reply == NoReply && t4.next.users["A"].pos == Pos(3, 3)
            && t5.reply == Broadcast(UsersUpdate(map[]))
  {
  }

  /** Shrinking the grid to 5 by 5 leaves a participant on (15,15) where it is. */
  lemma GridShrinkKeepsPositions()
    ensures var s := State(map["P" := User("pat", Image("data:png"), Pos(15, 15), 0)], InitialGrid, "");
            UpdateGridSize(s, 5, 5).next.users["P"].pos == Pos(15, 15)
  {
  }

  /** Two joins both spawn at the origin: the registry does not keep records
      on distinct cells. */
  lemma JoinsShareTheOrigin()
    ensures var t1 := PickUser(Init(), "A", PickRequest("alice", "", "img-a"));
            var t2 := PickUser(t1.next, "B", PickRequest("bob", "", "img-b"));
            && t2.next.users["A"].pos == t2.next.users["B"].pos
  {
  }

  /** Re-joining rebuilds the record with `lastMove` 0, so a move 10 ms
      after the re-join, and 20 ms after the previous move, is accepted. */
  lemma RejoinLiftsCooldown()
    ensures var s0 := State(map["A" := User("alice", Image("img"), Origin, 0)], InitialGrid, "");
            var t1 := Move(s0, "A", Pos(1, 0), 1000);
            var t2 := PickUser(t1.next, "A", PickRequest("alice", "", "img"));
            var t3 := Move(t2.next, "A", Pos(2, 0), 1020);
            && t1.reply.Broadcast? && t1.next.users["A"].lastMove == 1000
            && t2.next.users["A"].lastMove == 0
            && t3.reply.Broadcast? && t3.next.users["A"].pos == Pos(2, 0)
  {
  }

  /** A move to a negative cell is accepted: the grid is never consulted. */
  lemma MoveLeavesTheGrid()
    ensures var s := State(map["A" := User("alice", Image("img"), Origin, 0)], InitialGrid, "");
            var t := Move(s, "A", Pos(-3, 0), 500);
            t.reply.Broadcast? && t.next.users["A"].pos == Pos(-3, 0)
  {
  }
}
