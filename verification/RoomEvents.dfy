/**
 What a room can be confronted with, and what a sequence of events amounts to: who
 is online, whether the battle has started, and which moves were asked for
 (internal/room/room.go).
 */
module RoomEvents {
  import opened Deck
  import opened Battle
  import opened BattleRuns
  import opened BattleReplay
  import opened RoomLog

  type GameKind = k: Kind | !k.OtherKind? witness EndTurnKind

  datatype CmdType = JoinCmd | LeaveCmd | ActionCmd(kind: GameKind) | UnknownCmd

  datatype Cmd = Cmd(player: string, what: CmdType, data: Bytes)

  /** What the loop's select can see; `now` is the clock when the event is handled. */
  datatype Event = Inbox(cmd: Cmd, now: int) | GraceExpired | TurnExpired(now: int) | Cancelled

  /** Who is online after a player's command. */
  function Attended(who: set<string>, cmd: Cmd): set<string> {
    if cmd.what.JoinCmd? then who + {cmd.player}
    else if cmd.what.LeaveCmd? then who - {cmd.player}
    else who
  }

  /** A battle between two players before some events: its position, who is online, whether it has started. */
  datatype Table = Table(codec: Codec, catalog: Catalog, player0: string, player1: string,
                         game: Game, online: set<string>, started: bool)
  {
    predicate Seats(p: string) {
      p == player0 || p == player1
    }

    /** Who is online after one more event. */
    function Attend(who: set<string>, e: Event): set<string> {
      if e.Inbox? && Seats(e.cmd.player) then Attended(who, e.cmd) else who
    }

    function Online(es: seq<Event>): set<string> {
      if es == [] then online else Attend(Online(es[..|es| - 1]), es[|es| - 1])
    }

    /** Both players have been online together. */
    ghost predicate Started(es: seq<Event>) {
      started || exists k :: 0 <= k <= |es| && Online(es[..k]) == {player0, player1}
    }

    /** The move an event asks for: a player's action that decodes, or the end of a turn whose time is up. */
    function Intents(g: Game, running: bool, e: Event): seq<Move> {
      match e
      case Inbox(cmd, _) =>
        if Seats(cmd.player) && cmd.what.ActionCmd? && codec.decode(cmd.data).Some?
        then [Move(cmd.player, codec.decode(cmd.data).value.(kind := cmd.what.kind))] else []
      case TurnExpired(_) => if running then [Move(g.At(g.turn).id, END_TURN)] else []
      case _ => []
    }

    /** All moves asked for, legal or not. */
    ghost function Asked(es: seq<Event>): seq<Move> {
      if es == [] then []
      else
        var n := |es| - 1;
        var ms := Asked(es[..n]);
        ms + Intents(Run(catalog, game, ms), Started(es[..n]), es[n])
    }
  }

  lemma OnlineMore(t: Table, es: seq<Event>, e: Event)
    ensures t.Online(es + [e]) == t.Attend(t.Online(es), e)
  {
    assert (es + [e])[..|es|] == es;
  }

  lemma StartedMore(t: Table, es: seq<Event>, e: Event)
    ensures t.Started(es + [e]) <==> t.Started(es) || t.Online(es + [e]) == {t.player0, t.player1}
  {
    var all := es + [e];
    assert all[..|all|] == all;
    assert forall k :: 0 <= k <= |es| ==> all[..k] == es[..k];
    if t.Started(all) && !t.started {
      var k :| 0 <= k <= |all| && t.Online(all[..k]) == {t.player0, t.player1};
      if k <= |es| {
        assert t.Online(es[..k]) == {t.player0, t.player1};
      }
    }
    if t.Started(es) && !t.started {
      var k :| 0 <= k <= |es| && t.Online(es[..k]) == {t.player0, t.player1};
      assert t.Online(all[..k]) == {t.player0, t.player1};
    }
  }

  lemma AskedMore(t: Table, es: seq<Event>, e: Event)
    ensures t.Asked(es + [e]) == t.Asked(es) + t.Intents(Run(t.catalog, t.game, t.Asked(es)), t.Started(es), e)
  {
    assert (es + [e])[..|es|] == es;
  }

  /** Runs and logs grow with the moves asked for, one at most at a time. */
  lemma RunMore(cat: Catalog, g: Game, ms: seq<Move>, more: seq<Move>)
    requires |more| <= 1
    ensures Run(cat, g, ms + more) == Run(cat, Run(cat, g, ms), more)
    ensures AcceptedMoves(cat, g, ms + more) == AcceptedMoves(cat, g, ms) + AcceptedMoves(cat, Run(cat, g, ms), more)
  {
    hide Step;
    if more == [] {
      assert ms + more == ms;
    } else {
      assert (ms + more)[..|ms|] == ms && more[..0] == [] && more == [more[0]];
    }
  }

  /** A single move is logged exactly when it is accepted. */
  lemma OneMove(cat: Catalog, g: Game, m: Move)
    ensures Run(cat, g, [m]) == After(cat, g, m)
    ensures AcceptedMoves(cat, g, [m]) == if Try(cat, g, m).Accepted? then [m] else []
  {
    hide Step;
    assert [m][..0] == [];
  }
}
