/**
 The action log a room keeps, its report, and the way back from a log to replay
 steps (internal/room/report.go, internal/room/replay.go). JSON decoding and the
 checksum are parameters: functions of the data bytes and of the position.
 */
module RoomLog {
  import opened Deck
  import opened Battle
  import opened BattleRuns
  import opened BattleReplay

  type Bytes = seq<bv8>

  datatype Codec = Codec(decode: Bytes -> Option<Action>, checksum: Game -> string) {
    /** Empty input is not a JSON value. */
    ghost predicate Sound() {
      decode([]).None?
    }
  }

  datatype LogEntry = LogEntry(
    seqNo: nat, player: string, kind: Kind, data: Bytes, auto: bool, atMs: int, hash: string)

  datatype Reason = Finished | Abandoned | Aborted | Crashed

  datatype Report = Report(
    roomId: string, playerA: string, playerB: string, winner: string, reason: Reason, seed: int,
    rounds: int, actions: seq<LogEntry>, startedAt: int, deckA: seq<string>, deckB: seq<string>)

  /** The action an entry stands for; its kind comes from the entry, never from the data. */
  function EntryAction(codec: Codec, e: LogEntry): Option<Action> {
    if |e.data| == 0 then Some(Action(e.kind, "", "", ""))
    else
      match codec.decode(e.data)
      case None => None
      case Some(a) => Some(a.(kind := e.kind))
  }

  function EntryMove(codec: Codec, e: LogEntry): Move
    requires EntryAction(codec, e).Some?
  {
    Move(e.player, EntryAction(codec, e).value)
  }

  ghost predicate Decodes(codec: Codec, log: seq<LogEntry>) {
    forall k :: 0 <= k < |log| ==> EntryAction(codec, log[k]).Some?
  }

  function Moves(codec: Codec, log: seq<LogEntry>): (ms: seq<Move>)
    requires Decodes(codec, log)
  {
    seq(|log|, k requires 0 <= k < |log| => EntryMove(codec, log[k]))
  }

  datatype StepsResult = Decoded(steps: seq<Move>) | BadEntry(index: nat)

  /** Turns a log into replay steps, or names the first entry that does not decode. */
  method Steps(codec: Codec, log: seq<LogEntry>) returns (r: StepsResult)
    ensures r.Decoded? <==> Decodes(codec, log)
    ensures r.Decoded? ==> r.steps == Moves(codec, log)
    ensures r.BadEntry? ==> r.index < |log| && EntryAction(codec, log[r.index]).None? && Decodes(codec, log[..r.index])
  {
    var steps: seq<Move> := [];
    for i := 0 to |log|
      invariant Decodes(codec, log[..i])
      invariant |steps| == i
      invariant forall k :: 0 <= k < i ==> steps[k] == EntryMove(codec, log[..i][k])
    {
      var e := log[i];
      var a := Action(OtherKind(""), "", "", "");
      if |e.data| > 0 {
        var decoded := codec.decode(e.data);
        if decoded.None? {
          return BadEntry(i);
        }
        a := decoded.value;
      }
      a := a.(kind := e.kind);
      assert EntryAction(codec, log[i]) == Some(a);
      assert log[..i + 1] == log[..i] + [e];
      steps := steps + [Move(e.player, a)];
    }
    assert log[..|log|] == log;
    r := Decoded(steps);
  }

  /** `live` holds the positions a log went through: each entry was accepted and carries the checksum that followed. */
  ghost predicate Faithful(codec: Codec, cat: Catalog, start: Game, log: seq<LogEntry>, live: seq<Game>) {
    && |live| == |log| + 1 && live[0] == start
    && Decodes(codec, log)
    && forall k :: 0 <= k < |log| ==>
           && Try(cat, live[k], EntryMove(codec, log[k])) == Accepted(live[k + 1])
           && log[k].hash == codec.checksum(live[k + 1])
  }

  lemma {:induction false} FaithfulRun(
      codec: Codec, cat: Catalog, start: Game, log: seq<LogEntry>, live: seq<Game>, n: nat)
    requires Faithful(codec, cat, start, log, live) && n <= |log|
    ensures forall k :: 0 <= k <= n ==> Run(cat, start, Moves(codec, log)[..k]) == live[k]
  {
    hide Step;
    var ms := Moves(codec, log);
    if n == 0 {
      assert ms[..0] == [];
    } else {
      FaithfulRun(codec, cat, start, log, live, n - 1);
      assert ms[..n][..n - 1] == ms[..n - 1];
    }
  }

  /** A faithful log replays without refusal through exactly its live positions. */
  lemma FaithfulReplays(codec: Codec, cat: Catalog, start: Game, log: seq<LogEntry>, live: seq<Game>)
    requires Faithful(codec, cat, start, log, live)
    ensures AllAccepted(cat, start, Moves(codec, log))
    ensures LiveStates(cat, start, Moves(codec, log)) == live
  {
    hide Step;
    var ms := Moves(codec, log);
    FaithfulRun(codec, cat, start, log, live, |log|);
    forall k | 0 <= k < |ms|
      ensures Try(cat, Run(cat, start, ms[..k]), ms[k]).Accepted?
    {
      assert Run(cat, start, ms[..k]) == live[k] && Try(cat, live[k], EntryMove(codec, log[k])) == Accepted(live[k + 1]);
    }
    LiveStatesOfAccepted(cat, start, ms, 0);
    forall k | 0 <= k <= |ms|
      ensures LiveStates(cat, start, ms)[k] == live[k]
    {
      LiveStatesOfAccepted(cat, start, ms, k);
    }
  }

  lemma FaithfulExtends(codec: Codec, cat: Catalog, start: Game, log: seq<LogEntry>, live: seq<Game>,
                        e: LogEntry, g: Game)
    requires Faithful(codec, cat, start, log, live)
    requires EntryAction(codec, e).Some? && Try(cat, live[|log|], EntryMove(codec, e)) == Accepted(g)
    requires e.hash == codec.checksum(g)
    ensures Faithful(codec, cat, start, log + [e], live + [g])
  {
    hide Step;
    var log', live' := log + [e], live + [g];
    forall k | 0 <= k < |log'|
      ensures && Try(cat, live'[k], EntryMove(codec, log'[k])) == Accepted(live'[k + 1])
              && log'[k].hash == codec.checksum(live'[k + 1])
    {
      if k < |log| {
        assert live'[k] == live[k] && live'[k + 1] == live[k + 1] && log'[k] == log[k];
      }
    }
  }
}
