/** From a stored report to the frames of the battle, or the reason it cannot be trusted (internal/replay/replay.go). */
module ReplayBuild {
  import opened Deck
  import opened Battle
  import opened BattleRuns
  import opened BattleReplay
  import opened BattleView
  import opened RoomLog

  datatype Frame = Frame(
    index: nat, atMs: int, seqNo: nat, player: string, action: Option<Action>, auto: bool, state: GodView)

  datatype BuildResult =
    | Built(frames: seq<Frame>)
    | CardsChanged
    | BadActions(index: nat)
    | NotReplayable(status: ReplayStatus)
    | Diverged(index: nat)
    | EndDiffers

  function InitA(r: Report): PlayerInit {
    PlayerInit(r.playerA, r.deckA)
  }

  function InitB(r: Report): PlayerInit {
    PlayerInit(r.playerB, r.deckB)
  }

  predicate EndAgrees(r: Report, g: Game) {
    g.winner == r.winner && DisplayRound(g) == r.rounds && (g.over <==> r.reason == Finished)
  }

  /** The position after the first `k` logged actions of the battle a report opens. */
  ghost function PositionAfter(rng: Rng, codec: Codec, cat: Catalog, r: Report, k: nat): Game
    requires CheckInit(Some(cat), InitA(r), InitB(r)).None? && Decodes(codec, r.actions) && k <= |r.actions|
  {
    Run(cat, Opening(rng, InitA(r), InitB(r), r.seed), Moves(codec, r.actions)[..k])
  }

  ghost predicate Replayable(rng: Rng, codec: Codec, cat: Option<Catalog>, r: Report) {
    && CheckInit(cat, InitA(r), InitB(r)).None?
    && Decodes(codec, r.actions)
    && AllAccepted(cat.value, Opening(rng, InitA(r), InitB(r), r.seed), Moves(codec, r.actions))
  }

  /** Entry `k` carries no checksum or that of the position after it. */
  predicate HashFits(codec: Codec, e: LogEntry, after: Game) {
    e.hash == "" || e.hash == codec.checksum(after)
  }

  ghost predicate EntryFits(rng: Rng, codec: Codec, cat: Option<Catalog>, r: Report, k: nat)
    requires Replayable(rng, codec, cat, r) && k < |r.actions|
  {
    HashFits(codec, r.actions[k], PositionAfter(rng, codec, cat.value, r, k + 1))
  }

  /** Everything about a report that replaying it can confirm. */
  ghost predicate Consistent(rng: Rng, codec: Codec, cat: Option<Catalog>, r: Report) {
    && Replayable(rng, codec, cat, r)
    && (forall k :: 0 <= k < |r.actions| ==> EntryFits(rng, codec, cat, r, k))
    && EndAgrees(r, PositionAfter(rng, codec, cat.value, r, |r.actions|))
  }

  function FrameOf(codec: Codec, log: seq<LogEntry>, k: nat, g: Game): Frame
    requires k <= |log| && Decodes(codec, log)
  {
    if k == 0 then Frame(0, 0, 0, "", None, false, TheGodView(g))
    else
      var e := log[k - 1];
      Frame(k, e.atMs, e.seqNo, e.player, Some(EntryMove(codec, e).action), e.auto, TheGodView(g))
  }

  /** The work of the per-step callback: one frame a position, and the first entry whose checksum differs. */
  method Compare(codec: Codec, log: seq<LogEntry>, steps: seq<Move>, seen: seq<Game>)
    returns (frames: seq<Frame>, diverged: int)
    requires Decodes(codec, log) && steps == Moves(codec, log) && |seen| == |log| + 1
    ensures |frames| == |seen| && forall k :: 0 <= k < |seen| ==> frames[k] == FrameOf(codec, log, k, seen[k])
    ensures -1 <= diverged < |log|
    ensures diverged >= 0 ==> !HashFits(codec, log[diverged], seen[diverged + 1])
    ensures forall k :: 0 <= k < (if diverged < 0 then |log| else diverged) ==>
                HashFits(codec, log[k], seen[1..][k])
  {
    frames := [Frame(0, 0, 0, "", None, false, TheGodView(seen[0]))];
    diverged := -1;
    for i := 0 to |log|
      invariant |frames| == i + 1
      invariant forall k :: 0 <= k <= i ==> frames[k] == FrameOf(codec, log, k, seen[k])
      invariant -1 <= diverged < i
      invariant diverged >= 0 ==> !HashFits(codec, log[diverged], seen[diverged + 1])
      invariant forall k :: 0 <= k < (if diverged < 0 then i else diverged) ==> HashFits(codec, log[k], seen[1..][k])
    {
      var e, g := log[i], seen[i + 1];
      if e.hash != "" && diverged < 0 && e.hash != codec.checksum(g) {
        diverged := i;
      }
      frames := frames + [Frame(i + 1, e.atMs, e.seqNo, steps[i].player, Some(steps[i].action), e.auto, TheGodView(g))];
    }
  }

  /**
   Replays a stored report. It is accepted exactly when the catalog is the one
   the battle used and the report is consistent; the frames then show the
   position before the first and after every action.
   */
  method Build(rng: Rng, codec: Codec, cat: Option<Catalog>, cardsHash: string, r: Report, reportHash: string)
    returns (res: BuildResult)
    ensures res.CardsChanged? <==> reportHash != cardsHash
    ensures res.Built? <==> reportHash == cardsHash && Consistent(rng, codec, cat, r)
    ensures res.Built? ==>
              && |res.frames| == |r.actions| + 1
              && forall k :: 0 <= k < |res.frames| ==>
                     res.frames[k] == FrameOf(codec, r.actions, k, PositionAfter(rng, codec, cat.value, r, k))
    ensures res.BadActions? ==>
              res.index < |r.actions| && EntryAction(codec, r.actions[res.index]).None?
              && Decodes(codec, r.actions[..res.index])
    ensures res.NotReplayable? ==> Decodes(codec, r.actions) && !Replayable(rng, codec, cat, r)
    ensures res.NotReplayable? && CheckInit(cat, InitA(r), InitB(r)).None? ==>
              && res.status.RejectedAt?
              && FirstRefusal(cat.value, Opening(rng, InitA(r), InitB(r), r.seed), Moves(codec, r.actions),
                              res.status.step, res.status.code)
    ensures res.Diverged? ==>
              && Replayable(rng, codec, cat, r)
              && res.index < |r.actions| && !EntryFits(rng, codec, cat, r, res.index)
              && forall k :: 0 <= k < res.index ==> EntryFits(rng, codec, cat, r, k)
    ensures res.EndDiffers? ==>
              && Replayable(rng, codec, cat, r)
              && forall k :: 0 <= k < |r.actions| ==> EntryFits(rng, codec, cat, r, k)
  {
    hide Step, Opening, Moves, HashFits, EntryFits, FrameOf;
    if reportHash != cardsHash {
      return CardsChanged;
    }
    var decoded := Steps(codec, r.actions);
    if decoded.BadEntry? {
      return BadActions(decoded.index);
    }
    var steps := decoded.steps;
    var s, status, seen := Replay(rng, r.roomId, cat, InitA(r), InitB(r), r.seed, steps);
    if !status.Completed? {
      if status.RejectedAt? {
        RefusalIsUnique(cat.value, Opening(rng, InitA(r), InitB(r), r.seed), steps,
                        status.step, status.step, status.code, status.code);
      }
      return NotReplayable(status);
    }
    SeenPositions(rng, codec, cat, r, seen);
    var frames, diverged := Compare(codec, r.actions, steps, seen);
    if diverged >= 0 {
      return Diverged(diverged);
    }
    assert steps[..|steps|] == steps;
    if !EndAgrees(r, Observe(s)) {
      return EndDiffers;
    }
    res := Built(frames);
  }

  lemma SeenPositions(rng: Rng, codec: Codec, cat: Option<Catalog>, r: Report, seen: seq<Game>)
    requires Replayable(rng, codec, cat, r)
    requires seen == LiveStates(cat.value, Opening(rng, InitA(r), InitB(r), r.seed), Moves(codec, r.actions))
    ensures |seen| == |r.actions| + 1
    ensures forall k :: 0 <= k < |seen| ==> seen[k] == PositionAfter(rng, codec, cat.value, r, k)
    ensures forall k :: 0 <= k < |r.actions| ==>
                (EntryFits(rng, codec, cat, r, k) <==> HashFits(codec, r.actions[k], seen[1..][k]))
  {
    hide Step;
    var g, steps := Opening(rng, InitA(r), InitB(r), r.seed), Moves(codec, r.actions);
    LiveStatesOfAccepted(cat.value, g, steps, 0);
    forall k | 0 <= k < |seen|
      ensures seen[k] == PositionAfter(rng, codec, cat.value, r, k)
    {
      LiveStatesOfAccepted(cat.value, g, steps, k);
    }
    forall k | 0 <= k < |r.actions|
      ensures EntryFits(rng, codec, cat, r, k) <==> HashFits(codec, r.actions[k], seen[1..][k])
    {
      assert seen[1..][k] == seen[k + 1];
    }
  }

  /** A faithful log with the matching end makes a consistent report. */
  lemma FaithfulIsConsistent(rng: Rng, codec: Codec, cat: Catalog, r: Report, live: seq<Game>)
    requires CheckInit(Some(cat), InitA(r), InitB(r)).None?
    requires Faithful(codec, cat, Opening(rng, InitA(r), InitB(r), r.seed), r.actions, live)
    requires EndAgrees(r, live[|live| - 1])
    ensures Consistent(rng, codec, Some(cat), r)
    ensures forall k :: 0 <= k < |live| ==> live[k] == PositionAfter(rng, codec, cat, r, k)
  {
    hide Step, Opening;
    var g := Opening(rng, InitA(r), InitB(r), r.seed);
    FaithfulReplays(codec, cat, g, r.actions, live);
    SeenPositions(rng, codec, Some(cat), r, live);
  }

  /** The end of an accepted report cannot be altered: no other winner, number of rounds or claim to be finished is accepted. */
  lemma EndIsPinned(rng: Rng, codec: Codec, cat: Option<Catalog>, r: Report, winner: string, rounds: int, reason: Reason)
    requires Consistent(rng, codec, cat, r)
    ensures Consistent(rng, codec, cat, r.(winner := winner, rounds := rounds, reason := reason))
            <==> winner == r.winner && rounds == r.rounds && (reason == Finished <==> r.reason == Finished)
  {
    hide Replayable, EntryFits, DisplayRound;
    SameReplay(rng, codec, cat, r, r.(winner := winner, rounds := rounds, reason := reason));
  }

  /** Nor can a recorded checksum, except by leaving it out. */
  lemma HashIsPinned(rng: Rng, codec: Codec, cat: Option<Catalog>, r: Report, k: nat, hash: string)
    requires Consistent(rng, codec, cat, r) && k < |r.actions| && r.actions[k].hash != ""
    ensures Consistent(rng, codec, cat, r.(actions := r.actions[k := r.actions[k].(hash := hash)]))
            <==> hash == "" || hash == r.actions[k].hash
  {
    hide Step, Opening, DisplayRound, TheGodView, AllAccepted;
    var t := r.(actions := r.actions[k := r.actions[k].(hash := hash)]);
    SameReplay(rng, codec, cat, r, t);
    assert EntryFits(rng, codec, cat, r, k);
    assert EntryFits(rng, codec, cat, t, k) <==> hash == "" || hash == r.actions[k].hash;
    hide Replayable, EntryFits, EndAgrees;
  }

  /** Reports that differ in nothing a replay uses pass through the same positions. */
  lemma SameReplay(rng: Rng, codec: Codec, cat: Option<Catalog>, r: Report, t: Report)
    requires Replayable(rng, codec, cat, r)
    requires InitA(t) == InitA(r) && InitB(t) == InitB(r) && t.seed == r.seed && |t.actions| == |r.actions|
    requires forall k :: 0 <= k < |r.actions| ==>
                 t.actions[k].player == r.actions[k].player && t.actions[k].kind == r.actions[k].kind
                 && t.actions[k].data == r.actions[k].data
    ensures Replayable(rng, codec, cat, t)
    ensures forall k :: 0 <= k <= |r.actions| ==>
                PositionAfter(rng, codec, cat.value, t, k) == PositionAfter(rng, codec, cat.value, r, k)
    ensures forall k :: 0 <= k < |r.actions| && t.actions[k].hash == r.actions[k].hash ==>
                (EntryFits(rng, codec, cat, t, k) <==> EntryFits(rng, codec, cat, r, k))
  {
    hide Step, Opening, AllAccepted;
    assert forall k :: 0 <= k < |r.actions| ==> EntryAction(codec, t.actions[k]) == EntryAction(codec, r.actions[k]);
    assert Moves(codec, t.actions) == Moves(codec, r.actions);
  }
}
