/** From a live room to its replay: every report a room emits is accepted and shows the battle that was played. */
module EndToEnd {
  import opened Deck
  import opened Battle
  import opened BattleRuns
  import opened BattleReplay
  import opened BattleView
  import opened Checksum
  import opened ChecksumRuns
  import opened RoomLog
  import opened ReplayBuild
  import opened RoomEvents
  import opened RoomMail
  import opened RoomActor

  /** The frame shows what entry `k - 1` of the log did and where it led; frame 0 shows the opening. */
  ghost predicate Shows(codec: Codec, log: seq<LogEntry>, f: Frame, k: nat, g: Game)
    requires k <= |log| && Decodes(codec, log)
  {
    && f.index == k && f.state == TheGodView(g)
    && (k == 0 ==> f.action == None && f.player == "" && f.seqNo == 0)
    && (k > 0 ==>
          var e := log[k - 1];
          && f.player == e.player && f.atMs == e.atMs && f.seqNo == e.seqNo && f.auto == e.auto
          && f.action == EntryAction(codec, e))
  }

  /** What the frames of a report show. */
  ghost predicate FramesShow(codec: Codec, log: seq<LogEntry>, live: seq<Game>, frames: seq<Frame>) {
    && |frames| == |log| + 1 == |live| && Decodes(codec, log)
    && forall k :: 0 <= k < |live| ==> Shows(codec, log, frames[k], k, live[k])
  }

  /** Replays the report of a closed room with the catalog of its battle. */
  method ReplayReport(room: Room, rng: Rng, cat: Catalog, cardsHash: string, ghost reason: Reason)
    returns (res: BuildResult)
    requires room.Closed(reason) && room.reports != [] && (reason == Finished ==> room.battle != null && room.battle.over)
    requires room.battle != null ==> cat == room.battle.catalog && rng == room.setup.rng
    ensures room.battle != null && room.started && room.hasOnFinish && room.reports == [room.ReportFor(reason)]
    ensures res.Built? && FramesShow(room.codec, room.log, room.live, res.frames)
  {
    hide Step, Consistent, PositionAfter, OnlineSet, Room.Sequenced, Room.MailTruthful, Room.TimerSound, Room.Closed;
    assert Decodes(room.codec, room.log) by { LogDecodes(room, reason); }
    room.ReportReplays(reason);
    res := Build(rng, room.codec, Some(cat), cardsHash, room.reports[0], cardsHash);
    forall k | 0 <= k < |room.live|
      ensures Shows(room.codec, room.log, res.frames[k], k, room.live[k])
    {
      FrameShows(room.codec, room.log, k, room.live[k]);
      hide Shows, FrameOf;
    }
  }

  lemma LogDecodes(room: Room, reason: Reason)
    requires room.Closed(reason) && room.reports != []
    ensures Decodes(room.codec, room.log)
  {
    room.HistoryDecodes();
  }

  lemma FrameShows(codec: Codec, log: seq<LogEntry>, k: nat, g: Game)
    requires k <= |log| && Decodes(codec, log)
    ensures Shows(codec, log, FrameOf(codec, log, k, g), k, g)
  {
  }

  /**
   Runs a room over any events and, if it reports, replays the stored report
   with the same catalog: it is accepted, and its frames show the log and the
   positions the room passed through. From the opening on, these are the positions
   of the moves asked for.
   */
  method PlayThenReplay(room: Room, events: seq<Event>, rng: Rng, cat: Catalog, cardsHash: string)
    returns (reported: bool, res: BuildResult, ghost handled: nat)
    requires room.Waiting() && (room.battle != null ==> cat == room.battle.catalog && rng == room.setup.rng)
    modifies room, room.BattleRepr()
    ensures handled <= |events|
    ensures reported <==> room.closed && room.started && room.hasOnFinish
    ensures reported ==>
              && |room.reports| == 1 && room.battle != null && room.Wired()
              && (room.reports[0].reason == Finished <==> room.battle.over)
              && (room.reports[0].reason == Abandoned ==> OnlineSet(room.online) == {} && room.leaveSeen)
              && room.reports[0].winner == room.battle.winner && room.reports[0].rounds == (room.battle.round + 1) / 2
              && res.Built? && FramesShow(room.codec, room.log, room.live, res.frames)
              && room.live[|room.log|] == room.Now()
    ensures reported && old(room.log) == [] ==>
              var w := old(room.Present());
              && w.game == Some(room.setup.Start())
              && room.live == LiveStates(cat, room.setup.Start(), room.TableOf(w).Asked(events[..handled]))
    ensures !reported ==> room.reports == []
  {
    hide EndAgrees, AcceptedMoves, Step, OnlineSet, Room.Current, Room.Sequenced, Room.MailTruthful, Faithful, Room.TimerSound, FramesShow;
    hide Room.LivedThrough, Room.Abreast, Setup.Ready, Room.TellsOver, Quiet, Opening, Table.Started;
    res := CardsChanged;
    ghost var w := room.Present();
    if room.battle != null && room.log == [] {
      room.NothingLoggedYet();
    }
    ghost var reason;
    reason, handled := room.Run(events);
    reported := |room.reports| > 0;
    if reported {
      res := ReplayReport(room, rng, cat, cardsHash, reason);
      if w.log == [] {
        room.LifeIsRun(w, events[..handled]);
      }
    }
  }

  /**
   A log recorded in one battle and replayed as another (a changed seed, deck or
   shuffle): while the rules accept it, entry `k` passes the comparison exactly
   when the two battles stand in the same position after it. So the first entry
   reported is the first after which the positions differ. The hash is assumed
   not to collide on the two texts compared.
   */
  lemma DivergenceIsExact(rng: Rng, codec: Codec, cat: Catalog, r: Report, s: Setup, live: seq<Game>,
                          hash: string -> string, k: nat)
    requires cat.Sound() && s.Ready() && AllReadable(s.a.cards) && AllReadable(s.b.cards)
    requires Faithful(codec, cat, s.Start(), r.actions, live) && k < |r.actions|
    requires Replayable(rng, codec, Some(cat), r)
    requires var s' := Setup(rng, InitA(r), InitB(r), r.seed); SeatsApart(s, s') || SamePlayers(s, s')
    requires AllReadable(r.deckA) && AllReadable(r.deckB)
    requires forall g :: codec.checksum(g) == hash(Text(g))
    requires hash(Text(live[k + 1])) != ""
    requires var g := PositionAfter(rng, codec, cat, r, k + 1);
             hash(Text(live[k + 1])) == hash(Text(g)) ==> Text(live[k + 1]) == Text(g)
    ensures EntryFits(rng, codec, Some(cat), r, k) <==> live[k + 1] == PositionAfter(rng, codec, cat, r, k + 1)
  {
    hide Step, Text, Opening, AllReadable, SeatsApart, SamePlayers;
    var s' := Setup(rng, InitA(r), InitB(r), r.seed);
    var ms := Moves(codec, r.actions)[..k + 1];
    FaithfulRun(codec, cat, s.Start(), r.actions, live, k + 1);
    SameTextSamePosition(cat, s, ms, s', ms);
  }
}
