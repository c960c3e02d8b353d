/**
 The room: one event loop over commands, the turn timer, the grace timer and
 cancellation, which sends messages and finally a report (internal/room/room.go,
 state.go, report.go). Calls to `Out` may panic; `panics(n)` says whether call
 number n does, so a room is proved correct for every pattern of panics.
 */
module RoomActor {
  import opened Deck
  import opened Battle
  import opened BattleRuns
  import opened BattleLedgers
  import opened BattleRules
  import opened BattleEngine
  import opened BattleReplay
  import opened BattleView
  import opened RoomLog
  import opened RoomEvents
  import opened RoomMail
  import opened ReplayBuild

  function OnlineSet(m: map<string, bool>): set<string> {
    set p | p in m && m[p]
  }

  lemma OnlineAfter(m: map<string, bool>, p: string, on: bool)
    ensures OnlineSet(m[p := on]) == if on then OnlineSet(m) + {p} else OnlineSet(m) - {p}
  {
  }

  method CountTrue(m: map<string, bool>) returns (n: nat)
    ensures n == |OnlineSet(m)|
  {
    n := 0;
    var rest := m.Keys;
    ghost var counted: set<string> := {};
    while rest != {}
      invariant rest <= m.Keys
      invariant counted == set p | p in m && p !in rest && m[p]
      invariant n == |counted|
      decreases rest
    {
      var p :| p in rest;
      rest := rest - {p};
      if m[p] {
        counted := counted + {p};
        n := n + 1;
      }
    }
    assert counted == OnlineSet(m);
  }

  /** What an action command does to a battle, or why it is refused. */
  function Ruling(codec: Codec, cat: Catalog, g: Game, pid: string, kind: Kind, data: Bytes): (r: (Option<Trouble>, Game))
    ensures r.0.Some? ==> r.1 == g
  {
    match codec.decode(data)
    case None => (Some(BadAction), g)
    case Some(a) =>
      match Step(cat, g, pid, a.(kind := kind))
      case Rejected(c) => (Some(Rule(c)), g)
      case Accepted(h) => (None, h)
  }

  /** What matters of a room between two events; no game when the room has no battle. */
  datatype Moment = Moment(game: Option<Game>, log: seq<LogEntry>, sent: Mail, online: set<string>, started: bool, seqNo: nat,
                           since: int)

  class Room {
    const id: string
    const player0: string
    const player1: string
    const battle: State?
    const codec: Codec
    const hasOut: bool
    const hasOnFinish: bool
    const panics: nat -> bool
    /** How the battle was set up, for the properties only. */
    ghost const setup: Setup

    var seqNo: nat
    var log: seq<LogEntry>
    var startedAt: int

    // the session
    var joined: map<string, bool>
    var online: map<string, bool>
    var started: bool

    // the loop
    var graceArmed: bool
    var turnArmed: bool
    var lastTurn: int
    var closed: bool

    /** Every call of `Out`, in order, and every call of `OnFinish`. */
    var sent: Mail
    var reports: seq<Report>

    /** The positions of the battle: at the start and after each accepted action. */
    ghost var live: seq<Game>
    /** The position behind each sequence number. */
    ghost var published: seq<Game>
    ghost var leaveSeen: bool
    /** The rounds in which the turn timer was armed. */
    ghost var armedRounds: seq<int>

    // ---------------------------------------------------------------- invariants

    ghost function BattleRepr(): set<object> {
      if battle == null then {} else battle.Repr
    }

    ghost function Now(): Game
      requires battle != null && Wired()
      reads BattleRepr()
    {
      battle.Snapshot()
    }

    function PlayerAt(i: Side): string {
      if i == 0 then player0 else player1
    }

    predicate Has(pid: string) {
      pid == player0 || pid == player1
    }

    /** Players in the order of the battle, and a battle set up from `setup`. */
    ghost predicate Wired()
      reads BattleRepr()
    {
      battle != null ==>
        && codec.Sound() && setup.Ready() && battle.Valid()
        && battle.p0.id == player0 && battle.p1.id == player1 && player0 != player1
        && setup.a == PlayerInit(player0, battle.initDeck0) && setup.b == PlayerInit(player1, battle.initDeck1)
        && setup.seed == battle.seed && battle.roomId == id
    }

    /** The log is the history of the battle. */
    ghost predicate History()
      requires Wired()
      reads this`log, this`live, this`started, BattleRepr()
    {
      if battle == null then log == [] && !started
      else
        && Faithful(codec, battle.catalog, setup.Start(), log, live)
        && live[|log|] == Now()
    }

    /** Sequence numbers count the accepted actions and the start; `pending` actions are logged but not yet announced. */
    ghost predicate Sequenced(pending: nat)
      reads this`published, this`seqNo, this`sent, this`log, this`started
    {
      && |published| == seqNo
      && (!hasOut || battle == null ==> seqNo == 0) && (!hasOut ==> sent == [])
      && (hasOut && battle != null ==> seqNo + pending == |log| + (if started then 1 else 0))
      && (hasOut ==> forall k :: 0 <= k < |log| ==> log[k].seqNo <= seqNo + pending)
      && (hasOut ==> forall j, k :: 0 <= j < k < |log| ==> log[j].seqNo < log[k].seqNo)
    }

    /** A game_state message shows its receiver the position published under its number. */
    ghost predicate Truthful(m: (string, Message))
      reads this`published
    {
      m.1.GameState? ==>
        && 1 <= m.1.view.seqNo <= |published|
        && exists i: Side :: m.0 == PlayerAt(i) && m.1 == Numbered(published[m.1.view.seqNo - 1], i, m.1.view.seqNo)
    }

    ghost predicate MailTruthful()
      reads this`sent, this`published
    {
      forall k :: 0 <= k < |sent| ==> Truthful(sent[k])
    }

    /** The last position published is the present one. */
    ghost predicate Current()
      requires Wired()
      reads this`published, BattleRepr()
    {
      published != [] ==> battle != null && published[|published| - 1] == Now()
    }

    /** What holds even in the middle of a panic. */
    ghost predicate Valid()
      reads this, BattleRepr()
    {
      Wired() && History() && Sequenced(0) && Current() && MailTruthful() && GraceSound()
    }

    /** The grace timer runs exactly while nobody is online after some leave. */
    ghost predicate GraceSound()
      reads this`graceArmed, this`leaveSeen, this`online
    {
      graceArmed <==> leaveSeen && OnlineSet(online) == {}
    }

    /** The turn timer runs exactly in a started room, armed once in each round since the start. */
    ghost predicate TimerSound()
      requires Wired()
      reads this, BattleRepr()
    {
      if !started then !turnArmed && lastTurn == -1 && armedRounds == []
      else
        && turnArmed && battle != null && lastTurn == battle.turn
        && armedRounds != [] && armedRounds[|armedRounds| - 1] == battle.round
        && forall k :: 0 <= k < |armedRounds| ==> armedRounds[k] == armedRounds[0] + k
    }

    /** The loop's own state between two iterations. */
    ghost predicate Idle()
      reads this, BattleRepr()
    {
      Valid() && TimerSound() && !closed && reports == [] && (battle != null ==> !battle.over)
    }

    /** Between two iterations of the loop, with the players told everything. */
    ghost predicate Waiting()
      reads this, BattleRepr()
    {
      Idle() && Abreast(Present())
    }

    constructor (id: string, player0: string, player1: string, battle: State?, codec: Codec,
                 hasOut: bool, hasOnFinish: bool, panics: nat -> bool, ghost setup: Setup)
      requires battle != null ==>
                 && codec.Sound() && setup.Ready() && battle.Valid()
                 && setup.a == PlayerInit(player0, battle.initDeck0)
                 && setup.b == PlayerInit(player1, battle.initDeck1)
                 && setup.seed == battle.seed && battle.roomId == id
                 && battle.Snapshot() == setup.Start()
      ensures Waiting() && !started && log == [] && sent == [] && online == map[]
      ensures this.battle == battle && this.codec == codec && this.setup == setup && this.id == id
      ensures this.player0 == player0 && this.player1 == player1
      ensures this.hasOut == hasOut && this.hasOnFinish == hasOnFinish && this.panics == panics
    {
      this.id, this.player0, this.player1 := id, player0, player1;
      this.battle, this.codec, this.setup := battle, codec, setup;
      this.hasOut, this.hasOnFinish, this.panics := hasOut, hasOnFinish, panics;
      seqNo, log, startedAt := 0, [], 0;
      joined, online, started := map[], map[], false;
      graceArmed, turnArmed, lastTurn, closed := false, false, -1, false;
      sent, reports := [], [];
      live := if battle == null then [] else [battle.Snapshot()];
      published, leaveSeen, armedRounds := [], false, [];
    }

    // ---------------------------------------------------------------- sending

    method Emit(pid: string, m: Message) returns (flow: Flow)
      modifies this`sent
      ensures sent == old(sent) + [(pid, m)]
      ensures flow.Panic? <==> panics(|old(sent)|)
    {
      var n := |sent|;
      sent := sent + [(pid, m)];
      flow := if panics(n) then Panic else Go;
    }

    function Both(m: Message): Mail {
      if hasOut then [(player0, m), (player1, m)] else []
    }

    method Broadcast(m: Message) returns (flow: Flow)
      requires !m.GameState?
      modifies this`sent
      ensures Sends(panics, old(sent), sent, Both(m), flow)
      ensures !hasOut ==> sent == old(sent)
      ensures old(MailTruthful()) ==> MailTruthful()
    {
      if !hasOut {
        return Go;
      }
      :- Emit(player0, m);
      :- Emit(player1, m);
      flow := Go;
    }

    method SendErr(pid: string, why: Trouble) returns (flow: Flow)
      modifies this`sent
      ensures Sends(panics, old(sent), sent, if hasOut then [(pid, Refused(why))] else [], flow)
      ensures !hasOut ==> sent == old(sent)
      ensures old(MailTruthful()) ==> MailTruthful()
    {
      if !hasOut {
        return Go;
      }
      flow := Emit(pid, Refused(why));
    }

    /** A snapshot for one player, under the current number. */
    ghost function ViewTo(pid: string): Mail
      requires battle != null && Wired()
      reads this`seqNo, BattleRepr()
    {
      if hasOut && Has(pid) then [(pid, Numbered(Now(), if pid == player0 then 0 else 1, seqNo))] else []
    }

    ghost function Views(): Mail
      requires battle != null && Wired()
      reads this`seqNo, BattleRepr()
    {
      ViewTo(player0) + ViewTo(player1)
    }

    method SendView(pid: string) returns (flow: Flow)
      requires battle != null && Wired()
      modifies this`sent
      ensures Sends(panics, old(sent), sent, ViewTo(pid), flow)
    {
      if !hasOut {
        return Go;
      }
      var g := Observe(battle);
      for i := 0 to 2
        invariant i > 0 ==> pid != player0
        invariant i > 1 ==> pid != player1
        invariant sent == old(sent)
      {
        if PlayerAt(i) == pid {
          flow := Emit(pid, GameState(ViewFor(g, i).(seqNo := seqNo)));
          return;
        }
      }
      flow := Go;
    }

    /** Numbers already used keep their positions, so messages stay truthful. */
    twostate lemma TruthStays(m: (string, Message))
      requires old(Truthful(m)) && old(published) <= published
      ensures Truthful(m)
    {
      if m.1.GameState? {
        var n := m.1.view.seqNo;
        assert published[n - 1] == old(published)[n - 1];
      }
    }

    lemma MailStaysTruthful(before: Mail, mail: Mail, flow: Flow)
      requires Sends(panics, before, sent, mail, flow)
      requires forall k :: 0 <= k < |before| ==> Truthful(before[k])
      requires forall k :: 0 <= k < |mail| ==> Truthful(mail[k])
      ensures MailTruthful()
    {
      forall k | 0 <= k < |sent|
        ensures Truthful(sent[k])
      {
        assert sent[k] == (before + mail)[k];
      }
    }

    lemma ViewsAreTruthful()
      requires battle != null && Wired()
      requires hasOut ==> published != [] && |published| == seqNo && published[seqNo - 1] == Now()
      ensures forall k :: 0 <= k < |Views()| ==> Truthful(Views()[k])
    {
      if hasOut {
        assert ViewTo(player0) == [(PlayerAt(0), Numbered(published[seqNo - 1], 0, seqNo))];
        assert ViewTo(player1) == [(PlayerAt(1), Numbered(published[seqNo - 1], 1, seqNo))];
      }
    }

    /** Takes the next number and sends both players their view under it. */
    method PushState() returns (flow: Flow)
      requires battle != null && Wired()
      requires |published| == seqNo && MailTruthful()
      modifies this`sent, this`seqNo, this`published
      ensures seqNo == old(seqNo) + (if hasOut then 1 else 0)
      ensures published == if hasOut then old(published) + [Now()] else old(published)
      ensures Sends(panics, old(sent), sent, Views(), flow) && MailTruthful()
    {
      if !hasOut {
        return Go;
      }
      seqNo := seqNo + 1;
      published := published + [Now()];
      flow := SendBoth();
      forall k | 0 <= k < |old(sent)|
        ensures Truthful(old(sent)[k])
      {
        TruthStays(old(sent)[k]);
      }
      ViewsAreTruthful();
      MailStaysTruthful(old(sent), Views(), flow);
    }

    method SendBoth() returns (flow: Flow)
      requires battle != null && Wired()
      modifies this`sent
      ensures Sends(panics, old(sent), sent, Views(), flow)
    {
      flow := Go;
      :- SendView(player0);
      :- SendView(player1);
    }

    // ---------------------------------------------------------------- accepting an action

    /** The mail published with an accepted action, and the notice when it ended the battle. */
    ghost function Announcement(): Mail
      requires battle != null && Wired()
      reads this`seqNo, BattleRepr()
    {
      Views() + if battle.over then Both(GameOverNotice(battle.winner)) else []
    }

    /** Logs the action just applied, with the checksum of the position it led to. */
    method Record(pid: string, kind: Kind, data: Bytes, auto: bool, now: int)
      requires battle != null && Wired()
      modifies this`log, this`live
      ensures log == old(log) + [LogEntry(seqNo + 1, pid, kind, data, auto, now - startedAt, codec.checksum(Now()))]
      ensures live == old(live) + [Now()]
    {
      log := log + [LogEntry(seqNo + 1, pid, kind, data, auto, now - startedAt, codec.checksum(Observe(battle)))];
      live := live + [Now()];
    }

    /** Tells both players the new position, and that the battle is over when it is. */
    method Announce() returns (flow: Flow, over: bool)
      requires battle != null && Wired()
      requires |published| == seqNo && MailTruthful()
      modifies this`sent, this`seqNo, this`published
      ensures seqNo == old(seqNo) + (if hasOut then 1 else 0)
      ensures published == if hasOut then old(published) + [Now()] else old(published)
      ensures Sends(panics, old(sent), sent, Announcement(), flow) && MailTruthful()
      ensures !hasOut ==> sent == old(sent)
      ensures flow.Go? ==> over == battle.over
    {
      over := battle.over;
      :- PushState();
      flow := Go;
      ghost var pushed := sent;
      if over {
        flow := Broadcast(GameOverNotice(battle.winner));
        SendsCompose(panics, old(sent), pushed, sent, Views(), Both(GameOverNotice(battle.winner)), flow);
      }
    }

    lemma HistoryExtends(oldLog: seq<LogEntry>, oldLive: seq<Game>, e: LogEntry)
      requires battle != null && Wired()
      requires Faithful(codec, battle.catalog, setup.Start(), oldLog, oldLive) && |oldLive| == |oldLog| + 1
      requires EntryAction(codec, e).Some?
      requires Try(battle.catalog, oldLive[|oldLog|], EntryMove(codec, e)) == Accepted(Now())
      requires e.hash == codec.checksum(Now())
      requires log == oldLog + [e] && live == oldLive + [Now()]
      ensures History()
    {
      hide Step, Faithful;
      FaithfulExtends(codec, battle.catalog, setup.Start(), oldLog, oldLive, e, Now());
    }

    /** Applies an action and, when it is accepted, logs it. */
    method ApplyLogged(pid: string, a: Action, data: Bytes, auto: bool, now: int) returns (err: Option<Code>)
      requires battle != null && Wired() && History()
      requires if |data| == 0 then a == Action(a.kind, "", "", "")
               else codec.decode(data).Some? && a == codec.decode(data).value.(kind := a.kind)
      modifies this`log, this`live, BattleRepr()
      ensures Wired() && History()
      ensures Step(battle.catalog, old(Now()), pid, a) == if err.Some? then Rejected(err.value) else Accepted(Now())
      ensures err.Some? ==> Now() == old(Now()) && log == old(log)
      ensures err.None? ==>
                log == old(log) + [LogEntry(seqNo + 1, pid, a.kind, data, auto, now - startedAt, codec.checksum(Now()))]
    {
      hide Step;
      err := battle.Apply(pid, a);
      if err.None? {
        Record(pid, a.kind, data, auto, now);
        HistoryExtends(old(log), old(live), log[|log| - 1]);
      }
    }

    // ---------------------------------------------------------------- commands

    ghost function Refusal(pid: string, why: Trouble): Mail {
      if hasOut then [(pid, Refused(why))] else []
    }

    /** Decodes, applies and logs an action command, or says why it is refused. */
    method TakeAction(pid: string, kind: Kind, data: Bytes, now: int) returns (why: Option<Trouble>)
      requires Wired() && History() && Sequenced(0) && Current()
      modifies this`log, this`live, BattleRepr()
      ensures Wired() && History() && Sequenced(if why.Some? then 0 else 1)
      ensures battle == null ==> why == Some(NotStarted)
      ensures battle != null ==> (why, Now()) == Ruling(codec, battle.catalog, old(Now()), pid, kind, data)
      ensures why.Some? ==> log == old(log) && Current()
      ensures why.None? ==>
                log == old(log) + [LogEntry(old(seqNo) + 1, pid, kind, data, false, now - startedAt, codec.checksum(Now()))]
    {
      hide Step, Faithful;
      if battle == null {
        return Some(NotStarted);
      }
      var decoded := codec.decode(data);
      if decoded.None? {
        return Some(BadAction);
      }
      var err := ApplyLogged(pid, decoded.value.(kind := kind), data, false, now);
      why := if err.Some? then Some(Rule(err.value)) else None;
    }

    /** What follows an action command: an error for its sender, or news for both players. */
    ghost function Reply(pid: string, why: Option<Trouble>): Mail
      requires Wired() && (battle == null ==> why.Some?)
      reads this`seqNo, BattleRepr()
    {
      if why.Some? then Refusal(pid, why.value) else Announcement()
    }

    /** Announces the action just logged. */
    method AnnounceLogged() returns (flow: Flow, over: bool)
      requires Wired() && History() && MailTruthful() && GraceSound() && Sequenced(1) && battle != null
      modifies this`sent, this`seqNo, this`published
      ensures Valid()
      ensures flow.Go? ==> over == battle.over
      ensures Sends(panics, old(sent), sent, Announcement(), flow)
    {
      hide Faithful, Views, Setup.Start, Setup.Ready, Announcement, Sends, OnlineSet, State.Snapshot;
      flow, over := Announce();
    }

    method Answer(pid: string, why: Option<Trouble>) returns (flow: Flow, over: bool)
      requires Wired() && History() && MailTruthful() && GraceSound()
      requires Sequenced(if why.Some? then 0 else 1)
      requires if why.Some? then Current() && (battle != null ==> !battle.over) else battle != null
      modifies this`sent, this`seqNo, this`published
      ensures Valid()
      ensures flow.Go? ==> (over <==> battle != null && battle.over)
      ensures Sends(panics, old(sent), sent, Reply(pid, why), flow)
      ensures why.Some? ==> seqNo == old(seqNo)
    {
      hide Faithful, Views, Setup.Start;
      over := false;
      if why.Some? {
        flow := SendErr(pid, why.value);
      } else {
        flow, over := AnnounceLogged();
      }
      hide Sends;
    }

    method HandleAction(pid: string, kind: Kind, data: Bytes, now: int)
      returns (flow: Flow, over: bool, ghost why: Option<Trouble>)
      requires Valid() && (battle != null ==> !battle.over)
      modifies this`log, this`live, this`sent, this`seqNo, this`published, BattleRepr()
      ensures Valid()
      ensures flow.Go? ==> (over <==> battle != null && battle.over)
      ensures battle == null ==> why == Some(NotStarted)
      ensures battle != null ==> (why, Now()) == Ruling(codec, battle.catalog, old(Now()), pid, kind, data)
      ensures why.Some? ==> log == old(log) && seqNo == old(seqNo)
      ensures why.None? ==>
                log == old(log) + [LogEntry(old(seqNo) + 1, pid, kind, data, false, now - startedAt, codec.checksum(Now()))]
      ensures Sends(panics, old(sent), sent, Reply(pid, why), flow)
    {
      hide Step, History, Sequenced, Current, MailTruthful, GraceSound;
      var refused := TakeAction(pid, kind, data, now);
      why := refused;
      hide Ruling, Sends, Reply;
      flow, over := Answer(pid, refused);
    }

    /** The opening views when this join starts the battle, or a snapshot for a player who returns. */
    ghost function NewsOnJoin(pid: string, wasStarted: bool): Mail
      requires Wired()
      reads this`seqNo, this`online, BattleRepr()
    {
      if battle == null then []
      else if wasStarted then ViewTo(pid)
      else if |OnlineSet(online)| == 2 then Views()
      else []
    }

    ghost function JoinMail(pid: string, wasStarted: bool): Mail
      requires Wired()
      reads this`seqNo, this`online, BattleRepr()
    {
      Both(Status(|OnlineSet(online)| == 2)) + NewsOnJoin(pid, wasStarted)
    }

    /** Session changes of a join: the player is online and the grace timer stops. */
    method Enter(pid: string) returns (n: nat)
      modifies this`joined, this`online, this`graceArmed
      ensures online == old(online)[pid := true] && n == |OnlineSet(online)|
      ensures GraceSound()
    {
      joined := joined[pid := true];
      OnlineAfter(online, pid, true);
      online := online[pid := true];
      graceArmed := false;
      n := CountTrue(online);
    }

    /** Session changes of a leave: the grace timer starts when nobody is left. */
    method Depart(pid: string) returns (n: nat)
      requires GraceSound()
      modifies this`online, this`graceArmed, this`leaveSeen
      ensures online == old(online)[pid := false] && n == |OnlineSet(online)| && leaveSeen
      ensures GraceSound()
    {
      OnlineAfter(online, pid, false);
      online := online[pid := false];
      leaveSeen := true;
      n := CountTrue(online);
      if n == 0 {
        graceArmed := true;
      }
    }

    method HandleJoin(pid: string, now: int) returns (flow: Flow)
      requires Valid() && Has(pid)
      modifies this`joined, this`online, this`graceArmed, this`started, this`startedAt
      modifies this`sent, this`seqNo, this`published
      ensures Valid()
      ensures online == old(online)[pid := true]
      ensures old(started) ==> started
      ensures started == old(started) ==> seqNo == old(seqNo)
      ensures started && !old(started) ==> battle != null && |OnlineSet(online)| == 2
      ensures startedAt == if started && !old(started) then now else old(startedAt)
      ensures flow.Go? && battle != null && |OnlineSet(online)| == 2 ==> started
      ensures Sends(panics, old(sent), sent, JoinMail(pid, old(started)), flow)
    {
      hide Faithful, OnlineSet, Sends, GraceSound;
      var n := Enter(pid);
      flow := Welcome(pid, n, now);
    }

    method Welcome(pid: string, n: nat, now: int) returns (flow: Flow)
      requires Valid() && Has(pid) && n == |OnlineSet(online)|
      modifies this`started, this`startedAt, this`sent, this`seqNo, this`published
      ensures Valid()
      ensures old(started) ==> started
      ensures started == old(started) ==> seqNo == old(seqNo)
      ensures started && !old(started) ==> battle != null && n == 2
      ensures startedAt == if started && !old(started) then now else old(startedAt)
      ensures flow.Go? && battle != null && n == 2 ==> started
      ensures Sends(panics, old(sent), sent, JoinMail(pid, old(started)), flow)
    {
      hide Faithful, OnlineSet, Sends, GraceSound, NewsOnJoin, Setup.Start;
      flow := Broadcast(Status(n == 2));
      ghost var told := sent;
      if flow.Panic? {
        SendsCutShort(panics, old(sent), sent, Both(Status(n == 2)), NewsOnJoin(pid, started));
        return;
      }
      flow := Introduce(pid, n, now);
      SendsCompose(panics, old(sent), told, sent, Both(Status(n == 2)), NewsOnJoin(pid, old(started)), flow);
    }

    /** Starts the battle; its opening position gets the next number. */
    method Begin(now: int) returns (flow: Flow)
      requires Valid() && battle != null && !started
      modifies this`started, this`startedAt, this`sent, this`seqNo, this`published
      ensures Valid() && started && startedAt == now
      ensures Sends(panics, old(sent), sent, Views(), flow)
    {
      hide Faithful, Sends, GraceSound, MailTruthful, Setup.Ready, Opening, OnlineSet;
      started := true;
      startedAt := now;
      flow := PushState();
    }

    /** Starts the battle when both players are there for the first time; a returning player gets a snapshot. */
    method Introduce(pid: string, n: nat, now: int) returns (flow: Flow)
      requires Valid() && Has(pid) && n == |OnlineSet(online)|
      modifies this`started, this`startedAt, this`sent, this`seqNo, this`published
      ensures Valid()
      ensures started == (old(started) || (battle != null && n == 2))
      ensures startedAt == if started && !old(started) then now else old(startedAt)
      ensures started == old(started) ==> seqNo == old(seqNo)
      ensures Sends(panics, old(sent), sent, NewsOnJoin(pid, old(started)), flow)
    {
      hide Faithful, OnlineSet, Sends, GraceSound, MailTruthful, Setup.Start, Setup.Ready;
      flow := Go;
      NothingSent(panics, sent);
      if battle != null {
        if !started && n == 2 {
          flow := Begin(now);
        } else if started {
          flow := SendSnapshot(pid);
        }
      }
    }

    /** The snapshot of a returning player repeats the last number and the position published under it. */
    method SendSnapshot(pid: string) returns (flow: Flow)
      requires battle != null && Wired() && Has(pid) && MailTruthful()
      requires hasOut ==> |published| == seqNo && published != [] && published[seqNo - 1] == Now()
      modifies this`sent
      ensures Sends(panics, old(sent), sent, ViewTo(pid), flow) && MailTruthful()
      ensures !hasOut ==> sent == old(sent)
    {
      flow := SendView(pid);
      ViewsAreTruthful();
      assert hasOut ==> ViewTo(pid)[0] in Views();
      MailStaysTruthful(old(sent), ViewTo(pid), flow);
    }

    ghost function LeaveMail(): Mail
      reads this`online
    {
      if |OnlineSet(online)| == 0 then [] else Both(Status(false))
    }

    method HandleLeave(pid: string) returns (flow: Flow)
      requires Valid()
      modifies this`online, this`graceArmed, this`leaveSeen, this`sent
      ensures Valid()
      ensures online == old(online)[pid := false] && leaveSeen
      ensures Sends(panics, old(sent), sent, LeaveMail(), flow)
    {
      hide Faithful, OnlineSet, Sends, GraceSound;
      var n := Depart(pid);
      flow := Go;
      NothingSent(panics, sent);
      if n > 0 {
        flow := Broadcast(Status(false));
      }
    }

    /** In one accepted action the turn changes exactly when the round does, by one. */
    ghost predicate TurnFollows(g: Game, h: Game) {
      (h.round == g.round && h.turn == g.turn) || (h.round == g.round + 1 && h.turn == 1 - g.turn)
    }

    lemma RulingFollows(cat: Catalog, g: Game, pid: string, kind: Kind, data: Bytes)
      ensures TurnFollows(g, Ruling(codec, cat, g, pid, kind, data).1)
    {
      var a := codec.decode(data);
      if a.Some? {
        StepMana(cat, g, Move(pid, a.value.(kind := kind)), 0);
      }
      hide Step;
    }

    ghost function Present(): Moment
      reads this`log, this`sent, this`online, this`started, this`startedAt, this`seqNo, BattleRepr()
    {
      Moment(if battle != null && Wired() then Some(Now()) else None, log, sent, OnlineSet(online), started, seqNo, startedAt)
    }

    /** What an action command has done since `w`: it was refused and changed nothing, or it was applied and logged. */
    ghost predicate Applied(w: Moment, cmd: Cmd, kind: Kind, now: int)
      reads this`log, this`started, this`startedAt, this`seqNo, BattleRepr()
    {
      && Wired() && started == w.started && startedAt == w.since
      && if battle == null then log == w.log && seqNo == w.seqNo
         else
           && w.game.Some?
           && var (why, g) := Ruling(codec, battle.catalog, w.game.value, cmd.player, kind, cmd.data);
              && Now() == g
              && if why.Some? then log == w.log && seqNo == w.seqNo
                 else log == w.log + [LogEntry(w.seqNo + 1, cmd.player, kind, cmd.data, false,
                                               now - startedAt, codec.checksum(g))]
    }

    /** The battle and its log are as they were; the number moves only when the battle starts. */
    ghost predicate Undisturbed(w: Moment, now: int)
      reads this`log, this`started, this`startedAt, this`seqNo, BattleRepr()
    {
      && startedAt == (if started && !w.started then now else w.since)
      && Wired() && log == w.log && (w.started ==> started) && (started == w.started ==> seqNo == w.seqNo)
      && (battle != null ==> w.game == Some(Now()))
    }

    /** The room after a command. */
    ghost predicate Obeyed(w: Moment, cmd: Cmd, now: int)
      reads this`log, this`online, this`started, this`startedAt, this`seqNo, BattleRepr()
    {
      && OnlineSet(online) == (if Has(cmd.player) then Attended(w.online, cmd) else w.online)
      && if Has(cmd.player) && cmd.what.ActionCmd? then Applied(w, cmd, cmd.what.kind, now)
         else
           && Undisturbed(w, now)
           && (started && !w.started ==> Has(cmd.player) && cmd.what.JoinCmd? && battle != null && |OnlineSet(online)| == 2)
    }

    /** The mail a command causes. */
    ghost function CommandMail(w: Moment, cmd: Cmd): Mail
      reads this`seqNo, this`online, BattleRepr()
    {
      if !Wired() || !Has(cmd.player) then []
      else
        match cmd.what
        case JoinCmd => JoinMail(cmd.player, w.started)
        case LeaveCmd => LeaveMail()
        case ActionCmd(kind) =>
          if battle == null then Reply(cmd.player, Some(NotStarted))
          else if w.game.None? then []
          else Reply(cmd.player, Ruling(codec, battle.catalog, w.game.value, cmd.player, kind, cmd.data).0)
        case UnknownCmd => []
    }

    /** One command. `over` tells the loop to close the room. */
    method Handle(cmd: Cmd, now: int) returns (flow: Flow, over: bool)
      requires Valid() && (battle != null ==> !battle.over)
      modifies this`joined, this`online, this`graceArmed, this`leaveSeen, this`started, this`startedAt
      modifies this`log, this`live, this`sent, this`seqNo, this`published, BattleRepr()
      ensures Valid()
      ensures flow.Go? ==> (over <==> battle != null && battle.over)
      ensures battle != null ==> TurnFollows(old(Now()), Now())
      ensures Obeyed(old(Present()), cmd, now)
      ensures Has(cmd.player) && cmd.what.JoinCmd? && flow.Go? && battle != null && |OnlineSet(online)| == 2 ==> started
      ensures Sends(panics, old(sent), sent, CommandMail(old(Present()), cmd), flow)
    {
      hide Step, History, Sequenced, Current, MailTruthful, GraceSound, Sends, Ruling;
      hide Views, JoinMail, LeaveMail, Reply, OnlineSet;
      flow, over := Go, false;
      NothingSent(panics, sent);
      if !Has(cmd.player) {
        return;
      }
      match cmd.what
      case JoinCmd =>
        OnlineAfter(online, cmd.player, true);
        flow := HandleJoin(cmd.player, now);
      case LeaveCmd =>
        OnlineAfter(online, cmd.player, false);
        flow := HandleLeave(cmd.player);
      case ActionCmd(kind) =>
        if battle != null {
          RulingFollows(battle.catalog, Now(), cmd.player, kind, cmd.data);
        }
        ghost var why;
        flow, over, why := HandleAction(cmd.player, kind, cmd.data, now);
      case UnknownCmd =>
    }

    // ---------------------------------------------------------------- the loop

    lemma AutoEndTurnAccepted()
      requires battle != null && Wired() && !battle.over
      ensures Step(battle.catalog, Now(), PlayerAt(battle.turn), END_TURN) == Accepted(EndTurn(Now(), battle.turn))
    {
      hide EndTurn;
    }

    /** What a turn that timed out has done since `w`: it has ended, and the log says so. */
    ghost predicate Expired(w: Moment, now: int)
      reads this`log, this`startedAt, BattleRepr()
    {
      && Wired() && battle != null && w.game.Some? && startedAt == w.since
      && var g := w.game.value;
         && g.p0.id == player0 && g.p1.id == player1 && !g.over
         && Now() == EndTurn(g, g.turn) && TurnFollows(g, Now()) && battle.round == g.round + 1
         && log == w.log + [LogEntry(w.seqNo + 1, PlayerAt(g.turn), EndTurnKind, [], true,
                                     now - startedAt, codec.checksum(Now()))]
    }

    /** The turn limit passed: the room ends the turn for the active player, which is never refused. */
    method TimeOut(now: int) returns (flow: Flow, over: bool)
      requires Valid() && battle != null && !battle.over
      modifies this`turnArmed, this`log, this`live, this`sent, this`seqNo, this`published, BattleRepr()
      ensures Valid() && !turnArmed
      ensures Expired(old(Present()), now)
      ensures flow.Go? ==> over == battle.over
      ensures Sends(panics, old(sent), sent, Announcement(), flow)
    {
      hide Step, History, Sends, GraceSound, MailTruthful, EndTurn, Announcement, Expired, Sequenced;
      turnArmed := false;
      EndTurnLogged(now);
      flow, over := AnnounceLogged();
    }

    method EndTurnLogged(now: int)
      requires Wired() && History() && Sequenced(0) && battle != null && !battle.over
      modifies this`log, this`live, BattleRepr()
      ensures Wired() && History() && Sequenced(1)
      ensures Expired(old(Present()), now)
    {
      hide Step, Faithful;
      AutoEndTurnAccepted();
      EndTurnShape(Now());
      hide EndTurn;
      var err := ApplyLogged(PlayerAt(battle.turn), END_TURN, [], true, now);
    }

    /** The timer still belongs to an earlier turn, to this one, or to none yet. */
    ghost predicate TimerDue()
      requires Wired()
      reads this, BattleRepr()
    {
      if !started then !turnArmed && lastTurn == -1 && armedRounds == []
      else
        && battle != null && !battle.over
        && (forall k :: 0 <= k < |armedRounds| ==> armedRounds[k] == armedRounds[0] + k)
        && if armedRounds == [] then lastTurn == -1
           else
             var last := armedRounds[|armedRounds| - 1];
             || (lastTurn == battle.turn && last == battle.round && turnArmed)
             || (lastTurn == 1 - battle.turn && last + 1 == battle.round)
    }

    /** Arms the turn timer when the turn is not the one it was last armed for. */
    method CheckTurn()
      requires Wired() && TimerDue()
      modifies this`turnArmed, this`lastTurn, this`armedRounds
      ensures TimerSound()
      ensures old(started && armedRounds != [] && armedRounds[|armedRounds| - 1] == battle.round)
              ==> armedRounds == old(armedRounds)
    {
      if battle != null && started && !battle.over && battle.turn != lastTurn {
        lastTurn := battle.turn;
        turnArmed := true;
        armedRounds := armedRounds + [battle.round];
      }
    }

    ghost function ReportFor(reason: Reason): Report
      requires battle != null && Wired()
      reads this, BattleRepr()
    {
      Report(id, player0, player1, Now().winner, if Now().over then Finished else reason, setup.seed,
             DisplayRound(Now()), log, startedAt, setup.a.cards, setup.b.cards)
    }

    /** The report of a closing room; a battle that is over was finished, however the room came to close. */
    method Finish(reason: Reason)
      requires Wired()
      modifies this`reports
      ensures reports == old(reports)
                         + if hasOnFinish && battle != null && started then [ReportFor(reason)] else []
    {
      if !hasOnFinish || battle == null || !started {
        return;
      }
      var why := if battle.over then Finished else reason;
      reports := reports + [Report(id, player0, player1, battle.winner, why, battle.seed, DisplayRound(Observe(battle)),
                                   log, startedAt, battle.initDeck0, battle.initDeck1)];
    }

    /** A room that has closed for `reason` (or because the battle was over). */
    ghost predicate Closed(reason: Reason)
      reads this, BattleRepr()
    {
      && closed && Wired() && History() && Sequenced(0) && MailTruthful()
      && !graceArmed && !turnArmed
      && reports == if hasOnFinish && battle != null && started then [ReportFor(reason)] else []
    }

    method Close(reason: Reason)
      requires Wired() && History() && Sequenced(0) && MailTruthful() && reports == []
      modifies this`reports, this`graceArmed, this`turnArmed, this`closed
      ensures Closed(reason)
    {
      hide Faithful, Sequenced, MailTruthful, DisplayRound, Setup.Start;
      Finish(reason);
      graceArmed, turnArmed, closed := false, false, true;
    }

    /** After a panic: tell both players, whatever happens to those messages, and close. */
    method Crash()
      requires Valid() && reports == []
      modifies this`reports, this`graceArmed, this`turnArmed, this`closed, this`sent
      ensures Closed(Crashed) && Notified(old(sent), sent, Panic)
    {
      hide Faithful, Sends, GraceSound;
      var _ := Broadcast(RoomCrashed);
      Close(Crashed);
    }

    /** After a panic both players are told of the crash, unless telling the first one panics as well; otherwise nothing is added. */
    ghost predicate Notified(told: Mail, after: Mail, flow: Flow) {
      if flow.Go? then after == told
      else exists f :: Sends(panics, told, after, Both(RoomCrashed), f)
    }

    /** Closes after a panic or the end of the battle, or arms the timer for a new turn. */
    method Settle(flow: Flow, over: bool)
      requires Valid() && reports == [] && !closed
      requires flow.Go? ==> (over <==> battle != null && battle.over)
      requires flow.Go? && !over ==> TimerDue()
      modifies this`reports, this`graceArmed, this`turnArmed, this`closed, this`sent, this`lastTurn, this`armedRounds
      ensures if flow.Panic? then Closed(Crashed) else if over then Closed(Finished) else Idle()
      ensures Notified(old(sent), sent, flow)
      ensures old(started && armedRounds != [] && armedRounds[|armedRounds| - 1] == battle.round)
              ==> armedRounds == old(armedRounds)
    {
      hide Faithful, Sends, GraceSound;
      if flow.Panic? {
        Crash();
      } else if over {
        Close(Finished);
      } else {
        CheckTurn();
      }
    }

    method OnCommand(cmd: Cmd, now: int) returns (flow: Flow, over: bool, ghost told: Mail)
      requires Idle()
      modifies this, BattleRepr()
      ensures if flow.Panic? then Closed(Crashed) else if over then Closed(Finished) else Idle()
      ensures over && flow.Go? ==> battle != null && battle.over
      ensures Obeyed(old(Present()), cmd, now)
      ensures Has(cmd.player) && cmd.what.JoinCmd? && flow.Go? && battle != null && |OnlineSet(online)| == 2 ==> started
      ensures Sends(panics, old(sent), told, CommandMail(old(Present()), cmd), flow) && Notified(told, sent, flow)
      ensures battle == null ==> !old(started) && !started
      ensures old(started) && battle.round == old(battle.round) ==> armedRounds == old(armedRounds)
    {
      hide Step, History, Sequenced, Current, MailTruthful, Sends, Ruling, GraceSound, EndTurn, Notified, CommandMail;
      hide TurnFollows, TimerDue, Closed, Reply, JoinMail, LeaveMail, OnlineSet, Setup.Ready, Obeyed;
      NotStartedAlone();
      flow, over := Handle(cmd, now);
      NotStartedAlone();
      StartedStays(old(Present()), cmd, now);
      told := sent;
      if flow.Go? && !over {
        DueAfter();
      }
      Settle(flow, over);
    }

    lemma NotStartedAlone()
      requires Wired() && History()
      ensures battle == null ==> !started
    {
    }

    lemma StartedStays(w: Moment, cmd: Cmd, now: int)
      requires Obeyed(w, cmd, now)
      ensures w.started ==> started
    {
    }

    method OnTimeOut(now: int) returns (flow: Flow, over: bool, ghost told: Mail)
      requires Idle() && turnArmed
      modifies this, BattleRepr()
      ensures if flow.Panic? then Closed(Crashed) else if over then Closed(Finished) else Idle()
      ensures over && flow.Go? ==> battle.over
      ensures Expired(old(Present()), now) && started && online == old(online)
      ensures battle.round == old(battle.round) + 1
      ensures Sends(panics, old(sent), told, Announcement(), flow) && Notified(told, sent, flow)
    {
      hide Setup.Ready, Setup.Start, Closed, OnlineSet, Step, History, Sequenced, Current, MailTruthful, Sends, GraceSound, EndTurn, Notified, Announcement;
      flow, over := TimeOut(now);
      told := sent;
      if flow.Go? && !over {
        DueAfter();
      }
      hide Expired;
      Settle(flow, over);
    }

    twostate lemma DueAfter()
      requires old(Wired() && TimerSound()) && Wired() && History()
      requires lastTurn == old(lastTurn) && armedRounds == old(armedRounds)
      requires turnArmed == old(turnArmed) || (!turnArmed && battle != null && battle.round != old(battle.round))
      requires old(started) ==> started
      requires battle != null ==> TurnFollows(old(Now()), Now()) && !battle.over
      ensures TimerDue()
    {
    }

    // ---------------------------------------------------------------- from one event to the next

    /** The room between two events, seen as the start of what follows. */
    function TableOf(w: Moment): Table
      requires battle != null && w.game.Some?
    {
      Table(codec, battle.catalog, player0, player1, w.game.value, w.online, w.started)
    }

    /** The log entry of an accepted move. */
    function EntryOf(n: nat, m: Move, e: Event, since: int, g: Game): LogEntry
      requires e.Inbox? || e.TurnExpired?
    {
      LogEntry(n, m.player, m.action.kind, if e.Inbox? then e.cmd.data else [], e.TurnExpired?, e.now - since,
               codec.checksum(g))
    }

    /**
     One event leads from `w` to `v`: who is online changes as the event says, the
     battle makes the move it asks for, and the log gains that move if it is legal.
     */
    ghost predicate Leads(w: Moment, e: Event, v: Moment) {
      && (if v.started && !w.started then e.Inbox? && v.since == e.now else v.since == w.since)
      && v.online == (if e.Inbox? && Has(e.cmd.player) then Attended(w.online, e.cmd) else w.online)
      && (w.started ==> v.started) && (v.started && !w.started ==> battle != null && |v.online| == 2)
      && if battle == null then v.log == w.log && v.seqNo == w.seqNo
         else
           && w.game.Some? && v.game.Some?
           && var t := TableOf(w);
              var ms := t.Intents(t.game, t.started, e);
              var kept := AcceptedMoves(t.catalog, t.game, ms);
              && v.game.value == BattleRuns.Run(t.catalog, t.game, ms)
              && (kept == [] ==> v.log == w.log && (v.started == w.started ==> v.seqNo == w.seqNo))
              && (kept != [] ==> v.log == w.log + [EntryOf(w.seqNo + 1, kept[0], e, v.since, v.game.value)])
    }

    /** A ruling is what becomes of the one move that is asked for, if it can be read. */
    lemma RulingIsRun(w: Moment, cmd: Cmd, now: int)
      requires battle != null && w.game.Some? && Has(cmd.player) && cmd.what.ActionCmd?
      ensures var t := TableOf(w);
              var ms := t.Intents(t.game, t.started, Inbox(cmd, now));
              var (why, g) := Ruling(codec, battle.catalog, t.game, cmd.player, cmd.what.kind, cmd.data);
              && BattleRuns.Run(t.catalog, t.game, ms) == g
              && AcceptedMoves(t.catalog, t.game, ms) == (if why.Some? then [] else ms)
              && (!why.Some? ==> ms != [] && ms[0].player == cmd.player && ms[0].action.kind == cmd.what.kind)
    {
      hide Step;
      var t := TableOf(w);
      assert t.Seats(cmd.player);
      if codec.decode(cmd.data).Some? {
        OneMove(t.catalog, t.game, Move(cmd.player, codec.decode(cmd.data).value.(kind := cmd.what.kind)));
      }
    }

    lemma ActionLeads(w: Moment, v: Moment, cmd: Cmd, now: int)
      requires battle != null && w.game.Some? && v.game.Some? && Has(cmd.player) && cmd.what.ActionCmd?
      requires v.online == w.online && v.started == w.started && v.since == w.since
      requires var (why, g) := Ruling(codec, battle.catalog, w.game.value, cmd.player, cmd.what.kind, cmd.data);
               && v.game.value == g
               && if why.Some? then v.log == w.log && v.seqNo == w.seqNo
                  else v.log == w.log + [LogEntry(w.seqNo + 1, cmd.player, cmd.what.kind, cmd.data, false,
                                                  now - v.since, codec.checksum(g))]
      ensures Leads(w, Inbox(cmd, now), v)
    {
      hide Ruling, Table.Intents, Step;
      RulingIsRun(w, cmd, now);
    }

    /** Events that ask for no move. */
    lemma NothingLeads(w: Moment, v: Moment, e: Event)
      requires battle != null ==> w.game.Some? && w.game == v.game
      requires e.Inbox? ==> !Has(e.cmd.player) || !e.cmd.what.ActionCmd? || battle == null
      requires e.TurnExpired? ==> !w.started
      requires v.online == (if e.Inbox? && Has(e.cmd.player) then Attended(w.online, e.cmd) else w.online)
      requires (w.started ==> v.started) && (v.started && !w.started ==> battle != null && |v.online| == 2)
      requires v.log == w.log && (v.started == w.started ==> v.seqNo == w.seqNo)
      requires if v.started && !w.started then e.Inbox? && v.since == e.now else v.since == w.since
      ensures Leads(w, e, v)
    {
      if battle != null {
        var t := TableOf(w);
        assert t.Intents(t.game, t.started, e) == [];
      }
    }

    lemma ObeyedLeads(w: Moment, cmd: Cmd, now: int)
      requires Obeyed(w, cmd, now) && (battle == null ==> !started && !w.started)
      ensures Leads(w, Inbox(cmd, now), Present())
    {
      hide Leads, Ruling, OnlineSet, State.Snapshot;
      if battle != null && Has(cmd.player) && cmd.what.ActionCmd? {
        ActionLeads(w, Present(), cmd, now);
      } else {
        NothingLeads(w, Present(), Inbox(cmd, now));
      }
    }

    lemma TurnEndLeads(w: Moment, v: Moment, now: int)
      requires battle != null && w.game.Some? && v.game.Some? && w.started && v.started && v.online == w.online
      requires v.since == w.since
      requires var g := w.game.value;
               && g.p0.id == player0 && g.p1.id == player1 && player0 != player1 && !g.over
               && v.game.value == EndTurn(g, g.turn)
               && v.log == w.log + [LogEntry(w.seqNo + 1, PlayerAt(g.turn), EndTurnKind, [], true,
                                             now - v.since, codec.checksum(v.game.value))]
      ensures Leads(w, TurnExpired(now), v)
    {
      var t := TableOf(w);
      var m := Move(t.game.At(t.game.turn).id, END_TURN);
      assert t.Intents(t.game, t.started, TurnExpired(now)) == [m];
      assert Try(t.catalog, t.game, m) == Accepted(v.game.value) by { hide EndTurn; }
      hide Step, EndTurn;
      OneMove(t.catalog, t.game, m);
    }

    lemma ExpiredLeads(w: Moment, now: int)
      requires Expired(w, now) && w.started && started && OnlineSet(online) == w.online
      ensures Leads(w, TurnExpired(now), Present()) && Wired() && battle != null
    {
      hide Leads, OnlineSet, State.Snapshot, EndTurn, TurnFollows;
      TurnEndLeads(w, Present(), now);
    }

    // ---------------------------------------------------------------- what the players know

    /** The mail says: to each player the present position, certainly if `newer`, and whether the opponent is there. */
    ghost predicate Says(mail: Mail, newer: bool, ready: Option<bool>)
      reads this`seqNo, BattleRepr()
    {
      forall i: Side ::
        && Latest(mail, PlayerAt(i), Attendance) == (if ready.Some? then Some(Status(ready.value)) else None)
        && var seen := Latest(mail, PlayerAt(i), Position);
           && (seen == None ==> !newer)
           && (seen.Some? ==> battle != null && Wired() && seen.value == Numbered(Now(), i, seqNo))
    }

    lemma NothingSays()
      ensures Says([], false, None)
    {
    }

    lemma BothSay(m: Message, i: Side, t: Topic)
      requires hasOut
      ensures Latest(Both(m), PlayerAt(i), t) == if TopicOf(m) == t then Some(m) else None
    {
      assert Both(m) == [(player0, m)] + [(player1, m)];
      LatestOfTwo(player0, m, player1, m, PlayerAt(i), t);
    }

    lemma ViewsSay(i: Side, t: Topic)
      requires hasOut && battle != null && Wired()
      ensures Latest(Views(), PlayerAt(i), t) == if t == Position then Some(Numbered(Now(), i, seqNo)) else None
    {
      hide ViewFor;
      LatestOfTwo(player0, Numbered(Now(), 0, seqNo), player1, Numbered(Now(), 1, seqNo), PlayerAt(i), t);
    }

    lemma SnapshotSays(pid: string)
      requires hasOut && battle != null && Wired() && Has(pid)
      ensures Says(ViewTo(pid), false, None)
    {
      hide ViewFor;
      forall i: Side, t: Topic
        ensures Latest(ViewTo(pid), PlayerAt(i), t)
             == if t == Position && pid == PlayerAt(i) then Some(Numbered(Now(), i, seqNo)) else None
      {
        LatestOfOne(pid, Numbered(Now(), if pid == player0 then 0 else 1, seqNo), PlayerAt(i), t);
      }
    }

    lemma RefusalSays(pid: string, why: Trouble)
      requires hasOut
      ensures Says(Refusal(pid, why), false, None)
    {
      forall i: Side, t: Topic
        ensures Latest(Refusal(pid, why), PlayerAt(i), t) == if t == Events && pid == PlayerAt(i) then Some(Refused(why)) else None
      {
        LatestOfOne(pid, Refused(why), PlayerAt(i), t);
      }
    }

    lemma ViewsSayFresh()
      requires hasOut && battle != null && Wired()
      ensures Says(Views(), true, None)
    {
      forall i: Side, t: Topic
        ensures Latest(Views(), PlayerAt(i), t) == if t == Position then Some(Numbered(Now(), i, seqNo)) else None
      {
        ViewsSay(i, t);
      }
      hide Views, Numbered;
    }

    /** Mail that follows other mail on other topics, or repeats it. */
    lemma SaysMore(a: Mail, b: Mail, newer: bool, ready: Option<bool>)
      requires (Says(a, newer, None) && Says(b, false, ready)) || (Says(a, false, ready) && Says(b, newer, None))
      ensures Says(a + b, newer, ready)
    {
      hide Numbered, State.Snapshot, Wired;
      forall i: Side
        ensures Latest(a + b, PlayerAt(i), Attendance) == (if ready.Some? then Some(Status(ready.value)) else None)
        ensures Latest(a + b, PlayerAt(i), Position) in {Latest(a, PlayerAt(i), Position), Latest(b, PlayerAt(i), Position)}
        ensures Latest(a + b, PlayerAt(i), Position) == None ==>
                  Latest(a, PlayerAt(i), Position) == None && Latest(b, PlayerAt(i), Position) == None
      {
        LatestAppended(a, b, PlayerAt(i), Attendance);
        LatestAppended(a, b, PlayerAt(i), Position);
      }
    }

    lemma StatusSays(ready: bool)
      requires hasOut
      ensures Says(Both(Status(ready)), false, Some(ready))
    {
      forall i: Side, t: Topic
        ensures Latest(Both(Status(ready)), PlayerAt(i), t) == if t == Attendance then Some(Status(ready)) else None
      {
        BothSay(Status(ready), i, t);
      }
      hide Both;
    }

    lemma OverSays(winner: string)
      requires hasOut
      ensures Says(Both(GameOverNotice(winner)), false, None)
    {
      forall i: Side, t: Topic
        ensures Latest(Both(GameOverNotice(winner)), PlayerAt(i), t) == if t == Events then Some(GameOverNotice(winner)) else None
      {
        BothSay(GameOverNotice(winner), i, t);
      }
      hide Both;
    }

    lemma AnnouncementSays()
      requires hasOut && battle != null && Wired()
      ensures Says(Announcement(), true, None)
    {
      ViewsSayFresh();
      OverSays(battle.winner);
      NothingSays();
      hide Says, Views, Both;
      SaysMore(Views(), if battle.over then Both(GameOverNotice(battle.winner)) else [], true, None);
    }

    lemma JoinSays(pid: string, wasStarted: bool)
      requires hasOut && Wired() && Has(pid)
      ensures var full := |OnlineSet(online)| == 2;
              Says(JoinMail(pid, wasStarted), battle != null && !wasStarted && full, Some(full))
    {
      var full := |OnlineSet(online)| == 2;
      StatusSays(full);
      NothingSays();
      if battle != null {
        ViewsSayFresh();
        SnapshotSays(pid);
      }
      hide Says, Views, ViewTo, Both, OnlineSet;
      SaysMore(Both(Status(full)), NewsOnJoin(pid, wasStarted), battle != null && !wasStarted && full, Some(full));
    }

    lemma LeaveSays()
      requires hasOut
      ensures Says(LeaveMail(), false, if |OnlineSet(online)| == 0 then None else Some(false))
    {
      StatusSays(false);
      NothingSays();
      hide Says, Both, OnlineSet;
    }

    /** The latest view each player got is that of position `g`, under number `n`. */
    ghost predicate Informed(mail: Mail, g: Game, n: nat) {
      forall i: Side :: Latest(mail, PlayerAt(i), Position) == Some(Numbered(g, i, n))
    }

    /** The latest each player heard about the opponent's presence. */
    ghost predicate StatusKnown(mail: Mail, ready: bool) {
      forall i: Side :: Latest(mail, PlayerAt(i), Attendance) == Some(Status(ready))
    }

    /**
     Between two events: no call has panicked, only players are online, the battle has
     started if both are, both players have the present position, and whoever is
     online knows whether the opponent is.
     */
    ghost predicate Abreast(w: Moment) {
      && Quiet(panics, 0, |w.sent|)
      && w.online <= {player0, player1}
      && (battle != null && !w.started ==> w.online != {player0, player1})
      && (hasOut && w.seqNo > 0 && battle != null ==> w.game.Some? && Informed(w.sent, w.game.value, w.seqNo))
      && (hasOut && w.online != {} ==> StatusKnown(w.sent, |w.online| == 2))
    }

    lemma StaysInformed(before: Mail, mail: Mail, g: Game, n: nat, newer: bool, ready: Option<bool>)
      requires battle != null && Wired() && Says(mail, newer, ready)
      requires newer || (Informed(before, g, n) && g == Now() && n == seqNo)
      ensures Informed(before + mail, Now(), seqNo)
    {
      hide Numbered, State.Snapshot;
      forall i: Side
        ensures Latest(before + mail, PlayerAt(i), Position) == Some(Numbered(Now(), i, seqNo))
      {
        LatestAppended(before, mail, PlayerAt(i), Position);
      }
    }

    lemma StaysKnown(before: Mail, mail: Mail, was: bool, newer: bool, ready: Option<bool>)
      requires Says(mail, newer, ready) && (ready.Some? || StatusKnown(before, was))
      ensures StatusKnown(before + mail, if ready.Some? then ready.value else was)
    {
      hide Numbered, State.Snapshot, Wired;
      forall i: Side
        ensures Latest(before + mail, PlayerAt(i), Attendance) == Some(Status(if ready.Some? then ready.value else was))
      {
        LatestAppended(before, mail, PlayerAt(i), Attendance);
      }
    }

    /** What is said in `mail` keeps the players abreast of the change from `w` to now. */
    lemma StaysAbreast(w: Moment, mail: Mail, newer: bool, ready: Option<bool>)
      requires Abreast(w) && Wired() && Sends(panics, w.sent, sent, mail, Go)
      requires OnlineSet(online) <= {player0, player1}
      requires battle != null && !started ==> OnlineSet(online) != {player0, player1}
      requires hasOut ==> Says(mail, newer, ready)
      requires battle != null ==> newer || (w.game == Some(Now()) && w.seqNo == seqNo)
      requires hasOut && OnlineSet(online) != {} ==>
                 if ready.Some? then ready.value == (|OnlineSet(online)| == 2) else OnlineSet(online) == w.online
      ensures Abreast(Present())
    {
      hide Says, Informed, StatusKnown, OnlineSet, State.Snapshot;
      if hasOut {
        if battle != null && seqNo > 0 {
          StaysInformed(w.sent, mail, Now(), seqNo, newer, ready);
        }
        if OnlineSet(online) != {} {
          StaysKnown(w.sent, mail, |w.online| == 2, newer, ready);
        }
      }
    }

    lemma BothOnline(who: set<string>)
      requires who <= {player0, player1} && player0 != player1
      ensures |who| == 2 <==> who == {player0, player1}
    {
      if |who| == 2 && player0 !in who {
        assert who <= {player1};
        SmallSet(who, player1);
      }
      if |who| == 2 && player1 !in who {
        assert who <= {player0};
        SmallSet(who, player0);
      }
    }

    lemma SmallSet(who: set<string>, p: string)
      requires who <= {p}
      ensures |who| <= 1
    {
      assert who == {} || who == {p};
    }

    lemma OneLeft(who: set<string>, p: string)
      requires who <= {player0, player1} && Has(p)
      ensures who - {p} <= {player0, player1} && |who - {p}| <= 1
    {
      SmallSet(who - {p}, if p == player0 then player1 else player0);
    }

    lemma JoinAbreast(w: Moment, pid: string, now: int)
      requires Abreast(w) && Undisturbed(w, now) && Has(pid) && OnlineSet(online) == w.online + {pid}
      requires Sends(panics, w.sent, sent, JoinMail(pid, w.started), Go)
      requires started && !w.started ==> battle != null && |OnlineSet(online)| == 2
      requires battle != null && |OnlineSet(online)| == 2 ==> started
      ensures Abreast(Present())
    {
      hide Says, Sends, JoinMail, OnlineSet, State.Snapshot, Informed, StatusKnown;
      if hasOut {
        JoinSays(pid, w.started);
      }
      if battle != null {
        BothOnline(OnlineSet(online));
      }
      var full := |OnlineSet(online)| == 2;
      StaysAbreast(w, JoinMail(pid, w.started), battle != null && !w.started && full, Some(full));
    }

    lemma LeaveAbreast(w: Moment, pid: string, now: int)
      requires Abreast(w) && Undisturbed(w, now) && Has(pid) && OnlineSet(online) == w.online - {pid} && started == w.started
      requires Sends(panics, w.sent, sent, LeaveMail(), Go)
      ensures Abreast(Present())
    {
      hide Says, Sends, LeaveMail, OnlineSet, State.Snapshot, Informed, StatusKnown;
      if hasOut {
        LeaveSays();
      }
      OneLeft(w.online, pid);
      if battle != null {
        BothOnline(OnlineSet(online));
      }
      StaysAbreast(w, LeaveMail(), false, if |OnlineSet(online)| == 0 then None else Some(false));
    }

    /** Nobody comes or goes; the mail is a refusal, or news of a new position. */
    lemma ReplyAbreast(w: Moment, pid: string, why: Option<Trouble>)
      requires Abreast(w) && Wired() && OnlineSet(online) == w.online && started == w.started
      requires battle == null ==> why.Some?
      requires why.Some? ==> (battle != null ==> w.game == Some(Now()) && seqNo == w.seqNo)
      requires Sends(panics, w.sent, sent, Reply(pid, why), Go)
      ensures Abreast(Present())
    {
      if hasOut {
        if why.Some? {
          RefusalSays(pid, why.value);
        } else {
          AnnouncementSays();
        }
      }
      hide Says, Sends, OnlineSet, State.Snapshot, Informed, StatusKnown, Announcement, Refusal;
      StaysAbreast(w, Reply(pid, why), why.None?, None);
    }

    lemma SilenceAbreast(w: Moment, now: int)
      requires Abreast(w) && Undisturbed(w, now) && OnlineSet(online) == w.online && started == w.started && sent == w.sent
      ensures Abreast(Present())
    {
      hide OnlineSet, State.Snapshot, Informed, StatusKnown;
    }

    /** A command whose mail has all been sent keeps the players abreast. */
    lemma CommandAbreast(w: Moment, cmd: Cmd, now: int)
      requires Abreast(w) && Obeyed(w, cmd, now)
      requires Sends(panics, w.sent, sent, CommandMail(w, cmd), Go)
      requires Has(cmd.player) && cmd.what.JoinCmd? && battle != null && |OnlineSet(online)| == 2 ==> started
      ensures Abreast(Present())
    {
      hide Abreast, Ruling, JoinMail, LeaveMail, Reply, OnlineSet, State.Snapshot;
      if !Has(cmd.player) || cmd.what.UnknownCmd? {
        assert sent == w.sent + [] == w.sent;
        SilenceAbreast(w, now);
      } else if cmd.what.JoinCmd? {
        hide Sends;
        JoinAbreast(w, cmd.player, now);
      } else if cmd.what.LeaveCmd? {
        hide Sends;
        LeaveAbreast(w, cmd.player, now);
      } else {
        hide Sends;
        ReplyAbreast(w, cmd.player, if battle == null then Some(NotStarted)
                                    else Ruling(codec, battle.catalog, w.game.value, cmd.player, cmd.what.kind, cmd.data).0);
      }
    }

    lemma TimeOutAbreast(w: Moment, now: int)
      requires Abreast(w) && Expired(w, now) && started && w.started && OnlineSet(online) == w.online
      requires Sends(panics, w.sent, sent, Announcement(), Go)
      ensures Abreast(Present())
    {
      assert Wired() && battle != null;
      hide Abreast, Expired, OnlineSet, State.Snapshot, Sends, Announcement;
      ReplyAbreast(w, "", None);
    }

    // ---------------------------------------------------------------- one iteration

    /** The mail an event causes, a notice of a crash aside. */
    ghost function EventMail(w: Moment, e: Event): Mail
      reads this`seqNo, this`online, BattleRepr()
    {
      match e
      case Inbox(cmd, _) => CommandMail(w, cmd)
      case TurnExpired(_) => if w.started && battle != null && Wired() then Announcement() else []
      case _ => []
    }

    /**
     What one event has done since `w`: the room is a step further and has sent what
     the event calls for, unless a call has panicked.
     */
    ghost predicate Handled(w: Moment, e: Event, told: Mail, flow: Flow)
      reads this`log, this`sent, this`online, this`started, this`startedAt, this`seqNo, BattleRepr()
    {
      && Leads(w, e, Present())
      && Sends(panics, w.sent, told, EventMail(w, e), flow) && Notified(told, sent, flow)
      && (flow.Go? ==> Abreast(Present()))
    }

    /** What a waiting room guarantees, without the reasons. */
    lemma WhileWaiting()
      requires Waiting()
      ensures Wired() && (turnArmed <==> started)
      ensures battle == null ==> log == [] && !started
      ensures battle != null ==>
                && player0 != player1 && codec.Sound() && !battle.over
                && Present().game.Some? && !Present().game.value.over
      ensures !closed && Abreast(Present()) && Quiet(panics, 0, |sent|)
    {
    }

    lemma OnceClosed(reason: Reason)
      requires Closed(reason)
      ensures Wired() && (battle == null ==> log == [] && !started)
      ensures battle != null ==> player0 != player1 && codec.Sound()
    {
    }

    /** A panic among the calls of one event is a panic among all calls. */
    lemma PanicShows(w: Moment, e: Event, told: Mail, flow: Flow)
      requires Handled(w, e, told, flow)
      ensures flow.Panic? <==> !Quiet(panics, 0, |sent|)
      ensures flow.Go? ==> Abreast(Present())
    {
      hide Leads, EventMail, OnlineSet, State.Snapshot;
    }

    /** The last two messages tell the players who has won. */
    ghost predicate TellsOver(mail: Mail, winner: string) {
      var last := Both(GameOverNotice(winner));
      |mail| >= |last| && mail[|mail| - |last|..] == last
    }

    lemma AnnouncementTells(before: Mail)
      requires battle != null && Wired() && battle.over
      ensures TellsOver(before + Announcement(), battle.winner)
    {
      hide Views;
    }

    /** Only an accepted move ends a battle. */
    lemma EndIsAnnounced(w: Moment, e: Event)
      requires Wired() && battle != null && Leads(w, e, Present())
      requires !w.game.value.over && battle.over
      ensures EventMail(w, e) == Announcement()
    {
      var t := TableOf(w);
      hide Announcement, Views, JoinMail, LeaveMail, Step, OnlineSet;
      if e.Inbox? && Has(e.cmd.player) && e.cmd.what.ActionCmd? {
        RulingIsRun(w, e.cmd, e.now);
      } else {
        assert t.Intents(t.game, t.started, e) == [] || e.TurnExpired?;
      }
    }

    lemma EndTold(w: Moment, e: Event, told: Mail)
      requires Handled(w, e, told, Go) && Wired() && battle != null && w.game.Some? && !w.game.value.over && battle.over
      ensures TellsOver(sent, battle.winner)
    {
      hide Leads, Announcement, TellsOver, EventMail, Abreast, OnlineSet;
      EndIsAnnounced(w, e);
      AnnouncementTells(w.sent);
    }

    /** An event that does nothing but, perhaps, close the room. */
    lemma NothingHandled(w: Moment, e: Event)
      requires Wired() && Abreast(w) && w == Present() && !e.Inbox? && (e.TurnExpired? ==> !started)
      ensures Handled(w, e, sent, Go)
    {
      hide Leads, Abreast, OnlineSet, State.Snapshot;
      NothingLeads(w, Present(), e);
      NothingSent(panics, sent);
      hide Sends;
    }

    method ReactToCommand(cmd: Cmd, now: int) returns (flow: Flow, over: bool, ghost told: Mail)
      requires Waiting()
      modifies this, BattleRepr()
      ensures if flow.Panic? then Closed(Crashed) else if over then Closed(Finished) else Idle()
      ensures over && flow.Go? ==> battle != null && battle.over
      ensures Handled(old(Present()), Inbox(cmd, now), told, flow)
      ensures old(started) && battle.round == old(battle.round) ==> armedRounds == old(armedRounds)
    {
      hide Idle, Closed, Obeyed, Leads, Sends, CommandMail, Abreast, OnlineSet, State.Snapshot;
      flow, over, told := OnCommand(cmd, now);
      ObeyedLeads(old(Present()), cmd, now);
      if flow.Go? {
        CommandAbreast(old(Present()), cmd, now);
      }
    }

    method ReactToTimer(now: int) returns (flow: Flow, over: bool, ghost told: Mail)
      requires Waiting() && turnArmed
      modifies this, BattleRepr()
      ensures if flow.Panic? then Closed(Crashed) else if over then Closed(Finished) else Idle()
      ensures over && flow.Go? ==> battle != null && battle.over
      ensures Handled(old(Present()), TurnExpired(now), told, flow)
      ensures battle.round == old(battle.round) + 1
    {
      hide Closed, Expired, Leads, Sends, Announcement, Abreast, OnlineSet, State.Snapshot;
      WhileWaiting();
      flow, over, told := OnTimeOut(now);
      hide Idle;
      ExpiredLeads(old(Present()), now);
      if flow.Go? {
        TimeOutAbreast(old(Present()), now);
      }
    }

    /** The grace timer or the server closes the room. */
    method ShutDown(reason: Reason, e: Event)
      requires Waiting() && (e == GraceExpired || e == Cancelled)
      modifies this`reports, this`graceArmed, this`turnArmed, this`closed
      ensures Closed(reason) && Handled(old(Present()), e, sent, Go)
    {
      hide Leads, Abreast, Sends, Faithful, Handled, OnlineSet, State.Snapshot;
      WhileWaiting();
      Close(reason);
      hide Closed;
      NothingHandled(Present(), e);
    }

    /** An iteration that ends with a verdict on the flow: what follows for the room, and what has been told. */
    lemma Concluded(w: Moment, e: Event, told: Mail, flow: Flow, over: bool)
      requires Handled(w, e, told, flow)
      requires over && flow.Go? ==> battle != null && battle.over && Wired() && w.game.Some? && !w.game.value.over
      ensures flow.Panic? <==> !Quiet(panics, 0, |sent|)
      ensures flow.Go? ==> Abreast(Present())
      ensures over && flow.Go? ==> TellsOver(sent, battle.winner)
    {
      hide Handled, TellsOver, Abreast;
      PanicShows(w, e, told, flow);
      if over && flow.Go? {
        EndTold(w, e, told);
      }
    }

    /** One iteration of the loop. An event whose timer is not armed cannot be selected and does nothing. */
    method React(e: Event) returns (ghost reason: Reason, ghost told: Mail, ghost flow: Flow)
      requires Waiting()
      modifies this, BattleRepr()
      ensures if closed then Closed(reason) else Waiting()
      ensures Handled(old(Present()), e, told, flow)
      ensures flow.Panic? <==> closed && reason == Crashed
      ensures flow.Panic? <==> !Quiet(panics, 0, |sent|)
      ensures flow.Go? ==> Abreast(Present())
      ensures closed && reason == Finished ==> battle != null && TellsOver(sent, battle.winner)
      ensures closed ==> match e
                         case GraceExpired => reason == Abandoned && leaveSeen && OnlineSet(online) == {}
                         case Cancelled => reason == Aborted
                         case _ => reason == Crashed || (reason == Finished && battle != null && battle.over)
      ensures e == Cancelled || (e == GraceExpired && old(graceArmed)) ==> closed
      ensures old(started) && battle.round == old(battle.round) ==> armedRounds == old(armedRounds)
    {
      hide Step, Faithful, Sends, Handled, Abreast, Leads, State.Snapshot, TellsOver, History, Sequenced, Current, MailTruthful;
      WhileWaiting();
      ghost var w := Present();
      var over := false;
      reason, told, flow := Finished, sent, Go;
      match e {
      case Inbox(cmd, now) =>
        flow, over, told := ReactToCommand(cmd, now);
        reason := if flow.Panic? then Crashed else Finished;
      case TurnExpired(now) =>
        if turnArmed {
          flow, over, told := ReactToTimer(now);
          reason := if flow.Panic? then Crashed else Finished;
        } else {
          NothingHandled(w, e);
        }
      case GraceExpired =>
        if graceArmed {
          reason := Abandoned;
          ShutDown(Abandoned, e);
        } else {
          NothingHandled(w, e);
        }
      case Cancelled =>
        reason := Aborted;
        ShutDown(Aborted, e);
      }
      Concluded(w, e, told, flow, over);
    }

    // ---------------------------------------------------------------- the life of a room

    /** The log has grown by entries for exactly these moves. */
    ghost predicate Records(before: seq<LogEntry>, after: seq<LogEntry>, ms: seq<Move>) {
      && |after| == |before| + |ms| && before <= after
      && forall k :: 0 <= k < |ms| ==> Notes(after[|before| + k], ms[k])
    }

    /** The entry stands for that move. */
    ghost predicate Notes(r: LogEntry, m: Move) {
      EntryAction(codec, r).Some? && EntryMove(codec, r) == m
    }

    /**
     The events lead from `w` to `v`: who is online, the battle after all the moves
     asked for, and a log of those that were legal.
     */
    ghost predicate LivedThrough(w: Moment, es: seq<Event>, v: Moment) {
      battle != null ==>
        && w.game.Some? && v.game.Some?
        && var t := TableOf(w);
           && v.online == t.Online(es)
           && v.game.value == BattleRuns.Run(t.catalog, t.game, t.Asked(es))
           && Records(w.log, v.log, AcceptedMoves(t.catalog, t.game, t.Asked(es)))
    }

    lemma NothingLived(w: Moment)
      requires battle != null ==> w.game.Some?
      ensures LivedThrough(w, [], w)
      ensures battle != null && (w.started || w.online != {player0, player1}) ==>
                (w.started <==> TableOf(w).Started([]))
    {
      if battle != null {
        var t := TableOf(w);
        assert BattleRuns.Run(t.catalog, t.game, t.Asked([])) == t.game;
        if t.Started([]) && !w.started {
          var k :| 0 <= k <= 0 && t.Online([][..k]) == {player0, player1};
        }
      }
    }

    lemma EntryIsMove(w: Moment, e: Event, since: int, n: nat, g: Game)
      requires battle != null && w.game.Some? && codec.Sound()
      requires TableOf(w).Intents(w.game.value, w.started, e) != []
      ensures e.Inbox? || e.TurnExpired?
      ensures var m := TableOf(w).Intents(w.game.value, w.started, e)[0];
              var r := EntryOf(n, m, e, since, g);
              Notes(r, m)
    {
    }

    lemma RecordsMore(before: seq<LogEntry>, mid: seq<LogEntry>, ms: seq<Move>, more: seq<LogEntry>, kept: seq<Move>)
      requires Records(before, mid, ms) && |more| == |kept| <= 1
      requires kept != [] ==> Notes(more[0], kept[0])
      ensures Records(before, mid + more, ms + kept)
    {
      hide Notes;
      var after, all := mid + more, ms + kept;
      assert before <= after;
      forall k | 0 <= k < |all|
        ensures Notes(after[|before| + k], all[k])
      {
        if k < |ms| {
          assert after[|before| + k] == mid[|before| + k] && all[k] == ms[k];
        } else {
          assert after[|before| + k] == more[0] && all[k] == kept[0];
        }
      }
    }

    /** What one event adds to the log. */
    lemma Addition(m: Moment, e: Event, v: Moment) returns (more: seq<LogEntry>)
      requires battle != null && codec.Sound() && Leads(m, e, v)
      ensures var t := TableOf(m);
              var kept := AcceptedMoves(t.catalog, t.game, t.Intents(t.game, t.started, e));
              && v.log == m.log + more && |more| == |kept| <= 1
              && (kept != [] ==> Notes(more[0], kept[0]))
    {
      hide Step, Notes;
      var t := TableOf(m);
      var asked := t.Intents(t.game, t.started, e);
      var kept := AcceptedMoves(t.catalog, t.game, asked);
      if asked != [] {
        assert asked == [asked[0]];
        OneMove(t.catalog, t.game, asked[0]);
        EntryIsMove(m, e, v.since, m.seqNo + 1, v.game.value);
      }
      more := if kept == [] then [] else [EntryOf(m.seqNo + 1, kept[0], e, v.since, v.game.value)];
      hide EntryOf, Table.Intents;
      assert m.log + [] == m.log;
    }

    lemma LogGoesOn(before: seq<LogEntry>, m: Moment, ms: seq<Move>, e: Event, v: Moment)
      requires battle != null && codec.Sound() && Records(before, m.log, ms) && Leads(m, e, v)
      ensures var t := TableOf(m);
              Records(before, v.log, ms + AcceptedMoves(t.catalog, t.game, t.Intents(t.game, t.started, e)))
    {
      var t := TableOf(m);
      var kept := AcceptedMoves(t.catalog, t.game, t.Intents(t.game, t.started, e));
      var more := Addition(m, e, v);
      hide Leads, Records, Table.Intents, Step;
      RecordsMore(before, m.log, ms, more, kept);
    }

    /** One more event. */
    lemma LivesOn(w: Moment, es: seq<Event>, m: Moment, e: Event, v: Moment)
      requires battle != null && codec.Sound() && LivedThrough(w, es, m) && Leads(m, e, v)
      requires m.started <==> TableOf(w).Started(es)
      ensures LivedThrough(w, es + [e], v)
    {
      var t := TableOf(w);
      var ms := t.Intents(m.game.value, m.started, e);
      assert ms == TableOf(m).Intents(m.game.value, m.started, e);
      LogGoesOn(w.log, m, AcceptedMoves(t.catalog, t.game, t.Asked(es)), e, v);
      OnlineMore(t, es, e);
      AskedMore(t, es, e);
      RunMore(t.catalog, t.game, t.Asked(es), ms);
      hide Step, Records, Table.Intents;
    }

    lemma StartsOn(w: Moment, es: seq<Event>, m: Moment, e: Event, v: Moment)
      requires battle != null && player0 != player1 && LivedThrough(w, es, m) && Leads(m, e, v)
      requires m.online <= {player0, player1} && (m.started <==> TableOf(w).Started(es))
      ensures v.started ==> TableOf(w).Started(es + [e])
      ensures (v.online == {player0, player1} ==> v.started) ==> (v.started <==> TableOf(w).Started(es + [e]))
    {
      StartedMore(TableOf(w), es, e);
      OnlineMore(TableOf(w), es, e);
      BothOnline(v.online);
      hide AcceptedMoves, Table.Started, Table.Intents, Table.Asked, Records;
    }

    /** A room that has lived through some events, after one more. */
    lemma GoesOn(w: Moment, es: seq<Event>, m: Moment, e: Event, told: Mail, flow: Flow)
      requires Wired() && LivedThrough(w, es, m) && Abreast(m) && Handled(m, e, told, flow)
      requires battle != null ==> (m.started <==> TableOf(w).Started(es))
      ensures LivedThrough(w, es + [e], Present())
      ensures battle != null ==>
                && (started ==> TableOf(w).Started(es + [e]))
                && (Abreast(Present()) ==> (started <==> TableOf(w).Started(es + [e])))
    {
      hide Step, EventMail, OnlineSet, State.Snapshot, Sends, Notified, Table.Started, Informed, StatusKnown, Quiet;
      if battle != null {
        LivesOn(w, es, m, e, Present());
        StartsOn(w, es, m, e, Present());
      } else {
        assert LivedThrough(w, es + [e], Present());
      }
      hide LivedThrough, Leads;
    }

    /**
     The life of a room over any sequence of events: `handled` of them have been
     dealt with, the last one having closed the room if it has closed. The battle is
     where the moves asked for lead and the log holds the legal ones; the battle has
     started if both players have been online together; the room crashes exactly when
     a call has panicked; and it has closed with exactly one report if it was started
     and none otherwise.
     */
    method Run(events: seq<Event>) returns (ghost reason: Reason, ghost handled: nat)
      requires Waiting()
      modifies this, BattleRepr()
      ensures if closed then Closed(reason) else Waiting()
      ensures if closed then 0 < handled <= |events| else handled == |events|
      ensures closed ==> match events[handled - 1]
                         case GraceExpired => reason == Abandoned && leaveSeen && OnlineSet(online) == {}
                         case Cancelled => reason == Aborted
                         case _ => reason == Crashed || (reason == Finished && battle != null && battle.over)
      ensures Cancelled !in events[..handled - (if closed then 1 else 0)]
      ensures LivedThrough(old(Present()), events[..handled], Present())
      ensures battle != null ==>
                var both := TableOf(old(Present())).Started(events[..handled]);
                (started ==> both) && (both ==> started || (closed && reason == Crashed))
      ensures battle == null ==> log == [] && !started
      ensures closed && reason == Crashed <==> !Quiet(panics, 0, |sent|)
      ensures closed && reason == Finished ==> battle != null && TellsOver(sent, battle.winner)
    {
      hide Step, Waiting, Closed, Abreast, Leads, Handled, LivedThrough, State.Snapshot, OnlineSet, TellsOver;
      ghost var w := Present();
      reason, handled := Finished, 0;
      WhileWaiting();
      NothingLived(w);
      assert events[..0] == [];
      for i := 0 to |events|
        invariant Waiting() && handled == i
        invariant Cancelled !in events[..i]
        invariant LivedThrough(w, events[..i], Present())
        invariant battle != null ==> (started <==> TableOf(w).Started(events[..i]))
      {
        ghost var m := Present();
        WhileWaiting();
        ghost var told, flow;
        reason, told, flow := React(events[i]);
        handled := i + 1;
        assert events[..i + 1] == events[..i] + [events[i]];
        if closed {
          OnceClosed(reason);
        } else {
          WhileWaiting();
        }
        GoesOn(w, events[..i], m, events[i], told, flow);
        if closed {
          return;
        }
      }
      assert events[..|events|] == events;
      WhileWaiting();
    }

    /** Every entry of the log names the player whose turn it was, in the position it was made in. */
    lemma LogNamesActive(k: nat)
      requires battle != null && Wired() && History() && k < |log|
      ensures live[k] == BattleRuns.Run(battle.catalog, setup.Start(), Moves(codec, log)[..k])
      ensures !live[k].over && log[k].player == live[k].At(live[k].turn).id
    {
      hide Step, Opening, State.Snapshot;
      FaithfulRun(codec, battle.catalog, setup.Start(), log, live, |log|);
      assert Try(battle.catalog, live[k], EntryMove(codec, log[k])) == Accepted(live[k + 1]);
      OnlyTheActivePlayer(battle.catalog, live[k], EntryMove(codec, log[k]));
    }

    /**
     Secrecy: two rooms whose published positions differ at most in what player `i`
     must not know have sent that player the same views, number by number.
     */
    lemma SecretsKept(other: Room, i: Side, j: nat, k: nat)
      requires MailTruthful() && other.MailTruthful() && player0 != player1 && other.player0 != other.player1
      requires |published| == |other.published| && forall n :: 0 <= n < |published| ==> Alike(published[n], other.published[n], i)
      requires j < |sent| && k < |other.sent| && sent[j].0 == PlayerAt(i) && other.sent[k].0 == other.PlayerAt(i)
      requires sent[j].1.GameState? && other.sent[k].1.GameState? && sent[j].1.view.seqNo == other.sent[k].1.view.seqNo
      ensures sent[j].1 == other.sent[k].1
    {
      assert Truthful(sent[j]) && other.Truthful(other.sent[k]);
      var n := sent[j].1.view.seqNo;
      ViewHidesIff(published[n - 1], other.published[n - 1], i);
      hide ViewFor, Alike;
    }

    /** The number on a game_state message determines what the message shows. */
    lemma NumberDeterminesView(j: nat, k: nat)
      requires battle != null && Wired() && MailTruthful()
      requires j < |sent| && k < |sent| && sent[j].1.GameState? && sent[k].1.GameState?
      requires sent[j].0 == sent[k].0 && sent[j].1.view.seqNo == sent[k].1.view.seqNo
      ensures sent[j].1 == sent[k].1
    {
      assert Truthful(sent[j]) && Truthful(sent[k]);
    }

    /** A room that has not logged anything stands in the opening position. */
    lemma NothingLoggedYet()
      requires Wired() && History() && battle != null && log == []
      ensures Present().game == Some(setup.Start())
    {
      hide Opening, State.Snapshot;
    }

    /** The positions a room has lived through, from its opening, are those of the moves asked for. */
    lemma LifeIsRun(w: Moment, es: seq<Event>)
      requires battle != null && Wired() && History() && w.log == [] && w.game == Some(setup.Start())
      requires LivedThrough(w, es, Present())
      ensures live == LiveStates(battle.catalog, setup.Start(), TableOf(w).Asked(es))
      ensures Moves(codec, log) == AcceptedMoves(battle.catalog, setup.Start(), TableOf(w).Asked(es))
    {
      hide Step, Opening, State.Snapshot, Faithful, Table.Asked, EntryAction;
      var asked := TableOf(w).Asked(es);
      assert Decodes(codec, log) by { HistoryDecodes(); }
      SameMoves([], AcceptedMoves(battle.catalog, setup.Start(), asked));
      FaithfulReplays(codec, battle.catalog, setup.Start(), log, live);
      ReplayReproduces(battle.catalog, setup.Start(), asked);
    }

    lemma HistoryDecodes()
      requires Wired() && History() && battle != null
      ensures Decodes(codec, log)
    {
    }

    lemma SameMoves(before: seq<LogEntry>, ms: seq<Move>)
      requires before == [] && Records(before, log, ms) && Decodes(codec, log)
      ensures Moves(codec, log) == ms
    {
      forall k | 0 <= k < |ms|
        ensures Moves(codec, log)[k] == ms[k]
      {
        assert Notes(log[|before| + k], ms[k]);
      }
    }

    /** The report of a closed room can be replayed, and its positions are the ones the room lived through. */
    lemma ReportReplays(reason: Reason)
      requires Closed(reason) && reports != []
      requires reason == Finished ==> battle.over
      ensures battle != null && started && hasOnFinish && reports == [ReportFor(reason)]
      ensures Consistent(setup.rng, codec, Some(battle.catalog), reports[0])
      ensures |live| == |log| + 1 && reports[0].actions == log
      ensures forall k :: 0 <= k < |live| ==>
                  live[k] == PositionAfter(setup.rng, codec, battle.catalog, reports[0], k)
    {
      hide Step, Consistent, PositionAfter, Sequenced, MailTruthful, Opening;
      var r := reports[0];
      assert InitA(r) == setup.a && InitB(r) == setup.b;
      FaithfulIsConsistent(setup.rng, codec, battle.catalog, r, live);
    }
  }
}
