/**
 The minions on the boards, worked out from the intents alone: who stands, in
 which order, with how much health, and who may attack (internal/battle/apply.go,
 state.go).
 */
module BattleMinions {
  import opened Deck
  import opened Battle
  import opened BattleRuns
  import opened BattleLedgers
  import opened BattleInstances

  // ---------------------------------------------------------------- boards by name

  /** The minion of that name on a board. */
  function On(b: seq<Minion>, id: string): Option<Minion> {
    if Find(b, id) < 0 then None else Some(b[Find(b, id)])
  }

  /** Names carry the number of the summons. */
  function Number(id: string): int {
    if id == "" then 0 else DecimalValue(id[1..])
  }

  lemma NumberOf(n: nat)
    ensures Number(InstName(n)) == n
  {
    DecimalRoundTrip(n);
    assert InstName(n)[1..] == Decimal(n);
  }

  /** A board in the order its minions were summoned, none of them later than number `n`. */
  ghost predicate Ordered(b: seq<Minion>, n: nat) {
    && (forall k :: 0 <= k < |b| ==> Issued(b[k].instId, n))
    && (forall j, k :: 0 <= j < k < |b| ==> Number(b[j].instId) < Number(b[k].instId))
  }

  ghost predicate Distinct(b: seq<Minion>) {
    forall j, k :: 0 <= j < k < |b| ==> b[j].instId != b[k].instId
  }

  lemma OnAt(b: seq<Minion>, k: nat)
    requires Distinct(b) && k < |b|
    ensures Find(b, b[k].instId) == k && On(b, b[k].instId) == Some(b[k])
  {
  }

  lemma FindIs(b: seq<Minion>, id: string, k: int)
    requires -1 <= k < |b| && (k >= 0 ==> b[k].instId == id)
    requires forall j :: 0 <= j < (if k < 0 then |b| else k) ==> b[j].instId != id
    ensures Find(b, id) == k
  {
  }

  lemma OnAppended(b: seq<Minion>, m: Minion, id: string)
    ensures On(b + [m], id) == if On(b, id).Some? then On(b, id) else if m.instId == id then Some(m) else None
  {
    var c, k := b + [m], Find(b, id);
    assert forall j :: 0 <= j < |b| ==> c[j] == b[j];
    assert c[|b|] == m;
    FindIs(c, id, if k >= 0 then k else if m.instId == id then |b| else -1);
  }

  lemma OnWoken(b: seq<Minion>, id: string)
    ensures On(Wake(b), id) == if On(b, id).None? then None else Some(On(b, id).value.(canAttack := true))
  {
    FindIs(Wake(b), id, Find(b, id));
  }

  lemma OnUpdated(b: seq<Minion>, k: nat, m: Minion, id: string)
    requires Distinct(b) && k < |b| && m.instId == b[k].instId
    ensures On(b[k := m], id) == if id == m.instId then Some(m) else On(b, id)
    ensures Distinct(b[k := m])
  {
    var c := b[k := m];
    assert forall j :: 0 <= j < |b| ==> c[j].instId == b[j].instId;
    assert Find(c, id) == Find(b, id);
  }

  lemma {:induction false} OnAlive(b: seq<Minion>, id: string)
    requires Distinct(b)
    ensures On(Alive(b), id) == if On(b, id).Some? && On(b, id).value.hp > 0 then On(b, id) else None
  {
    if b != [] {
      var c, m := b[..|b| - 1], b[|b| - 1];
      OnAlive(c, id);
      OnAppended(c, m, id);
      OnAppended(Alive(c), m, id);
      assert b == c + [m];
      assert Alive(c) + [] == Alive(c);
      hide Find;
    }
  }

  lemma {:induction false} AliveOrdered(b: seq<Minion>, n: nat)
    requires Ordered(b, n)
    ensures Ordered(Alive(b), n)
  {
    if b != [] {
      var c, m := b[..|b| - 1], b[|b| - 1];
      AliveOrdered(c, n);
      AliveStand(c);
      assert forall k :: 0 <= k < |c| ==> c[k] == b[k];
      hide Issued, Number;
      forall j | 0 <= j < |Alive(c)|
        ensures Number(Alive(c)[j].instId) < Number(m.instId)
      {
        var k :| 0 <= k < |c| && c[k] == Alive(c)[j];
      }
    }
  }

  lemma OrderedDistinct(b: seq<Minion>, n: nat)
    requires Ordered(b, n)
    ensures Distinct(b)
  {
  }

  // ---------------------------------------------------------------- one attack

  /** All minions on the board are alive. */
  ghost predicate Living(b: seq<Minion>) {
    forall k :: 0 <= k < |b| ==> b[k].hp > 0
  }

  /** A board after one of its minions has changed and, perhaps, died. */
  lemma OneChanged(b: seq<Minion>, k: nat, m: Minion, id: string)
    requires Distinct(b) && Living(b) && k < |b| && m.instId == b[k].instId
    ensures On(Alive(b[k := m]), id)
         == if id != m.instId then On(b, id) else if m.hp > 0 then Some(m) else None
  {
    OnUpdated(b, k, m, id);
    OnAlive(b[k := m], id);
    assert On(b, id).Some? ==> On(b, id).value in b;
    hide Find, Alive, Distinct;
  }

  /** A minion after a fight, or nothing when it has died. */
  function Survivor(m: Minion): Option<Minion> {
    if m.hp <= 0 then None else Some(m)
  }

  /** Where an attack takes place, and what it makes of the two boards. */
  lemma AttackBoards(g: Game, inst: string, target: string) returns (k: nat, t: nat)
    requires target != FACE && Attack(g, g.turn, inst, target).Accepted?
    ensures var i, h := g.turn, Attack(g, g.turn, inst, target).game;
            var b, c := g.At(i).board, g.At(1 - i).board;
            && k < |b| && On(b, inst) == Some(b[k]) && t < |c| && On(c, target) == Some(c[t]) && On(b, target) == None
            && b[k].canAttack && b[k].atk > 0 && b[k].instId == inst && c[t].instId == target
            && h.At(i).board == Alive(b[k := Struck(b[k], c[t].atk).(canAttack := false)])
            && h.At(1 - i).board == Alive(c[t := Struck(c[t], b[k].atk)])
  {
    hide Alive;
    k, t := Find(g.At(g.turn).board, inst), Find(g.At(1 - g.turn).board, target);
  }

  /** The board `b` has become `b'`: only the minion `name` has changed, into `m`, or has gone. */
  ghost predicate Became(b: seq<Minion>, b': seq<Minion>, name: string, m: Minion) {
    forall id :: On(b', id) == if id == name then Survivor(m) else On(b, id)
  }

  lemma OneBecame(b: seq<Minion>, k: nat, m: Minion, n: nat)
    requires Ordered(b, n) && Living(b) && k < |b| && m.instId == b[k].instId
    ensures Became(b, Alive(b[k := m]), m.instId, m)
  {
    OrderedDistinct(b, n);
    var c := Alive(b[k := m]);
    forall id
      ensures On(c, id) == if id == m.instId then Survivor(m) else On(b, id)
    {
      OneChanged(b, k, m, id);
      hide Ordered, Living, Distinct, On;
    }
    hide On;
    assert forall id :: On(c, id) == if id == m.instId then Survivor(m) else On(b, id);
    assert Became(b, c, m.instId, m);
  }

  /** Boards as they are between intents. */
  ghost predicate BoardsTidy(g: Game) {
    && Ordered(g.p0.board, g.nextInst) && Ordered(g.p1.board, g.nextInst)
    && Living(g.p0.board) && Living(g.p1.board)
  }

  /**
   The attacker, a minion of board `b`, and the target, one of board `c`, each lose
   exactly the other's attack, and each leaves its board exactly when that is all
   its health. Nothing else on the boards changes.
   */
  ghost predicate Fought(b: seq<Minion>, c: seq<Minion>, b': seq<Minion>, c': seq<Minion>, inst: string, target: string) {
    && On(b, inst).Some? && On(c, target).Some?
    && var x, y := On(b, inst).value, On(c, target).value;
       && x.canAttack && x.atk > 0
       && Became(b, b', inst, x.(hp := x.hp - y.atk, canAttack := false))
       && Became(c, c', target, y.(hp := y.hp - x.atk))
  }

  lemma SlotsFought(b: seq<Minion>, c: seq<Minion>, k: nat, t: nat, n: nat)
    requires Ordered(b, n) && Living(b) && Ordered(c, n) && Living(c)
    requires k < |b| && t < |c| && b[k].canAttack && b[k].atk > 0
    requires On(b, b[k].instId) == Some(b[k]) && On(c, c[t].instId) == Some(c[t])
    ensures Fought(b, c, Alive(b[k := Struck(b[k], c[t].atk).(canAttack := false)]), Alive(c[t := Struck(c[t], b[k].atk)]),
                   b[k].instId, c[t].instId)
  {
    hide Ordered, Living, Became, On, Alive;
    var x, y := Struck(b[k], c[t].atk).(canAttack := false), Struck(c[t], b[k].atk);
    OneBecame(b, k, x, n);
    OneBecame(c, t, y, n);
  }

  /** An attack on a minion is a fight of the two minions it names. */
  lemma AttackByName(g: Game, inst: string, target: string)
    requires BoardsTidy(g) && target != FACE && Attack(g, g.turn, inst, target).Accepted?
    ensures var h := Attack(g, g.turn, inst, target).game;
            && Fought(g.At(g.turn).board, g.At(1 - g.turn).board, h.At(g.turn).board, h.At(1 - g.turn).board, inst, target)
            && On(g.At(g.turn).board, target) == None
  {
    var k, t := AttackBoards(g, inst, target);
    SlotsFought(g.At(g.turn).board, g.At(1 - g.turn).board, k, t, g.nextInst);
    hide Attack, Fought, Alive, Ordered, Living, On;
  }

  lemma FaceBoards(g: Game, inst: string) returns (k: nat)
    requires Attack(g, g.turn, inst, FACE).Accepted?
    ensures var i, h := g.turn, Attack(g, g.turn, inst, FACE).game;
            var b := g.At(i).board;
            && k < |b| && On(b, inst) == Some(b[k]) && b[k].canAttack && b[k].atk > 0 && b[k].instId == inst
            && h.At(i).board == Alive(b[k := b[k].(canAttack := false)])
            && h.At(1 - i).board == Alive(g.At(1 - i).board)
  {
    hide Alive;
    k := Find(g.At(g.turn).board, inst);
  }

  lemma AllAlive(b: seq<Minion>, n: nat, id: string)
    requires Ordered(b, n) && Living(b)
    ensures On(Alive(b), id) == On(b, id)
  {
    OrderedDistinct(b, n);
    OnAlive(b, id);
    assert On(b, id).Some? ==> On(b, id).value in b;
    hide Find, Alive;
  }

  /** The attacker `inst` on board `b` is spent, and nothing else on the boards changes. */
  ghost predicate Charged(b: seq<Minion>, c: seq<Minion>, b': seq<Minion>, c': seq<Minion>, inst: string) {
    && On(b, inst).Some?
    && On(b, inst).value.canAttack && On(b, inst).value.atk > 0
    && Became(b, b', inst, On(b, inst).value.(canAttack := false))
    && forall id :: On(c', id) == On(c, id)
  }

  lemma SlotCharged(b: seq<Minion>, c: seq<Minion>, k: nat, n: nat)
    requires Ordered(b, n) && Living(b) && Ordered(c, n) && Living(c)
    requires k < |b| && b[k].canAttack && b[k].atk > 0 && On(b, b[k].instId) == Some(b[k])
    ensures Charged(b, c, Alive(b[k := b[k].(canAttack := false)]), Alive(c), b[k].instId)
  {
    hide Ordered, Living, Became, Alive;
    OneBecame(b, k, b[k].(canAttack := false), n);
    forall id
      ensures On(Alive(c), id) == On(c, id)
    {
      AllAlive(c, n, id);
    }
  }

  /** An attack on the face spends the minion it names. */
  lemma FaceByName(g: Game, inst: string)
    requires BoardsTidy(g) && Attack(g, g.turn, inst, FACE).Accepted?
    ensures var h := Attack(g, g.turn, inst, FACE).game;
            Charged(g.At(g.turn).board, g.At(1 - g.turn).board, h.At(g.turn).board, h.At(1 - g.turn).board, inst)
  {
    var k := FaceBoards(g, inst);
    SlotCharged(g.At(g.turn).board, g.At(1 - g.turn).board, k, g.nextInst);
    hide Attack, Charged, Alive, Ordered, Living, On;
  }

  // ---------------------------------------------------------------- order

  lemma IssuedMore(b: seq<Minion>, n: nat, k: nat)
    requires Ordered(b, n) && n <= k
    ensures Ordered(b, k)
  {
  }

  lemma OrderedGrows(b: seq<Minion>, m: Minion, n: nat)
    requires Ordered(b, n) && m.instId == InstName(n + 1)
    ensures Ordered(b + [m], n + 1)
  {
    NumberOf(n + 1);
    forall k | 0 <= k < |b|
      ensures Number(b[k].instId) < n + 1
    {
      var q: nat :| 1 <= q <= n && b[k].instId == InstName(q);
      NumberOf(q);
    }
    hide Number, InstName;
    assert Issued(m.instId, n + 1);
  }

  lemma SameNamesOrdered(b: seq<Minion>, c: seq<Minion>, n: nat)
    requires Ordered(b, n) && |c| == |b| && forall k :: 0 <= k < |b| ==> c[k].instId == b[k].instId
    ensures Ordered(c, n)
  {
    hide Issued, Number;
  }

  lemma BlowOrdered(g: Game, k: int, t: int)
    requires 0 <= k < |g.At(g.turn).board| && -1 <= t < |g.At(1 - g.turn).board|
    requires Ordered(g.p0.board, g.nextInst) && Ordered(g.p1.board, g.nextInst)
    ensures var h := Blow(g, g.turn, k, t); Ordered(h.p0.board, h.nextInst) && Ordered(h.p1.board, h.nextInst)
  {
    var i, x := g.turn, Exchange(g, g.turn, k, t);
    BlowShape(g, i, k, t);
    ExchangeShape(g, i, k, t);
    hide Exchange, Blow, Ordered;
    SameNamesOrdered(g.At(i).board, x.At(i).board, g.nextInst);
    SameNamesOrdered(g.At(1 - i).board, x.At(1 - i).board, g.nextInst);
    AliveOrdered(x.At(i).board, g.nextInst);
    AliveOrdered(x.At(1 - i).board, g.nextInst);
  }

  lemma StepOrdered(cat: Catalog, g: Game, m: Move)
    requires Ordered(g.p0.board, g.nextInst) && Ordered(g.p1.board, g.nextInst)
    ensures var h := After(cat, g, m); Ordered(h.p0.board, h.nextInst) && Ordered(h.p1.board, h.nextInst)
  {
    hide Ordered;
    if Try(cat, g, m).Accepted? {
      match m.action.kind
      case PlayCardKind =>
        PlayCardShape(cat, g, m.action.cardId);
        hide PlayCard;
        OrderedGrows(g.At(g.turn).board, NewMinion(cat.byId[m.action.cardId], g.nextInst + 1), g.nextInst);
        IssuedMore(g.At(1 - g.turn).board, g.nextInst, g.nextInst + 1);
      case AttackKind =>
        var k, t := AttackIsBlow(g, m.action.instId, m.action.target);
        hide Attack, Blow;
        BlowOrdered(g, k, t);
      case EndTurnKind =>
        EndTurnShape(g);
        hide EndTurn;
        SameNamesOrdered(g.At(1 - g.turn).board, Wake(g.At(1 - g.turn).board), g.nextInst);
    }
  }

  /** In every battle a board lists its minions in the order of their summons, all alive. */
  lemma RunTidy(cat: Catalog, s: Setup, ms: seq<Move>)
    requires cat.Sound() && s.Ready()
    ensures BoardsTidy(Run(cat, s.Start(), ms))
  {
    hide Step, Opening, Ordered, Issued;
    InvRun(cat, s, ms);
    RunOrdered(cat, s, ms);
  }

  lemma {:induction false} RunOrdered(cat: Catalog, s: Setup, ms: seq<Move>)
    requires s.Ready()
    ensures var g := Run(cat, s.Start(), ms); Ordered(g.p0.board, g.nextInst) && Ordered(g.p1.board, g.nextInst)
  {
    hide Step;
    if ms != [] {
      RunOrdered(cat, s, ms[..|ms| - 1]);
      hide Ordered;
      StepOrdered(cat, Run(cat, s.Start(), ms[..|ms| - 1]), ms[|ms| - 1]);
    }
  }

  // ---------------------------------------------------------------- the ledger

  function AtkOf(b: seq<Minion>, id: string): int {
    if On(b, id).Some? then On(b, id).value.atk else 0
  }

  /** What an intent costs the minion `id` in health: the attack of the minion it hits, or is hit by. */
  function Hurt(cat: Catalog, g: Game, m: Move, id: string): int {
    if !Try(cat, g, m).Accepted? || m.action.kind != AttackKind || m.action.target == FACE then 0
    else if id == m.action.instId then AtkOf(g.At(1 - g.turn).board, m.action.target)
    else if id == m.action.target then AtkOf(g.At(g.turn).board, m.action.instId)
    else 0
  }

  function Damage(cat: Catalog, g: Game, ms: seq<Move>, id: string): int {
    if ms == [] then 0
    else
      var n := |ms| - 1;
      Damage(cat, g, ms[..n], id) + Hurt(cat, Run(cat, g, ms[..n]), ms[n], id)
  }

  /** The intent summons the minion `id` or attacks with it. */
  predicate Acts(cat: Catalog, g: Game, m: Move, id: string) {
    && Try(cat, g, m).Accepted?
    && if m.action.kind == AttackKind then m.action.instId == id
       else m.action.kind == PlayCardKind && id == InstName(g.nextInst + 1)
  }

  /** The latest half-round in which the minion was summoned or attacked. */
  function LastAct(cat: Catalog, g: Game, ms: seq<Move>, id: string): int {
    if ms == [] then -1
    else
      var n := |ms| - 1;
      var h := Run(cat, g, ms[..n]);
      if Acts(cat, h, ms[n], id) then h.round else LastAct(cat, g, ms[..n], id)
  }

  /** A minion made from card `c` that has taken `damage`: gone, or on the board with the rest of its health. */
  function Record(c: Card, id: string, damage: int, ready: bool): Option<Minion> {
    if damage >= c.hp then None else Some(Minion(id, c.id, c.atk, c.hp - damage, c.hp, ready))
  }

  /** On side `i` the minion is as recorded, and it is not on the other side. */
  ghost predicate AsRecorded(g: Game, i: Side, c: Card, id: string, damage: int, ready: bool) {
    On(g.At(i).board, id) == Record(c, id, damage, ready) && On(g.At(1 - i).board, id) == None
  }

  lemma EndTurnRecorded(g: Game, i: Side, c: Card, id: string, d: int, ready: bool)
    requires AsRecorded(g, i, c, id, d, ready)
    ensures AsRecorded(EndTurn(g, g.turn), i, c, id, d, ready || i != g.turn)
  {
    EndTurnShape(g);
    hide EndTurn;
    OnWoken(g.At(1 - g.turn).board, id);
    hide Wake, On;
  }

  lemma PlayRecorded(cat: Catalog, g: Game, card: string, i: Side, c: Card, id: string, d: int, ready: bool)
    requires AsRecorded(g, i, c, id, d, ready) && Issued(id, g.nextInst) && PlayCard(cat, g, g.turn, card).Accepted?
    ensures AsRecorded(PlayCard(cat, g, g.turn, card).game, i, c, id, d, ready) && id != InstName(g.nextInst + 1)
  {
    PlayCardShape(cat, g, card);
    hide PlayCard;
    var n: nat :| 1 <= n <= g.nextInst && id == InstName(n);
    InstNameInjective(n, g.nextInst + 1);
    OnAppended(g.At(g.turn).board, NewMinion(cat.byId[card], g.nextInst + 1), id);
    hide On, InstName;
  }

  lemma FaceRecorded(g: Game, inst: string, i: Side, c: Card, id: string, d: int, ready: bool)
    requires BoardsTidy(g) && AsRecorded(g, i, c, id, d, ready) && Attack(g, g.turn, inst, FACE).Accepted?
    ensures AsRecorded(Attack(g, g.turn, inst, FACE).game, i, c, id, d, ready && id != inst)
  {
    FaceByName(g, inst);
    var j: Side, h := 1 - g.turn, Attack(g, g.turn, inst, FACE).game;
    hide Attack, BoardsTidy, On, Charged;
    ChargeRecorded(g.At(g.turn).board, g.At(j).board, h.At(g.turn).board, h.At(j).board, inst, c, id, d, ready);
  }

  /** Whichever of the two boards the minion is on. */
  lemma ChargeRecorded(b: seq<Minion>, c: seq<Minion>, b': seq<Minion>, c': seq<Minion>, inst: string,
                       card: Card, id: string, d: int, ready: bool)
    requires Charged(b, c, b', c', inst)
    ensures On(b, id) == Record(card, id, d, ready) && On(c, id) == None ==>
              On(b', id) == Record(card, id, d, ready && id != inst) && On(c', id) == None
    ensures On(c, id) == Record(card, id, d, ready) && On(b, id) == None ==>
              On(c', id) == Record(card, id, d, ready && id != inst) && On(b', id) == None
  {
    hide On;
  }

  lemma AttackerRecorded(b: seq<Minion>, c: seq<Minion>, b': seq<Minion>, c': seq<Minion>, inst: string, target: string,
                         card: Card, id: string, d: int, ready: bool)
    requires Fought(b, c, b', c', inst, target) && On(b, target) == None
    requires On(b, id) == Record(card, id, d, ready) && On(c, id) == None
    ensures On(b', id) == Record(card, id, if id == inst then d + AtkOf(c, target) else d, ready && id != inst)
    ensures On(c', id) == None && id != target
  {
    hide On;
  }

  lemma TargetRecorded(b: seq<Minion>, c: seq<Minion>, b': seq<Minion>, c': seq<Minion>, inst: string, target: string,
                       card: Card, id: string, d: int, ready: bool)
    requires Fought(b, c, b', c', inst, target)
    requires On(c, id) == Record(card, id, d, ready) && On(b, id) == None
    ensures On(c', id) == Record(card, id, if id == target then d + AtkOf(b, inst) else d, ready)
    ensures On(b', id) == None && id != inst
  {
    hide On;
  }

  lemma OwnFightRecorded(g: Game, inst: string, target: string, c: Card, id: string, d: int, ready: bool)
    requires BoardsTidy(g) && AsRecorded(g, g.turn, c, id, d, ready)
    requires target != FACE && Attack(g, g.turn, inst, target).Accepted?
    ensures AsRecorded(Attack(g, g.turn, inst, target).game, g.turn, c, id,
                       if id == inst then d + AtkOf(g.At(1 - g.turn).board, target) else d, ready && id != inst)
    ensures id != target
  {
    hide Attack, BoardsTidy, On, Fought, Record, AtkOf;
    AttackByName(g, inst, target);
    var h, j: Side := Attack(g, g.turn, inst, target).game, 1 - g.turn;
    AttackerRecorded(g.At(g.turn).board, g.At(j).board, h.At(g.turn).board, h.At(j).board, inst, target, c, id, d, ready);
  }

  lemma OtherFightRecorded(g: Game, inst: string, target: string, c: Card, id: string, d: int, ready: bool)
    requires BoardsTidy(g) && AsRecorded(g, 1 - g.turn, c, id, d, ready)
    requires target != FACE && Attack(g, g.turn, inst, target).Accepted?
    ensures AsRecorded(Attack(g, g.turn, inst, target).game, 1 - g.turn, c, id,
                       if id == target then d + AtkOf(g.At(g.turn).board, inst) else d, ready)
    ensures id != inst
  {
    hide Attack, BoardsTidy, On, Fought, Record, AtkOf;
    AttackByName(g, inst, target);
    var h, j: Side := Attack(g, g.turn, inst, target).game, 1 - g.turn;
    TargetRecorded(g.At(g.turn).board, g.At(j).board, h.At(g.turn).board, h.At(j).board, inst, target, c, id, d, ready);
  }

  lemma StepRecorded(cat: Catalog, g: Game, m: Move, i: Side, c: Card, id: string, d: int, ready: bool)
    requires BoardsTidy(g) && AsRecorded(g, i, c, id, d, ready) && Issued(id, g.nextInst) && Try(cat, g, m).Accepted?
    ensures AsRecorded(After(cat, g, m), i, c, id, d + Hurt(cat, g, m, id),
                       if m.action.kind == EndTurnKind then ready || i != g.turn
                       else ready && !Acts(cat, g, m, id))
    ensures Acts(cat, g, m, id) ==> m.action.kind == AttackKind
  {
    hide BoardsTidy, AsRecorded, InstName;
    match m.action.kind
    case PlayCardKind =>
      hide PlayCard, Attack, EndTurn;
      PlayRecorded(cat, g, m.action.cardId, i, c, id, d, ready);
    case AttackKind =>
      hide PlayCard, Attack, EndTurn;
      if m.action.target == FACE {
        FaceRecorded(g, m.action.instId, i, c, id, d, ready);
      } else if i == g.turn {
        OwnFightRecorded(g, m.action.instId, m.action.target, c, id, d, ready);
      } else {
        OtherFightRecorded(g, m.action.instId, m.action.target, c, id, d, ready);
      }
    case EndTurnKind =>
      hide PlayCard, Attack, EndTurn;
      EndTurnRecorded(g, i, c, id, d, ready);
  }

  // ---------------------------------------------------------------- whole battles

  /** Only a minion that stands is hurt. */
  lemma HurtStands(cat: Catalog, g: Game, m: Move, id: string)
    requires On(g.p0.board, id) == None && On(g.p1.board, id) == None
    ensures Hurt(cat, g, m, id) == 0
  {
    hide PlayCard, EndTurn, Blow;
  }

  lemma NotOnBoard(b: seq<Minion>, n: nat, k: nat)
    requires Ordered(b, n) && k > n
    ensures On(b, InstName(k)) == None
  {
    if On(b, InstName(k)).Some? {
      var q: nat :| 1 <= q <= n && b[Find(b, InstName(k))].instId == InstName(q);
      InstNameInjective(q, k);
    }
  }

  /** A name not yet issued is on no board and has taken no damage. */
  lemma {:induction false} NotYet(cat: Catalog, s: Setup, ms: seq<Move>, k: nat)
    requires s.Ready() && k > Run(cat, s.Start(), ms).nextInst
    ensures Damage(cat, s.Start(), ms, InstName(k)) == 0
    ensures var g := Run(cat, s.Start(), ms); On(g.p0.board, InstName(k)) == None && On(g.p1.board, InstName(k)) == None
  {
    hide Step, Hurt, Opening;
    RunOrdered(cat, s, ms);
    NotOnBoard(Run(cat, s.Start(), ms).p0.board, Run(cat, s.Start(), ms).nextInst, k);
    NotOnBoard(Run(cat, s.Start(), ms).p1.board, Run(cat, s.Start(), ms).nextInst, k);
    hide On, InstName, Ordered;
    if ms != [] {
      var n := |ms| - 1;
      StepMonotone(cat, Run(cat, s.Start(), ms[..n]), ms[n]);
      NotYet(cat, s, ms[..n], k);
      HurtStands(cat, Run(cat, s.Start(), ms[..n]), ms[n], InstName(k));
    }
  }

  lemma {:induction false} LastActPast(cat: Catalog, s: Setup, ms: seq<Move>, id: string)
    requires s.Ready()
    ensures LastAct(cat, s.Start(), ms, id) <= Run(cat, s.Start(), ms).round && Run(cat, s.Start(), ms).round >= 1
  {
    hide Step, Acts;
    if ms != [] {
      var n := |ms| - 1;
      LastActPast(cat, s, ms[..n], id);
      StepMonotone(cat, Run(cat, s.Start(), ms[..n]), ms[n]);
    }
  }

  lemma JustSummoned(cat: Catalog, g: Game, m: Move)
    requires Try(cat, g, m).Accepted? && m.action.kind == PlayCardKind && cat.Sound()
    requires On(g.p0.board, InstName(g.nextInst + 1)) == None && On(g.p1.board, InstName(g.nextInst + 1)) == None
    ensures cat.Has(m.action.cardId)
    ensures AsRecorded(After(cat, g, m), g.turn, cat.byId[m.action.cardId], InstName(g.nextInst + 1), 0, false)
    ensures After(cat, g, m).turn == g.turn && After(cat, g, m).round == g.round
    ensures Hurt(cat, g, m, InstName(g.nextInst + 1)) == 0
  {
    hide Attack, EndTurn, InstName, On;
    PlayCardShape(cat, g, m.action.cardId);
    assert ValidCard(cat.byId[m.action.cardId]);
    OnAppended(g.At(g.turn).board, NewMinion(cat.byId[m.action.cardId], g.nextInst + 1), InstName(g.nextInst + 1));
    hide PlayCard;
  }

  lemma LedgerStep(cat: Catalog, g: Game, m: Move, i: Side, c: Card, id: string, d: int, last: int)
    requires BoardsTidy(g) && AsRecorded(g, i, c, id, d, last < LatestTurn(g, i)) && Issued(id, g.nextInst)
    requires last <= g.round
    ensures var h := After(cat, g, m);
            AsRecorded(h, i, c, id, d + Hurt(cat, g, m, id),
                       (if Acts(cat, g, m, id) then g.round else last) < LatestTurn(h, i))
  {
    hide Step, BoardsTidy, AsRecorded, Issued, InstName, AtkOf;
    if Try(cat, g, m).Accepted? {
      StepRecorded(cat, g, m, i, c, id, d, last < LatestTurn(g, i));
      StepShape(cat, g, m);
    }
  }

  /**
   The minion summoned by intent `j`, at any later time: it is on the board of the
   player who summoned it exactly while the damage it has taken is less than its
   card's health, with the rest of that health and the card's attack; and it may
   attack exactly when it has done nothing since that player's latest turn began.
   */
  lemma {:induction false} MinionLedger(cat: Catalog, s: Setup, ms: seq<Move>, j: nat, id: string)
    requires cat.Sound() && s.Ready() && SummonsAt(cat, s.Start(), ms, j, id)
    ensures var g, i := Run(cat, s.Start(), ms), Live(cat, s.Start(), ms, j).turn;
            && cat.Has(ms[j].action.cardId)
            && AsRecorded(g, i, cat.byId[ms[j].action.cardId], id, Damage(cat, s.Start(), ms, id),
                          LastAct(cat, s.Start(), ms, id) < LatestTurn(g, i))
  {
    hide Step, Opening, On, AsRecorded, Hurt, InstName, Issued, BoardsTidy, Catalog.Sound;
    var n := |ms| - 1;
    var p := Run(cat, s.Start(), ms[..n]);
    if j == n {
      NotYet(cat, s, ms[..n], p.nextInst + 1);
      JustSummoned(cat, p, ms[n]);
    } else {
      assert ms[..n][..j] == ms[..j];
      MinionLedger(cat, s, ms[..n], j, id);
      ActedStaysTired(cat, s, ms[..n], j, id);
      LastActPast(cat, s, ms[..n], id);
      RunTidy(cat, s, ms[..n]);
      var i := Live(cat, s.Start(), ms, j).turn;
      LedgerStep(cat, p, ms[n], i, cat.byId[ms[j].action.cardId], id, Damage(cat, s.Start(), ms[..n], id),
                 LastAct(cat, s.Start(), ms[..n], id));
    }
  }

  lemma NothingIssued(s: Setup)
    requires s.Ready()
    ensures s.Start().nextInst == 0
  {
  }

  /** Every number issued belongs to a summons. */
  lemma {:induction false} IssuedWasSummoned(cat: Catalog, s: Setup, ms: seq<Move>, k: nat) returns (j: nat)
    requires s.Ready() && 1 <= k <= Run(cat, s.Start(), ms).nextInst
    ensures SummonsAt(cat, s.Start(), ms, j, InstName(k))
  {
    hide Step, Opening, InstName;
    NothingIssued(s);
    var n := |ms| - 1;
    var p := Run(cat, s.Start(), ms[..n]);
    if Try(cat, p, ms[n]).Accepted? {
      StepShape(cat, p, ms[n]);
    }
    if k <= p.nextInst {
      j := IssuedWasSummoned(cat, s, ms[..n], k);
      assert ms[..n][..j] == ms[..j];
    } else {
      j := n;
    }
  }

  /** Whoever stands on a board was summoned there, so `MinionLedger` speaks of every minion on the boards. */
  lemma StandingWasSummoned(cat: Catalog, s: Setup, ms: seq<Move>, i: Side, k: nat) returns (j: nat)
    requires cat.Sound() && s.Ready() && k < |Run(cat, s.Start(), ms).At(i).board|
    ensures SummonsAt(cat, s.Start(), ms, j, Run(cat, s.Start(), ms).At(i).board[k].instId)
    ensures Live(cat, s.Start(), ms, j).turn == i
  {
    var g := Run(cat, s.Start(), ms);
    var b := g.At(i).board;
    RunTidy(cat, s, ms);
    OrderedDistinct(b, g.nextInst);
    OnAt(b, k);
    var q: nat :| 1 <= q <= g.nextInst && b[k].instId == InstName(q);
    hide Step, Opening, InstName, On, Ordered, Distinct, Record, Hurt;
    j := IssuedWasSummoned(cat, s, ms, q);
    MinionLedger(cat, s, ms, j, b[k].instId);
  }
}
