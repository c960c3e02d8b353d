/**
 The matcher with everything happening at once (internal/match/match.go): any
 number of passes, joins and leaves, interleaved between their single Redis
 calls. No player is paired more often than they entered the queue.
 */
module MatchRace {
  import opened MatchQueue

  /** Where a pass stands; each phase but `Scanning` names the call it makes next. */
  datatype Phase =
    | Unborn
    | Scanning
    | Ranging(a: string, since: real, score: real)
    | TakingA(a: string, since: real, score: real, b: string)
    | ClearingA(a: string, since: real, score: real, b: string)
    | TakingB(a: string, since: real, score: real, b: string)
    | ClearingB(a: string, b: string)
    | PuttingBack(a: string, since: real, score: real)
    | PuttingBackTime(a: string, since: real)

  /** A running pass: when it began, whom it has yet to scan, whom it has paired. */
  datatype Pass = Pass(now: real, rest: seq<(string, real)>, paired: set<string>, phase: Phase)

  datatype Match = Match(pass: nat, pair: Pair)

  /**
   The shared sets, the running passes, the joins between their two calls, and
   the history: who was inserted and which pairs were made.
   */
  datatype World = World(
    rating: Scores, time: Scores, passes: seq<Pass>, joining: multiset<string>,
    inserted: multiset<string>, made: seq<Match>)

  const EMPTY := World(map[], map[], [], multiset{}, multiset{}, [])

  datatype Step =
    | Begin
    | Scan(i: nat, now: real, zs: seq<(string, real)>)
    | Score(i: nat)
    | Range(i: nat, ids: seq<string>)
    | Call(i: nat)
    | JoinRating(p: string, score: real)
    | JoinTime(p: string, at: real)
    | Leave(p: string)

  /** The players a range query returned, without their times. */
  function Ids(zs: seq<(string, real)>): seq<string> {
    seq(|zs|, k requires 0 <= k < |zs| => zs[k].0)
  }

  /** `zs` is what a range query by rank on the time set returns. */
  ghost predicate IsQueueHead(zs: seq<(string, real)>, time: Scores, limit: nat) {
    && IsLowest(Ids(zs), time, limit)
    && forall k :: 0 <= k < |zs| ==> zs[k].0 in time && zs[k].1 == time[zs[k].0]
  }

  ghost predicate Enabled(cfg: Config, w: World, s: Step) {
    match s
    case Begin => true
    case Scan(i, now, zs) =>
      && i < |w.passes| && w.passes[i].phase.Unborn?
      && IsQueueHead(zs, w.time, BatchLimit(cfg))
    case Score(i) =>
      i < |w.passes| && w.passes[i].phase.Scanning? && w.passes[i].rest != []
    case Range(i, ids) =>
      && i < |w.passes| && w.passes[i].phase.Ranging?
      && var p := w.passes[i].phase;
         var reach := Window(cfg, w.passes[i].now, p.since);
         IsLowest(ids, Between(w.rating, p.score - reach, p.score + reach), NEIGHBOURS)
    case Call(i) =>
      i < |w.passes| && !w.passes[i].phase.Unborn? && !w.passes[i].phase.Scanning? && !w.passes[i].phase.Ranging?
    case JoinRating(_, _) => true
    case JoinTime(p, _) => p in w.joining
    case Leave(_) => true
  }

  // What one call of a pass does to the rating set, the time set, the pairs and the pass itself.

  function RatingAfter(rating: Scores, phase: Phase): Scores {
    match phase
    case TakingA(a, _, _, _) => rating - {a}
    case TakingB(_, _, _, b) => rating - {b}
    case PuttingBack(a, _, score) => rating[a := score]
    case _ => rating
  }

  function TimeAfter(time: Scores, phase: Phase): Scores {
    match phase
    case ClearingA(a, _, _, _) => time - {a}
    case ClearingB(_, b) => time - {b}
    case PuttingBackTime(a, since) => time[a := since]
    case _ => time
  }

  function MadeBy(i: nat, phase: Phase): seq<Match> {
    match phase
    case ClearingB(a, b) => [Match(i, Pair(a, b))]
    case _ => []
  }

  function PhaseAfter(rating: Scores, phase: Phase): Phase {
    match phase
    case TakingA(a, since, score, b) => if a in rating then ClearingA(a, since, score, b) else Scanning
    case ClearingA(a, since, score, b) => TakingB(a, since, score, b)
    case TakingB(a, since, score, b) => if b in rating then ClearingB(a, b) else PuttingBack(a, since, score)
    case ClearingB(_, _) => Scanning
    case PuttingBack(a, since, _) => PuttingBackTime(a, since)
    case PuttingBackTime(_, _) => Scanning
    case _ => phase
  }

  function PairedAfter(paired: set<string>, phase: Phase): set<string> {
    match phase
    case ClearingB(a, b) => paired + {a, b}
    case _ => paired
  }

  /** One call of pass `q`, number `i`, that takes, puts back, or makes the pair. */
  function CallOf(w: World, i: nat, q: Pass): World
    requires i < |w.passes|
  {
    w.(rating := RatingAfter(w.rating, q.phase), time := TimeAfter(w.time, q.phase),
       made := w.made + MadeBy(i, q.phase),
       passes := w.passes[i := q.(phase := PhaseAfter(w.rating, q.phase), paired := PairedAfter(q.paired, q.phase))])
  }

  function After(w: World, s: Step): World {
    match s
    case Begin => w.(passes := w.passes + [Pass(0.0, [], {}, Unborn)])
    case Scan(i, now, zs) =>
      if i < |w.passes| then w.(passes := w.passes[i := Pass(now, zs, {}, Scanning)]) else w
    case Score(i) =>
      if i < |w.passes| && w.passes[i].rest != [] then
        var q := w.passes[i];
        var (a, since) := q.rest[0];
        var phase := if a in q.paired || a !in w.rating then Scanning else Ranging(a, since, w.rating[a]);
        w.(passes := w.passes[i := q.(rest := q.rest[1..], phase := phase)])
      else w
    case Range(i, ids) =>
      if i < |w.passes| && w.passes[i].phase.Ranging? then
        var q := w.passes[i];
        var b := Opponent(ids, q.phase.a, q.paired);
        var phase := if b == "" then Scanning else TakingA(q.phase.a, q.phase.since, q.phase.score, b);
        w.(passes := w.passes[i := q.(phase := phase)])
      else w
    case Call(i) =>
      if i < |w.passes| then CallOf(w, i, w.passes[i]) else w
    case JoinRating(p, score) =>
      if p in w.rating then w.(joining := w.joining + multiset{p})
      else w.(rating := w.rating[p := score], joining := w.joining + multiset{p},
              inserted := w.inserted + multiset{p})
    case JoinTime(p, at) =>
      w.(joining := w.joining - multiset{p}, time := if p in w.time then w.time else w.time[p := at])
    case Leave(p) =>
      w.(rating := w.rating - {p}, time := w.time - {p})
  }

  /** Every step of the sequence is possible when its turn comes. */
  ghost predicate IsRun(cfg: Config, w: World, steps: seq<Step>) {
    forall k :: 0 <= k < |steps| ==> Enabled(cfg, Reached(w, steps[..k]), steps[k])
  }

  /** The world after a sequence of steps. */
  function Reached(w: World, steps: seq<Step>): World {
    if steps == [] then w else After(Reached(w, steps[..|steps| - 1]), steps[|steps| - 1])
  }

  lemma RunPrefix(cfg: Config, w: World, steps: seq<Step>, n: nat)
    requires IsRun(cfg, w, steps) && n <= |steps|
    ensures IsRun(cfg, w, steps[..n])
  {
    hide Enabled, Reached;
    forall k | 0 <= k < n
      ensures Enabled(cfg, Reached(w, steps[..n][..k]), steps[..n][k])
    {
      assert steps[..n][..k] == steps[..k];
    }
  }

  lemma RunExtend(cfg: Config, w: World, steps: seq<Step>, s: Step)
    requires IsRun(cfg, w, steps) && Enabled(cfg, Reached(w, steps), s)
    ensures IsRun(cfg, w, steps + [s]) && Reached(w, steps + [s]) == After(Reached(w, steps), s)
  {
    hide Enabled, After;
    var all := steps + [s];
    assert all[..|steps|] == steps;
    forall k | 0 <= k < |all|
      ensures Enabled(cfg, Reached(w, all[..k]), all[k])
    {
      if k < |steps| {
        assert all[..k] == steps[..k];
      }
    }
  }

  /** The calls of one pass with nothing in between. */
  function CallsOf(w: World, i: nat, n: nat): World {
    if n == 0 then w else After(CallsOf(w, i, n - 1), Call(i))
  }

  /**
   Uninterrupted, taking two waiting players pairs them and removes them from
   both sets, as a pass on its own does (`Queue.TakeBoth`).
   */
  lemma UninterruptedPair(w: World, i: nat)
    requires i < |w.passes| && w.passes[i].phase.TakingA?
    requires var p := w.passes[i].phase; p.a in w.rating && p.b in w.rating && p.a != p.b
    ensures var p, q := w.passes[i].phase, w.passes[i];
            CallsOf(w, i, 4) == w.(rating := w.rating - {p.a, p.b}, time := w.time - {p.a, p.b},
                                   made := w.made + [Match(i, Pair(p.a, p.b))],
                                   passes := w.passes[i := q.(phase := Scanning, paired := q.paired + {p.a, p.b})])
  {
    var p, q := w.passes[i].phase, w.passes[i];
    var w1 := w.(rating := w.rating - {p.a}, passes := w.passes[i := q.(phase := ClearingA(p.a, p.since, p.score, p.b))]);
    assert CallsOf(w, i, 1) == w1 by { assert CallsOf(w, i, 0) == w; }
    var w2 := w1.(time := w.time - {p.a}, passes := w.passes[i := q.(phase := TakingB(p.a, p.since, p.score, p.b))]);
    assert CallsOf(w, i, 2) == w2;
    var w3 := w2.(rating := w.rating - {p.a, p.b}, passes := w.passes[i := q.(phase := ClearingB(p.a, p.b))]);
    assert w.rating - {p.a} - {p.b} == w.rating - {p.a, p.b};
    assert CallsOf(w, i, 3) == w3;
    assert w.time - {p.a} - {p.b} == w.time - {p.a, p.b};
  }

  /** Uninterrupted, a failed attempt puts the first player back with rating and time unchanged. */
  lemma UninterruptedRetreat(w: World, i: nat)
    requires i < |w.passes| && w.passes[i].phase.TakingA?
    requires var p := w.passes[i].phase;
             && p.a in w.rating && w.rating[p.a] == p.score && p.a in w.time && w.time[p.a] == p.since
             && p.b !in w.rating
    ensures CallsOf(w, i, 5) == w.(passes := w.passes[i := w.passes[i].(phase := Scanning)])
  {
    var p, q := w.passes[i].phase, w.passes[i];
    var w1 := w.(rating := w.rating - {p.a}, passes := w.passes[i := q.(phase := ClearingA(p.a, p.since, p.score, p.b))]);
    assert CallsOf(w, i, 1) == w1 by { assert CallsOf(w, i, 0) == w; }
    var w2 := w1.(time := w.time - {p.a}, passes := w.passes[i := q.(phase := TakingB(p.a, p.since, p.score, p.b))]);
    assert CallsOf(w, i, 2) == w2;
    var w3 := w2.(passes := w.passes[i := q.(phase := PuttingBack(p.a, p.since, p.score))]);
    assert CallsOf(w, i, 3) == w3;
    var w4 := w3.(rating := w.rating, passes := w.passes[i := q.(phase := PuttingBackTime(p.a, p.since))]);
    assert (w.rating - {p.a})[p.a := p.score] == w.rating;
    assert CallsOf(w, i, 4) == w4;
    assert (w.time - {p.a})[p.a := p.since] == w.time;
  }

  // ---------------------------------------------------------------- who holds whom

  /** The players a pass has taken out of the queue and neither paired nor put back. */
  function Claims(p: Phase): multiset<string> {
    match p
    case ClearingA(a, _, _, _) => multiset{a}
    case TakingB(a, _, _, _) => multiset{a}
    case PuttingBack(a, _, _) => multiset{a}
    case ClearingB(a, b) => multiset{a, b}
    case _ => multiset{}
  }

  function Held(ps: seq<Pass>): multiset<string> {
    if ps == [] then multiset{} else Held(ps[..|ps| - 1]) + Claims(ps[|ps| - 1].phase)
  }

  lemma {:induction false} HeldUpdate(ps: seq<Pass>, i: nat, q: Pass)
    requires i < |ps|
    ensures Held(ps[i := q]) + Claims(ps[i].phase) == Held(ps) + Claims(q.phase)
  {
    hide Claims;
    var n := |ps| - 1;
    if i < n {
      HeldUpdate(ps[..n], i, q);
      assert ps[i := q][..n] == ps[..n][i := q];
      AddToBoth(Held(ps[..n][i := q]), Claims(ps[i].phase), Held(ps[..n]), Claims(q.phase), Claims(ps[n].phase));
    } else {
      assert ps[i := q][..n] == ps[..n];
    }
  }

  lemma AddToBoth(a: multiset<string>, b: multiset<string>, c: multiset<string>, d: multiset<string>,
                  x: multiset<string>)
    requires a + b == c + d
    ensures (a + x) + b == (c + x) + d
  {
    assert (a + x) + b == (a + b) + x;
  }

  function PairsOf(made: seq<Match>): seq<Pair> {
    seq(|made|, k requires 0 <= k < |made| => made[k].pair)
  }

  /** The members of the pairs made, with multiplicity. */
  function Paired(made: seq<Match>): multiset<string> {
    Members(PairsOf(made))
  }

  /** Every insertion is accounted for: paired, held by a pass, waiting, or gone. */
  ghost predicate Accounted(w: World) {
    Paired(w.made) + Held(w.passes) + multiset(w.rating.Keys) <= w.inserted
  }

  lemma KeysRemove(m: Scores, p: string)
    requires p in m
    ensures multiset(m.Keys) == multiset((m - {p}).Keys) + multiset{p}
  {
    assert m.Keys == (m - {p}).Keys + {p};
  }

  lemma KeysAdd(m: Scores, p: string, x: real)
    ensures multiset(m[p := x].Keys) == multiset(m.Keys) + if p in m then multiset{} else multiset{p}
  {
    assert m[p := x].Keys == m.Keys + {p};
    if p in m {
      assert m[p := x].Keys == m.Keys;
    }
  }

  lemma KeysShrink(m: Scores, p: string)
    ensures multiset((m - {p}).Keys) <= multiset(m.Keys)
  {
    if p in m {
      KeysRemove(m, p);
    } else {
      assert m - {p} == m;
    }
  }

  /** What a pass gives up and takes on balances what the queue and the pairs gain and lose. */
  lemma Balance(w: World, h: World, i: nat)
    requires i < |w.passes| && Accounted(w)
    requires |h.passes| == |w.passes| && h.passes == w.passes[i := h.passes[i]] && w.inserted == h.inserted
    requires Paired(h.made) + Claims(h.passes[i].phase) + multiset(h.rating.Keys)
          <= Paired(w.made) + Claims(w.passes[i].phase) + multiset(w.rating.Keys)
    ensures Accounted(h)
  {
    HeldUpdate(w.passes, i, h.passes[i]);
    BagBalance(Paired(w.made), Held(w.passes), multiset(w.rating.Keys), w.inserted, Paired(h.made), Held(h.passes),
               multiset(h.rating.Keys), Claims(w.passes[i].phase), Claims(h.passes[i].phase));
  }

  lemma BagBalance(p: multiset<string>, h: multiset<string>, r: multiset<string>, all: multiset<string>,
                   p': multiset<string>, h': multiset<string>, r': multiset<string>,
                   c: multiset<string>, c': multiset<string>)
    requires p + h + r <= all && h' + c == h + c' && p' + c' + r' <= p + c + r
    ensures p' + h' + r' <= all
  {
    forall x: string
      ensures (p' + h' + r')[x] <= all[x]
    {
      assert (h' + c)[x] == (h + c')[x] && (p' + c' + r')[x] <= (p + c + r)[x] && (p + h + r)[x] <= all[x];
    }
  }

  lemma TakeHolds(rating: Scores, c: multiset<string>, p: string)
    ensures c + (if p in rating then multiset{p} else multiset{}) + multiset((rating - {p}).Keys)
         <= c + multiset(rating.Keys)
  {
    KeysGone(rating, p);
  }

  lemma PutBackHolds(rating: Scores, p: string, score: real)
    ensures multiset{} + multiset(rating[p := score].Keys) <= multiset{p} + multiset(rating.Keys)
  {
    KeysAdd(rating, p, score);
  }

  /** What a call takes from the rating set the pass holds, and what it puts back it held. */
  lemma CallHolds(rating: Scores, phase: Phase)
    requires !phase.ClearingB?
    ensures Claims(PhaseAfter(rating, phase)) + multiset(RatingAfter(rating, phase).Keys)
         <= Claims(phase) + multiset(rating.Keys)
  {
    var before, after := Claims(phase), Claims(PhaseAfter(rating, phase));
    if phase.TakingA? {
      assert after == before + if phase.a in rating then multiset{phase.a} else multiset{};
      hide Claims;
      TakeHolds(rating, before, phase.a);
    } else if phase.TakingB? {
      assert after == before + if phase.b in rating then multiset{phase.b} else multiset{};
      hide Claims;
      TakeHolds(rating, before, phase.b);
    } else if phase.PuttingBack? {
      PutBackHolds(rating, phase.a, phase.score);
    } else {
      assert after == before && RatingAfter(rating, phase) == rating;
    }
  }

  /** And what it pairs it held. */
  lemma CallBalances(made: seq<Match>, i: nat, rating: Scores, phase: Phase)
    ensures Paired(made + MadeBy(i, phase)) + Claims(PhaseAfter(rating, phase))
            + multiset(RatingAfter(rating, phase).Keys)
         <= Paired(made) + Claims(phase) + multiset(rating.Keys)
  {
    hide Paired;
    if phase.ClearingB? {
      PairedExtend(made, Match(i, Pair(phase.a, phase.b)));
    } else {
      assert made + MadeBy(i, phase) == made;
      CallHolds(rating, phase);
      hide Claims, PhaseAfter, RatingAfter;
    }
  }

  lemma KeysGone(m: Scores, p: string)
    ensures multiset((m - {p}).Keys) + (if p in m then multiset{p} else multiset{}) == multiset(m.Keys)
  {
    if p in m {
      KeysRemove(m, p);
    } else {
      assert m - {p} == m;
    }
  }

  /** A call moves its player between the queue, the pass and the pairs, and creates nobody. */
  lemma CallAccounted(w: World, i: nat)
    requires i < |w.passes| && Accounted(w)
    ensures Accounted(CallOf(w, i, w.passes[i]))
  {
    hide Accounted, Held, Paired, Claims, PhaseAfter, RatingAfter, TimeAfter, PairedAfter, MadeBy;
    CallBalances(w.made, i, w.rating, w.passes[i].phase);
    Balance(w, CallOf(w, i, w.passes[i]), i);
  }

  lemma PairedExtend(made: seq<Match>, m: Match)
    ensures Paired(made + [m]) == Paired(made) + multiset{m.pair.a, m.pair.b}
  {
    assert PairsOf(made + [m]) == PairsOf(made) + [m.pair];
    MembersExtend(PairsOf(made), m.pair);
  }

  lemma HeldExtend(ps: seq<Pass>, q: Pass)
    ensures Held(ps + [q]) == Held(ps) + Claims(q.phase)
  {
    assert (ps + [q])[..|ps|] == ps;
  }

  lemma JoinAccounted(w: World, p: string, score: real)
    requires Accounted(w)
    ensures Accounted(After(w, JoinRating(p, score)))
  {
    hide Held, Paired;
    KeysAdd(w.rating, p, score);
    var h := After(w, JoinRating(p, score));
    var grown: multiset<string> := if p in w.rating then multiset{} else multiset{p};
    assert Paired(h.made) + Held(h.passes) + multiset(h.rating.Keys)
        == (Paired(w.made) + Held(w.passes) + multiset(w.rating.Keys)) + grown;
  }

  /** A step that only reads leaves the pass holding what it held. */
  lemma ReadAccounted(cfg: Config, w: World, s: Step)
    requires Enabled(cfg, w, s) && Accounted(w) && (s.Scan? || s.Score? || s.Range?)
    ensures Accounted(After(w, s))
  {
    hide Accounted, Held, Paired, Opponent, IsLowest, IsQueueHead, Between, Window;
    Balance(w, After(w, s), s.i);
  }

  lemma StepAccounted(cfg: Config, w: World, s: Step)
    requires Enabled(cfg, w, s) && Accounted(w)
    ensures Accounted(After(w, s))
  {
    hide CallOf, Held, Paired, Enabled;
    match s
    case Begin =>
      HeldExtend(w.passes, Pass(0.0, [], {}, Unborn));
    case Scan(_, _, _) =>
      ReadAccounted(cfg, w, s);
    case Score(_) =>
      ReadAccounted(cfg, w, s);
    case Range(_, _) =>
      ReadAccounted(cfg, w, s);
    case Call(i) =>
      if i < |w.passes| {
        CallAccounted(w, i);
      }
    case JoinRating(p, score) =>
      JoinAccounted(w, p, score);
    case JoinTime(_, _) =>
    case Leave(p) =>
      KeysShrink(w.rating, p);
  }

  // ---------------------------------------------------------------- within one pass

  /** A pass never proposes a player it has already paired, nor a player to itself. */
  ghost predicate PhaseSound(q: Pass) {
    match q.phase
    case Ranging(a, _, _) => a !in q.paired
    case TakingA(a, _, _, b) => a != b && a !in q.paired && b !in q.paired
    case ClearingA(a, _, _, b) => a != b && a !in q.paired && b !in q.paired
    case TakingB(a, _, _, b) => a != b && a !in q.paired && b !in q.paired
    case ClearingB(a, b) => a != b && a !in q.paired && b !in q.paired
    case Unborn => q.paired == {}
    case _ => true
  }

  /** The pairs a pass made are between distinct players, disjoint, and remembered by it. */
  ghost predicate PassesSound(w: World) {
    && (forall i :: 0 <= i < |w.passes| ==> PhaseSound(w.passes[i]))
    && (forall k :: 0 <= k < |w.made| ==> MadeSoundly(w, w.made[k]))
    && (forall j, k :: 0 <= j < k < |w.made| && w.made[j].pass == w.made[k].pass ==>
            {w.made[j].pair.a, w.made[j].pair.b} !! {w.made[k].pair.a, w.made[k].pair.b})
  }

  ghost predicate MadeSoundly(w: World, m: Match) {
    && m.pair.a != m.pair.b && m.pass < |w.passes|
    && !w.passes[m.pass].phase.Unborn?
    && m.pair.a in w.passes[m.pass].paired && m.pair.b in w.passes[m.pass].paired
  }

  /** A step of one pass that pairs nobody and forgets nobody it paired. */
  lemma NothingPaired(w: World, h: World, i: nat)
    requires PassesSound(w) && i < |w.passes| && |h.passes| == |w.passes| && h.made == w.made
    requires h.passes == w.passes[i := h.passes[i]] && PhaseSound(h.passes[i])
    requires !w.passes[i].phase.Unborn? ==> !h.passes[i].phase.Unborn? && h.passes[i].paired == w.passes[i].paired
    ensures PassesSound(h)
  {
    hide PhaseSound;
    forall k | 0 <= k < |h.made|
      ensures MadeSoundly(h, h.made[k])
    {
      assert MadeSoundly(w, w.made[k]);
    }
  }

  /** The step that completes a pair. */
  lemma PairMade(w: World, i: nat)
    requires PassesSound(w) && i < |w.passes| && w.passes[i].phase.ClearingB?
    ensures PassesSound(CallOf(w, i, w.passes[i]))
  {
    var q, h := w.passes[i], CallOf(w, i, w.passes[i]);
    assert PhaseSound(q) && PhaseSound(h.passes[i]);
    hide PhaseSound;
    forall k | 0 <= k < |h.made|
      ensures MadeSoundly(h, h.made[k])
    {
      if k < |w.made| {
        assert MadeSoundly(w, w.made[k]);
      }
    }
    forall j, k | 0 <= j < k < |h.made| && h.made[j].pass == h.made[k].pass
      ensures {h.made[j].pair.a, h.made[j].pair.b} !! {h.made[k].pair.a, h.made[k].pair.b}
    {
      assert MadeSoundly(w, w.made[j]);
    }
  }

  lemma ScanSound(cfg: Config, w: World, s: Step)
    requires Enabled(cfg, w, s) && PassesSound(w) && (s.Scan? || s.Score? || s.Range?)
    ensures PassesSound(After(w, s))
  {
    hide PassesSound, IsLowest, IsQueueHead, Between, Window;
    assert PhaseSound(w.passes[s.i]) by { PassSound(w, s.i); }
    NothingPaired(w, After(w, s), s.i);
  }

  lemma PassSound(w: World, i: nat)
    requires PassesSound(w) && i < |w.passes|
    ensures PhaseSound(w.passes[i])
  {
    hide PhaseSound;
  }

  lemma CallSound(cfg: Config, w: World, i: nat)
    requires Enabled(cfg, w, Call(i)) && PassesSound(w)
    ensures PassesSound(CallOf(w, i, w.passes[i]))
  {
    hide PassesSound;
    PassSound(w, i);
    if w.passes[i].phase.ClearingB? {
      PairMade(w, i);
    } else {
      NothingPaired(w, CallOf(w, i, w.passes[i]), i);
    }
  }

  lemma StepPassesSound(cfg: Config, w: World, s: Step)
    requires Enabled(cfg, w, s) && PassesSound(w)
    ensures PassesSound(After(w, s))
  {
    hide CallOf, IsLowest, IsQueueHead, Between, Window;
    var h := After(w, s);
    match s
    case Scan(_, _, _) => ScanSound(cfg, w, s);
    case Score(_) => ScanSound(cfg, w, s);
    case Range(_, _) => ScanSound(cfg, w, s);
    case Call(i) => CallSound(cfg, w, i);
    case _ =>
      assert forall k :: 0 <= k < |h.made| ==> MadeSoundly(w, w.made[k]) ==> MadeSoundly(h, h.made[k]);
  }

  /** Everything holds in every world any interleaving can reach. */
  lemma {:induction false} RunSound(cfg: Config, steps: seq<Step>)
    requires IsRun(cfg, EMPTY, steps)
    ensures Accounted(Reached(EMPTY, steps)) && PassesSound(Reached(EMPTY, steps))
  {
    hide After, Enabled;
    if steps != [] {
      var n := |steps| - 1;
      RunPrefix(cfg, EMPTY, steps, n);
      RunSound(cfg, steps[..n]);
      assert Enabled(cfg, Reached(EMPTY, steps[..n]), steps[n]);
      StepAccounted(cfg, Reached(EMPTY, steps[..n]), steps[n]);
      StepPassesSound(cfg, Reached(EMPTY, steps[..n]), steps[n]);
    }
  }

  /** How many of the pairs contain a player. */
  function PairCount(made: seq<Match>, p: string): nat {
    if made == [] then 0
    else
      var m := made[|made| - 1].pair;
      PairCount(made[..|made| - 1], p) + if p == m.a || p == m.b then 1 else 0
  }

  lemma {:induction false} PairCountWithinBag(made: seq<Match>, p: string)
    ensures PairCount(made, p) <= Paired(made)[p]
  {
    if made != [] {
      var n := |made| - 1;
      PairCountWithinBag(made[..n], p);
      assert PairsOf(made)[..n] == PairsOf(made[..n]);
    }
  }

  /**
   Exclusivity under every interleaving: a player is in no more pairs than the
   joins that inserted them, in at most one pair of each pass even when they
   rejoin, and never paired with themselves.
   */
  lemma NeverPairedTwice(cfg: Config, steps: seq<Step>, p: string)
    requires IsRun(cfg, EMPTY, steps)
    ensures var w := Reached(EMPTY, steps);
            && PairCount(w.made, p) <= w.inserted[p]
            && (forall k :: 0 <= k < |w.made| ==> w.made[k].pair.a != w.made[k].pair.b)
            && (forall j, k :: 0 <= j < k < |w.made| && w.made[j].pass == w.made[k].pass ==>
                    !(p in {w.made[j].pair.a, w.made[j].pair.b} && p in {w.made[k].pair.a, w.made[k].pair.b}))
  {
    RunSound(cfg, steps);
    var w := Reached(EMPTY, steps);
    PairCountWithinBag(w.made, p);
    assert (Paired(w.made) + Held(w.passes) + multiset(w.rating.Keys))[p] <= w.inserted[p];
    assert forall k :: 0 <= k < |w.made| ==> MadeSoundly(w, w.made[k]);
  }

  // ---------------------------------------------------------------- nobody is lost

  /** The player waits, is held by a pass, or has been paired. */
  ghost predicate Kept(w: World, p: string) {
    || p in w.rating || PairCount(w.made, p) > 0
    || exists i :: 0 <= i < |w.passes| && p in Claims(w.passes[i].phase)
  }

  lemma PairedKept(made: seq<Match>, more: seq<Match>, p: string)
    requires |more| <= 1
    ensures PairCount(made + more, p) >= PairCount(made, p)
    ensures more != [] && (p == more[0].pair.a || p == more[0].pair.b) ==> PairCount(made + more, p) > 0
  {
    if more == [] {
      assert made + more == made;
    } else {
      assert (made + more)[..|made|] == made;
    }
  }

  /** Whom a call takes from the queue or from its own hands it holds, pairs or puts back. */
  lemma CallKeeps(rating: Scores, i: nat, phase: Phase, p: string)
    requires p in rating || p in Claims(phase)
    ensures || p in RatingAfter(rating, phase) || p in Claims(PhaseAfter(rating, phase))
            || (phase.ClearingB? && MadeBy(i, phase) == [Match(i, Pair(phase.a, phase.b))] && (p == phase.a || p == phase.b))
  {
    match phase
    case TakingA(_, _, _, _) =>
    case TakingB(_, _, _, _) =>
    case ClearingB(_, _) =>
    case _ =>
  }

  lemma CallKept(w: World, i: nat, p: string)
    requires i < |w.passes| && Kept(w, p)
    ensures Kept(CallOf(w, i, w.passes[i]), p)
  {
    var phase, h := w.passes[i].phase, CallOf(w, i, w.passes[i]);
    PairedKept(w.made, MadeBy(i, phase), p);
    if p in w.rating || p in Claims(phase) {
      CallKeeps(w.rating, i, phase, p);
      hide RatingAfter, PhaseAfter, Claims, PairCount;
      assert h.passes[i].phase == PhaseAfter(w.rating, phase);
    } else if PairCount(w.made, p) == 0 {
      var j :| 0 <= j < |w.passes| && p in Claims(w.passes[j].phase);
      hide RatingAfter, PhaseAfter, Claims, PairCount;
      assert h.passes[j] == w.passes[j];
    }
  }

  lemma ScanKept(cfg: Config, w: World, s: Step, p: string)
    requires Enabled(cfg, w, s) && Kept(w, p) && (s.Begin? || s.Scan? || s.Score? || s.Range?)
    ensures Kept(After(w, s), p)
  {
    hide Opponent, IsLowest, IsQueueHead, Between, Window, PairCount;
    var h := After(w, s);
    if p !in w.rating && PairCount(w.made, p) == 0 {
      var j :| 0 <= j < |w.passes| && p in Claims(w.passes[j].phase);
      assert h.passes[j] == w.passes[j];
    }
  }

  lemma StepKept(cfg: Config, w: World, s: Step, p: string)
    requires Enabled(cfg, w, s) && s != Leave(p) && (p in w.inserted ==> Kept(w, p))
    ensures p in After(w, s).inserted ==> Kept(After(w, s), p)
  {
    assert s.Call? ==> After(w, s).inserted == w.inserted;
    hide CallOf, Claims, PairCount, Opponent, IsLowest, IsQueueHead, Between, Window;
    if p in w.inserted {
      if s.Call? {
        CallKept(w, s.i, p);
      } else if s.Begin? || s.Scan? || s.Score? || s.Range? {
        ScanKept(cfg, w, s, p);
      }
    }
  }

  /**
   Nobody is lost under any interleaving: a player who was inserted and does not
   leave waits, is held by a pass, or has been paired.
   */
  lemma {:induction false} NeverLost(cfg: Config, steps: seq<Step>, p: string)
    requires IsRun(cfg, EMPTY, steps) && Leave(p) !in steps
    ensures var w := Reached(EMPTY, steps); p in w.inserted ==> Kept(w, p)
  {
    hide After, Enabled, Kept;
    if steps != [] {
      var n := |steps| - 1;
      RunPrefix(cfg, EMPTY, steps, n);
      NeverLost(cfg, steps[..n], p);
      StepKept(cfg, Reached(EMPTY, steps[..n]), steps[n], p);
    }
  }
}
