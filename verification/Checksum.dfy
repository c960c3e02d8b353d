/**
 The text of a position that is hashed into its checksum (internal/battle/checksum.go).
 The hash is a parameter; what is proved is when the text itself tells two
 positions apart. Ids are written without quotes, so it depends on the ids.
 */
module Checksum {
  import opened Battle
  import opened BattleEngine
  import opened BattleReplay

  // Every writer below takes the text that follows, so a position's text reads from left to right.

  function IntText(n: int): string {
    if n < 0 then "-" + Decimal(-n) else Decimal(n)
  }

  function BoolText(b: bool): string {
    if b then "true" else "false"
  }

  /** A field and the separator that ends it. */
  function Field(s: string, sep: char, rest: string): string {
    s + [sep] + rest
  }

  /** The inside of a quoted string and its closing quote. */
  function QuotedTail(s: string, rest: string): string {
    if s == "" then "\"" + rest
    else if s[0] == '"' || s[0] == '\\' then "\\" + [s[0]] + QuotedTail(s[1..], rest)
    else [s[0]] + QuotedTail(s[1..], rest)
  }

  function Quoted(s: string, rest: string): string {
    "\"" + QuotedTail(s, rest)
  }

  function ListTail(xs: seq<string>, rest: string): string {
    if xs == [] then "]" + rest else " " + Quoted(xs[0], ListTail(xs[1..], rest))
  }

  function ListText(xs: seq<string>, rest: string): string {
    if xs == [] then "[]" + rest else "[" + Quoted(xs[0], ListTail(xs[1..], rest))
  }

  /** The numbers of a minion. */
  datatype Stats = Stats(atk: int, hp: int, maxHp: int, canAttack: bool)

  function StatsOf(m: Minion): Stats {
    Stats(m.atk, m.hp, m.maxHp, m.canAttack)
  }

  function StatsText(s: Stats, rest: string): string {
    "," + Field(IntText(s.atk), ',', Field(IntText(s.hp), ',', Field(IntText(s.maxHp), ',', BoolText(s.canAttack) + rest)))
  }

  function MinionText(m: Minion, rest: string): string {
    ";" + Field(m.instId, ',', m.cardId + StatsText(StatsOf(m), rest))
  }

  function BoardText(b: seq<Minion>, rest: string): string {
    if b == [] then rest else MinionText(b[0], BoardText(b[1..], rest))
  }

  /** Everything about a player but the board. */
  function PersonText(p: PlayerState, rest: string): string {
    "|" + Field(p.id, ',', Field(IntText(p.hp), ',', Field(IntText(p.mana), ',', Field(IntText(p.maxMana), ',',
      Field(IntText(p.fatigue), ',', ListText(p.hand, "," + ListText(p.deck, rest)))))))
  }

  function PlayerText(p: PlayerState, rest: string): string {
    PersonText(p, BoardText(p.board, rest))
  }

  function HeadText(turn: int, round: int, over: bool, winner: string, nextInst: int, rest: string): string {
    Field(IntText(turn), '|', Field(IntText(round), '|', Field(BoolText(over), '|', Field(winner, '|',
      IntText(nextInst) + rest))))
  }

  function Text(g: Game): string {
    HeadText(g.turn, g.round, g.over, g.winner, g.nextInst, PlayerText(g.p0, PlayerText(g.p1, "")))
  }

  // ---------------------------------------------------------------- reading fields back

  /** Neither string, with the separator after it, begins the other: what follows shows where each ends. */
  predicate Apart(s: string, t: string, sep: char) {
    !(s + [sep] <= t) && !(t + [sep] <= s)
  }

  lemma FieldReads(s: string, t: string, sep: char, u: string, v: string)
    requires Apart(s, t, sep) && Field(s, sep, u) == Field(t, sep, v)
    ensures s == t && u == v
  {
    var x, y := Field(s, sep, u), Field(t, sep, v);
    if |s| < |t| {
      FieldBegins(s, t, sep, u, v);
    } else if |t| < |s| {
      FieldBegins(t, s, sep, v, u);
    }
    assert x[..|s|] == s && y[..|t|] == t && x[|s| + 1..] == u && y[|t| + 1..] == v;
  }

  lemma FieldBegins(s: string, t: string, sep: char, u: string, v: string)
    requires |s| < |t| && Field(s, sep, u) == Field(t, sep, v)
    ensures s + [sep] <= t
  {
    var x, y := Field(s, sep, u), Field(t, sep, v);
    assert s + [sep] == x[..|s| + 1] && t[..|s| + 1] == y[..|s| + 1];
  }

  lemma PlainApart(s: string, t: string, sep: char)
    requires sep !in s && sep !in t
    ensures Apart(s, t, sep)
  {
    assert (s + [sep])[|s|] == sep && (t + [sep])[|t|] == sep;
  }

  lemma {:induction false} DecimalDigits(n: nat)
    ensures forall c :: c in Decimal(n) ==> '0' <= c <= '9'
  {
    if n >= 10 {
      DecimalDigits(n / 10);
    }
  }

  lemma IntTextPlain(n: int)
    ensures ',' !in IntText(n) && '|' !in IntText(n)
  {
    DecimalDigits(if n < 0 then -n else n);
  }

  lemma NoLeadingMinus(n: nat)
    ensures Decimal(n) != [] && Decimal(n)[0] != '-'
  {
    DecimalDigits(n);
    DecimalRoundTrip(n);
    assert Decimal(n)[0] in Decimal(n);
  }

  lemma IntTextInjective(m: int, n: int)
    requires IntText(m) == IntText(n)
    ensures m == n
  {
    var a, b := if m < 0 then -m else m, if n < 0 then -n else n;
    NoLeadingMinus(a);
    NoLeadingMinus(b);
    DecimalRoundTrip(a);
    DecimalRoundTrip(b);
    assert ("-" + Decimal(a))[1..] == Decimal(a) && ("-" + Decimal(b))[1..] == Decimal(b);
  }

  lemma IntReads(m: int, n: int, sep: char, u: string, v: string)
    requires (sep == ',' || sep == '|') && Field(IntText(m), sep, u) == Field(IntText(n), sep, v)
    ensures m == n && u == v
  {
    hide IntText, Field;
    IntTextPlain(m);
    IntTextPlain(n);
    PlainApart(IntText(m), IntText(n), sep);
    FieldReads(IntText(m), IntText(n), sep, u, v);
    IntTextInjective(m, n);
  }

  lemma BoolReads(a: bool, b: bool, u: string, v: string)
    requires BoolText(a) + u == BoolText(b) + v
    ensures a == b && u == v
  {
    assert (BoolText(a) + u)[0] == BoolText(a)[0] && (BoolText(b) + v)[0] == BoolText(b)[0];
    assert (BoolText(a) + u)[|BoolText(a)|..] == u && (BoolText(b) + v)[|BoolText(b)|..] == v;
  }

  /** Equal texts with equal first parts have equal remainders. */
  lemma SameHead(h: string, u: string, v: string)
    requires h + u == h + v
    ensures u == v
  {
    assert (h + u)[|h|..] == u && (h + v)[|h|..] == v;
  }

  lemma {:induction false} QuotedTailReads(s: string, t: string, u: string, v: string)
    requires QuotedTail(s, u) == QuotedTail(t, v)
    ensures s == t && u == v
  {
    var x, y := QuotedTail(s, u), QuotedTail(t, v);
    if s == "" || t == "" {
      assert x[0] == y[0];
      SameHead("\"", u, v);
    } else {
      assert x[0] == y[0];
      if s[0] == '"' || s[0] == '\\' {
        assert x[1] == y[1];
        assert x[2..] == QuotedTail(s[1..], u) && y[2..] == QuotedTail(t[1..], v);
      } else {
        assert x[1..] == QuotedTail(s[1..], u) && y[1..] == QuotedTail(t[1..], v);
      }
      QuotedTailReads(s[1..], t[1..], u, v);
      assert s == [s[0]] + s[1..] && t == [t[0]] + t[1..];
    }
  }

  lemma QuotedReads(s: string, t: string, u: string, v: string)
    requires Quoted(s, u) == Quoted(t, v)
    ensures s == t && u == v
  {
    hide QuotedTail;
    SameHead("\"", QuotedTail(s, u), QuotedTail(t, v));
    QuotedTailReads(s, t, u, v);
  }

  lemma {:induction false} ListTailReads(xs: seq<string>, ys: seq<string>, u: string, v: string)
    requires ListTail(xs, u) == ListTail(ys, v)
    ensures xs == ys && u == v
  {
    hide Quoted;
    assert ListTail(xs, u)[0] == ListTail(ys, v)[0];
    if xs == [] {
      SameHead("]", u, v);
    } else {
      SameHead(" ", Quoted(xs[0], ListTail(xs[1..], u)), Quoted(ys[0], ListTail(ys[1..], v)));
      QuotedReads(xs[0], ys[0], ListTail(xs[1..], u), ListTail(ys[1..], v));
      ListTailReads(xs[1..], ys[1..], u, v);
      assert xs == [xs[0]] + xs[1..] && ys == [ys[0]] + ys[1..];
    }
  }

  lemma ListReads(xs: seq<string>, ys: seq<string>, u: string, v: string)
    requires ListText(xs, u) == ListText(ys, v)
    ensures xs == ys && u == v
  {
    hide ListTail, QuotedTail;
    assert ListText(xs, u)[1] == ListText(ys, v)[1];
    if xs == [] {
      SameHead("[]", u, v);
    } else {
      hide Quoted;
      SameHead("[", Quoted(xs[0], ListTail(xs[1..], u)), Quoted(ys[0], ListTail(ys[1..], v)));
      QuotedReads(xs[0], ys[0], ListTail(xs[1..], u), ListTail(ys[1..], v));
      ListTailReads(xs[1..], ys[1..], u, v);
      assert xs == [xs[0]] + xs[1..] && ys == [ys[0]] + ys[1..];
    }
  }

  // ---------------------------------------------------------------- reading a position back

  /** A bar, as where a board ends, or an instance id, as where the next minion begins. */
  ghost predicate Break(tail: string) {
    || (tail != "" && tail[0] == '|')
    || exists n, z :: NamesNext(tail, n, z)
  }

  ghost predicate NamesNext(tail: string, n: nat, z: string) {
    tail == ";" + InstName(n) + z && (z == "" || z[0] == ',')
  }

  /** Inside the id the numbers of a minion end and a break follows. */
  ghost predicate BrokenAt(id: string, x: string, s: Stats, tail: string) {
    id == x + StatsText(s, tail) && Break(tail)
  }

  /** A card id no part of which can be taken for the end of a minion; separators alone do no harm. */
  ghost predicate Readable(id: string) {
    forall x, s, tail :: !BrokenAt(id, x, s, tail)
  }

  ghost predicate Numbered(id: string) {
    exists n :: id == InstName(n)
  }

  ghost predicate BoardReadable(b: seq<Minion>) {
    forall k :: 0 <= k < |b| ==> Numbered(b[k].instId) && Readable(b[k].cardId)
  }

  /** What may follow a board. */
  predicate EndsBoard(u: string) {
    u == "" || u[0] == '|'
  }

  /** What may follow a minion. */
  ghost predicate Follows(r: string) {
    EndsBoard(r) || exists n, t :: r == NextMinion(n, t)
  }

  function NextMinion(n: nat, t: string): string {
    ";" + InstName(n) + "," + t
  }

  lemma InstNamePlain(n: nat)
    ensures ',' !in InstName(n)
  {
    DecimalDigits(n);
  }

  lemma IntStarts(n: int)
    ensures IntText(n) != "" && (IntText(n)[0] == '-' || '0' <= IntText(n)[0] <= '9')
  {
    DecimalDigits(if n < 0 then -n else n);
    DecimalRoundTrip(if n < 0 then -n else n);
    if n >= 0 {
      assert Decimal(n)[0] in Decimal(n);
    }
  }

  lemma BoolIsNoInt(b: bool, r: string, n: int, v: string)
    ensures BoolText(b) + r != Field(IntText(n), ',', v)
  {
    IntStarts(n);
    assert (BoolText(b) + r)[0] == BoolText(b)[0];
    assert Field(IntText(n), ',', v)[0] == IntText(n)[0];
    hide IntText;
  }

  /** A comma-free field ends at the first comma, or inside whatever it is matched against. */
  lemma Peel(a: string, t: string, w: string, v: string)
    requires ',' !in a && Field(a, ',', t) == Field(w, ',', v)
    ensures (w == a && t == v) || (|w| > |a| && w == Field(a, ',', w[|a| + 1..]) && t == Field(w[|a| + 1..], ',', v))
  {
    var x, y := Field(a, ',', t), Field(w, ',', v);
    assert x[|a|] == ',' && y[|w|] == ',';
    assert forall j :: 0 <= j < |a| ==> x[j] == a[j];
    assert |w| >= |a|;
    assert y[..|w|] == w && y[|w| + 1..] == v && x[|a| + 1..] == t;
    if |w| > |a| {
      assert w[..|a|] == y[..|a|] == x[..|a|] == a && w[|a|] == y[|a|] == x[|a|];
      assert y[|a| + 1..] == Field(w[|a| + 1..], ',', v);
    }
  }

  lemma StatsReads(s: Stats, t: Stats, u: string, v: string)
    requires StatsText(s, u) == StatsText(t, v)
    ensures s == t && u == v
  {
    hide Field, IntText, BoolText;
    var x3, y3 := BoolText(s.canAttack) + u, BoolText(t.canAttack) + v;
    var x2, y2 := Field(IntText(s.maxHp), ',', x3), Field(IntText(t.maxHp), ',', y3);
    var x1, y1 := Field(IntText(s.hp), ',', x2), Field(IntText(t.hp), ',', y2);
    SameHead(",", Field(IntText(s.atk), ',', x1), Field(IntText(t.atk), ',', y1));
    IntReads(s.atk, t.atk, ',', x1, y1);
    IntReads(s.hp, t.hp, ',', x2, y2);
    IntReads(s.maxHp, t.maxHp, ',', x3, y3);
    BoolReads(s.canAttack, t.canAttack, u, v);
  }

  /** Numbers matched against a longer text that ends in numbers: all of them lie in that text's front part. */
  lemma StatsInside(s: Stats, r: string, u: string, t: Stats, v: string) returns (inner: string)
    requires u != "" && StatsText(s, r) == u + StatsText(t, v)
    ensures u == StatsText(s, inner) && r == inner + StatsText(t, v)
  {
    hide IntText, BoolText;
    IntTextPlain(s.atk);
    IntTextPlain(s.hp);
    IntTextPlain(s.maxHp);
    var bo := BoolText(s.canAttack);
    var t4 := bo + r;
    var t3 := Field(IntText(s.maxHp), ',', t4);
    var t2 := Field(IntText(s.hp), ',', t3);
    var v3 := BoolText(t.canAttack) + v;
    var v2 := Field(IntText(t.maxHp), ',', v3);
    var v1 := Field(IntText(t.hp), ',', v2);
    var v0 := Field(IntText(t.atk), ',', v1);
    assert u[0] == (u + StatsText(t, v))[0] == ',';
    var u1 := u[1..];
    assert u == "," + u1;
    assert "," + Field(IntText(s.atk), ',', t2) == "," + Field(u1, ',', v0);
    SameHead(",", Field(IntText(s.atk), ',', t2), Field(u1, ',', v0));
    Peel(IntText(s.atk), t2, u1, v0);
    if u1 == IntText(s.atk) && t2 == v0 {
      NumbersShort(s.hp, s.maxHp, bo, s.canAttack, r, t, v);
    }
    var u2 := u1[|IntText(s.atk)| + 1..];
    Peel(IntText(s.hp), t3, u2, v0);
    if u2 == IntText(s.hp) && t3 == v0 {
      TwoShort(s.maxHp, s.canAttack, r, t, v);
    }
    var u3 := u2[|IntText(s.hp)| + 1..];
    Peel(IntText(s.maxHp), t4, u3, v0);
    if u3 == IntText(s.maxHp) && t4 == v0 {
      BoolIsNoInt(s.canAttack, r, t.atk, v1);
    }
    var u4 := u3[|IntText(s.maxHp)| + 1..];
    inner := BoolAbsorbed(s.canAttack, r, u4, v0);
    assert "," + v0 == StatsText(t, v);
  }

  lemma NumbersShort(j: int, k: int, bo: string, b: bool, r: string, t: Stats, v: string)
    requires bo == BoolText(b)
    ensures Field(IntText(j), ',', Field(IntText(k), ',', bo + r))
         != Field(IntText(t.atk), ',', Field(IntText(t.hp), ',', Field(IntText(t.maxHp), ',', BoolText(t.canAttack) + v)))
  {
    hide IntText, BoolText, Field;
    var v3 := BoolText(t.canAttack) + v;
    var v2 := Field(IntText(t.maxHp), ',', v3);
    var v1 := Field(IntText(t.hp), ',', v2);
    if Field(IntText(j), ',', Field(IntText(k), ',', bo + r)) == Field(IntText(t.atk), ',', v1) {
      IntReads(j, t.atk, ',', Field(IntText(k), ',', bo + r), v1);
      IntReads(k, t.hp, ',', bo + r, v2);
      BoolIsNoInt(b, r, t.maxHp, v3);
    }
  }

  lemma TwoShort(k: int, b: bool, r: string, t: Stats, v: string)
    ensures Field(IntText(k), ',', BoolText(b) + r)
         != Field(IntText(t.atk), ',', Field(IntText(t.hp), ',', Field(IntText(t.maxHp), ',', BoolText(t.canAttack) + v)))
  {
    hide IntText, BoolText, Field;
    var v2 := Field(IntText(t.maxHp), ',', BoolText(t.canAttack) + v);
    var v1 := Field(IntText(t.hp), ',', v2);
    if Field(IntText(k), ',', BoolText(b) + r) == Field(IntText(t.atk), ',', v1) {
      IntReads(k, t.atk, ',', BoolText(b) + r, v1);
      BoolIsNoInt(b, r, t.hp, v2);
    }
  }

  lemma BoolAbsorbed(b: bool, r: string, w: string, v: string) returns (inner: string)
    requires BoolText(b) + r == Field(w, ',', v)
    ensures w == BoolText(b) + inner && r == inner + "," + v
  {
    var x, bo := BoolText(b) + r, BoolText(b);
    assert x[|w|] == ',';
    assert ',' !in bo;
    assert forall j :: 0 <= j < |bo| ==> x[j] == bo[j];
    assert |w| >= |bo|;
    inner := w[|bo|..];
    assert w[..|bo|] == x[..|bo|] == bo;
    assert r == x[|bo|..] == Field(w, ',', v)[|bo|..];
  }

  /** A readable card id ends where its own numbers begin. */
  lemma CardEnds(x: string, s: Stats, r: string, y: string, t: Stats, v: string)
    requires Readable(y) && Follows(r) && |x| < |y|
    ensures x + StatsText(s, r) != y + StatsText(t, v)
  {
    hide StatsText;
    var whole := x + StatsText(s, r);
    if whole == y + StatsText(t, v) {
      var u := y[|x|..];
      assert x == whole[..|x|] == y[..|x|];
      assert StatsText(s, r) == whole[|x|..] == u + StatsText(t, v);
      var inner := StatsInside(s, r, u, t, v);
      assert y == x + StatsText(s, inner);
      InnerIsCut(y, x, s, r, inner, t, v);
    }
  }

  lemma InnerIsCut(y: string, x: string, s: Stats, r: string, inner: string, t: Stats, v: string)
    requires y == x + StatsText(s, inner) && r == inner + StatsText(t, v) && Follows(r)
    ensures !Readable(y)
  {
    var tail := StatsText(t, v);
    assert tail[0] == ',';
    hide StatsText;
    if EndsBoard(r) {
      assert r[0] == '|';
      assert inner != "" && inner[0] == r[0];
    } else {
      var n, w :| r == NextMinion(n, w);
      InstNamePlain(n);
      var head := ";" + InstName(n);
      assert r == head + "," + w && r[|inner|] == ',';
      assert forall j :: 0 <= j < |head| ==> r[j] == head[j];
      assert |inner| >= |head|;
      var z := inner[|head|..];
      assert inner[..|head|] == r[..|head|] == head;
      assert z != "" ==> z[0] == inner[|head|] == r[|head|];
      assert NamesNext(inner, n, z);
    }
    assert BrokenAt(y, x, s, inner);
  }

  lemma CardReads(x: string, s: Stats, r: string, y: string, t: Stats, v: string)
    requires Readable(x) && Readable(y) && Follows(r) && Follows(v)
    requires x + StatsText(s, r) == y + StatsText(t, v)
    ensures x == y && s == t && r == v
  {
    hide Readable, Follows, StatsText;
    if |x| < |y| {
      CardEnds(x, s, r, y, t, v);
    } else if |y| < |x| {
      CardEnds(y, t, v, x, s, r);
    } else {
      var a, b := x + StatsText(s, r), y + StatsText(t, v);
      assert a[..|x|] == x && b[..|y|] == y && a[|x|..] == StatsText(s, r) && b[|y|..] == StatsText(t, v);
      StatsReads(s, t, r, v);
    }
  }

  lemma MinionReads(m: Minion, n: Minion, u: string, v: string)
    requires Numbered(m.instId) && Numbered(n.instId) && Readable(m.cardId) && Readable(n.cardId)
    requires Follows(u) && Follows(v) && MinionText(m, u) == MinionText(n, v)
    ensures m == n && u == v
  {
    var i, j :| m.instId == InstName(i) && n.instId == InstName(j);
    InstNamePlain(i);
    InstNamePlain(j);
    PlainApart(m.instId, n.instId, ',');
    hide Field, StatsText, Readable, Follows, Apart, InstName;
    var x, y := m.cardId + StatsText(StatsOf(m), u), n.cardId + StatsText(StatsOf(n), v);
    SameHead(";", Field(m.instId, ',', x), Field(n.instId, ',', y));
    FieldReads(m.instId, n.instId, ',', x, y);
    CardReads(m.cardId, StatsOf(m), u, n.cardId, StatsOf(n), v);
  }

  lemma MinionFollows(m: Minion, rest: string)
    requires Numbered(m.instId)
    ensures Follows(MinionText(m, rest)) && MinionText(m, rest) != "" && MinionText(m, rest)[0] == ';'
  {
    var n :| m.instId == InstName(n);
    var t := m.cardId + StatsText(StatsOf(m), rest);
    hide StatsText, InstName;
    assert MinionText(m, rest) == NextMinion(n, t);
  }

  lemma BoardFollows(b: seq<Minion>, u: string)
    requires EndsBoard(u) && BoardReadable(b)
    ensures Follows(BoardText(b, u))
    ensures b != [] ==> BoardText(b, u) != "" && BoardText(b, u)[0] == ';'
  {
    hide MinionText, Readable, Numbered, NextMinion, EndsBoard;
    if b != [] {
      MinionFollows(b[0], BoardText(b[1..], u));
    }
  }

  lemma {:induction false} BoardReads(b: seq<Minion>, c: seq<Minion>, u: string, v: string)
    requires BoardReadable(b) && BoardReadable(c)
    requires EndsBoard(u) && EndsBoard(v) && BoardText(b, u) == BoardText(c, v)
    ensures b == c && u == v
  {
    hide MinionText, Readable, Numbered, Follows;
    BoardFollows(b, u);
    BoardFollows(c, v);
    if b != [] && c != [] {
      BoardFollows(b[1..], u);
      BoardFollows(c[1..], v);
      MinionReads(b[0], c[0], BoardText(b[1..], u), BoardText(c[1..], v));
      BoardReads(b[1..], c[1..], u, v);
      assert b == [b[0]] + b[1..] && c == [c[0]] + c[1..];
    }
  }

  lemma PlayerReads(p: PlayerState, q: PlayerState, u: string, v: string)
    requires Apart(p.id, q.id, ',') && BoardReadable(p.board) && BoardReadable(q.board)
    requires EndsBoard(u) && EndsBoard(v) && PlayerText(p, u) == PlayerText(q, v)
    ensures p == q && u == v
  {
    hide Field, IntText, ListText, BoardText, Apart, BoardReadable;
    var x7, y7 := BoardText(p.board, u), BoardText(q.board, v);
    var x6, y6 := ListText(p.deck, x7), ListText(q.deck, y7);
    var x5, y5 := ListText(p.hand, "," + x6), ListText(q.hand, "," + y6);
    var x4, y4 := Field(IntText(p.fatigue), ',', x5), Field(IntText(q.fatigue), ',', y5);
    var x3, y3 := Field(IntText(p.maxMana), ',', x4), Field(IntText(q.maxMana), ',', y4);
    var x2, y2 := Field(IntText(p.mana), ',', x3), Field(IntText(q.mana), ',', y3);
    var x1, y1 := Field(IntText(p.hp), ',', x2), Field(IntText(q.hp), ',', y2);
    SameHead("|", Field(p.id, ',', x1), Field(q.id, ',', y1));
    FieldReads(p.id, q.id, ',', x1, y1);
    IntReads(p.hp, q.hp, ',', x2, y2);
    IntReads(p.mana, q.mana, ',', x3, y3);
    IntReads(p.maxMana, q.maxMana, ',', x4, y4);
    IntReads(p.fatigue, q.fatigue, ',', x5, y5);
    ListReads(p.hand, q.hand, "," + x6, "," + y6);
    SameHead(",", x6, y6);
    ListReads(p.deck, q.deck, x7, y7);
    BoardReads(p.board, q.board, u, v);
  }

  /** The player ids of two positions end where their field ends; so it is between the same players. */
  predicate IdsApart(g: Game, h: Game) {
    Apart(g.p0.id, h.p0.id, ',') && Apart(g.p1.id, h.p1.id, ',') && Apart(g.winner, h.winner, '|')
  }

  ghost predicate Comparable(g: Game, h: Game) {
    && BoardReadable(g.p0.board) && BoardReadable(g.p1.board)
    && BoardReadable(h.p0.board) && BoardReadable(h.p1.board)
    && IdsApart(g, h)
  }

  lemma PlayersRead(g: Game, h: Game)
    requires Comparable(g, h)
    requires PlayerText(g.p0, PlayerText(g.p1, "")) == PlayerText(h.p0, PlayerText(h.p1, ""))
    ensures g.p0 == h.p0 && g.p1 == h.p1
  {
    assert EndsBoard(PlayerText(g.p1, "")) && EndsBoard(PlayerText(h.p1, ""));
    hide PlayerText, Apart, BoardReadable;
    PlayerReads(g.p0, h.p0, PlayerText(g.p1, ""), PlayerText(h.p1, ""));
    PlayerReads(g.p1, h.p1, "", "");
  }

  /** The instance counter is the one field that ends at the next player's bar. */
  lemma CounterReads(m: nat, n: nat, p: PlayerState, q: PlayerState, u: string, v: string)
    requires IntText(m) + PlayerText(p, u) == IntText(n) + PlayerText(q, v)
    ensures m == n && PlayerText(p, u) == PlayerText(q, v)
  {
    var x, y := PlayerText(p, u), PlayerText(q, v);
    assert x[0] == '|' && y[0] == '|';
    hide PlayerText, IntText;
    assert x == "|" + x[1..] && y == "|" + y[1..];
    assert IntText(m) + x == Field(IntText(m), '|', x[1..]);
    assert IntText(n) + y == Field(IntText(n), '|', y[1..]);
    IntReads(m, n, '|', x[1..], y[1..]);
  }

  /** The text of a position determines it. */
  lemma TextDetermines(g: Game, h: Game)
    requires Comparable(g, h) && Text(g) == Text(h)
    ensures g == h
  {
    hide Field, IntText, BoolText, PlayerText, BoardReadable, Apart;
    var x4, y4 := IntText(g.nextInst) + PlayerText(g.p0, PlayerText(g.p1, "")),
                  IntText(h.nextInst) + PlayerText(h.p0, PlayerText(h.p1, ""));
    var x3, y3 := Field(g.winner, '|', x4), Field(h.winner, '|', y4);
    var x2, y2 := Field(BoolText(g.over), '|', x3), Field(BoolText(h.over), '|', y3);
    var x1, y1 := Field(IntText(g.round), '|', x2), Field(IntText(h.round), '|', y2);
    IntReads(g.turn, h.turn, '|', x1, y1);
    IntReads(g.round, h.round, '|', x2, y2);
    FlagReads(g.over, h.over, x3, y3);
    FieldReads(g.winner, h.winner, '|', x4, y4);
    CounterReads(g.nextInst, h.nextInst, g.p0, h.p0, PlayerText(g.p1, ""), PlayerText(h.p1, ""));
    PlayersRead(g, h);
  }

  lemma FlagReads(a: bool, b: bool, u: string, v: string)
    requires Field(BoolText(a), '|', u) == Field(BoolText(b), '|', v)
    ensures a == b && u == v
  {
    PlainApart(BoolText(a), BoolText(b), '|');
    FieldReads(BoolText(a), BoolText(b), '|', u, v);
  }

  // ---------------------------------------------------------------- writing from the objects

  lemma {:induction false} QuotedTailAppends(s: string, rest: string)
    ensures QuotedTail(s, "") + rest == QuotedTail(s, rest)
  {
    if s != "" {
      QuotedTailAppends(s[1..], rest);
    }
  }

  lemma {:induction false} ListTailAppends(xs: seq<string>, rest: string)
    ensures ListTail(xs, "") + rest == ListTail(xs, rest)
  {
    if xs != [] {
      ListTailAppends(xs[1..], rest);
      QuotedTailAppends(xs[0], ListTail(xs[1..], ""));
      QuotedTailAppends(xs[0], ListTail(xs[1..], rest));
    }
  }

  lemma ListAppends(xs: seq<string>, rest: string)
    ensures ListText(xs, "") + rest == ListText(xs, rest)
  {
    hide ListTail, QuotedTail;
    if xs != [] {
      ListTailAppends(xs[1..], rest);
      QuotedTailAppends(xs[0], ListTail(xs[1..], ""));
      QuotedTailAppends(xs[0], ListTail(xs[1..], rest));
    }
  }

  lemma MinionAppends(m: Minion, rest: string)
    ensures MinionText(m, "") + rest == MinionText(m, rest)
  {
    hide IntText, BoolText;
  }

  lemma PersonAppends(p: PlayerState, rest: string)
    ensures PersonText(p, "") + rest == PersonText(p, rest)
  {
    hide ListText, IntText;
    ListAppends(p.deck, rest);
    var decks := "," + ListText(p.deck, "");
    ListAppends(p.hand, decks);
    ListAppends(p.hand, decks + rest);
    assert decks + rest == "," + ListText(p.deck, rest);
    assert ListText(p.hand, decks) + rest == ListText(p.hand, decks + rest);
  }

  lemma HeadAppends(turn: int, round: int, over: bool, winner: string, nextInst: int, rest: string)
    ensures HeadText(turn, round, over, winner, nextInst, "") + rest
         == HeadText(turn, round, over, winner, nextInst, rest)
  {
    hide IntText, BoolText;
  }

  /** What remains to be written from player `i` on. */
  ghost function Remaining(s: State, i: int): string
    requires s.Valid() && 0 <= i <= 2
    reads s.Repr
  {
    var g := s.Snapshot();
    if i == 0 then PlayerText(g.p0, PlayerText(g.p1, ""))
    else if i == 1 then PlayerText(g.p1, "")
    else ""
  }

  /** Writes one player, the board minion by minion. */
  method WritePlayer(p: Player, ghost rest: string) returns (text: string)
    requires p.Valid()
    ensures text + rest == PlayerText(p.Value(), rest)
  {
    hide PersonText, MinionText;
    var v := ObservePlayer(p);
    text := PersonText(v, "");
    PersonAppends(v, BoardText(v.board, rest));
    for k := 0 to p.size
      invariant p.size <= p.board.Length && p.board[..p.size] == v.board
      invariant text + BoardText(v.board[k..], rest) == PlayerText(v, rest)
    {
      var m := p.board[k];
      MinionAppends(m, BoardText(v.board[k + 1..], rest));
      assert v.board[k] == m && v.board[k..][1..] == v.board[k + 1..];
      assert (text + MinionText(m, "")) + BoardText(v.board[k + 1..], rest) == PlayerText(v, rest);
      text := text + MinionText(m, "");
    }
  }

  /** The checksum is the hash of the text, written field by field from the objects. */
  method ChecksumOf(s: State, hash: string -> string) returns (sum: string)
    requires s.Valid()
    ensures sum == hash(Text(s.Snapshot()))
  {
    hide HeadText, PlayerText;
    var text := HeadText(s.turn, s.round, s.over, s.winner, s.nextInst, "");
    HeadAppends(s.turn, s.round, s.over, s.winner, s.nextInst, Remaining(s, 0));
    for i := 0 to 2
      invariant text + Remaining(s, i) == Text(s.Snapshot())
    {
      var more := WritePlayer(s.Who(i), Remaining(s, i + 1));
      assert (text + more) + Remaining(s, i + 1) == text + Remaining(s, i);
      text := text + more;
    }
    assert text + "" == text;
    sum := hash(text);
  }
}
