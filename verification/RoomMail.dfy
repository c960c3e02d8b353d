/**
 What a room sends to its players, and what a call that panics leaves unsent
 (internal/room/room.go, state.go).
 */
module RoomMail {
  import opened Deck
  import opened Battle
  import opened BattleView

  datatype Trouble = NotStarted | BadAction | Rule(code: Code)

  datatype Message =
    | Status(ready: bool)
    | GameState(view: View)
    | Refused(why: Trouble)
    | GameOverNotice(winner: string)
    | RoomCrashed

  type Mail = seq<(string, Message)>

  /** Whether a call returned or panicked; a panic unwinds every caller up to the loop. */
  datatype Flow = Go | Panic {
    predicate IsFailure() {
      Panic?
    }

    function PropagateFailure(): Flow
      requires Panic?
    {
      Panic
    }
  }

  /** The calls number `from` up to `to` all return. */
  ghost predicate Quiet(panics: nat -> bool, from: nat, to: nat) {
    forall n :: from <= n < to ==> !panics(n)
  }

  /**
   `after` is `before` with `mail` appended, call by call: all of it if every call
   returns, otherwise up to and including the first call that panics.
   */
  ghost predicate Sends(panics: nat -> bool, before: Mail, after: Mail, mail: Mail, flow: Flow) {
    if flow.Go? then after == before + mail && Quiet(panics, |before|, |after|)
    else before < after <= before + mail && panics(|after| - 1) && Quiet(panics, |before|, |after| - 1)
  }

  lemma SendsCompose(panics: nat -> bool, a: Mail, b: Mail, c: Mail, first: Mail, second: Mail, flow: Flow)
    requires Sends(panics, a, b, first, Go) && Sends(panics, b, c, second, flow)
    ensures Sends(panics, a, c, first + second, flow)
  {
    assert a + (first + second) == b + second;
  }

  lemma NothingSent(panics: nat -> bool, a: Mail)
    ensures Sends(panics, a, a, [], Go)
  {
  }

  lemma SendsCutShort(panics: nat -> bool, a: Mail, b: Mail, first: Mail, second: Mail)
    requires Sends(panics, a, b, first, Panic)
    ensures Sends(panics, a, b, first + second, Panic)
  {
    assert a + first + second == a + (first + second);
  }

  /** What is sent, and whether a call panics, depends on nothing but the mail to be sent. */
  lemma SendsDetermined(panics: nat -> bool, a: Mail, b: Mail, b': Mail, mail: Mail, flow: Flow, flow': Flow)
    requires Sends(panics, a, b, mail, flow) && Sends(panics, a, b', mail, flow')
    ensures b == b' && flow == flow'
    ensures flow == Panic <==> exists n :: |a| <= n < |a| + |mail| && panics(n)
  {
    var all := a + mail;
    assert b == all[..|b|] && b' == all[..|b'|];
  }

  /** The view message number `n` for side `i` of a position. */
  function Numbered(g: Game, i: Side, n: nat): Message {
    GameState(ViewFor(g, i).(seqNo := n))
  }

  // ---------------------------------------------------------------- what a player knows

  datatype Topic = Attendance | Position | Events

  function TopicOf(m: Message): Topic {
    match m
    case Status(_) => Attendance
    case GameState(_) => Position
    case _ => Events
  }

  /** The latest message on that topic to that player. */
  function Latest(mail: Mail, pid: string, t: Topic): Option<Message> {
    if mail == [] then None
    else
      var (p, m) := mail[|mail| - 1];
      if p == pid && TopicOf(m) == t then Some(m) else Latest(mail[..|mail| - 1], pid, t)
  }

  lemma {:induction false} LatestAppended(a: Mail, b: Mail, pid: string, t: Topic)
    ensures Latest(a + b, pid, t) == if Latest(b, pid, t).Some? then Latest(b, pid, t) else Latest(a, pid, t)
  {
    if b == [] {
      assert a + b == a;
    } else {
      var c := b[..|b| - 1];
      LatestAppended(a, c, pid, t);
      assert (a + b)[..|a + b| - 1] == a + c;
    }
  }

  lemma LatestOfOne(p: string, m: Message, pid: string, t: Topic)
    ensures Latest([(p, m)], pid, t) == if p == pid && TopicOf(m) == t then Some(m) else None
  {
    assert [(p, m)][..0] == [];
  }

  lemma LatestOfTwo(p: string, m: Message, q: string, n: Message, pid: string, t: Topic)
    ensures Latest([(p, m)] + [(q, n)], pid, t)
         == if q == pid && TopicOf(n) == t then Some(n) else if p == pid && TopicOf(m) == t then Some(m) else None
  {
    LatestAppended([(p, m)], [(q, n)], pid, t);
    LatestOfOne(p, m, pid, t);
    LatestOfOne(q, n, pid, t);
  }
}
