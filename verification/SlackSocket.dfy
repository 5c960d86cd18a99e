/**
 * The Slack socket: requests for a reply or a button click on one side, deliveries on the other, in any order.
 * Every request is a promise with a ticket number; `answers` holds the promises that have resolved, with None where
 * the request timed out or the socket was shut down.
 */
module SlackSocket {
  import opened Lists

  type Ticket = nat

  type Answers = map<Ticket, Option<string>>

  // ---- Replies ------------------------------------------------------------------------------

  /** `delivered` and `handed` record the history: the texts that arrived, and who was given which. */
  datatype Replies = Replies(waiters: seq<Ticket>, buffer: seq<string>, issued: nat, answers: Answers,
                             delivered: seq<string>, handed: seq<(Ticket, string)>)

  datatype ReplyOp = AskReply | Deliver(text: string) | ExpireReply(ticket: Ticket) | CloseReplies

  const NO_REPLIES: Replies := Replies([], [], 0, map[], [], [])

  function Members(ts: seq<Ticket>): set<Ticket> {
    set t | t in ts
  }

  function AllNone(answers: Answers, tickets: set<Ticket>): Answers {
    answers + map t | t in tickets :: None
  }

  function ReplyStep(s: Replies, op: ReplyOp): Replies {
    match op
    case AskReply =>
      if s.buffer != [] then
        s.(buffer := s.buffer[1..], issued := s.issued + 1, answers := s.answers[s.issued := Some(s.buffer[0])],
           handed := s.handed + [(s.issued, s.buffer[0])])
      else s.(waiters := s.waiters + [s.issued], issued := s.issued + 1)
    case Deliver(text) =>
      if s.waiters != [] then
        s.(waiters := s.waiters[1..], answers := s.answers[s.waiters[0] := Some(text)],
           delivered := s.delivered + [text], handed := s.handed + [(s.waiters[0], text)])
      else s.(buffer := s.buffer + [text], delivered := s.delivered + [text])
    case ExpireReply(t) =>
      if t >= s.issued || t in s.answers then s     // its timer was cleared, or there is none
      else s.(waiters := RemoveFirst(s.waiters, t), answers := s.answers[t := None])
    case CloseReplies =>
      s.(waiters := [], answers := AllNone(s.answers, Members(s.waiters)))
  }

  function ReplyRun(ops: seq<ReplyOp>): Replies {
    if ops == [] then NO_REPLIES else ReplyStep(ReplyRun(ops[..|ops| - 1]), ops[|ops| - 1])
  }

  lemma ReplyRunSnoc(ops: seq<ReplyOp>, op: ReplyOp)
    ensures ReplyRun(ops + [op]) == ReplyStep(ReplyRun(ops), op)
  {
    assert (ops + [op])[..|ops|] == ops;
  }

  function Texts(handed: seq<(Ticket, string)>): seq<string> {
    if handed == [] then [] else Texts(handed[..|handed| - 1]) + [handed[|handed| - 1].1]
  }

  predicate Increasing(ts: seq<Ticket>) {
    forall i, j | 0 <= i < j < |ts| :: ts[i] < ts[j]
  }

  function Served(handed: seq<(Ticket, string)>): (r: seq<Ticket>)
    ensures |r| == |handed|
  {
    if handed == [] then [] else Served(handed[..|handed| - 1]) + [handed[|handed| - 1].0]
  }

  /** Nobody is served out of turn, now or later; a waiter and a buffered text never coexist. */
  predicate Orderly(s: Replies) {
    && Increasing(Served(s.handed) + s.waiters)
    && (forall t :: t in Served(s.handed) + s.waiters ==> t < s.issued)
    && (s.waiters == [] || s.buffer == [])
    && Texts(s.handed) + s.buffer == s.delivered
  }

  /** Every request is either resolved or waiting. */
  ghost predicate RepliesOpen(s: Replies) {
    && (forall t :: t in s.waiters ==> t < s.issued && t !in s.answers)
    && (forall t :: t in s.answers ==> t < s.issued)
    && (forall t | 0 <= t < s.issued :: t in s.answers || t in s.waiters)
  }

  lemma IncreasingCons(x: Ticket, ts: seq<Ticket>)
    ensures Increasing([x] + ts) <==> Increasing(ts) && forall w :: w in ts ==> x < w
  {
    var all := [x] + ts;
    if Increasing(all) {
      forall i, j | 0 <= i < j < |ts| ensures ts[i] < ts[j] {
        assert all[i + 1] < all[j + 1];
      }
      forall w | w in ts ensures x < w {
        var i :| 0 <= i < |ts| && ts[i] == w;
        assert all[0] < all[i + 1];
      }
    } else if Increasing(ts) && forall w :: w in ts ==> x < w {
      forall i, j | 0 <= i < j < |all| ensures all[i] < all[j] {
        assert all[j] == ts[j - 1] && ts[j - 1] in ts;
      }
    }
  }

  lemma {:induction false} Removed(ts: seq<Ticket>, t: Ticket)
    ensures forall w :: w in RemoveFirst(ts, t) ==> w in ts
    ensures forall w :: w in ts && w != t ==> w in RemoveFirst(ts, t)
    ensures Increasing(ts) ==> Increasing(RemoveFirst(ts, t)) && t !in RemoveFirst(ts, t)
  {
    hide Increasing;
    if ts != [] {
      var rest := ts[1..];
      assert ts == [ts[0]] + rest;
      Removed(rest, t);
      IncreasingCons(ts[0], rest);
      IncreasingCons(ts[0], RemoveFirst(rest, t));
    }
  }

  lemma {:induction false} RemovedAfter(a: seq<Ticket>, ts: seq<Ticket>, t: Ticket)
    requires Increasing(a + ts)
    ensures Increasing(a + RemoveFirst(ts, t))
  {
    hide Increasing, RemoveFirst;
    var left := RemoveFirst(ts, t);
    Removed(ts, t);
    if a == [] {
      assert a + ts == ts && a + left == left;
    } else {
      var rest := a[1..];
      assert a + ts == [a[0]] + (rest + ts) && a + left == [a[0]] + (rest + left);
      IncreasingCons(a[0], rest + ts);
      RemovedAfter(rest, ts, t);
      forall w | w in rest + left ensures a[0] < w {
        assert w in rest + ts;
      }
      IncreasingCons(a[0], rest + left);
    }
  }

  lemma Latest(ts: seq<Ticket>, x: Ticket)
    requires Increasing(ts) && forall t :: t in ts ==> t < x
    ensures Increasing(ts + [x])
  {
    forall i, j | 0 <= i < j <= |ts| ensures (ts + [x])[i] < (ts + [x])[j] {
      assert ts[i] in ts;
    }
  }

  lemma Front(ts: seq<Ticket>, n: nat)
    requires Increasing(ts) && n <= |ts|
    ensures Increasing(ts[..n])
  {
  }

  lemma HandedOver(handed: seq<(Ticket, string)>, t: Ticket, text: string)
    ensures Texts(handed + [(t, text)]) == Texts(handed) + [text]
    ensures Served(handed + [(t, text)]) == Served(handed) + [t]
  {
    assert (handed + [(t, text)])[..|handed|] == handed;
  }

  lemma AskOrderly(s: Replies)
    requires Orderly(s)
    ensures Orderly(ReplyStep(s, AskReply))
  {
    hide Increasing, Texts, Served;
    var all := Served(s.handed) + s.waiters;
    Latest(all, s.issued);
    if s.buffer != [] {
      HandedOver(s.handed, s.issued, s.buffer[0]);
      assert s.waiters == [] && Served(s.handed) + [s.issued] + s.waiters == all + [s.issued];
      assert (Texts(s.handed) + [s.buffer[0]]) + s.buffer[1..] == Texts(s.handed) + s.buffer;
    } else {
      assert Served(s.handed) + (s.waiters + [s.issued]) == all + [s.issued];
    }
  }

  lemma DeliverOrderly(s: Replies, text: string)
    requires Orderly(s)
    ensures Orderly(ReplyStep(s, Deliver(text)))
  {
    hide Increasing, Texts, Served;
    if s.waiters != [] {
      HandedOver(s.handed, s.waiters[0], text);
      assert Served(s.handed) + [s.waiters[0]] + s.waiters[1..] == Served(s.handed) + s.waiters;
      assert (Texts(s.handed) + [text]) + [] == Texts(s.handed) + [text] && Texts(s.handed) + [] == Texts(s.handed);
    } else {
      assert Texts(s.handed) + (s.buffer + [text]) == (Texts(s.handed) + s.buffer) + [text];
    }
  }

  lemma ExpireOrderly(s: Replies, t: Ticket)
    requires Orderly(s)
    ensures Orderly(ReplyStep(s, ExpireReply(t)))
  {
    hide Increasing, Texts, Served;
    if t < s.issued && t !in s.answers {
      RemovedAfter(Served(s.handed), s.waiters, t);
      Removed(s.waiters, t);
      var s' := ReplyStep(s, ExpireReply(t));
      assert s.waiters == [] ==> s'.waiters == [];
      hide RemoveFirst;
      forall w | w in Served(s.handed) + s'.waiters ensures w < s.issued {
        assert w in Served(s.handed) + s.waiters;
      }
    }
  }

  lemma CloseOrderly(s: Replies)
    requires Orderly(s)
    ensures Orderly(ReplyStep(s, CloseReplies))
  {
    hide Increasing, Texts, Served;
    var all := Served(s.handed) + s.waiters;
    assert Served(s.handed) + [] == all[..|s.handed|];
    Front(all, |s.handed|);
    forall w | w in Served(s.handed) ensures w < s.issued {
      assert w in all;
    }
  }

  lemma ReplyStepOrderly(s: Replies, op: ReplyOp)
    requires Orderly(s)
    ensures Orderly(ReplyStep(s, op))
  {
    hide Orderly, ReplyStep;
    match op
    case AskReply => AskOrderly(s);
    case Deliver(text) => DeliverOrderly(s, text);
    case ExpireReply(t) => ExpireOrderly(s, t);
    case CloseReplies => CloseOrderly(s);
  }

  lemma ReplyStepOpen(s: Replies, op: ReplyOp)
    requires RepliesOpen(s) && Increasing(s.waiters)
    ensures RepliesOpen(ReplyStep(s, op))
  {
    hide Increasing, RemoveFirst;
    var s' := ReplyStep(s, op);
    if s.waiters != [] {
      assert s.waiters == [s.waiters[0]] + s.waiters[1..];
      IncreasingCons(s.waiters[0], s.waiters[1..]);
    }
    if op.ExpireReply? {
      Removed(s.waiters, op.ticket);
    }
    forall t | t in s'.waiters ensures t < s'.issued && t !in s'.answers {
      assert t in s.waiters || t == s.issued;
    }
    forall t | t in s'.answers ensures t < s'.issued {
      assert t in s.answers || t in s.waiters || t == s.issued;
    }
    forall t | 0 <= t < s'.issued ensures t in s'.answers || t in s'.waiters {
      assert t == s.issued || t in s.answers || t in s.waiters;
      assert t in s.waiters ==> t in Members(s.waiters);
    }
  }

  lemma WaitersIncreasing(s: Replies)
    requires Orderly(s)
    ensures Increasing(s.waiters)
  {
    assert s.waiters == (Served(s.handed) + s.waiters)[|s.handed|..];
  }

  lemma {:induction false} RepliesSound(ops: seq<ReplyOp>)
    ensures Orderly(ReplyRun(ops)) && RepliesOpen(ReplyRun(ops))
  {
    if ops != [] {
      var s := ReplyRun(ops[..|ops| - 1]);
      RepliesSound(ops[..|ops| - 1]);
      hide Orderly, RepliesOpen, ReplyStep;
      WaitersIncreasing(s);
      ReplyStepOrderly(s, ops[|ops| - 1]);
      ReplyStepOpen(s, ops[|ops| - 1]);
    }
  }

  /**
   * Main result for replies, over every interleaving: waiters and buffer are never both non-empty, the texts handed
   * out followed by the buffer are the texts delivered, and requests are served in the order they were made.
   */
  lemma RepliesInOrder(ops: seq<ReplyOp>)
    ensures var s := ReplyRun(ops);
            && (s.waiters == [] || s.buffer == [])
            && Texts(s.handed) + s.buffer == s.delivered
            && Increasing(Served(s.handed) + s.waiters)
  {
    RepliesSound(ops);
  }

  /** Each request resolves at most once: whatever follows, a resolved promise keeps its value. */
  lemma {:induction false} ReplyResolvedOnce(ops: seq<ReplyOp>, more: seq<ReplyOp>, t: Ticket)
    requires t in ReplyRun(ops).answers
    ensures t in ReplyRun(ops + more).answers && ReplyRun(ops + more).answers[t] == ReplyRun(ops).answers[t]
  {
    hide ReplyStep, Orderly, RepliesOpen;
    if more == [] {
      assert ops + more == ops;
    } else {
      var init := more[..|more| - 1];
      ReplyResolvedOnce(ops, init, t);
      assert (ops + more)[..|ops + more| - 1] == ops + init;
      RepliesSound(ops + init);
      KeepsReply(ReplyRun(ops + init), more[|more| - 1], t);
    }
  }

  lemma KeepsReply(s: Replies, op: ReplyOp, t: Ticket)
    requires RepliesOpen(s) && t in s.answers
    ensures t in ReplyStep(s, op).answers && ReplyStep(s, op).answers[t] == s.answers[t]
  {
    hide RemoveFirst;
    assert s.waiters != [] ==> s.waiters[0] in s.waiters;
  }

  /** A shutdown resolves every reply request. */
  lemma ClosedReplies(ops: seq<ReplyOp>)
    ensures var s := ReplyRun(ops + [CloseReplies]);
            s.waiters == [] && forall t | 0 <= t < s.issued :: t in s.answers
  {
    assert (ops + [CloseReplies])[..|ops|] == ops;
    RepliesSound(ops);
  }

  // ---- Buttons ------------------------------------------------------------------------------

  /** `asked[t]` is the prompt of request t. The last four fields record the history: requests pushed out of the
      map by a later one for the same prompt, and clicks that arrived, were handed out, or were overwritten. */
  datatype Buttons = Buttons(waiters: map<string, Ticket>, buffer: map<string, string>, asked: seq<string>, answers: Answers,
                             superseded: set<Ticket>, clicks: nat, handedOut: nat, lost: nat)

  datatype ButtonOp = AskButton(prompt: string) | Press(prompt: string, value: string) | ExpireButton(ticket: Ticket) | CloseButtons

  const NO_BUTTONS: Buttons := Buttons(map[], map[], [], map[], {}, 0, 0, 0)

  predicate IsWaiting(s: Buttons, t: Ticket) {
    t < |s.asked| && s.asked[t] in s.waiters && s.waiters[s.asked[t]] == t
  }

  function WaitingTickets(s: Buttons): set<Ticket> {
    set t | 0 <= t < |s.asked| && IsWaiting(s, t)
  }

  function ButtonStep(s: Buttons, op: ButtonOp): Buttons {
    match op
    case AskButton(p) =>
      var t, asked := |s.asked|, s.asked + [p];
      if p in s.buffer then
        s.(buffer := s.buffer - {p}, asked := asked, answers := s.answers[t := Some(s.buffer[p])], handedOut := s.handedOut + 1)
      else
        s.(waiters := s.waiters[p := t], asked := asked,
           superseded := if p in s.waiters then s.superseded + {s.waiters[p]} else s.superseded)
    case Press(p, value) =>
      if p in s.waiters then
        s.(waiters := s.waiters - {p}, answers := s.answers[s.waiters[p] := Some(value)],
           clicks := s.clicks + 1, handedOut := s.handedOut + 1)
      else
        s.(buffer := s.buffer[p := value], clicks := s.clicks + 1, lost := if p in s.buffer then s.lost + 1 else s.lost)
    case ExpireButton(t) =>
      if t >= |s.asked| || t in s.answers then s
      else s.(waiters := if IsWaiting(s, t) then s.waiters - {s.asked[t]} else s.waiters, answers := s.answers[t := None])
    case CloseButtons =>
      s.(waiters := map[], answers := AllNone(s.answers, WaitingTickets(s)))
  }

  function ButtonRun(ops: seq<ButtonOp>): Buttons {
    if ops == [] then NO_BUTTONS else ButtonStep(ButtonRun(ops[..|ops| - 1]), ops[|ops| - 1])
  }

  lemma ButtonRunSnoc(ops: seq<ButtonOp>, op: ButtonOp)
    ensures ButtonRun(ops + [op]) == ButtonStep(ButtonRun(ops), op)
  {
    assert (ops + [op])[..|ops|] == ops;
  }

  /** A waiter waits for its own prompt, unanswered; every request is answered, waiting or superseded. */
  ghost predicate ButtonsOpen(s: Buttons) {
    && (forall p :: p in s.waiters ==>
          s.waiters[p] < |s.asked| && s.asked[s.waiters[p]] == p && s.waiters[p] !in s.answers && s.waiters[p] !in s.superseded)
    && (forall t :: t in s.answers || t in s.superseded ==> t < |s.asked|)
    && (forall t | 0 <= t < |s.asked| :: t in s.answers || t in s.superseded || IsWaiting(s, t))
  }

  predicate ClicksKept(s: Buttons) {
    && (forall p :: p in s.buffer ==> p !in s.waiters)
    && s.clicks == s.handedOut + |s.buffer| + s.lost
  }

  lemma AskOpen(s: Buttons, p: string)
    requires ButtonsOpen(s) && ClicksKept(s)
    ensures ButtonsOpen(ButtonStep(s, AskButton(p)))
  {
    var s' := ButtonStep(s, AskButton(p));
    forall t | 0 <= t < |s'.asked| ensures t in s'.answers || t in s'.superseded || IsWaiting(s', t) {
      if t < |s.asked| && IsWaiting(s, t) && p == s.asked[t] {
        assert s.waiters[p] == t;
      }
    }
  }

  lemma PressOpen(s: Buttons, p: string, v: string)
    requires ButtonsOpen(s)
    ensures ButtonsOpen(ButtonStep(s, Press(p, v)))
  {
    var s' := ButtonStep(s, Press(p, v));
    forall t | 0 <= t < |s'.asked| ensures t in s'.answers || t in s'.superseded || IsWaiting(s', t) {
      assert IsWaiting(s, t) && p == s.asked[t] ==> s.waiters[p] == t;
    }
  }

  lemma ExpireOpen(s: Buttons, u: Ticket)
    requires ButtonsOpen(s)
    ensures ButtonsOpen(ButtonStep(s, ExpireButton(u)))
  {
    var s' := ButtonStep(s, ExpireButton(u));
    forall t | 0 <= t < |s'.asked| ensures t in s'.answers || t in s'.superseded || IsWaiting(s', t) {
      if u < |s.asked| && IsWaiting(s, t) && t != u && s.asked[t] == s.asked[u] {
        assert !IsWaiting(s, u);
      }
    }
  }

  lemma ClicksStep(s: Buttons, op: ButtonOp)
    requires ClicksKept(s)
    ensures ClicksKept(ButtonStep(s, op))
  {
    hide IsWaiting;
    if op.AskButton? && op.prompt in s.buffer {
      assert s.buffer.Keys - {op.prompt} == (s.buffer - {op.prompt}).Keys;
      assert |s.buffer - {op.prompt}| == |s.buffer| - 1;
    }
  }

  lemma ButtonStepOpen(s: Buttons, op: ButtonOp)
    requires ButtonsOpen(s) && ClicksKept(s)
    ensures ButtonsOpen(ButtonStep(s, op)) && ClicksKept(ButtonStep(s, op))
  {
    hide ClicksKept;
    ClicksStep(s, op);
    match op
    case AskButton(p) => AskOpen(s, p);
    case Press(p, v) => PressOpen(s, p, v);
    case ExpireButton(u) => ExpireOpen(s, u);
    case CloseButtons =>
  }

  lemma {:induction false} ButtonsSound(ops: seq<ButtonOp>)
    ensures ButtonsOpen(ButtonRun(ops)) && ClicksKept(ButtonRun(ops))
  {
    if ops != [] {
      hide ButtonsOpen, ClicksKept, ButtonStep;
      ButtonsSound(ops[..|ops| - 1]);
      ButtonStepOpen(ButtonRun(ops[..|ops| - 1]), ops[|ops| - 1]);
    }
  }

  /** Each button request resolves at most once. */
  lemma {:induction false} ButtonResolvedOnce(ops: seq<ButtonOp>, more: seq<ButtonOp>, t: Ticket)
    requires t in ButtonRun(ops).answers
    ensures t in ButtonRun(ops + more).answers && ButtonRun(ops + more).answers[t] == ButtonRun(ops).answers[t]
  {
    hide ButtonStep, ButtonsOpen, ClicksKept;
    if more == [] {
      assert ops + more == ops;
    } else {
      var init := more[..|more| - 1];
      ButtonResolvedOnce(ops, init, t);
      assert (ops + more)[..|ops + more| - 1] == ops + init;
      ButtonsSound(ops + init);
      StepKeepsAnswer(ButtonRun(ops + init), more[|more| - 1], t);
    }
  }

  lemma StepKeepsAnswer(s: Buttons, op: ButtonOp, t: Ticket)
    requires ButtonsOpen(s) && t in s.answers
    ensures t in ButtonStep(s, op).answers && ButtonStep(s, op).answers[t] == s.answers[t]
  {
    assert s.asked[t] in s.waiters ==> s.waiters[s.asked[t]] != t;
  }

  /**
   * After a shutdown the only button requests still open are those that a later request for the same prompt pushed
   * out of the map: they are left to their own timers.
   */
  lemma ClosedButtons(ops: seq<ButtonOp>)
    ensures var s := ButtonRun(ops + [CloseButtons]);
            s.waiters == map[] && forall t | 0 <= t < |s.asked| :: t in s.answers || t in s.superseded
  {
    assert (ops + [CloseButtons])[..|ops|] == ops;
    ButtonsSound(ops);
  }

  /** A shutdown resolves every button request exactly when each superseded one has resolved before. */
  lemma ShutdownResolvesAllIff(ops: seq<ButtonOp>)
    ensures var b, s := ButtonRun(ops), ButtonRun(ops + [CloseButtons]);
            (forall t | 0 <= t < |s.asked| :: t in s.answers) <==> (forall t :: t in b.superseded ==> t in b.answers)
  {
    var b := ButtonRun(ops);
    ButtonsSound(ops);
    ButtonRunSnoc(ops, CloseButtons);
    hide ButtonRun;
    var s := ButtonStep(b, CloseButtons);
    forall t | 0 <= t < |s.asked| ensures t in s.answers <==> t in b.answers || IsWaiting(b, t) {
      assert t in WaitingTickets(b) <==> IsWaiting(b, t);
    }
    forall t | t in b.superseded ensures t < |s.asked| && !IsWaiting(b, t) {
    }
  }

  /** The gap is real: two requests for one prompt, then a shutdown, and the first promise stays open. */
  lemma SupersededStaysOpen(p: string)
    ensures 0 !in ButtonRun([AskButton(p), AskButton(p), CloseButtons]).answers
  {
    var a, b, c := AskButton(p), AskButton(p), CloseButtons;
    assert [a, b, c][..2] == [a, b] && [a, b][..1] == [a] && [a][..0] == [];
    var s1 := ButtonStep(NO_BUTTONS, a);
    var s2 := ButtonStep(s1, b);
    assert ButtonRun([a]) == s1 && ButtonRun([a, b]) == s2;
    assert s2.waiters == map[p := 1] && s2.answers == map[];
    assert !IsWaiting(s2, 0);
  }

  // ---- Where the clicks go ------------------------------------------------------------------

  /** A request or a click for the prompt. */
  predicate Concerns(op: ButtonOp, p: string) {
    (op.AskButton? || op.Press?) && op.prompt == p
  }

  /** Operation `k` is a click at `p` for which nobody waited when it came. */
  predicate Unclaimed(ops: seq<ButtonOp>, k: nat, p: string) {
    k < |ops| && ops[k].Press? && ops[k].prompt == p && p !in ButtonRun(ops[..k]).waiters
  }

  predicate Silent(ops: seq<ButtonOp>, p: string, from: nat, to: nat) {
    forall m | from <= m < to && m < |ops| :: !Concerns(ops[m], p)
  }

  /** An unclaimed click after which nothing happened at its prompt. */
  predicate Sits(ops: seq<ButtonOp>, k: nat, p: string) {
    Unclaimed(ops, k, p) && Silent(ops, p, k + 1, |ops|)
  }

  /** An unclaimed click after which the next thing at its prompt was the click at `j`. */
  predicate OverwrittenAt(ops: seq<ButtonOp>, k: nat, p: string, j: nat) {
    && Unclaimed(ops, k, p) && Silent(ops, p, k + 1, j)
    && k < j < |ops| && ops[j].Press? && ops[j].prompt == p
  }

  ghost predicate Overwritten(ops: seq<ButtonOp>, k: nat, p: string) {
    exists j: nat :: OverwrittenAt(ops, k, p, j)
  }

  ghost function OverwrittenClicks(ops: seq<ButtonOp>): set<nat> {
    set k: nat | k < |ops| && ops[k].Press? && Overwritten(ops, k, ops[k].prompt)
  }

  function Clicks(ops: seq<ButtonOp>): set<nat> {
    set k: nat | k < |ops| && ops[k].Press?
  }

  /** The requests that were answered with a click. */
  function AnsweredByClick(s: Buttons): set<Ticket> {
    set t | t in s.answers && s.answers[t].Some?
  }

  lemma SilentSnoc(ops: seq<ButtonOp>, op: ButtonOp, p: string, from: nat, to: nat)
    requires from <= |ops|
    ensures to <= |ops| ==> (Silent(ops + [op], p, from, to) <==> Silent(ops, p, from, to))
    ensures Silent(ops + [op], p, from, |ops| + 1) <==> Silent(ops, p, from, |ops|) && !Concerns(op, p)
  {
    var all := ops + [op];
    assert all[|ops|] == op;
    assert forall m | 0 <= m < |ops| :: all[m] == ops[m];
  }

  lemma SitsSnoc(ops: seq<ButtonOp>, op: ButtonOp, k: nat, p: string)
    requires k < |ops|
    ensures Sits(ops + [op], k, p) <==> Sits(ops, k, p) && !Concerns(op, p)
  {
    hide ButtonRun, Silent;
    assert (ops + [op])[..k] == ops[..k];
    SilentSnoc(ops, op, p, k + 1, |ops|);
  }

  lemma OverwrittenSnoc(ops: seq<ButtonOp>, op: ButtonOp, k: nat, p: string)
    requires k < |ops|
    ensures Overwritten(ops + [op], k, p) <==> Overwritten(ops, k, p) || (Sits(ops, k, p) && op.Press? && op.prompt == p)
  {
    hide ButtonRun, Silent;
    var all := ops + [op];
    assert all[..k] == ops[..k];
    forall j: nat | j < |ops| ensures OverwrittenAt(all, k, p, j) <==> OverwrittenAt(ops, k, p, j) {
      SilentSnoc(ops, op, p, k + 1, j);
    }
    SilentSnoc(ops, op, p, k + 1, |ops|);
    assert OverwrittenAt(all, k, p, |ops|) <==> Sits(ops, k, p) && op.Press? && op.prompt == p;
  }

  /** A click that sits has not been overwritten. */
  lemma SitsStill(ops: seq<ButtonOp>, k: nat, p: string)
    requires Sits(ops, k, p)
    ensures k < |ops| && ops[k].Press? && ops[k].prompt == p && !Overwritten(ops, k, p)
  {
    hide ButtonRun;
    forall j: nat ensures !OverwrittenAt(ops, k, p, j) {
      assert j < |ops| && ops[j].Press? && ops[j].prompt == p ==> Concerns(ops[j], p);
    }
  }

  lemma OneSits(ops: seq<ButtonOp>, j: nat, k: nat, p: string)
    requires Sits(ops, j, p) && Sits(ops, k, p)
    ensures j == k
  {
    hide ButtonRun;
    assert Concerns(ops[j], p) && Concerns(ops[k], p);
  }

  lemma LastClick(ops: seq<ButtonOp>, op: ButtonOp, p: string)
    ensures !Overwritten(ops + [op], |ops|, p)
    ensures Sits(ops + [op], |ops|, p) <==> op.Press? && op.prompt == p && p !in ButtonRun(ops).waiters
  {
    hide ButtonRun;
    assert (ops + [op])[..|ops|] == ops;
  }

  /** The buffer holds exactly the clicks that sit. */
  ghost predicate BufferIs(ops: seq<ButtonOp>, buffer: map<string, string>) {
    && (forall k: nat, p :: Sits(ops, k, p) ==> p in buffer && k < |ops| && ops[k] == Press(p, buffer[p]))
    && (forall p :: p in buffer ==> exists k: nat :: Sits(ops, k, p))
  }

  lemma BufferAfter(s: Buttons, op: ButtonOp, p: string)
    requires ClicksKept(s)
    ensures var s', kept, added := ButtonStep(s, op), !Concerns(op, p) && p in s.buffer, op.Press? && op.prompt == p && p !in s.waiters;
            && (p in s'.buffer <==> kept || added)
            && (kept ==> s'.buffer[p] == s.buffer[p])
            && (added ==> s'.buffer[p] == op.value)
  {
  }

  lemma BufferStep(ops: seq<ButtonOp>, op: ButtonOp)
    requires BufferIs(ops, ButtonRun(ops).buffer) && ClicksKept(ButtonRun(ops))
    ensures BufferIs(ops + [op], ButtonRun(ops + [op]).buffer)
  {
    ButtonRunSnoc(ops, op);
    var all, s := ops + [op], ButtonRun(ops);
    var s' := ButtonStep(s, op);
    hide ButtonRun, Sits, ButtonStep, ClicksKept;
    forall k: nat, p | Sits(all, k, p) ensures p in s'.buffer && k < |all| && all[k] == Press(p, s'.buffer[p]) {
      SitsStill(all, k, p);
      LastClick(ops, op, p);
      BufferAfter(s, op, p);
      if k < |ops| {
        SitsSnoc(ops, op, k, p);
      }
    }
    forall p | p in s'.buffer ensures exists k: nat :: Sits(all, k, p) {
      LastClick(ops, op, p);
      BufferAfter(s, op, p);
      if !(op.Press? && op.prompt == p && p !in s.waiters) {
        var k: nat :| Sits(ops, k, p);
        SitsSnoc(ops, op, k, p);
      }
    }
  }

  /** Which clicks are overwritten once `op` has happened. */
  lemma OverwrittenAfter(ops: seq<ButtonOp>, op: ButtonOp, k: nat)
    requires k <= |ops| && (ops + [op])[k].Press?
    ensures var p := (ops + [op])[k].prompt;
            Overwritten(ops + [op], k, p) <==>
            k < |ops| && (Overwritten(ops, k, p) || (Sits(ops, k, p) && op.Press? && op.prompt == p))
  {
    hide Sits, Overwritten;
    var p := (ops + [op])[k].prompt;
    LastClick(ops, op, p);
    if k < |ops| {
      OverwrittenSnoc(ops, op, k, p);
    }
  }

  lemma LostStep(ops: seq<ButtonOp>, op: ButtonOp)
    requires BufferIs(ops, ButtonRun(ops).buffer)
    ensures |OverwrittenClicks(ops + [op])| == |OverwrittenClicks(ops)| + (if op.Press? && op.prompt in ButtonRun(ops).buffer then 1 else 0)
  {
    var all, s := ops + [op], ButtonRun(ops);
    hide ButtonRun, Sits, Overwritten;
    assert forall k: nat | k < |ops| :: all[k] == ops[k];
    forall k: nat | k < |all| && all[k].Press?
      ensures k in OverwrittenClicks(all) <==>
              k in OverwrittenClicks(ops) || (k < |ops| && op.Press? && Sits(ops, k, op.prompt) && op.prompt == all[k].prompt)
    {
      OverwrittenAfter(ops, op, k);
    }
    forall k: nat, p | Sits(ops, k, p) ensures k < |ops| && ops[k].Press? && ops[k].prompt == p && k !in OverwrittenClicks(ops) {
      SitsStill(ops, k, p);
    }
    if op.Press? && op.prompt in s.buffer {
      var k: nat :| Sits(ops, k, op.prompt);
      forall j: nat | Sits(ops, j, op.prompt) ensures j == k {
        OneSits(ops, j, k, op.prompt);
      }
      assert OverwrittenClicks(all) == OverwrittenClicks(ops) + {k};
    } else {
      assert OverwrittenClicks(all) == OverwrittenClicks(ops);
    }
  }

  /** A step answers one request with a click, or changes none of the answers that came from clicks. */
  lemma AnsweredBy(s: Buttons, op: ButtonOp)
    requires ButtonsOpen(s)
    ensures var s' := ButtonStep(s, op);
            if s'.handedOut == s.handedOut then AnsweredByClick(s') == AnsweredByClick(s)
            else s'.handedOut == s.handedOut + 1 && exists t: Ticket :: t !in s.answers && AnsweredByClick(s') == AnsweredByClick(s) + {t}
  {
    var s' := ButtonStep(s, op);
    match op
    case AskButton(p) => if p in s.buffer {
      assert AnsweredByClick(s') == AnsweredByClick(s) + {|s.asked|};
    }
    case Press(p, _) => if p in s.waiters {
      assert AnsweredByClick(s') == AnsweredByClick(s) + {s.waiters[p]};
    }
    case ExpireButton(t) => assert AnsweredByClick(s') == AnsweredByClick(s);
    case CloseButtons =>
      WaitingInMap(s);
      assert s'.answers == AllNone(s.answers, s.waiters.Values);
      hide ButtonStep, WaitingTickets;
      assert AnsweredByClick(s') == AnsweredByClick(s);
  }

  lemma AnsweredStep(s: Buttons, op: ButtonOp)
    requires ButtonsOpen(s)
    ensures |AnsweredByClick(ButtonStep(s, op))| - |AnsweredByClick(s)| == ButtonStep(s, op).handedOut - s.handedOut
  {
    hide ButtonStep, ButtonsOpen;
    AnsweredBy(s, op);
  }

  lemma ClicksSnoc(ops: seq<ButtonOp>, op: ButtonOp)
    ensures |Clicks(ops + [op])| == |Clicks(ops)| + (if op.Press? then 1 else 0)
  {
    var all := ops + [op];
    if op.Press? {
      assert Clicks(all) == Clicks(ops) + {|ops|};
    } else {
      assert Clicks(all) == Clicks(ops);
    }
  }

  lemma {:induction false} ClicksCounted(ops: seq<ButtonOp>)
    ensures var s := ButtonRun(ops);
            && BufferIs(ops, s.buffer)
            && s.clicks == |Clicks(ops)| && s.handedOut == |AnsweredByClick(s)| && s.lost == |OverwrittenClicks(ops)|
  {
    if |ops| == 0 {
      NoClicks();
    } else {
      hide BufferIs, OverwrittenClicks, AnsweredByClick, Clicks, ButtonsOpen, ClicksKept, ButtonStep;
      var init, op := ops[..|ops| - 1], ops[|ops| - 1];
      assert init + [op] == ops;
      ClicksCounted(init);
      ButtonsSound(init);
      BufferStep(init, op);
      LostStep(init, op);
      AnsweredStep(ButtonRun(init), op);
      ClicksSnoc(init, op);
      Counters(ButtonRun(init), op);
    }
  }

  lemma NoClicks()
    ensures BufferIs([], map[]) && Clicks([]) == {} && AnsweredByClick(NO_BUTTONS) == {} && OverwrittenClicks([]) == {}
  {
  }

  lemma Counters(s: Buttons, op: ButtonOp)
    requires ClicksKept(s)
    ensures var s' := ButtonStep(s, op);
            && s'.clicks == s.clicks + (if op.Press? then 1 else 0)
            && s'.lost == s.lost + (if op.Press? && op.prompt in s.buffer then 1 else 0)
  {
  }

  /**
   * Main result for clicks, over every history: each is handed to a request, sits in the buffer or is lost. The
   * buffer holds those for which nobody waited and after which nothing happened at their prompt; lost are exactly
   * those for which nobody waited and after which the next thing at their prompt was another click.
   */
  lemma ClicksConserved(ops: seq<ButtonOp>)
    ensures var s := ButtonRun(ops);
            && BufferIs(ops, s.buffer)
            && |Clicks(ops)| == |AnsweredByClick(s)| + |s.buffer| + |OverwrittenClicks(ops)|
  {
    hide BufferIs, OverwrittenClicks, AnsweredByClick, Clicks;
    ClicksCounted(ops);
    ButtonsSound(ops);
  }

  // ---- The object ---------------------------------------------------------------------------

  class InteractiveSocket {
    var replyWaiters: seq<Ticket>
    var replyBuffer: seq<string>
    var buttonWaiters: map<string, Ticket>
    var buttonBuffer: map<string, string>
    // The promises: how many replies and which prompts were asked for, and what has resolved.
    var replies: nat
    var prompts: seq<string>
    var replyAnswers: Answers
    var buttonAnswers: Answers
    ghost var replyOps: seq<ReplyOp>
    ghost var buttonOps: seq<ButtonOp>

    ghost predicate RepliesAre(r: Replies)
      reads this
    {
      r.waiters == replyWaiters && r.buffer == replyBuffer && r.issued == replies && r.answers == replyAnswers
    }

    ghost predicate ButtonsAre(b: Buttons)
      reads this
    {
      b.waiters == buttonWaiters && b.buffer == buttonBuffer && b.asked == prompts && b.answers == buttonAnswers
    }

    /** The fields are what the operations so far make of them. */
    ghost predicate Valid()
      reads this
    {
      && RepliesAre(ReplyRun(replyOps)) && ButtonsAre(ButtonRun(buttonOps))
    }

    constructor ()
      ensures Valid() && replyOps == [] && buttonOps == []
    {
      replyWaiters, replyBuffer, buttonWaiters, buttonBuffer := [], [], map[], map[];
      replies, prompts, replyAnswers, buttonAnswers := 0, [], map[], map[];
      replyOps, buttonOps := [], [];
    }

    method NextReply() returns (t: Ticket)
      requires Valid()
      modifies this
      ensures Valid() && t == old(replies) && replyOps == old(replyOps) + [AskReply] && buttonOps == old(buttonOps)
    {
      hide ReplyRun, ButtonRun;
      t := replies;
      replies := replies + 1;
      if |replyBuffer| > 0 {
        replyAnswers := replyAnswers[t := Some(replyBuffer[0])];
        replyBuffer := replyBuffer[1..];
      } else {
        replyWaiters := replyWaiters + [t];
      }
      ReplyRunSnoc(replyOps, AskReply);
      replyOps := replyOps + [AskReply];
    }

    method DeliverReply(text: string)
      requires Valid()
      modifies this
      ensures Valid() && replyOps == old(replyOps) + [Deliver(text)] && buttonOps == old(buttonOps)
    {
      hide ReplyRun, ButtonRun;
      if |replyWaiters| > 0 {
        replyAnswers := replyAnswers[replyWaiters[0] := Some(text)];
        replyWaiters := replyWaiters[1..];
      } else {
        replyBuffer := replyBuffer + [text];
      }
      ReplyRunSnoc(replyOps, Deliver(text));
      replyOps := replyOps + [Deliver(text)];
    }

    /** The hard cap of reply request `t` runs out; a request that has resolved has no timer left. */
    method ReplyTimeout(t: Ticket)
      requires Valid()
      modifies this
      ensures Valid() && replyOps == old(replyOps) + [ExpireReply(t)] && buttonOps == old(buttonOps)
    {
      hide ReplyRun, ButtonRun;
      if t < replies && t !in replyAnswers {
        replyWaiters := RemoveFirst(replyWaiters, t);
        replyAnswers := replyAnswers[t := None];
      }
      ReplyRunSnoc(replyOps, ExpireReply(t));
      replyOps := replyOps + [ExpireReply(t)];
    }

    method NextButton(prompt: string) returns (t: Ticket)
      requires Valid()
      modifies this
      ensures Valid() && t == |old(prompts)| && buttonOps == old(buttonOps) + [AskButton(prompt)] && replyOps == old(replyOps)
    {
      hide ReplyRun, ButtonRun;
      t := |prompts|;
      prompts := prompts + [prompt];
      if prompt in buttonBuffer {
        buttonAnswers := buttonAnswers[t := Some(buttonBuffer[prompt])];
        buttonBuffer := buttonBuffer - {prompt};
      } else {
        buttonWaiters := buttonWaiters[prompt := t];
      }
      ButtonRunSnoc(buttonOps, AskButton(prompt));
      buttonOps := buttonOps + [AskButton(prompt)];
    }

    method DeliverButton(prompt: string, value: string)
      requires Valid()
      modifies this
      ensures Valid() && buttonOps == old(buttonOps) + [Press(prompt, value)] && replyOps == old(replyOps)
    {
      hide ReplyRun, ButtonRun;
      if prompt in buttonWaiters {
        buttonAnswers := buttonAnswers[buttonWaiters[prompt] := Some(value)];
        buttonWaiters := buttonWaiters - {prompt};
      } else {
        buttonBuffer := buttonBuffer[prompt := value];
      }
      ButtonRunSnoc(buttonOps, Press(prompt, value));
      buttonOps := buttonOps + [Press(prompt, value)];
    }

    /** The hard cap of button request `t` runs out; it leaves the map only if the entry is its own. */
    method ButtonTimeout(t: Ticket)
      requires Valid()
      modifies this
      ensures Valid() && buttonOps == old(buttonOps) + [ExpireButton(t)] && replyOps == old(replyOps)
    {
      hide ReplyRun, ButtonRun;
      if t < |prompts| && t !in buttonAnswers {
        if prompts[t] in buttonWaiters && buttonWaiters[prompts[t]] == t {
          buttonWaiters := buttonWaiters - {prompts[t]};
        }
        buttonAnswers := buttonAnswers[t := None];
      }
      ButtonRunSnoc(buttonOps, ExpireButton(t));
      buttonOps := buttonOps + [ExpireButton(t)];
    }

    method DrainReplies()
      requires Valid()
      modifies this
      ensures Valid() && replyOps == old(replyOps) + [CloseReplies] && buttonOps == old(buttonOps)
    {
      hide ReplyRun, ButtonRun, AllNone, Members;
      replyAnswers := ResolveList(replyAnswers, replyWaiters);
      replyWaiters := [];
      ReplyRunSnoc(replyOps, CloseReplies);
      replyOps := replyOps + [CloseReplies];
    }

    method DrainButtons()
      requires Valid()
      modifies this
      ensures Valid() && buttonOps == old(buttonOps) + [CloseButtons] && replyOps == old(replyOps)
    {
      hide ReplyRun, ButtonRun, ButtonStep, ButtonsOpen, ClicksKept, AllNone;
      ButtonsSound(buttonOps);
      CloseStep(ButtonRun(buttonOps));
      buttonAnswers := ResolveValues(buttonAnswers, buttonWaiters);
      buttonWaiters := map[];
      ButtonRunSnoc(buttonOps, CloseButtons);
      buttonOps := buttonOps + [CloseButtons];
    }

    method Shutdown()
      requires Valid()
      modifies this
      ensures Valid() && replyOps == old(replyOps) + [CloseReplies] && buttonOps == old(buttonOps) + [CloseButtons]
    {
      hide ReplyRun, ButtonRun;
      DrainReplies();
      DrainButtons();
    }
  }

  lemma WaitingInMap(s: Buttons)
    requires ButtonsOpen(s)
    ensures WaitingTickets(s) == s.waiters.Values
  {
    forall p | p in s.waiters ensures IsWaiting(s, s.waiters[p]) {
    }
  }

  lemma CloseStep(s: Buttons)
    requires ButtonsOpen(s)
    ensures ButtonStep(s, CloseButtons) == s.(waiters := map[], answers := AllNone(s.answers, s.waiters.Values))
  {
    hide ButtonsOpen, WaitingTickets, AllNone;
    WaitingInMap(s);
  }

  lemma OneMoreNone(answers: Answers, done: set<Ticket>, t: Ticket)
    ensures AllNone(answers, done)[t := None] == AllNone(answers, done + {t})
  {
  }

  method ResolveList(answers: Answers, waiters: seq<Ticket>) returns (r: Answers)
    ensures r == AllNone(answers, Members(waiters))
  {
    assert AllNone(answers, {}) == answers;
    hide AllNone;
    r := answers;
    ghost var done: set<Ticket> := {};
    for i := 0 to |waiters|
      invariant r == AllNone(answers, done) && forall t :: t in done <==> t in waiters[..i]
    {
      OneMoreNone(answers, done, waiters[i]);
      r := r[waiters[i] := None];
      done := done + {waiters[i]};
    }
    assert waiters[..|waiters|] == waiters;
    assert done == Members(waiters);
  }

  method ResolveValues(answers: Answers, waiters: map<string, Ticket>) returns (r: Answers)
    ensures r == AllNone(answers, waiters.Values)
  {
    assert AllNone(answers, {}) == answers;
    hide AllNone;
    r := answers;
    var left := waiters.Keys;
    ghost var done: set<Ticket> := {};
    while left != {}
      invariant left <= waiters.Keys && r == AllNone(answers, done) && done <= waiters.Values
      invariant forall p :: p in waiters && p !in left ==> waiters[p] in done
      decreases |left|
    {
      var p :| p in left;
      OneMoreNone(answers, done, waiters[p]);
      r := r[waiters[p] := None];
      done := done + {waiters[p]};
      left := left - {p};
    }
    assert done == waiters.Values;
  }
}
