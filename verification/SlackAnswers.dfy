/** What the promises of the Slack socket resolve with. */
module SlackAnswers {
  import opened Lists
  import opened SlackSocket

  // ---- Replies ------------------------------------------------------------------------------

  /** The texts delivered, in order. */
  function DeliveredIn(ops: seq<ReplyOp>): seq<string> {
    if ops == [] then [] else (if ops[0].Deliver? then [ops[0].text] else []) + DeliveredIn(ops[1..])
  }

  lemma {:induction false} DeliveredSnoc(ops: seq<ReplyOp>, op: ReplyOp)
    ensures DeliveredIn(ops + [op]) == DeliveredIn(ops) + (if op.Deliver? then [op.text] else [])
  {
    if |ops| == 0 {
      assert ops + [op] == [op] && [op][1..] == [];
    } else {
      assert (ops + [op])[1..] == ops[1..] + [op];
      DeliveredSnoc(ops[1..], op);
    }
  }

  /** A promise holds a text exactly when that text was handed to it. */
  ghost predicate HandedIs(s: Replies) {
    forall t, text :: (t in s.answers && s.answers[t] == Some(text)) <==> (t, text) in s.handed
  }

  lemma HandedStep(s: Replies, op: ReplyOp)
    requires RepliesOpen(s) && HandedIs(s)
    ensures HandedIs(ReplyStep(s, op))
  {
    hide RemoveFirst;
    var s' := ReplyStep(s, op);
    assert s.waiters != [] ==> s.waiters[0] in s.waiters;
    assert forall t: Ticket, text :: (t, text) in s.handed ==> t in s.answers;
    assert forall t :: t in Members(s.waiters) ==> t !in s.answers;
  }

  /**
   * Over every history: the replies that resolved with a text are exactly those that were handed one, and the texts
   * handed out, in their order, followed by the buffer are the texts that were delivered.
   */
  lemma {:induction false} RepliesAnswered(ops: seq<ReplyOp>)
    ensures var s := ReplyRun(ops);
            HandedIs(s) && s.delivered == DeliveredIn(ops) && Texts(s.handed) + s.buffer == DeliveredIn(ops)
  {
    if |ops| > 0 {
      hide HandedIs, DeliveredIn, Orderly, RepliesOpen;
      var init, op := ops[..|ops| - 1], ops[|ops| - 1];
      RepliesAnswered(init);
      RepliesSound(init);
      HandedStep(ReplyRun(init), op);
      DeliveredSnoc(init, op);
      assert init + [op] == ops;
    }
    RepliesInOrder(ops);
  }

  /** A reply request whose time runs out is resolved then, with nothing unless it had its text before. */
  lemma ReplyExpires(ops: seq<ReplyOp>, t: Ticket)
    requires t < ReplyRun(ops).issued
    ensures var before, after := ReplyRun(ops), ReplyRun(ops + [ExpireReply(t)]);
            && t in after.answers && t !in after.waiters
            && after.answers[t] == (if t in before.answers then before.answers[t] else None)
  {
    ReplyRunSnoc(ops, ExpireReply(t));
    RepliesSound(ops);
    WaitersIncreasing(ReplyRun(ops));
    Removed(ReplyRun(ops).waiters, t);
  }

  // ---- Buttons ------------------------------------------------------------------------------

  /** Operation `a` is the request with ticket `t`, for prompt `p`. */
  predicate AskedBy(ops: seq<ButtonOp>, a: nat, t: Ticket, p: string) {
    a < |ops| && ops[a] == AskButton(p) && |ButtonRun(ops[..a]).asked| == t
  }

  /** Request `a` and click `k` are next to each other among the operations at their prompt. */
  predicate Adjacent(ops: seq<ButtonOp>, a: nat, k: nat, p: string) {
    if a < k then Silent(ops, p, a + 1, k) else Silent(ops, p, k + 1, a)
  }

  /** The promise `t` resolved with the value of a click at its prompt, next to its request. */
  ghost predicate AnsweredFrom(ops: seq<ButtonOp>, t: Ticket, p: string, v: string) {
    exists a: nat, k: nat :: AskedBy(ops, a, t, p) && k < |ops| && ops[k] == Press(p, v) && Adjacent(ops, a, k, p)
  }

  /** The promise `t` waits for its prompt, where nothing has happened since it was requested. */
  ghost predicate WaitsSince(ops: seq<ButtonOp>, t: Ticket, p: string) {
    exists a: nat :: AskedBy(ops, a, t, p) && Silent(ops, p, a + 1, |ops|)
  }

  ghost predicate Traced(ops: seq<ButtonOp>, s: Buttons) {
    && (forall p :: p in s.waiters ==> WaitsSince(ops, s.waiters[p], p))
    && (forall t :: t in s.answers && s.answers[t].Some? ==>
          t < |s.asked| && AnsweredFrom(ops, t, s.asked[t], s.answers[t].value))
  }

  lemma AskedStays(ops: seq<ButtonOp>, op: ButtonOp, a: nat, t: Ticket, p: string)
    requires AskedBy(ops, a, t, p)
    ensures AskedBy(ops + [op], a, t, p)
  {
    hide ButtonRun;
    assert (ops + [op])[..a] == ops[..a];
  }

  lemma AnsweredStays(ops: seq<ButtonOp>, op: ButtonOp, t: Ticket, p: string, v: string)
    requires AnsweredFrom(ops, t, p, v)
    ensures AnsweredFrom(ops + [op], t, p, v)
  {
    hide AskedBy, Silent;
    var a: nat, k: nat :| AskedBy(ops, a, t, p) && k < |ops| && ops[k] == Press(p, v) && Adjacent(ops, a, k, p);
    Inside(ops, a, t, p);
    AskedStays(ops, op, a, t, p);
    SilentSnoc(ops, op, p, a + 1, k);
    SilentSnoc(ops, op, p, k + 1, a);
    assert (ops + [op])[k] == ops[k];
    assert Adjacent(ops + [op], a, k, p);
  }

  lemma Inside(ops: seq<ButtonOp>, a: nat, t: Ticket, p: string)
    requires AskedBy(ops, a, t, p)
    ensures a < |ops| && ops[a] == AskButton(p)
  {
  }

  lemma WaitsStill(ops: seq<ButtonOp>, op: ButtonOp, t: Ticket, p: string)
    requires WaitsSince(ops, t, p) && !Concerns(op, p)
    ensures WaitsSince(ops + [op], t, p)
  {
    hide AskedBy, Silent;
    var a: nat :| AskedBy(ops, a, t, p) && Silent(ops, p, a + 1, |ops|);
    Inside(ops, a, t, p);
    AskedStays(ops, op, a, t, p);
    SilentSnoc(ops, op, p, a + 1, |ops|);
  }

  /** A click for a waiting request. */
  lemma Clicked(ops: seq<ButtonOp>, t: Ticket, p: string, v: string)
    requires WaitsSince(ops, t, p)
    ensures AnsweredFrom(ops + [Press(p, v)], t, p, v)
  {
    hide AskedBy, Silent;
    var a: nat :| AskedBy(ops, a, t, p) && Silent(ops, p, a + 1, |ops|);
    var all := ops + [Press(p, v)];
    Inside(ops, a, t, p);
    AskedStays(ops, Press(p, v), a, t, p);
    SilentSnoc(ops, Press(p, v), p, a + 1, |ops|);
    assert all[|ops|] == Press(p, v) && Adjacent(all, a, |ops|, p);
  }

  /** A request for which a click sits in the buffer. */
  lemma Buffered(ops: seq<ButtonOp>, p: string)
    requires BufferIs(ops, ButtonRun(ops).buffer) && p in ButtonRun(ops).buffer
    ensures AnsweredFrom(ops + [AskButton(p)], |ButtonRun(ops).asked|, p, ButtonRun(ops).buffer[p])
  {
    var s, all := ButtonRun(ops), ops + [AskButton(p)];
    var k: nat :| Sits(ops, k, p);
    assert Silent(ops, p, k + 1, |ops|);
    assert all[..|ops|] == ops && all[|ops|] == AskButton(p);
    hide ButtonRun, Silent;
    SilentSnoc(ops, AskButton(p), p, k + 1, |ops|);
    assert AskedBy(all, |ops|, |s.asked|, p) && all[k] == ops[k] && Adjacent(all, |ops|, k, p);
  }

  lemma NewlyWaiting(ops: seq<ButtonOp>, p: string)
    ensures WaitsSince(ops + [AskButton(p)], |ButtonRun(ops).asked|, p)
  {
    var all := ops + [AskButton(p)];
    assert all[..|ops|] == ops && all[|ops|] == AskButton(p);
    hide ButtonRun;
    assert AskedBy(all, |ops|, |ButtonRun(ops).asked|, p) && Silent(all, p, |ops| + 1, |all|);
  }

  lemma TracedStep(ops: seq<ButtonOp>, op: ButtonOp)
    requires var s := ButtonRun(ops); Traced(ops, s) && BufferIs(ops, s.buffer) && ButtonsOpen(s) && ClicksKept(s)
    ensures Traced(ops + [op], ButtonRun(ops + [op]))
  {
    ButtonRunSnoc(ops, op);
    var all, s := ops + [op], ButtonRun(ops);
    var s' := ButtonStep(s, op);
    forall p | p in s'.waiters ensures WaitsSince(all, s'.waiters[p], p) {
      WaiterTraced(ops, op, p);
    }
    forall t | t in s'.answers && s'.answers[t].Some?
      ensures t < |s'.asked| && AnsweredFrom(all, t, s'.asked[t], s'.answers[t].value)
    {
      AnswerTraced(ops, op, t);
    }
  }

  lemma WaiterTraced(ops: seq<ButtonOp>, op: ButtonOp, p: string)
    requires var s := ButtonRun(ops); Traced(ops, s) && ClicksKept(s) && p in ButtonStep(s, op).waiters
    ensures WaitsSince(ops + [op], ButtonStep(ButtonRun(ops), op).waiters[p], p)
  {
    hide ButtonRun, WaitsSince, AnsweredFrom;
    var s := ButtonRun(ops);
    if op == AskButton(p) {
      NewlyWaiting(ops, p);
    } else {
      WaitsStill(ops, op, s.waiters[p], p);
    }
  }

  lemma AnswerTraced(ops: seq<ButtonOp>, op: ButtonOp, t: Ticket)
    requires var s := ButtonRun(ops); Traced(ops, s) && BufferIs(ops, s.buffer) && ButtonsOpen(s)
    requires var s' := ButtonStep(ButtonRun(ops), op); t in s'.answers && s'.answers[t].Some?
    ensures var s' := ButtonStep(ButtonRun(ops), op);
            t < |s'.asked| && AnsweredFrom(ops + [op], t, s'.asked[t], s'.answers[t].value)
  {
    hide ButtonRun, WaitsSince, AnsweredFrom, BufferIs;
    var s := ButtonRun(ops);
    if t in s.answers {
      assert s.answers[t].Some?;
      AnsweredStays(ops, op, t, s.asked[t], s.answers[t].value);
    } else if op.AskButton? {
      Buffered(ops, op.prompt);
    } else if op.Press? {
      Clicked(ops, t, op.prompt, op.value);
    }
  }

  /**
   * Over every history: a button request that resolved with a value got that of a click at its own prompt, with no
   * other request or click at that prompt between the two.
   */
  lemma {:induction false} ButtonsAnswered(ops: seq<ButtonOp>)
    ensures Traced(ops, ButtonRun(ops))
  {
    if |ops| == 0 {
      NothingTraced();
    } else {
      hide *;
      var init, op := ops[..|ops| - 1], ops[|ops| - 1];
      assert init + [op] == ops;
      ButtonsAnswered(init);
      ButtonsSound(init);
      ClicksCounted(init);
      TracedStep(init, op);
    }
  }

  lemma NothingTraced()
    ensures Traced([], ButtonRun([]))
  {
  }

  /** The same for a button request; a later request for the prompt keeps its place. */
  lemma ButtonExpires(ops: seq<ButtonOp>, t: Ticket)
    requires t < |ButtonRun(ops).asked|
    ensures var before, after := ButtonRun(ops), ButtonRun(ops + [ExpireButton(t)]);
            && t in after.answers && after.answers[t] == (if t in before.answers then before.answers[t] else None)
            && (forall p :: p in before.waiters && before.waiters[p] != t ==> p in after.waiters && after.waiters[p] == before.waiters[p])
            && (forall p :: p in after.waiters ==> after.waiters[p] != t)
  {
    ButtonRunSnoc(ops, ExpireButton(t));
    ButtonsSound(ops);
    hide ButtonRun, ClicksKept;
  }
}
