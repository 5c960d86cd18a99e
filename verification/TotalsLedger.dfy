/** What the totals and the summary of a log hold, field by field, read off the calls and events themselves. */
module TotalsLedger {
  import opened Lists
  import opened Totals

  // ---- The totals ---------------------------------------------------------------------------

  /** The tokens of each kind, dollars, savings and calls, summed over the calls. */
  function Booked(calls: seq<Call>): Bucket {
    if calls == [] then Bucket(0, 0, 0, 0, 0.0, 0.0, 0, 0)
    else
      var u, rest := calls[0].usage, Booked(calls[1..]);
      Bucket(u.input + rest.input, u.output + rest.output, u.cacheRead + rest.cacheRead, u.cacheWrite + rest.cacheWrite,
             EstimateCost(u) + rest.cost, CacheSavings(u) + rest.saved, 1 + rest.calls,
             (if u.provider == Anthropic then 1 else 0) + rest.anthropicCalls)
  }

  function OfRole(calls: seq<Call>, role: Role): seq<Call> {
    if calls == [] then [] else (if calls[0].role == role then [calls[0]] else []) + OfRole(calls[1..], role)
  }

  function OfName(calls: seq<Call>, name: string): seq<Call> {
    if calls == [] then []
    else (if calls[0].role == Subagent && calls[0].name == name then [calls[0]] else []) + OfName(calls[1..], name)
  }

  lemma {:induction false} BookedSnoc(calls: seq<Call>, c: Call)
    ensures Booked(calls + [c]) == Plus(Booked(calls), Weight(c.usage))
  {
    hide EstimateCost, CacheSavings;
    if |calls| == 0 {
      assert calls + [c] == [c] && [c][1..] == [];
    } else {
      assert (calls + [c])[1..] == calls[1..] + [c];
      BookedSnoc(calls[1..], c);
    }
  }

  lemma {:induction false} OfRoleSnoc(calls: seq<Call>, c: Call, role: Role)
    ensures OfRole(calls + [c], role) == OfRole(calls, role) + (if c.role == role then [c] else [])
  {
    if |calls| == 0 {
      assert calls + [c] == [c] && [c][1..] == [];
    } else {
      assert (calls + [c])[1..] == calls[1..] + [c];
      OfRoleSnoc(calls[1..], c, role);
    }
  }

  lemma {:induction false} OfNameSnoc(calls: seq<Call>, c: Call, name: string)
    ensures OfName(calls + [c], name) == OfName(calls, name) + (if c.role == Subagent && c.name == name then [c] else [])
  {
    if |calls| == 0 {
      assert calls + [c] == [c] && [c][1..] == [];
    } else {
      assert (calls + [c])[1..] == calls[1..] + [c];
      OfNameSnoc(calls[1..], c, name);
    }
  }

  /** A subagent has a bucket exactly when it was called by its name. */
  predicate NameIs(t: Totals, calls: seq<Call>, name: string) {
    && (name in t.bySubagent <==> name != "" && |OfName(calls, name)| > 0)
    && (name in t.bySubagent ==> t.bySubagent[name] == Booked(OfName(calls, name)))
  }

  ghost predicate TotalsAre(t: Totals, calls: seq<Call>) {
    && t.overall == Booked(calls)
    && t.planner == Booked(OfRole(calls, Planner)) && t.coder == Booked(OfRole(calls, Coder))
    && t.reviewer == Booked(OfRole(calls, Reviewer)) && t.subagent == Booked(OfRole(calls, Subagent))
    && forall name: string :: NameIs(t, calls, name)
  }

  /**
   * Every bucket of the totals of a fresh run holds, in every field, the sum over the calls that belong there: all of
   * them, those of a role, those of a named subagent; and there is one for every name that was called.
   */
  lemma {:induction false} TotalsBooked(calls: seq<Call>)
    ensures TotalsAre(Tally(FRESH, calls), calls)
  {
    hide Booked, Weight, Plus;
    if |calls| == 0 {
      NothingBooked();
    } else {
      var init, c := calls[..|calls| - 1], calls[|calls| - 1];
      TotalsBooked(init);
      assert init + [c] == calls;
      OneBooked(Tally(FRESH, init), init, c);
    }
  }

  lemma NothingBooked()
    ensures Booked([]) == EMPTY
  {
  }

  lemma OneBooked(t: Totals, calls: seq<Call>, c: Call)
    requires TotalsAre(t, calls)
    ensures TotalsAre(Added(t, c), calls + [c])
  {
    RolesBooked(t, calls, c);
    forall name: string ensures NameIs(Added(t, c), calls + [c], name) {
      NameBooked(t, calls, c, name);
    }
  }

  lemma RolesBooked(t: Totals, calls: seq<Call>, c: Call)
    requires TotalsAre(t, calls)
    ensures var t', all := Added(t, c), calls + [c];
            && t'.overall == Booked(all) && forall role: Role :: RoleTotals(t', role) == Booked(OfRole(all, role))
  {
    hide Booked, Weight, Plus, OfRole, OfName;
    BookedSnoc(calls, c);
    forall role: Role ensures RoleTotals(Added(t, c), role) == Booked(OfRole(calls + [c], role)) {
      OfRoleSnoc(calls, c, role);
      BookedSnoc(OfRole(calls, role), c);
      assert RoleTotals(t, role) == Booked(OfRole(calls, role));
      assert OfRole(calls, role) + [] == OfRole(calls, role);
    }
  }

  lemma NameBooked(t: Totals, calls: seq<Call>, c: Call, name: string)
    requires NameIs(t, calls, name)
    ensures NameIs(Added(t, c), calls + [c], name)
  {
    hide Booked, Weight, Plus, OfName;
    OfNameSnoc(calls, c, name);
    BookedSnoc(OfName(calls, name), c);
    NothingBooked();
    assert OfName(calls, name) + [] == OfName(calls, name);
  }

  // ---- The summary of a log -----------------------------------------------------------------

  function Finished(events: seq<Event>, rolledBack: bool): nat {
    if events == [] then 0 else (if events[0] == TodoComplete(rolledBack) then 1 else 0) + Finished(events[1..], rolledBack)
  }

  function LastEnd(events: seq<Event>): Option<Event> {
    if events == [] then None
    else if LastEnd(events[1..]).Some? then LastEnd(events[1..])
    else if events[0].RunEnd? then Some(events[0])
    else None
  }

  function LastStart(events: seq<Event>): Option<Event> {
    if events == [] then None
    else if LastStart(events[1..]).Some? then LastStart(events[1..])
    else if events[0].RunStart? then Some(events[0])
    else None
  }

  function SpentBy(events: seq<Event>, role: Role): Spend {
    if events == [] then Spend(0.0, 0)
    else
      var rest := SpentBy(events[1..], role);
      if events[0].UsageEvent? && events[0].role == role then Spend(events[0].cost + rest.cost, 1 + rest.calls) else rest
  }

  function SpentAs(events: seq<Event>, name: string): Spend {
    if events == [] then Spend(0.0, 0)
    else
      var rest := SpentAs(events[1..], name);
      if events[0].UsageEvent? && events[0].name == name then Spend(events[0].cost + rest.cost, 1 + rest.calls) else rest
  }

  lemma {:induction false} EventsSnoc(events: seq<Event>, e: Event, role: Role, name: string)
    ensures var all := events + [e];
            && (forall rolled :: Finished(all, rolled) == Finished(events, rolled) + (if e == TodoComplete(rolled) then 1 else 0))
            && LastEnd(all) == (if e.RunEnd? then Some(e) else LastEnd(events))
            && LastStart(all) == (if e.RunStart? then Some(e) else LastStart(events))
            && SpentBy(all, role) == (if e.UsageEvent? && e.role == role then Spent(SpentBy(events, role), e.cost) else SpentBy(events, role))
            && SpentAs(all, name) == (if e.UsageEvent? && e.name == name then Spent(SpentAs(events, name), e.cost) else SpentAs(events, name))
  {
    var all := events + [e];
    if |events| == 0 {
      assert all == [e] && [e][1..] == [];
    } else {
      assert all[1..] == events[1..] + [e] && all[0] == events[0];
      EventsSnoc(events[1..], e, role, name);
    }
  }

  /** What the summary of any log reads: the TODOs finished and rolled back, the last end with its reason and savings,
      the last requirement, and the spend of a role and of a name. */
  lemma {:induction false} SummaryReads(events: seq<Event>, role: Role, name: string)
    requires name != ""
    ensures var s := Summarized(events);
            && s.done == Finished(events, false) && s.rolledBack == Finished(events, true)
            && (match LastEnd(events)
                case Some(e) => e.RunEnd? && s.reason == Some(e.reason) && s.saved == e.saved
                case None => s.reason.None? && s.saved == 0.0)
            && (match LastStart(events)
                case Some(e) => e.RunStart? && s.requirement == Some(e.requirement)
                case None => s.requirement.None?)
            && s.perRole[role] == SpentBy(events, role)
            && SpendOf(s.bySubagent, name) == SpentAs(events, name)
  {
    if |events| == 0 {
      BlankComplete();
      assert role.Planner? || role.Coder? || role.Reviewer? || role.Subagent?;
    } else {
      hide Finished, LastEnd, LastStart, SpentBy, SpentAs, Noted, Spent, SpendOf;
      var init, e := events[..|events| - 1], events[|events| - 1];
      SummaryReads(init, role, name);
      EventsSnoc(init, e, role, name);
      assert init + [e] == events;
      NotedReads(Summarized(init), e, role, name);
    }
  }

  /** What one event changes in a summary. */
  lemma NotedReads(s: Summary, e: Event, role: Role, name: string)
    requires Complete(s) && name != ""
    ensures var t := Noted(s, e);
            && t.done == s.done + (if e == TodoComplete(false) then 1 else 0)
            && t.rolledBack == s.rolledBack + (if e == TodoComplete(true) then 1 else 0)
            && (if e.RunEnd? then t.reason == Some(e.reason) && t.saved == e.saved else t.reason == s.reason && t.saved == s.saved)
            && t.requirement == (if e.RunStart? then Some(e.requirement) else s.requirement)
            && t.perRole[role] == (if e.UsageEvent? && e.role == role then Spent(s.perRole[role], e.cost) else s.perRole[role])
            && SpendOf(t.bySubagent, name) ==
               (if e.UsageEvent? && e.name == name then Spent(SpendOf(s.bySubagent, name), e.cost) else SpendOf(s.bySubagent, name))
  {
  }
}
