/** The two rules for keeping an agent's status: the documented one, and the one the statement follows. */
module AgentRows {
  import opened Options
  import opened Orders
  import opened FloorEvents

  /** The documented rule: a status counts only if no status as new as it has been stored. */
  function PutDocumented(row: AgentRow, view: AgentView, at: Time): AgentRow {
    if row.at.Some? && at <= row.at.value then row
    else AgentRow(Some(view.status), Some(at), if view.batch.Some? then view.batch else row.batch, true)
  }

  /** One put follows the documented rule exactly when no status of its time is stored, or it changes nothing. */
  lemma WhenOnePutIsAsDocumented(row: AgentRow, view: AgentView, at: Time)
    ensures Put(row, view, at) == PutDocumented(row, view, at) <==> row.at != Some(at) || Put(row, view, at) == row
  {
  }

  predicate KeepsRow(c: Call, order: Id) {
    c.Keeping? && KeptFor(c.event) == Some(order)
  }

  function PutsDocumented(row: AgentRow, calls: seq<Call>, order: Id): AgentRow
    decreases |calls|
  {
    if calls == [] then row
    else
      var c := calls[0];
      PutsDocumented(if KeepsRow(c, order) then PutDocumented(row, c.event.agent.value, c.event.at.value) else row,
                     calls[1..], order)
  }

  /** No two different statuses of the order were sent at one time. */
  ghost predicate OneStatusATime(all: seq<Call>, order: Id) {
    forall a, b :: a in all && b in all && KeepsRow(a, order) && KeepsRow(b, order) && a.event.at == b.event.at
      ==> a.event.agent == b.event.agent
  }

  /** The row was last written by one of the calls, and has what that call brought. */
  ghost predicate WrittenBy(row: AgentRow, all: seq<Call>, order: Id) {
    row.at.Some? ==> exists c :: c in all && KeepsRow(c, order) && c.event.at == row.at
                        && Put(row, c.event.agent.value, c.event.at.value) == row
  }

  lemma OnePutOfTheSame(row: AgentRow, all: seq<Call>, order: Id, c: Call)
    requires WrittenBy(row, all, order) && OneStatusATime(all, order) && c in all && KeepsRow(c, order)
    ensures PutDocumented(row, c.event.agent.value, c.event.at.value) == PutCall(row, c, order)
    ensures WrittenBy(PutCall(row, c, order), all, order)
  {
    hide KeptFor;
    var view, at := c.event.agent.value, c.event.at.value;
    if row.at == Some(at) {
      var b :| b in all && KeepsRow(b, order) && b.event.at == row.at && Put(row, b.event.agent.value, at) == row;
      assert b.event.agent == c.event.agent;
    }
    assert Put(row, view, at).at == Some(at) ==> Put(Put(row, view, at), view, at) == Put(row, view, at);
  }

  lemma {:induction false} PutsOfOneStatusATime(row: AgentRow, all: seq<Call>, calls: seq<Call>, order: Id)
    requires WrittenBy(row, all, order) && OneStatusATime(all, order) && forall c :: c in calls ==> c in all
    ensures PutsDocumented(row, calls, order) == PutCalls(row, calls, order)
    decreases |calls|
  {
    hide WrittenBy, OneStatusATime, KeptFor, Put, PutDocumented;
    if calls != [] {
      var c := calls[0];
      if KeepsRow(c, order) { OnePutOfTheSame(row, all, order, c); }
      PutsOfOneStatusATime(PutCall(row, c, order), all, calls[1..], order);
    }
  }

  /** Two different statuses of one time, in one of their two orders, leave different rows under the two rules. */
  lemma TwoOfOneTimeDiffer(a: Call, b: Call, order: Id) returns (calls: seq<Call>)
    requires KeepsRow(a, order) && KeepsRow(b, order) && a.event.at == b.event.at && a.event.agent != b.event.agent
    ensures calls == [a, b] || calls == [b, a]
    ensures PutsDocumented(NO_ROW, calls, order) != PutCalls(NO_ROW, calls, order)
  {
    hide KeptFor;
    TwoPuts(a, b, order);
    TwoPuts(b, a, order);
    var x, y := a.event.agent.value, b.event.agent.value;
    calls := if x.status != y.status || y.batch.Some? then [a, b] else [b, a];
  }

  lemma TwoPuts(a: Call, b: Call, order: Id)
    requires KeepsRow(a, order) && KeepsRow(b, order) && a.event.at == b.event.at
    ensures var x, y, at := a.event.agent.value, b.event.agent.value, a.event.at;
            && PutCalls(NO_ROW, [a, b], order)
               == AgentRow(Some(y.status), at, if y.batch.Some? then y.batch else x.batch, true)
            && PutsDocumented(NO_ROW, [a, b], order) == AgentRow(Some(x.status), at, x.batch, true)
  {
    hide KeptFor;
    assert [a, b][1..] == [b] && [b][1..] == [];
    assert PutCalls(PutCall(NO_ROW, a, order), [b], order) == PutCall(PutCall(NO_ROW, a, order), b, order);
    var first := PutDocumented(NO_ROW, a.event.agent.value, a.event.at.value);
    assert PutsDocumented(first, [b], order) == PutDocumented(first, b.event.agent.value, b.event.at.value);
  }

  /**
   * In every delivery of some calls, in any order and with any repeats, an order's row is as documented exactly when
   * no two different statuses of the order were sent at one time.
   */
  lemma WhenRowsAreAsDocumented(all: seq<Call>, order: Id)
    ensures (forall calls: seq<Call> :: (forall c :: c in calls ==> c in all) ==>
              PutsDocumented(NO_ROW, calls, order) == PutCalls(NO_ROW, calls, order))
       <==> OneStatusATime(all, order)
  {
    hide KeptFor, Put, PutDocumented, KeepsRow, PutCalls, PutsDocumented;
    if OneStatusATime(all, order) {
      forall calls: seq<Call> | forall c :: c in calls ==> c in all
        ensures PutsDocumented(NO_ROW, calls, order) == PutCalls(NO_ROW, calls, order)
      {
        PutsOfOneStatusATime(NO_ROW, all, calls, order);
      }
    } else {
      var a, b :| a in all && b in all && KeepsRow(a, order) && KeepsRow(b, order) && a.event.at == b.event.at
                  && a.event.agent != b.event.agent;
      var calls := TwoOfOneTimeDiffer(a, b, order);
      assert forall c :: c in calls ==> c in all;
    }
  }

  function StatusAt(status: Id, at: Time): Call {
    Keeping(Event(status, StatusReport(Some(1), Some(Accepted), None, None, NO_ID, false), Some(at),
                  Some(AgentView(status, None))))
  }

  /** Two reports of order 1 at time 5: the later arrival is kept, where the documented rule keeps the first. */
  lemma TheLaterOfTwoIsKept()
    ensures var calls := [StatusAt(8, 5), StatusAt(9, 5)];
            PutCalls(NO_ROW, calls, 1).status == Some(9) && PutsDocumented(NO_ROW, calls, 1).status == Some(8)
  {
    TwoPuts(StatusAt(8, 5), StatusAt(9, 5), 1);
  }
}
