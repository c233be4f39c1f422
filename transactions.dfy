/** The transaction pattern shared by the composite handlers of `MyAccessBDD`:
    `beginTransaction`, a fixed list of write statements, then `commit` or
    `rollback`, decided by one of two policies. */
module Transactions {
  import opened PhpArray
  import opened Connection

  /** How a handler decides between `commit` and `rollback`.
      - `AllOrNothing`: commit and return 1 when no statement answered `null`;
        otherwise roll back and return `null`. An exception rolls back and
        then returns `null`, or is rethrown when `rethrow` holds.
      - `CommitUnlessRaised`: the answers are not inspected; commit and return
        the answer of the last statement unless an exception occurred, in
        which case roll back and return `null`. */
  datatype Policy = AllOrNothing(rethrow: bool) | CommitUnlessRaised

  /** The statements of a `try` block issued one after the other from trace
      position `at`: every statement is sent, whatever the previous ones
      answered, until one raises; the statements after it are never sent. */
  function Issue(u: UpdateOracle, at: nat, steps: seq<Statement>): (events: seq<Event>)
    ensures |events| <= |steps|
    ensures |steps| > 0 ==> |events| > 0
    ensures forall i :: 0 <= i < |events| ==> events[i] == Update(steps[i], u(at + i, steps[i]))
    ensures forall i :: 0 <= i < |events| - 1 ==> !u(at + i, steps[i]).Raised?
    ensures |events| < |steps| ==> u(at + |events| - 1, steps[|events| - 1]).Raised?
    decreases |steps|
  {
    if steps == [] then []
    else
      var first := u(at, steps[0]);
      if first.Raised? then [Update(steps[0], first)]
      else [Update(steps[0], first)] + Issue(u, at + 1, steps[1..])
  }

  /** Some statement of the list raised when it was sent. */
  predicate SomeRaised(events: seq<Event>) {
    exists i :: 0 <= i < |events| && events[i].Update? && events[i].count.Raised?
  }

  /** Every statement of the list answered with a count (none answered `null`). */
  predicate AllCounted(events: seq<Event>) {
    forall i :: 0 <= i < |events| ==> events[i].Update? && events[i].count.Returned?
  }

  /** The answer of the last statement sent. */
  function LastAnswer(events: seq<Event>): Reply<int>
    requires |events| > 0 && events[|events| - 1].Update?
  {
    events[|events| - 1].count
  }

  /** What a handler returns from its `catch` block, after rolling back. */
  function Aborted(p: Policy): Reply<int> {
    if p == AllOrNothing(true) then Raised else ReturnedNull
  }

  /** A handler's `try` block started at trace position `at`: `beginTransaction`,
      the statements, then the decision of the policy `p`. */
  function Transaction(u: UpdateOracle, at: nat, steps: seq<Statement>, p: Policy): Run<int>
    requires |steps| > 0
  {
    var issued := Issue(u, at + 1, steps);
    if LastAnswer(issued).Raised? then
      Run([Begin] + issued + [Rollback], Aborted(p))
    else if p.CommitUnlessRaised? then
      Run([Begin] + issued + [Commit], LastAnswer(issued))
    else if AllCounted(issued) then
      Run([Begin] + issued + [Commit], Returned(1))
    else
      Run([Begin] + issued + [Rollback], ReturnedNull)
  }

  // The same transaction on one, two and three statements, spelled out
  // answer by answer as the handlers' `try` blocks are written.

  function TransactionOne(u: UpdateOracle, at: nat, s0: Statement, p: Policy): Run<int> {
    var r0 := u(at + 1, s0);
    var sent := [Begin, Update(s0, r0)];
    if r0.Raised? then Run(sent + [Rollback], Aborted(p))
    else if p.CommitUnlessRaised? then Run(sent + [Commit], r0)
    else if r0 != ReturnedNull then Run(sent + [Commit], Returned(1))
    else Run(sent + [Rollback], ReturnedNull)
  }

  function TransactionTwo(u: UpdateOracle, at: nat, s0: Statement, s1: Statement, p: Policy): Run<int> {
    var r0, r1 := u(at + 1, s0), u(at + 2, s1);
    if r0.Raised? then Run([Begin, Update(s0, r0), Rollback], Aborted(p))
    else
      var sent := [Begin, Update(s0, r0), Update(s1, r1)];
      if r1.Raised? then Run(sent + [Rollback], Aborted(p))
      else if p.CommitUnlessRaised? then Run(sent + [Commit], r1)
      else if r0 != ReturnedNull && r1 != ReturnedNull then Run(sent + [Commit], Returned(1))
      else Run(sent + [Rollback], ReturnedNull)
  }

  function TransactionThree(u: UpdateOracle, at: nat, s0: Statement, s1: Statement, s2: Statement, p: Policy): Run<int> {
    var r0, r1, r2 := u(at + 1, s0), u(at + 2, s1), u(at + 3, s2);
    if r0.Raised? then Run([Begin, Update(s0, r0), Rollback], Aborted(p))
    else if r1.Raised? then Run([Begin, Update(s0, r0), Update(s1, r1), Rollback], Aborted(p))
    else
      var sent := [Begin, Update(s0, r0), Update(s1, r1), Update(s2, r2)];
      if r2.Raised? then Run(sent + [Rollback], Aborted(p))
      else if p.CommitUnlessRaised? then Run(sent + [Commit], r2)
      else if r0 != ReturnedNull && r1 != ReturnedNull && r2 != ReturnedNull then Run(sent + [Commit], Returned(1))
      else Run(sent + [Rollback], ReturnedNull)
  }

  // `Issue` on the short lists the handlers send, one statement at a time.

  lemma IssueOne(u: UpdateOracle, at: nat, s0: Statement)
    ensures Issue(u, at, [s0]) == [Update(s0, u(at, s0))]
  {
  }

  lemma IssueTwo(u: UpdateOracle, at: nat, s0: Statement, s1: Statement)
    ensures Issue(u, at, [s0, s1]) ==
      if u(at, s0).Raised? then [Update(s0, u(at, s0))]
      else [Update(s0, u(at, s0)), Update(s1, u(at + 1, s1))]
  {
    assert [s0, s1][1..] == [s1];
    IssueOne(u, at + 1, s1);
  }

  lemma IssueThree(u: UpdateOracle, at: nat, s0: Statement, s1: Statement, s2: Statement)
    ensures Issue(u, at, [s0, s1, s2]) ==
      if u(at, s0).Raised? then [Update(s0, u(at, s0))]
      else [Update(s0, u(at, s0))] + Issue(u, at + 1, [s1, s2])
  {
    assert [s0, s1, s2][1..] == [s1, s2];
  }

  /** The transaction of one statement is the spelled-out one. */
  lemma TransactionOfOne(u: UpdateOracle, at: nat, s0: Statement, p: Policy)
    ensures Transaction(u, at, [s0], p) == TransactionOne(u, at, s0, p)
  {
    IssueOne(u, at + 1, s0);
    var issued := [Update(s0, u(at + 1, s0))];
    assert AllCounted(issued) <==> issued[0].count.Returned?;
  }

  /** The transaction of two statements is the spelled-out one. */
  lemma TransactionOfTwo(u: UpdateOracle, at: nat, s0: Statement, s1: Statement, p: Policy)
    ensures Transaction(u, at, [s0, s1], p) == TransactionTwo(u, at, s0, s1, p)
  {
    IssueTwo(u, at + 1, s0, s1);
    var r0, r1 := u(at + 1, s0), u(at + 2, s1);
    if !r0.Raised? {
      var issued := [Update(s0, r0), Update(s1, r1)];
      assert [Begin] + issued == [Begin, Update(s0, r0), Update(s1, r1)];
      assert AllCounted(issued) <==> r0.Returned? && r1.Returned? by {
        assert issued[0].count == r0 && issued[1].count == r1;
      }
    }
  }

  /** The transaction of three statements is the spelled-out one. */
  lemma TransactionOfThree(u: UpdateOracle, at: nat, s0: Statement, s1: Statement, s2: Statement, p: Policy)
    ensures Transaction(u, at, [s0, s1, s2], p) == TransactionThree(u, at, s0, s1, s2, p)
  {
    IssueThreeCases(u, at + 1, s0, s1, s2);
    if !u(at + 1, s0).Raised? && !u(at + 2, s1).Raised? {
      TransactionOfThreeSent(u, at, s0, s1, s2, p);
    }
  }

  /** The case of `TransactionOfThree` where the third statement is sent. */
  lemma TransactionOfThreeSent(u: UpdateOracle, at: nat, s0: Statement, s1: Statement, s2: Statement, p: Policy)
    requires !u(at + 1, s0).Raised? && !u(at + 2, s1).Raised?
    ensures Transaction(u, at, [s0, s1, s2], p) == TransactionThree(u, at, s0, s1, s2, p)
  {
    var r0, r1, r2 := u(at + 1, s0), u(at + 2, s1), u(at + 3, s2);
    IssueThreeCases(u, at + 1, s0, s1, s2);
    var issued := Issue(u, at + 1, [s0, s1, s2]);
    assert issued == [Update(s0, r0), Update(s1, r1), Update(s2, r2)];
    var sent := [Begin, Update(s0, r0), Update(s1, r1), Update(s2, r2)];
    assert [Begin] + issued == sent;
    assert LastAnswer(issued) == r2;
    if !r2.Raised? && p.AllOrNothing? {
      assert AllCounted(issued) <==> r0.Returned? && r1.Returned? && r2.Returned? by {
        assert issued[0].count == r0 && issued[1].count == r1 && issued[2].count == r2;
      }
    }
  }

  /** `Issue` on three statements, by the first answer that raises. */
  lemma IssueThreeCases(u: UpdateOracle, at: nat, s0: Statement, s1: Statement, s2: Statement)
    ensures var r0, r1, r2 := u(at, s0), u(at + 1, s1), u(at + 2, s2);
      Issue(u, at, [s0, s1, s2]) ==
        if r0.Raised? then [Update(s0, r0)]
        else if r1.Raised? then [Update(s0, r0), Update(s1, r1)]
        else [Update(s0, r0), Update(s1, r1), Update(s2, r2)]
  {
    IssueThree(u, at, s0, s1, s2);
    IssueTwo(u, at + 1, s1, s2);
  }

  // Properties of `Issue` and `Transaction`.

  /** Statements are sent until the first one that raises, and all of them are
      sent exactly when none but possibly the last one raises. */
  lemma IssueStopsAtFirstRaise(u: UpdateOracle, at: nat, steps: seq<Statement>)
    ensures var events := Issue(u, at, steps);
      (|events| == |steps|) <==> (forall i :: 0 <= i < |steps| - 1 ==> !u(at + i, steps[i]).Raised?)
    ensures SomeRaised(Issue(u, at, steps)) <==> exists i :: 0 <= i < |steps| && u(at + i, steps[i]).Raised?
  {
    var events := Issue(u, at, steps);
    if |events| < |steps| {
      var j := |events| - 1;
      assert u(at + j, steps[j]).Raised?;
      assert events[j].count.Raised?;
    }
    if exists i :: 0 <= i < |steps| && u(at + i, steps[i]).Raised? {
      var i :| 0 <= i < |steps| && u(at + i, steps[i]).Raised?;
      if i < |events| {
        assert events[i].count.Raised?;
      } else {
        var j := |events| - 1;
        assert events[j].count.Raised?;
      }
    }
  }

  /** Only the last statement sent can have raised. */
  lemma OnlyLastRaised(u: UpdateOracle, at: nat, steps: seq<Statement>)
    requires |steps| > 0
    ensures var events := Issue(u, at, steps);
      SomeRaised(events) <==> LastAnswer(events).Raised?
  {
    var events := Issue(u, at, steps);
    if SomeRaised(events) {
      var i :| 0 <= i < |events| && events[i].Update? && events[i].count.Raised?;
      assert i == |events| - 1;
    }
  }

  /** Every transaction is bracketed: it begins, sends a prefix of its
      statements in order, and ends with exactly one commit or rollback. */
  lemma TransactionBracketed(u: UpdateOracle, at: nat, steps: seq<Statement>, p: Policy)
    requires |steps| > 0
    ensures var events := Transaction(u, at, steps, p).events;
      && 3 <= |events| <= |steps| + 2
      && events[0] == Begin
      && (events[|events| - 1] == Commit || events[|events| - 1] == Rollback)
      && (forall i :: 1 <= i < |events| - 1 ==> events[i].Update? && events[i].st == steps[i - 1])
  {
  }

  /** Every statement sent answered with a count exactly when every statement
      of the list answers with one. */
  lemma IssueAllCounted(u: UpdateOracle, at: nat, steps: seq<Statement>)
    requires |steps| > 0
    ensures AllCounted(Issue(u, at, steps)) <==> forall i :: 0 <= i < |steps| ==> u(at + i, steps[i]).Returned?
  {
    var issued := Issue(u, at, steps);
    if AllCounted(issued) {
      assert !issued[|issued| - 1].count.Raised?;
      assert |issued| == |steps|;
      forall i | 0 <= i < |steps| ensures u(at + i, steps[i]).Returned? {
        assert issued[i].count.Returned?;
      }
    }
    if forall i :: 0 <= i < |steps| ==> u(at + i, steps[i]).Returned? {
      assert |issued| == |steps|;
    }
  }

  /** Under `AllOrNothing`, the transaction commits exactly when every statement
      answers with a count; it then returns 1. Otherwise it rolls back and
      returns `null`, or propagates the exception when it rethrows and a
      statement raised. */
  lemma AllOrNothingDecision(u: UpdateOracle, at: nat, steps: seq<Statement>, rethrow: bool)
    requires |steps| > 0
    ensures var r := Transaction(u, at, steps, AllOrNothing(rethrow));
      var allCounted := forall i :: 0 <= i < |steps| ==> u(at + 1 + i, steps[i]).Returned?;
      var raised := exists i :: 0 <= i < |steps| && u(at + 1 + i, steps[i]).Raised?;
      && (r.events[|r.events| - 1] == Commit <==> allCounted)
      && (allCounted ==> |r.events| == |steps| + 2 && r.reply == Returned(1))
      && (!allCounted ==> r.reply == if rethrow && raised then Raised else ReturnedNull)
  {
    var issued := Issue(u, at + 1, steps);
    var t := Transaction(u, at, steps, AllOrNothing(rethrow));
    LastAnswerRaised(u, at + 1, steps);
    IssueAllCounted(u, at + 1, steps);
    if LastAnswer(issued).Raised? {
      assert t.events == [Begin] + issued + [Rollback];
      assert !AllCounted(issued);
    } else if AllCounted(issued) {
      LastAnswerComplete(u, at + 1, steps);
      assert t.events == [Begin] + issued + [Commit];
    } else {
      assert t.events == [Begin] + issued + [Rollback];
    }
  }

  /** The last statement sent raised exactly when some statement of the list raises. */
  lemma LastAnswerRaised(u: UpdateOracle, at: nat, steps: seq<Statement>)
    requires |steps| > 0
    ensures LastAnswer(Issue(u, at, steps)).Raised? <==> exists i :: 0 <= i < |steps| && u(at + i, steps[i]).Raised?
  {
    IssueStopsAtFirstRaise(u, at, steps);
    OnlyLastRaised(u, at, steps);
  }

  /** When the last statement sent did not raise, every statement was sent and
      the last answer is that of the last statement of the list. */
  lemma LastAnswerComplete(u: UpdateOracle, at: nat, steps: seq<Statement>)
    requires |steps| > 0
    requires !LastAnswer(Issue(u, at, steps)).Raised?
    ensures |Issue(u, at, steps)| == |steps|
    ensures LastAnswer(Issue(u, at, steps)) == u(at + |steps| - 1, steps[|steps| - 1])
  {
    var events := Issue(u, at, steps);
    var j := |events| - 1;
    assert events[j] == Update(steps[j], u(at + j, steps[j]));
  }

  /** Under `CommitUnlessRaised`, the transaction commits exactly when no
      statement raises, and then returns the last statement's answer (a count
      or `null`); otherwise it rolls back and returns `null`. */
  lemma CommitUnlessRaisedDecision(u: UpdateOracle, at: nat, steps: seq<Statement>)
    requires |steps| > 0
    ensures var r := Transaction(u, at, steps, CommitUnlessRaised);
      var raised := exists i :: 0 <= i < |steps| && u(at + 1 + i, steps[i]).Raised?;
      && (r.events[|r.events| - 1] == Commit <==> !raised)
      && (!raised ==> |r.events| == |steps| + 2 && r.reply == u(at + |steps|, steps[|steps| - 1]))
      && (raised ==> r.reply == ReturnedNull)
  {
    LastAnswerRaised(u, at + 1, steps);
    if !LastAnswer(Issue(u, at + 1, steps)).Raised? {
      LastAnswerComplete(u, at + 1, steps);
    }
  }
}
