/** The database connection the layer talks to, as a black box that records
    what it is asked and answers from an oracle. */
module Connection {
  import opened PhpArray
  import opened SqlText

  /** A result row of `queryBDD`. */
  type Row = FieldMap

  /** How a call ends in PHP: it returns a value, returns `null`, or raises an
      exception (or a `TypeError`) that propagates to the caller. */
  datatype Reply<T> = Returned(value: T) | ReturnedNull | Raised

  /** SQL text with named placeholders, and the parameters bound to them. */
  datatype Statement = Statement(sql: string, params: FieldMap)

  /** The parameters a PDO statement refers to are exactly the ones bound. */
  ghost predicate WellBound(st: Statement) {
    forall k :: k in Placeholders(st.sql) <==> k in Keys(st.params)
  }

  /** A statement whose text refers to its parameters' keys, in order, is well bound. */
  lemma InOrderIsWellBound(st: Statement)
    requires Placeholders(st.sql) == Keys(st.params)
    ensures WellBound(st)
  {
  }

  /** What the connection is asked to do, with the reply it gave. */
  datatype Event =
    | Begin
    | Query(st: Statement, rows: Reply<seq<Row>>)
    | Update(st: Statement, count: Reply<int>)
    | Commit
    | Rollback

  /** The answers of `queryBDD` and `updateBDD`, given the position the request
      takes in the trace: the database itself is not modelled. */
  type QueryOracle = (nat, Statement) -> Reply<seq<Row>>
  type UpdateOracle = (nat, Statement) -> Reply<int>

  /** The events a request appends to the trace, and how the request ends. */
  datatype Run<T> = Run(events: seq<Event>, reply: Reply<T>)

  /** One `queryBDD` call issued at trace position `at`, whose answer is returned as is. */
  function Ask(q: QueryOracle, at: nat, st: Statement): (r: Run<seq<Row>>)
    ensures r.events == [Query(st, r.reply)]
    ensures r.reply == q(at, st)
  {
    Run([Query(st, q(at, st))], q(at, st))
  }

  /** One `updateBDD` call issued at trace position `at`, whose answer is returned as is. */
  function Tell(u: UpdateOracle, at: nat, st: Statement): (r: Run<int>)
    ensures r.events == [Update(st, r.reply)]
    ensures r.reply == u(at, st)
  {
    Run([Update(st, u(at, st))], u(at, st))
  }

  /** A guard rejected the input: `return null` before anything is sent. */
  function Refused<T>(): Run<T> {
    Run([], ReturnedNull)
  }

  /** A `TypeError` at the call of a handler (a `null` passed for a parameter
      declared `array` or `string`): nothing is sent and the error propagates. */
  function TypeError<T>(): Run<T> {
    Run([], Raised)
  }

  class Connection {
    const queryOracle: QueryOracle
    const updateOracle: UpdateOracle
    /** Everything asked of the connection so far, oldest first. */
    var trace: seq<Event>

    constructor (q: QueryOracle, u: UpdateOracle)
      ensures queryOracle == q && updateOracle == u && trace == []
    {
      queryOracle, updateOracle := q, u;
      trace := [];
    }

    method BeginTransaction()
      modifies this
      ensures trace == old(trace) + [Begin]
    {
      trace := trace + [Begin];
    }

    method Commit()
      modifies this
      ensures trace == old(trace) + [Event.Commit]
    {
      trace := trace + [Event.Commit];
    }

    method Rollback()
      modifies this
      ensures trace == old(trace) + [Event.Rollback]
    {
      trace := trace + [Event.Rollback];
    }

    /** `queryBDD($requete, $param)`: rows, `null`, or an exception. */
    method QueryBDD(st: Statement) returns (r: Reply<seq<Row>>)
      modifies this
      ensures r == queryOracle(|old(trace)|, st)
      ensures trace == old(trace) + [Query(st, r)]
    {
      r := queryOracle(|trace|, st);
      trace := trace + [Query(st, r)];
    }

    /** `updateBDD($requete, $param)`: an affected-row count, `null`, or an exception. */
    method UpdateBDD(st: Statement) returns (r: Reply<int>)
      modifies this
      ensures r == updateOracle(|old(trace)|, st)
      ensures trace == old(trace) + [Update(st, r)]
    {
      r := updateOracle(|trace|, st);
      trace := trace + [Update(st, r)];
    }
  }
}
