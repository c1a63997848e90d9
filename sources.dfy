/** The `KnowledgeSource` table. The queue, the manual-reprocess handler and the
    upload handler move its rows through pending -> processing -> ready | failed
    with single-row updates of the `status` and `error` columns. */
module Sources {
  import opened Common

  datatype Status = Pending | Processing | Ready | Failed

  /** What an update writes into the `error` column: nothing, `null`, or a message. */
  datatype ErrorField = Keep | Clear | SetTo(msg: string)

  datatype Source = Source(
    id: string,
    chatbotId: string,
    kind: string,
    name: string,
    content: Option<string>,
    status: Status,
    error: Option<string>,
    createdAt: int)

  /** The message Prisma's `update` throws when no row has the given id. */
  const NotFound: string := "Record to update not found."

  function ErrorAfter(e: Option<string>, f: ErrorField): Option<string> {
    match f
    case Keep => e
    case Clear => None
    case SetTo(m) => Some(m)
  }

  predicate HasId(rows: seq<Source>, id: string) {
    exists i :: 0 <= i < |rows| && rows[i].id == id
  }

  /** The row `id` after `data: {status, error}`. */
  function Patched(src: Source, st: Status, f: ErrorField): Source {
    src.(status := st, error := ErrorAfter(src.error, f))
  }

  function Updated(rows: seq<Source>, id: string, st: Status, f: ErrorField): (r: seq<Source>)
    ensures |r| == |rows|
    ensures forall i :: 0 <= i < |rows| ==> r[i].id == rows[i].id
  {
    seq(|rows|, i requires 0 <= i < |rows| => if rows[i].id == id then Patched(rows[i], st, f) else rows[i])
  }

  /** `update({where: {id}, data: {status, error}})` with the fault the database
      (after any retries) reports, if any: the write either changes the row `id`
      and nothing else, or throws and changes nothing. */
  function StatusWrite(rows: seq<Source>, id: string, st: Status, f: ErrorField,
                       fault: Option<string>): (w: (seq<Source>, Outcome))
    ensures w.1 == Pass <==> fault.None? && HasId(rows, id)
    ensures w.1.Fail? ==> w.0 == rows && w.1.msg == (if fault.Some? then fault.value else NotFound)
    ensures w.1 == Pass ==> HasId(w.0, id)
    ensures |w.0| == |rows|
    ensures forall i :: 0 <= i < |rows| ==> w.0[i].id == rows[i].id
    ensures forall i :: 0 <= i < |rows| && rows[i].id != id ==> w.0[i] == rows[i]
    ensures w.1 == Pass ==> forall i :: 0 <= i < |rows| && rows[i].id == id ==>
      w.0[i].status == st && w.0[i].error == ErrorAfter(rows[i].error, f)
      && w.0[i].content == rows[i].content && w.0[i].chatbotId == rows[i].chatbotId
  {
    if fault.Some? then (rows, Fail(fault.value))
    else if !HasId(rows, id) then (rows, Fail(NotFound))
    else (Updated(rows, id, st, f), Pass)
  }

  function Owned(id: string, chatbotId: string): Source -> bool {
    (s: Source) => s.id == id && s.chatbotId == chatbotId
  }

  /** `findFirst({where: {id, chatbotId}})`: the row `id`, if the chatbot owns it. */
  function FindOwned(rows: seq<Source>, id: string, chatbotId: string): Option<Source> {
    FindFirst(rows, Owned(id, chatbotId))
  }

  function WithId(id: string): Source -> bool { (s: Source) => s.id == id }

  /** The row an `update({where: {id}})` returns. */
  function RowOf(rows: seq<Source>, id: string): (r: Option<Source>)
    ensures r.Some? <==> HasId(rows, id)
    ensures r.Some? ==> r.value in rows && r.value.id == id
  {
    FindFirst(rows, WithId(id))
  }

  // ---------------------------------------------------------------------------
  // getQueueStats (src/lib/queue.ts:78-86)
  // ---------------------------------------------------------------------------

  function WithStatus(st: Status): Source -> bool { (s: Source) => s.status == st }

  /** `count({where: {status}})`. */
  function CountStatus(rows: seq<Source>, st: Status): nat {
    |Filter(rows, WithStatus(st))|
  }

  datatype QueueStats = QueueStats(pending: nat, processing: nat, ready: nat, failed: nat)

  function GetQueueStats(rows: seq<Source>): (q: QueueStats)
    ensures q.pending + q.processing + q.ready + q.failed == |rows|
  {
    StatsTotal(rows);
    QueueStats(CountStatus(rows, Pending), CountStatus(rows, Processing),
               CountStatus(rows, Ready), CountStatus(rows, Failed))
  }

  /** Every row has exactly one of the four statuses, so the counts add up to
      the size of the table. */
  lemma {:induction false} StatsTotal(rows: seq<Source>)
    ensures CountStatus(rows, Pending) + CountStatus(rows, Processing)
          + CountStatus(rows, Ready) + CountStatus(rows, Failed) == |rows|
  {
    if rows != [] {
      StatsTotal(rows[1..]);
    }
  }

  /** The `status` column, row by row. */
  function StatusColumn(rows: seq<Source>): (r: seq<Status>)
    ensures |r| == |rows| && forall i :: 0 <= i < |rows| ==> r[i] == rows[i].status
  {
    seq(|rows|, i requires 0 <= i < |rows| => rows[i].status)
  }

  lemma {:induction false} CountStatusColumn(rows: seq<Source>, st: Status)
    ensures CountStatus(rows, st) == multiset(StatusColumn(rows))[st]
  {
    if rows != [] {
      CountStatusColumn(rows[1..], st);
      var column := StatusColumn(rows);
      assert column == [column[0]] + StatusColumn(rows[1..]);
      assert multiset(column)[st] == multiset([column[0]])[st] + multiset(StatusColumn(rows[1..]))[st];
    }
  }

  /** A count is the number of rows with that status: the number of times the
      status occurs in the `status` column, zero exactly when no row has it. */
  lemma {:induction false} CountStatusMembers(rows: seq<Source>, st: Status)
    ensures CountStatus(rows, st) == multiset(StatusColumn(rows))[st]
    ensures CountStatus(rows, st) == 0 <==> forall i :: 0 <= i < |rows| ==> rows[i].status != st
  {
    CountStatusColumn(rows, st);
    FilterMembers(rows, WithStatus(st));
    if CountStatus(rows, st) == 0 {
      forall i | 0 <= i < |rows| ensures rows[i].status != st {
        assert rows[i] in rows;
      }
    } else {
      var x := Filter(rows, WithStatus(st))[0];
      assert x in Filter(rows, WithStatus(st));
      var i :| 0 <= i < |rows| && rows[i] == x;
    }
  }

  // ---------------------------------------------------------------------------
  // The table as the handlers see it
  // ---------------------------------------------------------------------------

  class SourceTable {
    /** The `KnowledgeSource` rows, in creation order. */
    var rows: seq<Source>

    constructor (initial: seq<Source>)
      ensures rows == initial
    {
      rows := initial;
    }

    /** `knowledgeSource.update` of the status and error columns of row `id`. */
    method Update(id: string, st: Status, f: ErrorField, fault: Option<string>) returns (r: Outcome)
      modifies this
      ensures (rows, r) == StatusWrite(old(rows), id, st, f, fault)
    {
      if fault.Some? {
        return Fail(fault.value);
      }
      if !HasId(rows, id) {
        return Fail(NotFound);
      }
      rows := Updated(rows, id, st, f);
      r := Pass;
    }

    /** `knowledgeSource.create` of the row `src`. */
    method Create(src: Source, fault: Option<string>) returns (r: Result<Source>)
      modifies this
      ensures fault.Some? ==> r == Err(fault.value) && rows == old(rows)
      ensures fault.None? ==> r == Ok(src) && rows == old(rows) + [src]
    {
      if fault.Some? {
        return Err(fault.value);
      }
      rows := rows + [src];
      r := Ok(src);
    }
  }
}
