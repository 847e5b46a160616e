/**
 * The plugin's audit log: an append-only table of lifecycle records written by
 * `log_action`, and the filtered, newest-first reads of it.
 */
module Logger {
  import opened Wrappers

  const SUCCESS := "success"
  const ERROR := "error"
  const CANCELLED := "cancelled"
  const FRAUD_DETECTED := "fraud_detected"

  /** The fields a caller of `log_action` supplies. */
  datatype Entry = Entry(
    paymentid: int, userid: int, action: string, status: string, amount: real,
    message: string, responseCode: Option<int>, reference: string)

  /** `log_action`'s argument list with its defaults. */
  function LogEntry(paymentid: int, userid: int, action: string, status: string, amount: real,
                    message: string := "", responseCode: Option<int> := None,
                    reference: string := ""): Entry
  {
    Entry(paymentid, userid, action, status, amount, message, responseCode, reference)
  }

  /** What the environment, not the caller, puts in a record: the clock and the remote address. */
  datatype Env = Env(now: int, remoteAddr: string)

  /** A stored row: its sequence id, the caller's fields and the environment's. */
  datatype LogRecord = LogRecord(id: nat, entry: Entry, ipAddress: string, timeCreated: int)

  /** The rows that appending `es` in order writes, numbered from `firstId`. */
  function Stamp(es: seq<Entry>, firstId: nat, env: Env): seq<LogRecord> {
    seq(|es|, i requires 0 <= i < |es| => LogRecord(firstId + i, es[i], env.remoteAddr, env.now))
  }

  lemma StampAppend(a: seq<Entry>, b: seq<Entry>, firstId: nat, env: Env)
    ensures Stamp(a + b, firstId, env) == Stamp(a, firstId, env) + Stamp(b, firstId + |a|, env)
  {
  }

  /** Appending in two steps is appending the concatenation. */
  lemma AppendTwice(r: seq<LogRecord>, a: seq<Entry>, b: seq<Entry>, firstId: nat, env: Env)
    ensures r + Stamp(a, firstId, env) + Stamp(b, firstId + |a|, env) == r + Stamp(a + b, firstId, env)
  {
    StampAppend(a, b, firstId, env);
  }

  /** Two appends in a row, stated on the intermediate and final tables. */
  lemma AppendedTwice(before: seq<LogRecord>, mid: seq<LogRecord>, after: seq<LogRecord>,
                      a: seq<Entry>, b: seq<Entry>, firstId: nat, midId: nat, env: Env)
    requires mid == before + Stamp(a, firstId, env)
    requires midId == firstId + |a|
    requires after == mid + Stamp(b, midId, env)
    ensures after == before + Stamp(a + b, firstId, env)
  {
    AppendTwice(before, a, b, firstId, env);
  }

  /** The caller-supplied part of every row, in table order. */
  function EntriesOf(rs: seq<LogRecord>): seq<Entry> {
    seq(|rs|, i requires 0 <= i < |rs| => rs[i].entry)
  }

  lemma EntriesOfStamped(rs: seq<LogRecord>, es: seq<Entry>, firstId: nat, env: Env)
    ensures EntriesOf(rs + Stamp(es, firstId, env)) == EntriesOf(rs) + es
  {
  }

  ghost predicate IdsAscending(rs: seq<LogRecord>) {
    forall i, j :: 0 <= i < j < |rs| ==> rs[i].id < rs[j].id
  }

  ghost predicate IdsDescending(rs: seq<LogRecord>) {
    forall i, j :: 0 <= i < j < |rs| ==> rs[i].id > rs[j].id
  }

  /** Rows were written by a clock that never goes back. */
  ghost predicate Chronological(rs: seq<LogRecord>) {
    forall i, j :: 0 <= i < j < |rs| ==> rs[i].timeCreated <= rs[j].timeCreated
  }

  ghost predicate LatestFirst(rs: seq<LogRecord>) {
    forall i, j :: 0 <= i < j < |rs| ==> rs[i].timeCreated >= rs[j].timeCreated
  }

  /** The log table. */
  class AuditLog {
    var records: seq<LogRecord>
    var nextId: nat

    /** Row ids come from a sequence: increasing, and below the next one to hand out. */
    ghost predicate Valid()
      reads this
    {
      IdsAscending(records) && forall r :: r in records ==> r.id < nextId
    }

    constructor ()
      ensures Valid() && records == [] && nextId == 1
    {
      records := [];
      nextId := 1;
    }

    /**
     * `log_action`: appends exactly one row holding the caller's fields and the
     * environment's time and address; every existing row is unchanged.
     */
    method LogAction(e: Entry, env: Env)
      requires Valid()
      modifies this
      ensures Valid()
      ensures records == old(records) + Stamp([e], old(nextId), env)
      ensures records[|records| - 1] == LogRecord(old(nextId), e, env.remoteAddr, env.now)
      ensures nextId == old(nextId) + 1
    {
      records := records + [LogRecord(nextId, e, env.remoteAddr, env.now)];
      nextId := nextId + 1;
    }

    /** `delete_records` on the whole table; the id sequence is not reset. */
    method DeleteAll()
      requires Valid()
      modifies this
      ensures Valid()
      ensures records == [] && nextId == old(nextId)
    {
      records := [];
    }

    /** `delete_records` restricted to the rows of the given users; the other rows keep their order. */
    method DeleteUsers(userids: set<int>)
      requires Valid()
      modifies this
      ensures Valid()
      ensures records == Where(old(records), ExceptUsers(userids)) && nextId == old(nextId)
    {
      WhereAscending(records, ExceptUsers(userids));
      records := Where(records, ExceptUsers(userids));
    }
  }

  /** Two `log_action` calls in a row. */
  method LogTwo(log: AuditLog, first: Entry, second: Entry, env: Env)
    requires log.Valid()
    modifies log
    ensures log.Valid()
    ensures log.records == old(log.records) + Stamp([first, second], old(log.nextId), env)
    ensures log.nextId == old(log.nextId) + 2
  {
    ghost var before := log.records;
    ghost var id0 := log.nextId;
    log.LogAction(first, env);
    ghost var mid := log.records;
    log.LogAction(second, env);
    AppendedTwice(before, mid, log.records, [first], [second], id0, id0 + 1, env);
    assert [first] + [second] == [first, second];
  }

  /** A row filter: the condition of a read, or of the rows a deletion keeps. */
  datatype Criterion = ByPayment(paymentid: int) | ByStatus(status: string) | ByUser(userid: int)
                     | ExceptUsers(userids: set<int>)

  predicate Matches(r: LogRecord, c: Criterion) {
    match c
    case ByPayment(p) => r.entry.paymentid == p
    case ByStatus(s) => r.entry.status == s
    case ByUser(u) => r.entry.userid == u
    case ExceptUsers(us) => r.entry.userid !in us
  }

  /** The rows matching `c`, in table order. */
  function Where(rs: seq<LogRecord>, c: Criterion): (r: seq<LogRecord>)
    ensures forall x :: x in r <==> x in rs && Matches(x, c)
    ensures |r| <= |rs|
  {
    if rs == [] then []
    else if Matches(rs[0], c) then [rs[0]] + Where(rs[1..], c)
    else Where(rs[1..], c)
  }

  function Reverse(rs: seq<LogRecord>): (r: seq<LogRecord>)
    ensures |r| == |rs|
    ensures forall i :: 0 <= i < |rs| ==> r[i] == rs[|rs| - 1 - i]
  {
    seq(|rs|, i requires 0 <= i < |rs| => rs[|rs| - 1 - i])
  }

  lemma ReverseMembers(rs: seq<LogRecord>)
    ensures forall x :: x in Reverse(rs) <==> x in rs
  {
    var r := Reverse(rs);
    forall x | x in rs ensures x in r {
      var k :| 0 <= k < |rs| && rs[k] == x;
      assert r[|rs| - 1 - k] == x;
    }
  }

  /** Reversing twice gives the rows back, and reversing keeps every row as often as it was there. */
  lemma {:induction false} ReverseReverse(rs: seq<LogRecord>)
    ensures Reverse(Reverse(rs)) == rs
    ensures multiset(Reverse(rs)) == multiset(rs)
  {
    if rs != [] {
      var tail := rs[1..];
      assert Reverse(rs) == Reverse(tail) + [rs[0]];
      ReverseReverse(tail);
      assert rs == [rs[0]] + tail;
    }
  }

  /** The host's limit on a read: 0 or less means no limit. */
  function Limit(rs: seq<LogRecord>, limit: int): seq<LogRecord> {
    if 0 < limit < |rs| then rs[..limit] else rs
  }

  /** `get_payment_logs`: the rows of one payment, newest first. */
  function PaymentLogs(records: seq<LogRecord>, paymentid: int): (r: seq<LogRecord>)
    ensures forall x :: x in r <==> x in records && x.entry.paymentid == paymentid
  {
    ReverseMembers(Where(records, ByPayment(paymentid)));
    Reverse(Where(records, ByPayment(paymentid)))
  }

  /** `get_error_logs`: at most `limit` rows with status `error`, newest first. */
  function ErrorLogs(records: seq<LogRecord>, limit: int := 100): (r: seq<LogRecord>)
    ensures limit > 0 ==> |r| <= limit
    ensures forall x :: x in r ==> x in records && x.entry.status == ERROR
  {
    ReverseMembers(Where(records, ByStatus(ERROR)));
    Limit(Reverse(Where(records, ByStatus(ERROR))), limit)
  }

  /** `get_fraud_alerts`: at most `limit` rows with status `fraud_detected`, newest first. */
  function FraudAlerts(records: seq<LogRecord>, limit: int := 50): (r: seq<LogRecord>)
    ensures limit > 0 ==> |r| <= limit
    ensures forall x :: x in r ==> x in records && x.entry.status == FRAUD_DETECTED
  {
    ReverseMembers(Where(records, ByStatus(FRAUD_DETECTED)));
    Limit(Reverse(Where(records, ByStatus(FRAUD_DETECTED))), limit)
  }

  /** `R` holds between every row and every later row. */
  ghost predicate Pairwise(rs: seq<LogRecord>, R: (LogRecord, LogRecord) -> bool) {
    forall i, j :: 0 <= i < j < |rs| ==> R(rs[i], rs[j])
  }

  /** Filtering keeps rows in table order, so any relation between earlier and later rows survives it. */
  lemma {:induction false} WherePairwise(rs: seq<LogRecord>, c: Criterion, R: (LogRecord, LogRecord) -> bool)
    requires Pairwise(rs, R)
    ensures Pairwise(Where(rs, c), R)
  {
    if rs != [] {
      var rest := rs[1..];
      assert Pairwise(rest, R) by {
        forall i, j | 0 <= i < j < |rest| ensures R(rest[i], rest[j]) {
          assert rest[i] == rs[i + 1] && rest[j] == rs[j + 1];
        }
      }
      WherePairwise(rest, c, R);
      var tail := Where(rest, c);
      if Matches(rs[0], c) {
        var r := [rs[0]] + tail;
        forall i, j | 0 <= i < j < |r| ensures R(r[i], r[j]) {
          if i == 0 {
            assert r[j] == tail[j - 1];
            assert tail[j - 1] in rest;
            var k :| 0 <= k < |rest| && rest[k] == tail[j - 1];
            assert rs[k + 1] == rest[k];
          } else {
            assert r[i] == tail[i - 1] && r[j] == tail[j - 1];
          }
        }
      }
    }
  }

  /** Filtering keeps rows in table order, so ascending ids stay ascending. */
  lemma WhereAscending(rs: seq<LogRecord>, c: Criterion)
    requires IdsAscending(rs)
    ensures IdsAscending(Where(rs, c))
    ensures Chronological(rs) ==> Chronological(Where(rs, c))
  {
    var byId := (a: LogRecord, b: LogRecord) => a.id < b.id;
    assert Pairwise(rs, byId);
    WherePairwise(rs, c, byId);
    assert Pairwise(Where(rs, c), byId);
    if Chronological(rs) {
      var byTime := (a: LogRecord, b: LogRecord) => a.timeCreated <= b.timeCreated;
      assert Pairwise(rs, byTime);
      WherePairwise(rs, c, byTime);
      assert Pairwise(Where(rs, c), byTime);
    }
  }

  /** Filtering twice by the same criterion is filtering once. */
  lemma {:induction false} WhereIdempotent(rs: seq<LogRecord>, c: Criterion)
    ensures Where(Where(rs, c), c) == Where(rs, c)
  {
    if rs != [] {
      WhereIdempotent(rs[1..], c);
      if Matches(rs[0], c) {
        assert ([rs[0]] + Where(rs[1..], c))[1..] == Where(rs[1..], c);
      }
    }
  }

  /**
   * A filtered read of a valid table is newest first: ids strictly decrease,
   * and when the clock never went back, so do the timestamps.
   */
  lemma NewestFirst(rs: seq<LogRecord>, c: Criterion)
    requires IdsAscending(rs)
    ensures IdsDescending(Reverse(Where(rs, c)))
    ensures Chronological(rs) ==> LatestFirst(Reverse(Where(rs, c)))
  {
    WhereAscending(rs, c);
  }

  lemma PaymentLogsNewestFirst(records: seq<LogRecord>, paymentid: int)
    requires IdsAscending(records)
    ensures IdsDescending(PaymentLogs(records, paymentid))
    ensures Chronological(records) ==> LatestFirst(PaymentLogs(records, paymentid))
  {
    NewestFirst(records, ByPayment(paymentid));
  }

  /**
   * A limited read by status returns the most recent matching rows: it is
   * newest first, and a matching row is left out only when the limit was
   * reached by rows newer than it.
   */
  lemma {:induction false} LimitedReadIsMostRecent(records: seq<LogRecord>, status: string, limit: int)
    requires IdsAscending(records)
    ensures var r := Limit(Reverse(Where(records, ByStatus(status))), limit);
      && IdsDescending(r)
      && forall x :: x in records && x.entry.status == status && x !in r ==>
           limit > 0 && |r| == limit && forall y :: y in r ==> y.id > x.id
  {
    NewestFirst(records, ByStatus(status));
    ReverseMembers(Where(records, ByStatus(status)));
    var all := Reverse(Where(records, ByStatus(status)));
    var r := Limit(all, limit);
    forall x | x in records && x.entry.status == status && x !in r
      ensures limit > 0 && |r| == limit && forall y :: y in r ==> y.id > x.id
    {
      assert x in all;
      var k :| 0 <= k < |all| && all[k] == x;
      assert 0 < limit < |all| && k >= limit;
      forall y | y in r ensures y.id > x.id {
        var j :| 0 <= j < |r| && r[j] == y;
        assert all[j] == y;
      }
    }
  }

  lemma ErrorLogsAreMostRecent(records: seq<LogRecord>, limit: int)
    requires IdsAscending(records)
    ensures IdsDescending(ErrorLogs(records, limit))
    ensures forall x :: x in records && x.entry.status == ERROR && x !in ErrorLogs(records, limit) ==>
      && limit > 0 && |ErrorLogs(records, limit)| == limit
      && forall y :: y in ErrorLogs(records, limit) ==> y.id > x.id
  {
    LimitedReadIsMostRecent(records, ERROR, limit);
  }

  lemma FraudAlertsAreMostRecent(records: seq<LogRecord>, limit: int)
    requires IdsAscending(records)
    ensures IdsDescending(FraudAlerts(records, limit))
    ensures forall x :: x in records && x.entry.status == FRAUD_DETECTED && x !in FraudAlerts(records, limit) ==>
      && limit > 0 && |FraudAlerts(records, limit)| == limit
      && forall y :: y in FraudAlerts(records, limit) ==> y.id > x.id
  {
    LimitedReadIsMostRecent(records, FRAUD_DETECTED, limit);
  }

  /** Appending a row stamped no earlier than the last keeps the table chronological. */
  lemma AppendKeepsChronological(rs: seq<LogRecord>, es: seq<Entry>, firstId: nat, env: Env)
    requires Chronological(rs)
    requires forall r :: r in rs ==> r.timeCreated <= env.now
    ensures Chronological(rs + Stamp(es, firstId, env))
  {
    var all := rs + Stamp(es, firstId, env);
    forall i, j | 0 <= i < j < |all| ensures all[i].timeCreated <= all[j].timeCreated {
      if j >= |rs| {
        if i < |rs| { assert rs[i] in rs; }
      }
    }
  }
}
