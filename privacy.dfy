/**
 * The privacy provider over the audit log: which users have data, the
 * export of one user's rows, and erasure for a context, a user or a list of
 * users. The plugin stores all of it at the system context level.
 */
module Privacy {
  import opened Wrappers
  import opened Host
  import opened Logger

  predicate IsSystem(context: Context) {
    context.contextlevel == CONTEXT_SYSTEM
  }

  predicate HasSystemContext(contexts: seq<Context>) {
    exists i :: 0 <= i < |contexts| && IsSystem(contexts[i])
  }

  /** `get_users_in_context`: every user with a row, for the system context; nobody otherwise. */
  function UsersInContext(records: seq<LogRecord>, context: Context): (users: set<int>)
    ensures forall u :: u in users <==> IsSystem(context) && exists r :: r in records && r.entry.userid == u
  {
    if IsSystem(context) then set r | r in records :: r.entry.userid else {}
  }

  /** `delete_data_for_all_users_in_context`: empties the log for the system context only. */
  method DeleteAllUsersInContext(log: AuditLog, context: Context)
    requires log.Valid()
    modifies log
    ensures log.Valid()
    ensures log.records == (if IsSystem(context) then [] else old(log.records))
    ensures log.nextId == old(log.nextId)
  {
    if context.contextlevel != CONTEXT_SYSTEM {
      return;
    }
    log.DeleteAll();
  }

  /**
   * `delete_data_for_user`: for every system context in the approved list,
   * removes the user's rows; the rows of other users are kept in order.
   */
  method DeleteForUser(log: AuditLog, userid: int, contexts: seq<Context>)
    requires log.Valid()
    modifies log
    ensures log.Valid()
    ensures log.records == (if HasSystemContext(contexts) then Where(old(log.records), ExceptUsers({userid}))
                            else old(log.records))
    ensures log.nextId == old(log.nextId)
  {
    ghost var before := log.records;
    ghost var erased := Where(before, ExceptUsers({userid}));
    WhereIdempotent(before, ExceptUsers({userid}));
    ghost var hit := false;
    var i := 0;
    while i < |contexts|
      invariant 0 <= i <= |contexts|
      invariant log.Valid() && log.nextId == old(log.nextId)
      invariant hit == HasSystemContext(contexts[..i])
      invariant hit ==> log.records == erased
      invariant !hit ==> log.records == before
    {
      assert contexts[..i + 1] == contexts[..i] + [contexts[i]];
      SystemContextAppended(contexts[..i], contexts[i]);
      if contexts[i].contextlevel == CONTEXT_SYSTEM {
        log.DeleteUsers({userid});
        hit := true;
      }
      i := i + 1;
    }
    assert contexts[..i] == contexts;
  }

  /** A list holds a system context exactly when its prefix does or its last element is one. */
  lemma SystemContextAppended(contexts: seq<Context>, c: Context)
    ensures HasSystemContext(contexts + [c]) <==> HasSystemContext(contexts) || IsSystem(c)
  {
    var all := contexts + [c];
    if HasSystemContext(contexts) {
      var k :| 0 <= k < |contexts| && IsSystem(contexts[k]);
      assert all[k] == contexts[k];
    }
    if IsSystem(c) {
      assert all[|contexts|] == c;
    }
    if HasSystemContext(all) {
      var k :| 0 <= k < |all| && IsSystem(all[k]);
      if k < |contexts| {
        assert contexts[k] == all[k];
      }
    }
  }

  /**
   * `delete_data_for_users`: for the system context and a non-empty list,
   * removes the rows of every listed user; otherwise changes nothing.
   */
  method DeleteForUsers(log: AuditLog, context: Context, userids: seq<int>)
    requires log.Valid()
    modifies log
    ensures log.Valid()
    ensures log.records == (if IsSystem(context) && |userids| > 0
                            then Where(old(log.records), ExceptUsers(set u | u in userids))
                            else old(log.records))
    ensures log.nextId == old(log.nextId)
  {
    if context.contextlevel != CONTEXT_SYSTEM {
      return;
    }
    if |userids| > 0 {
      log.DeleteUsers(set u | u in userids);
    }
  }

  /** Erasure removes exactly the rows of the erased users: every other row stays, and none of theirs does. */
  lemma ErasureIsExact(records: seq<LogRecord>, userids: set<int>)
    ensures forall r :: r in Where(records, ExceptUsers(userids)) <==> r in records && r.entry.userid !in userids
    ensures |Where(records, ExceptUsers(userids))| <= |records|
    ensures Where(Where(records, ExceptUsers(userids)), ExceptUsers(userids)) == Where(records, ExceptUsers(userids))
  {
    WhereIdempotent(records, ExceptUsers(userids));
  }

  /** After erasing a user, the user is no longer among the users with data. */
  lemma ErasedUserHasNoData(records: seq<LogRecord>, userid: int, context: Context)
    ensures userid !in UsersInContext(Where(records, ExceptUsers({userid})), context)
  {
  }

  // ---------------------------------------------------------------- export

  /** One exported row: the stored fields, with the creation time kept as its timestamp. */
  datatype ExportRow = ExportRow(
    paymentid: int, action: string, status: string, amount: real, reference: string, message: string,
    responseCode: Option<int>, ipAddress: string, timecreated: int)

  /** What is written for one context: the context and its rows. */
  datatype ContextExport = ContextExport(contextid: int, rows: seq<ExportRow>)

  function RowOf(r: LogRecord): ExportRow {
    ExportRow(r.entry.paymentid, r.entry.action, r.entry.status, r.entry.amount, r.entry.reference,
              r.entry.message, r.entry.responseCode, r.ipAddress, r.timeCreated)
  }

  /** The user's rows, ordered newest first. */
  function UserLogs(records: seq<LogRecord>, userid: int): seq<LogRecord> {
    Reverse(Where(records, ByUser(userid)))
  }

  /** The exported form of the user's rows, in the same order. */
  function UserRows(records: seq<LogRecord>, userid: int): (rows: seq<ExportRow>)
    ensures |rows| == |UserLogs(records, userid)|
    ensures forall i :: 0 <= i < |rows| ==> rows[i] == RowOf(UserLogs(records, userid)[i])
    ensures forall x :: x in records && x.entry.userid == userid ==> RowOf(x) in rows
    ensures forall row :: row in rows ==> exists x :: x in records && x.entry.userid == userid && RowOf(x) == row
  {
    var logs := UserLogs(records, userid);
    ReverseMembers(Where(records, ByUser(userid)));
    var rows := seq(|logs|, i requires 0 <= i < |logs| => RowOf(logs[i]));
    assert forall x :: x in logs ==> RowOf(x) in rows by {
      forall x | x in logs ensures RowOf(x) in rows {
        var k :| 0 <= k < |logs| && logs[k] == x;
        assert rows[k] == RowOf(x);
      }
    }
    assert forall row :: row in rows ==> exists x :: x in logs && RowOf(x) == row by {
      forall row | row in rows ensures exists x :: x in logs && RowOf(x) == row {
        var k :| 0 <= k < |rows| && rows[k] == row;
        assert logs[k] in logs;
      }
    }
    rows
  }

  /** The exports for a list of contexts: one per system context, when the user has rows. */
  function ExportsFor(records: seq<LogRecord>, userid: int, contexts: seq<Context>): seq<ContextExport> {
    if contexts == [] then []
    else
      var earlier := ExportsFor(records, userid, contexts[..|contexts| - 1]);
      var context := contexts[|contexts| - 1];
      if !IsSystem(context) || UserLogs(records, userid) == [] then earlier
      else earlier + [ContextExport(context.id, UserRows(records, userid))]
  }

  /**
   * `export_user_data`, with the creation time exported unconverted: for
   * each system context in the approved list, the user's rows newest first,
   * written only when there are any.
   */
  method ExportUserData(log: AuditLog, userid: int, contexts: seq<Context>) returns (exports: seq<ContextExport>)
    ensures exports == ExportsFor(log.records, userid, contexts)
  {
    exports := [];
    var i := 0;
    while i < |contexts|
      invariant 0 <= i <= |contexts|
      invariant exports == ExportsFor(log.records, userid, contexts[..i])
    {
      var context := contexts[i];
      assert contexts[..i + 1][..i] == contexts[..i];
      if context.contextlevel == CONTEXT_SYSTEM {
        var logs := Reverse(Where(log.records, ByUser(userid)));
        if |logs| > 0 {
          var data: seq<ExportRow> := [];
          var k := 0;
          while k < |logs|
            invariant 0 <= k <= |logs|
            invariant |data| == k
            invariant forall j :: 0 <= j < k ==> data[j] == RowOf(logs[j])
          {
            data := data + [RowOf(logs[k])];
            k := k + 1;
          }
          assert data == UserRows(log.records, userid);
          exports := exports + [ContextExport(context.id, data)];
        }
      }
      i := i + 1;
    }
    assert contexts[..i] == contexts;
  }

  /**
   * The user's rows are exactly the stored rows of that user, newest first;
   * by timestamp too when the clock never went back.
   */
  lemma UserLogsAreTheUsersNewestFirst(records: seq<LogRecord>, userid: int)
    requires IdsAscending(records)
    ensures forall r :: r in UserLogs(records, userid) <==> r in records && r.entry.userid == userid
    ensures IdsDescending(UserLogs(records, userid))
    ensures Chronological(records) ==> LatestFirst(UserLogs(records, userid))
  {
    ReverseMembers(Where(records, ByUser(userid)));
    NewestFirst(records, ByUser(userid));
  }

  /**
   * Every export is written for an approved system context and holds all of
   * the user's rows, never an empty list.
   */
  lemma {:induction false} ExportsHoldTheUsersRows(records: seq<LogRecord>, userid: int, contexts: seq<Context>)
    ensures forall e :: e in ExportsFor(records, userid, contexts) ==>
      && e.rows == UserRows(records, userid) && |e.rows| > 0
      && (exists c :: c in contexts && IsSystem(c) && c.id == e.contextid)
  {
    if contexts != [] {
      var init := contexts[..|contexts| - 1];
      ExportsHoldTheUsersRows(records, userid, init);
      forall e | e in ExportsFor(records, userid, contexts)
        ensures e.rows == UserRows(records, userid) && |e.rows| > 0
        ensures exists c :: c in contexts && IsSystem(c) && c.id == e.contextid
      {
        if e in ExportsFor(records, userid, init) {
          var c :| c in init && IsSystem(c) && c.id == e.contextid;
          assert c in contexts;
        } else {
          assert contexts[|contexts| - 1] in contexts;
        }
      }
    }
  }

  /** A user without rows has nothing to read. */
  lemma {:induction false} NoRowsNoneRead(records: seq<LogRecord>, userid: int)
    requires forall r :: r in records ==> r.entry.userid != userid
    ensures Where(records, ByUser(userid)) == []
  {
    if records != [] {
      assert records[0] in records;
      NoRowsNoneRead(records[1..], userid);
    }
  }

  /** Nothing is exported for a user without rows, or when no system context is approved. */
  lemma {:induction false} NothingToExport(records: seq<LogRecord>, userid: int, contexts: seq<Context>)
    requires (forall r :: r in records ==> r.entry.userid != userid) || !HasSystemContext(contexts)
    ensures ExportsFor(records, userid, contexts) == []
  {
    if contexts != [] {
      var init := contexts[..|contexts| - 1];
      if HasSystemContext(contexts) {
        NoRowsNoneRead(records, userid);
      }
      NothingToExport(records, userid, init);
    }
  }

  // ---------------------------------------------------------------- the export as written

  /**
   * `export_user_data` as the file is written: `transform` is not imported
   * into the provider's namespace, so converting the first row's creation
   * time raises an error before anything is written. The export therefore
   * fails whenever a system context is approved and the user has rows, and
   * exports nothing otherwise.
   */
  function ExportAsWritten(records: seq<LogRecord>, userid: int, contexts: seq<Context>): (r: Result<seq<ContextExport>, string>)
    ensures r.Success? ==> r.value == []
    ensures r.Failure? <==> HasSystemContext(contexts) && exists x :: x in records && x.entry.userid == userid
  {
    if HasSystemContext(contexts) && exists x :: x in records && x.entry.userid == userid then
      Failure("Class \"paygw_helloasso\\privacy\\transform\" not found")
    else
      Success([])
  }

  /**
   * A user with a single row and the system context approved: the export as
   * written fails, while the corrected export writes that row.
   */
  lemma ExportAsWrittenFailsOnAnyRow()
    ensures var rec := LogRecord(1, LogEntry(42, 7, "payment_return", SUCCESS, 10.0), "127.0.0.1", 1700000000);
      var contexts := [Context(1, CONTEXT_SYSTEM)];
      && ExportAsWritten([rec], 7, contexts).Failure?
      && ExportsFor([rec], 7, contexts) == [ContextExport(1, [RowOf(rec)])]
  {
    var rec := LogRecord(1, LogEntry(42, 7, "payment_return", SUCCESS, 10.0), "127.0.0.1", 1700000000);
    var contexts := [Context(1, CONTEXT_SYSTEM)];
    assert IsSystem(contexts[0]);
    assert rec in [rec];
    assert Where([rec], ByUser(7)) == [rec];
    assert contexts[..0] == [];
    assert UserLogs([rec], 7) == [rec];
    assert UserRows([rec], 7) == [RowOf(rec)];
  }
}
