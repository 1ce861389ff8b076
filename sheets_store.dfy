/** The memory store: the connection to the spreadsheet service (tried with a fixed chain of
    authentication methods), the worksheet with its header row, and the month and year queries.
    The service itself is outside the model: what it answers is passed in. */
module SheetsStore {
  import opened PyText
  import opened Memories
  import SummaryFormat

  /** A worksheet held by the spreadsheet service; `rows` are its rows of cell values from row 1
      down. */
  class Worksheet {
    var rows: seq<seq<string>>

    /** A freshly added worksheet holds no values. */
    constructor ()
      ensures rows == []
    {
      rows := [];
    }
  }

  /** An opened spreadsheet, with what the service does on it: `sheet1` is null when looking up
      its first worksheet raises, `addFails` says whether adding a worksheet raises, and
      `headerFails` whether reading or inserting the header row raises. */
  datatype Spreadsheet = Spreadsheet(sheet1: Worksheet?, addFails: bool, headerFails: bool)

  /** The rows after the header check: unchanged when the service call raises (the error is
      only logged), otherwise `WithHeader`. */
  function HeaderChecked(rows: seq<seq<string>>, fails: bool): (r: seq<seq<string>>)
    ensures |rows| <= |r| <= |rows| + 1
    ensures fails ==> r == rows
    ensures !fails ==> HasHeader(r) && r[|r| - |rows|..] == rows
  {
    if fails then rows else WithHeader(rows)
  }

  datatype AuthMethod = ServiceAccount | OAuth | SimpleAuth

  /** An authorized service client; only which method produced it is kept. */
  datatype Client = Client(via: AuthMethod)

  /** What one credential-based attempt (service account or OAuth) meets. */
  datatype Attempt =
    | NotConfigured                      // no credential file exists, or no token is set
    | AuthorizeFails                     // loading the credentials or authorizing raises
    | OpenFails                          // authorizing works, opening the spreadsheet raises
    | Opened(spreadsheet: Spreadsheet)   // the spreadsheet is open

  /** The worksheet an attempt would hand over, as a frame. */
  function SheetOf(a: Attempt): set<object> {
    if a.Opened? && a.spreadsheet.sheet1 != null then {a.spreadsheet.sheet1} else {}
  }

  /** The order in which `initialize` tries the methods. */
  const AuthOrder: seq<AuthMethod> := [ServiceAccount, OAuth, SimpleAuth]

  /** Whether a method reports success; the simplified method always does. */
  predicate Succeeds(m: AuthMethod, sa: Attempt, oauth: Attempt) {
    match m
    case ServiceAccount => sa.Opened?
    case OAuth => oauth.Opened?
    case SimpleAuth => true
  }

  /** The methods `initialize` tries: the shortest prefix of the order that ends in a success. */
  function AuthChain(sa: Attempt, oauth: Attempt): (tried: seq<AuthMethod>)
    ensures 1 <= |tried| <= |AuthOrder| && tried == AuthOrder[..|tried|]
    ensures Succeeds(tried[|tried| - 1], sa, oauth)
    ensures forall i :: 0 <= i < |tried| - 1 ==> !Succeeds(tried[i], sa, oauth)
  {
    if sa.Opened? then [ServiceAccount]
    else if oauth.Opened? then [ServiceAccount, OAuth]
    else AuthOrder
  }

  /** The spreadsheet the chain ends up with, if a credential-based method succeeds. */
  function OpenedBy(sa: Attempt, oauth: Attempt): Option<Spreadsheet> {
    if sa.Opened? then Some(sa.spreadsheet)
    else if oauth.Opened? then Some(oauth.spreadsheet)
    else None
  }

  /** Whether `initialize` ends with a worksheet: a credential-based method opens the spreadsheet
      and either its first worksheet is found or adding one works. */
  predicate SetsUpWorksheet(sa: Attempt, oauth: Attempt) {
    OpenedBy(sa, oauth).Some? && (OpenedBy(sa, oauth).value.sheet1 != null || !OpenedBy(sa, oauth).value.addFails)
  }

  /** True when the first row is the header row (`first_row and first_row[0] == "Datum"`). */
  predicate HasHeader(rows: seq<seq<string>>) {
    rows != [] && rows[0] != [] && rows[0][0] == DateColumn
  }

  /** The rows after `_ensure_headers`: the header row is inserted at row 1 exactly when the first
      row is missing, empty or does not start with "Datum"; the rows already there move down. */
  function WithHeader(rows: seq<seq<string>>): (r: seq<seq<string>>)
    ensures HasHeader(r)
    ensures |r| == |rows| + (if HasHeader(rows) then 0 else 1)
    ensures r[|r| - |rows|..] == rows
    ensures !HasHeader(rows) ==> r[0] == Headers
  {
    if HasHeader(rows) then rows else [Headers] + rows
  }

  /** Ensuring the header a second time changes nothing. */
  lemma WithHeaderIdempotent(rows: seq<seq<string>>)
    ensures WithHeader(WithHeader(rows)) == WithHeader(rows)
  {
  }

  /** The month filter key `f"{year}-{month:02d}"`; the summaries read it back as its month. */
  function MonthKey(year: int, month: int): (r: string)
    ensures year >= 0 && month >= 0 ==>
      SummaryFormat.MonthNumber(r) == Some(month) && SummaryFormat.KeyLabel(r) == Pad2(month)
  {
    var key := IntToString(year) + "-" + Pad2(month);
    assert year >= 0 && month >= 0 ==>
      SummaryFormat.MonthNumber(key) == Some(month) && SummaryFormat.KeyLabel(key) == Pad2(month) by {
      if year >= 0 && month >= 0 {
        SummaryFormat.MonthNumberOfKey(year, month);
        SummaryFormat.KeyLabelOfKey(year, month);
      }
    }
    key
  }

  /** The single stand-in record the month query returns without a worksheet. */
  function MockMonthRecord(year: int, month: int): (r: Record)
    ensures Matches(r, MonthColumn, MonthKey(year, month)) && Matches(r, YearColumn, IntToString(year))
  {
    map[DateColumn := Pad2(month) + "." + IntToString(year) + " 10:30:00",
        OriginalColumn := "Mock Erinnerung für Demo",
        EnhancedColumn := "Heute hatte meine Tochter einen wundervollen Tag...",
        MonthColumn := MonthKey(year, month),
        YearColumn := IntToString(year)]
  }

  /** The single stand-in record the year query returns without a worksheet. */
  function MockYearRecord(year: int): (r: Record)
    ensures Matches(r, YearColumn, IntToString(year)) && Get(r, MonthColumn) == MonthKey(year, 6)
  {
    map[DateColumn := "15.06." + IntToString(year) + " 14:20:00",
        OriginalColumn := "Mock Jahres-Erinnerung",
        EnhancedColumn := "Ein besonderes Jahr mit meiner Tochter...",
        MonthColumn := IntToString(year) + "-06",
        YearColumn := IntToString(year)]
  }

  class SheetsManager {
    var client: Option<Client>
    var spreadsheet: Option<Spreadsheet>
    var worksheet: Worksheet?

    constructor ()
      ensures client == None && spreadsheet == None && worksheet == null
    {
      client, spreadsheet, worksheet := None, None, null;
    }

    /** One credential-based attempt: `_try_service_account_auth` (m = ServiceAccount) and
        `_try_oauth_auth` (m = OAuth) have the same shape. The client is assigned as soon as
        authorizing works; the spreadsheet only once it is open. */
    method TryCredentialAuth(m: AuthMethod, a: Attempt) returns (ok: bool)
      requires m != SimpleAuth
      modifies this`client, this`spreadsheet
      ensures ok == a.Opened?
      ensures client == if a.Opened? || a.OpenFails? then Some(Client(m)) else old(client)
      ensures spreadsheet == if a.Opened? then Some(a.spreadsheet) else old(spreadsheet)
    {
      match a
      case NotConfigured =>
        ok := false;
      case AuthorizeFails =>
        ok := false;
      case OpenFails =>
        client := Some(Client(m));
        ok := false;
      case Opened(s) =>
        client := Some(Client(m));
        spreadsheet := Some(s);
        ok := true;
    }

    /** `_try_simple_auth`: drops the client and reports success. */
    method TrySimpleAuth() returns (ok: bool)
      modifies this`client
      ensures ok && client == None
    {
      client := None;
      ok := true;
    }

    /** `_ensure_headers`: inserts the header row at row 1 when it is missing. `fails` says
        whether `row_values` or `insert_row` raises; the error is swallowed and no row is added. */
    method EnsureHeaders(fails: bool)
      modifies worksheet
      ensures worksheet != null ==> worksheet.rows == HeaderChecked(old(worksheet.rows), fails)
    {
      if worksheet != null && !fails {
        var firstRow := if worksheet.rows == [] then [] else worksheet.rows[0];
        if firstRow == [] || firstRow[0] != DateColumn {
          worksheet.rows := [Headers] + worksheet.rows;
        }
      }
    }

    /** `_setup_worksheet`: with both a client and a spreadsheet, use the first worksheet (or add
        one when that lookup raises) and ensure its header; otherwise no worksheet (mock mode).
        When adding the worksheet raises too, the error is swallowed: the assignment never
        happens, the worksheet stays what it was and the header check is skipped. */
    method SetupWorksheet()
      modifies this`worksheet
      modifies if client.Some? && spreadsheet.Some? && spreadsheet.value.sheet1 != null
               then {spreadsheet.value.sheet1} else {}
      ensures !(client.Some? && spreadsheet.Some?) ==> worksheet == null
      ensures client.Some? && spreadsheet.Some? && spreadsheet.value.sheet1 != null ==>
        worksheet == spreadsheet.value.sheet1
        && worksheet.rows == HeaderChecked(old(spreadsheet.value.sheet1.rows), spreadsheet.value.headerFails)
      ensures client.Some? && spreadsheet.Some? && spreadsheet.value.sheet1 == null && !spreadsheet.value.addFails ==>
        worksheet != null && fresh(worksheet) && worksheet.rows == HeaderChecked([], spreadsheet.value.headerFails)
      ensures client.Some? && spreadsheet.Some? && spreadsheet.value.sheet1 == null && spreadsheet.value.addFails ==>
        worksheet == old(worksheet)
    {
      if client.Some? && spreadsheet.Some? {
        if spreadsheet.value.sheet1 != null {
          worksheet := spreadsheet.value.sheet1;
        } else if spreadsheet.value.addFails {
          return;
        } else {
          worksheet := new Worksheet();
        }
        EnsureHeaders(spreadsheet.value.headerFails);
      } else {
        worksheet := null;
      }
    }

    /** `initialize`: service account, then OAuth, then the simplified method, stopping at the
        first success; then the worksheet setup. The simplified method never fails, so neither
        does `initialize`; a worksheet setup that raises is swallowed inside the setup. */
    method Initialize(sa: Attempt, oauth: Attempt) returns (ok: bool, tried: seq<AuthMethod>)
      modifies this`client, this`spreadsheet, this`worksheet, SheetOf(sa), SheetOf(oauth)
      ensures ok
      ensures tried == AuthChain(sa, oauth)
      ensures OpenedBy(sa, oauth).None? ==> client == None && worksheet == null
      ensures OpenedBy(sa, oauth).Some? ==>
        var s := OpenedBy(sa, oauth).value;
        && client.Some? && spreadsheet == Some(s)
        && (s.sheet1 != null ==> worksheet == s.sheet1 && worksheet.rows == HeaderChecked(old(s.sheet1.rows), s.headerFails))
        && (s.sheet1 == null && !s.addFails ==>
              worksheet != null && fresh(worksheet) && worksheet.rows == HeaderChecked([], s.headerFails))
        && (s.sheet1 == null && s.addFails ==> worksheet == old(worksheet))
      ensures SetsUpWorksheet(sa, oauth) ==> worksheet != null
    {
      tried := [ServiceAccount];
      var success := TryCredentialAuth(ServiceAccount, sa);
      if !success {
        tried := tried + [OAuth];
        success := TryCredentialAuth(OAuth, oauth);
      }
      if !success {
        tried := tried + [SimpleAuth];
        success := TrySimpleAuth();
      }
      SetupWorksheet();
      ok := true;
    }

    /** `get_memories_by_month`. `fetched` is what reading all records returns (`None`: it
        raised). Without a worksheet, one stand-in record for that month. */
    function MemoriesByMonth(year: int, month: int, fetched: Option<seq<Record>>): (r: seq<Record>)
      reads this
      ensures worksheet == null ==> r == [MockMonthRecord(year, month)]
      ensures worksheet != null && fetched.None? ==> r == []
      ensures worksheet != null && fetched.Some? ==>
        forall x :: multiset(r)[x] == if Matches(x, MonthColumn, MonthKey(year, month)) then multiset(fetched.value)[x] else 0
      ensures forall i :: 0 <= i < |r| ==> Matches(r[i], MonthColumn, MonthKey(year, month))
    {
      var key := MonthKey(year, month);
      if worksheet != null then
        match fetched
        case None => []
        case Some(all) =>
          var out := Filter(all, MonthColumn, key);
          FilterContents(all, MonthColumn, key);
          assert forall i :: 0 <= i < |out| ==> out[i] in out;
          out
      else [MockMonthRecord(year, month)]
    }

    /** `get_memories_by_year`, the same shape with the key `str(year)`. */
    function MemoriesByYear(year: int, fetched: Option<seq<Record>>): (r: seq<Record>)
      reads this
      ensures worksheet == null ==> r == [MockYearRecord(year)]
      ensures worksheet != null && fetched.None? ==> r == []
      ensures worksheet != null && fetched.Some? ==>
        forall x :: multiset(r)[x] == if Matches(x, YearColumn, IntToString(year)) then multiset(fetched.value)[x] else 0
      ensures forall i :: 0 <= i < |r| ==> Matches(r[i], YearColumn, IntToString(year))
    {
      if worksheet != null then
        match fetched
        case None => []
        case Some(all) =>
          var out := Filter(all, YearColumn, IntToString(year));
          FilterContents(all, YearColumn, IntToString(year));
          assert forall i :: 0 <= i < |out| ==> out[i] in out;
          out
      else [MockYearRecord(year)]
    }

    /** `is_connected`: `client is not None or True`. */
    function IsConnected(): (r: bool)
      reads this
      ensures r
    {
      client.Some? || true
    }

    /** Appending one row, the operation the bot calls `append_row`: without a worksheet the
        append is simulated and reported as done; otherwise the row goes below the last one,
        unless the service call raises. */
    method AppendRow(row: seq<string>, fails: bool) returns (ok: bool)
      modifies worksheet
      ensures worksheet == null ==> ok
      ensures worksheet != null ==> ok == !fails
      ensures worksheet != null ==> worksheet.rows == if fails then old(worksheet.rows) else old(worksheet.rows) + [row]
    {
      if worksheet == null {
        ok := true;
      } else if fails {
        ok := false;
      } else {
        worksheet.rows := worksheet.rows + [row];
        ok := true;
      }
    }
  }

  /** Both queries keep the sheet's order: the records of two stretches of the sheet come back as
      the records of the first stretch followed by those of the second. */
  lemma QueriesKeepOrder(m: SheetsManager, a: seq<Record>, b: seq<Record>, year: int, month: int)
    requires m.worksheet != null
    ensures m.MemoriesByMonth(year, month, Some(a + b)) == m.MemoriesByMonth(year, month, Some(a)) + m.MemoriesByMonth(year, month, Some(b))
    ensures m.MemoriesByYear(year, Some(a + b)) == m.MemoriesByYear(year, Some(a)) + m.MemoriesByYear(year, Some(b))
  {
    FilterAppend(a, b, MonthColumn, MonthKey(year, month));
    FilterAppend(a, b, YearColumn, IntToString(year));
  }
}
