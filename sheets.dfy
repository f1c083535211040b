/**
 * The spreadsheet side: opening a client, making sure row 1 holds the
 * header, appending normalised rows, reading the tail of the sheet, and the
 * append-only local CSV backup.
 */
module Sheets {
  import opened Values
  import opened Text
  import opened Config
  import Utils

  const Width: nat := Utils.Width

  /** Texts as a row of string cells. */
  function Cells(texts: seq<string>): (r: Row)
    ensures |r| == |texts| && forall i :: 0 <= i < |texts| ==> r[i] == Str(texts[i])
  {
    seq(|texts|, i requires 0 <= i < |texts| => Str(texts[i]))
  }

  /** The header row as cells. */
  const HeaderRow: Row := Cells(Utils.SheetHeaders)

  /** The header row fills columns A..U and starts with "Index". */
  lemma HeaderRowShape()
    ensures |HeaderRow| == Width && HeaderRow[0] == Str("Index")
  {
    Utils.HeaderSchema();
  }

  // ---------------------------------------------------------------------
  // Opening a client
  // ---------------------------------------------------------------------

  /** What a successfully opened client knows: the spreadsheet and the service account's email. */
  datatype ClientConfig = ClientConfig(sheetId: string, saEmail: string)

  const SheetIdMissing := "GOOGLE_SHEET_ID not configured"
  const SaPathMissing := "GOOGLE_SA_JSON_PATH not configured"

  const SaMissingLead := "Service account JSON not found: "
  const SaMissingHint := "\nExpected path in Docker: /secrets/google-sa.json\nMake sure your .env has: GOOGLE_SA_JSON_PATH=/secrets/google-sa.json\nAnd the file exists in your mounted secrets folder."

  function SaFileMissing(path: string): string
  {
    SaMissingLead + path + SaMissingHint
  }

  /** The missing-file message names the path. */
  lemma SaFileMissingNamesPath(path: string)
    ensures Contains(SaFileMissing(path), path)
  {
    ContainsEnd(SaMissingLead, path);
    ContainsExtend(SaMissingLead + path, path, SaMissingHint);
  }

  /**
   * The configuration checks of the client's constructor, in order: a sheet id
   * (the given one, else the default), a service-account path, and that file.
   */
  function OpenClient(sheetId: Option<string>, settings: Settings, saFileExists: bool, saEmail: string): (r: Result<ClientConfig>)
    ensures var id := if IsSet(sheetId) then sheetId else settings.googleSheetId;
      && (r.Ok? <==> IsSet(id) && IsSet(settings.googleSaJsonPath) && saFileExists)
      && (r.Ok? ==> r.value == ClientConfig(id.value, saEmail))
      && (!IsSet(id) ==> r == Err(RuntimeError(SheetIdMissing)))
      && (IsSet(id) && !IsSet(settings.googleSaJsonPath) ==> r == Err(RuntimeError(SaPathMissing)))
      && (IsSet(id) && IsSet(settings.googleSaJsonPath) && !saFileExists ==>
            r.Err? && r.error.FileNotFoundError? && Contains(r.error.msg, settings.googleSaJsonPath.value))
  {
    var id := if IsSet(sheetId) then sheetId else settings.googleSheetId;
    if !IsSet(id) then Err(RuntimeError(SheetIdMissing))
    else if !IsSet(settings.googleSaJsonPath) then Err(RuntimeError(SaPathMissing))
    else if !saFileExists then
      SaFileMissingNamesPath(settings.googleSaJsonPath.value);
      Err(FileNotFoundError(SaFileMissing(settings.googleSaJsonPath.value)))
    else Ok(ClientConfig(id.value, saEmail))
  }

  // ---------------------------------------------------------------------
  // The remote spreadsheets and what the service answers
  // ---------------------------------------------------------------------

  /** The text of the error the service raises for an unknown spreadsheet. */
  const NotFoundText := "404 Requested entity was not found."

  /**
   * Which service calls of one append raise, and with what error text
   * (None: the call succeeds).
   */
  datatype ApiFaults = ApiFaults(
    headerRead: Option<string>,
    headerWrite: Option<string>,
    tailRead: Option<string>,
    append: Option<string>)

  /** The error a call raises: an unknown spreadsheet answers 404, a known one the given fault. */
  function CallFault(sheets: map<string, seq<Row>>, id: string, fault: Option<string>): (e: Option<string>)
    ensures e.None? ==> id in sheets
  {
    if id !in sheets then Some(NotFoundText) else fault
  }

  /** The spreadsheets the service holds: the rows of the tab named Sheet1 of each, by spreadsheet id. */
  class Remote {
    var sheets: map<string, seq<Row>>

    constructor (sheets: map<string, seq<Row>>)
      ensures this.sheets == sheets
    {
      this.sheets := sheets;
    }
  }

  /** A row as a read of columns A through U returns it. */
  function Window(row: Row): (r: Row)
    ensures |r| == Min(|row|, Width) && r == row[..|r|]
    ensures row != [] ==> r != [] && r[0] == row[0]
  {
    if |row| <= Width then row else row[..Width]
  }

  /** Every row as a read of columns A through U returns it. */
  function ReadAll(rows: seq<Row>): (r: seq<Row>)
    ensures |r| == |rows| && forall k :: 0 <= k < |rows| ==> r[k] == Window(rows[k])
  {
    seq(|rows|, k requires 0 <= k < |rows| => Window(rows[k]))
  }

  // ---------------------------------------------------------------------
  // Header assurance
  // ---------------------------------------------------------------------

  /**
   * Row 1 counts as a header when it starts with "Index" and has at least
   * five cells; reading only columns A..U does not change the verdict.
   */
  predicate HeadersPresent(rows: seq<Row>)
    ensures HeadersPresent(rows) <==> rows != [] && |rows[0]| >= 5 && rows[0][0] == Str("Index")
  {
    rows != [] && |Window(rows[0])| >= 5 && Window(rows[0])[0] == Str("Index")
  }

  /** The sheet after columns A..U of row 1 are overwritten with the header. */
  function OverwriteHeader(rows: seq<Row>): (r: seq<Row>)
    ensures |r| == (if rows == [] then 1 else |rows|)
    ensures |r[0]| >= Width && r[0][..Width] == HeaderRow
    ensures |r[0]| == (if rows == [] || |rows[0]| <= Width then Width else |rows[0]|)
    ensures rows != [] && |rows[0]| > Width ==> r[0][Width..] == rows[0][Width..]
    ensures forall k :: 1 <= k < |rows| ==> r[k] == rows[k]
    ensures HeadersPresent(r)
  {
    HeaderRowShape();
    if rows == [] then [HeaderRow]
    else if |rows[0]| > Width then [HeaderRow + rows[0][Width..]] + rows[1..]
    else [HeaderRow] + rows[1..]
  }

  /** Whether `_ensure_headers` rewrites row 1: the write succeeds, and the read failed or found no header. */
  predicate HeaderRewritten(sheets: map<string, seq<Row>>, id: string, f: ApiFaults)
  {
    CallFault(sheets, id, f.headerWrite).None?
    && (CallFault(sheets, id, f.headerRead).Some? || !HeadersPresent(sheets[id]))
  }

  /** The spreadsheets after `_ensure_headers`. */
  function AfterHeaders(sheets: map<string, seq<Row>>, id: string, f: ApiFaults): map<string, seq<Row>>
  {
    if HeaderRewritten(sheets, id, f) then sheets[id := OverwriteHeader(sheets[id])] else sheets
  }

  /**
   * A second header check right after the first does not rewrite and changes
   * nothing; when the first one rewrote row 1, the headers are then present.
   */
  lemma HeaderAssuranceIdempotent(sheets: map<string, seq<Row>>, id: string, f: ApiFaults)
    requires f.headerRead.None?
    ensures var once := AfterHeaders(sheets, id, f);
      !HeaderRewritten(once, id, f) && AfterHeaders(once, id, f) == once
    ensures HeaderRewritten(sheets, id, f) ==> id in AfterHeaders(sheets, id, f) && HeadersPresent(AfterHeaders(sheets, id, f)[id])
  {
  }

  /**
   * Header assurance on a sheet whose row 1 is not a header, a data row
   * included, overwrites that row's first 21 cells with the headers.
   */
  lemma HeaderOverwritesFirstRow(sheets: map<string, seq<Row>>, id: string, f: ApiFaults)
    requires id in sheets && sheets[id] != [] && !HeadersPresent(sheets[id])
    requires f.headerRead.None? && f.headerWrite.None?
    ensures var after := AfterHeaders(sheets, id, f)[id];
      |after| == |sheets[id]| && after[0][..Width] == HeaderRow
  {
  }

  /** A header rewrite touches row 1 of the one spreadsheet and nothing else. */
  lemma HeaderRewriteOnlyRowOne(sheets: map<string, seq<Row>>, id: string, f: ApiFaults)
    ensures var after := AfterHeaders(sheets, id, f);
      && after.Keys == sheets.Keys
      && (forall other :: other in sheets && other != id ==> after[other] == sheets[other])
      && (id in sheets ==> |after[id]| >= |sheets[id]| && forall k :: 1 <= k < |sheets[id]| ==> after[id][k] == sheets[id][k])
  {
  }

  // ---------------------------------------------------------------------
  // Appending
  // ---------------------------------------------------------------------

  /** A row padded with "" or cut to exactly the sheet's width. */
  function Fit(row: Row): (r: Row)
    ensures |r| == Width
    ensures forall i :: 0 <= i < Min(|row|, Width) ==> r[i] == row[i]
    ensures forall i :: |row| <= i < Width ==> r[i] == Str("")
  {
    if |row| >= Width then row[..Width] else row + seq(Width - |row|, _ => Str(""))
  }

  /** A row already as wide as the sheet is left as it is. */
  lemma FitFullWidth(row: Row)
    requires |row| == Width
    ensures Fit(row) == row
  {
  }

  /** What a successful append reports: where the new rows start and how many there are. */
  datatype AppendReply = AppendReply(firstRow: nat, rowCount: nat)

  const DeniedLead := "Permission denied: Service account '"
  const DeniedOpen := "' does not have write access to the Google Sheet.\nTo fix this:\n1. Open your Google Sheet: https://docs.google.com/spreadsheets/d/"
  const DeniedShare := "\n2. Click 'Share' button (top right)\n3. Add this email as Editor: "
  const DeniedTail := "\n4. The service account email is in your JSON file under 'client_email'\n5. Retry the operation"

  function PermissionMessage(email: string, sheetId: string): string
  {
    DeniedLead + email + DeniedOpen + sheetId + DeniedShare + email + DeniedTail
  }

  /** The permission message names the service account and the spreadsheet. */
  lemma PermissionMessageNames(email: string, sheetId: string)
    ensures Contains(PermissionMessage(email, sheetId), email)
    ensures Contains(PermissionMessage(email, sheetId), sheetId)
  {
    ContainsEnd(DeniedLead, email);
    ContainsExtend(DeniedLead + email, email, DeniedOpen);
    ContainsExtend(DeniedLead + email + DeniedOpen, email, sheetId);
    ContainsExtend(DeniedLead + email + DeniedOpen + sheetId, email, DeniedShare);
    ContainsExtend(DeniedLead + email + DeniedOpen + sheetId + DeniedShare, email, email);
    ContainsExtend(DeniedLead + email + DeniedOpen + sheetId + DeniedShare + email, email, DeniedTail);
    ContainsEnd(DeniedLead + email + DeniedOpen, sheetId);
    ContainsExtend(DeniedLead + email + DeniedOpen + sheetId, sheetId, DeniedShare);
    ContainsExtend(DeniedLead + email + DeniedOpen + sheetId + DeniedShare, sheetId, email);
    ContainsExtend(DeniedLead + email + DeniedOpen + sheetId + DeniedShare + email, sheetId, DeniedTail);
  }

  /** What `append_rows` raises when the append call fails with `text`. */
  function AppendError(text: string, email: string, sheetId: string): (e: Error)
    ensures e.PermissionError? <==> Contains(text, "403") || Contains(text, "PERMISSION_DENIED")
    ensures e.PermissionError? ==> Contains(e.msg, email) && Contains(e.msg, sheetId)
    ensures !e.PermissionError? ==> e == ApiError(text)
  {
    if Contains(text, "403") || Contains(text, "PERMISSION_DENIED") then
      PermissionMessageNames(email, sheetId);
      PermissionError(PermissionMessage(email, sheetId))
    else ApiError(text)
  }

  // ---------------------------------------------------------------------
  // Reading the tail
  // ---------------------------------------------------------------------

  /**
   * The rows after a first row whose first cell is "Index": at most that
   * one row is dropped, a header always is, and a first row that starts
   * with a number never is.
   */
  function DataRows(values: seq<Row>): (r: seq<Row>)
    ensures |values| - 1 <= |r| <= |values| && r == values[|values| - |r|..]
    ensures HeadersPresent(values) ==> r == values[1..]
    ensures values != [] && values[0] != [] && values[0][0].Int? ==> r == values
  {
    if values != [] && |values[0]| > 0 && values[0][0] == Str("Index") then values[1..] else values
  }

  /** Python's start index for `s[k:]` on a list of length `len`. */
  function SliceStart(k: int, len: nat): (i: nat)
    ensures i <= len
    ensures k >= 0 ==> i == Min(k, len)
    ensures k < 0 ==> i == (if -k <= len then len + k else 0)
  {
    if k < 0 then (if len + k < 0 then 0 else len + k) else Min(k, len)
  }

  /** `get_last_n_rows` on the rows the service returned. */
  function TailRows(values: seq<Row>, n: int): (r: seq<Row>)
    ensures values == [] ==> r == []
    ensures n >= 1 ==> r == DataRows(values)[|DataRows(values)| - Min(n, |DataRows(values)|)..]
    ensures n == 0 ==> r == DataRows(values)
  {
    if values == [] then []
    else
      var dataRows := DataRows(values);
      if |dataRows| > n then dataRows[SliceStart(-n, |dataRows|)..] else dataRows
  }

  /** With two rows or more, the last one is a data row: `n=1` reads exactly it. */
  lemma {:induction false} TailOfLong(values: seq<Row>)
    requires |values| >= 2
    ensures TailRows(values, 1) == [values[|values| - 1]]
  {
    var data := DataRows(values);
    assert |data| >= 1 && data[|data| - 1] == values[|values| - 1];
    assert TailRows(values, 1) == data[|data| - 1..];
  }

  /** With one row, `n=1` reads it unless it is the header. */
  lemma {:induction false} TailOfOne(row: Row)
    ensures var r := TailRows(ReadAll([row]), 1);
      && (r == [] <==> row != [] && row[0] == Str("Index"))
      && (r != [] ==> |r| == 1 && r[0] == Window(row))
  {
    var values := ReadAll([row]);
    assert |values| == 1 && values[0] == Window(row);
    var data := DataRows(values);
    assert data == [] || data == values;
    assert TailRows(values, 1) == data;
  }

  /** The tail of a sheet with a header row never includes the header row itself. */
  lemma TailSkipsHeader(values: seq<Row>, n: int)
    requires n >= 1 && HeadersPresent(values)
    ensures |TailRows(values, n)| == Min(n, |values| - 1)
    ensures forall k :: 0 <= k < |TailRows(values, n)| ==> TailRows(values, n)[k] == values[|values| - |TailRows(values, n)| + k]
  {
  }

  // ---------------------------------------------------------------------
  // The client
  // ---------------------------------------------------------------------

  class SheetsClient {
    const sheetId: string
    const saEmail: string
    const remote: Remote

    constructor (config: ClientConfig, remote: Remote)
      ensures sheetId == config.sheetId && saEmail == config.saEmail && this.remote == remote
    {
      sheetId := config.sheetId;
      saEmail := config.saEmail;
      this.remote := remote;
    }

    /** `_ensure_headers`: returns whether row 1 was (re)written. */
    method EnsureHeaders(f: ApiFaults) returns (rewritten: bool)
      modifies remote
      ensures rewritten == HeaderRewritten(old(remote.sheets), sheetId, f)
      ensures remote.sheets == AfterHeaders(old(remote.sheets), sheetId, f)
    {
      var readErr := CallFault(remote.sheets, sheetId, f.headerRead);
      var writeErr := CallFault(remote.sheets, sheetId, f.headerWrite);
      if readErr.None? {
        var rows := remote.sheets[sheetId];
        var values := if rows == [] then [] else [Window(rows[0])];
        var headersExist := false;
        if |values| > 0 {
          var existing := values[0];
          if |existing| > 0 && existing[0] == Str("Index") && |existing| >= 5 {
            headersExist := true;
          }
        }
        if headersExist {
          return false;
        }
        if writeErr.None? {
          remote.sheets := remote.sheets[sheetId := OverwriteHeader(rows)];
          return true;
        }
      }
      // The read or the update raised: the handler retries the update once.
      if writeErr.None? {
        remote.sheets := remote.sheets[sheetId := OverwriteHeader(remote.sheets[sheetId])];
        return true;
      }
      return false;
    }

    /** The padding loop of `append_rows`, for one row. */
    static method NormalizeRow(row: Row) returns (out: Row)
      ensures out == Fit(row)
    {
      out := if |row| <= Width then row else row[..Width];
      while |out| < Width
        invariant |out| <= Width
        invariant out[..Min(|row|, Width)] == row[..Min(|row|, Width)]
        invariant forall i :: |row| <= i < |out| ==> out[i] == Str("")
        invariant |out| >= Min(|row|, Width)
        decreases Width - |out|
      {
        out := out + [Str("")];
      }
    }

    /** The normalisation loop of `append_rows`: every row fitted, order and count kept. */
    static method NormalizeRows(values: seq<Row>) returns (out: seq<Row>)
      ensures |out| == |values|
      ensures forall k :: 0 <= k < |values| ==> out[k] == Fit(values[k])
    {
      out := [];
      for k := 0 to |values|
        invariant |out| == k
        invariant forall j :: 0 <= j < k ==> out[j] == Fit(values[j])
      {
        var row := NormalizeRow(values[k]);
        out := out + [row];
      }
    }

    /**
     * `append_rows`: header assurance, normalisation, then one append after
     * the existing content; a failed append raises the translated error.
     */
    method AppendRows(values: seq<Row>, f: ApiFaults) returns (r: Result<AppendReply>)
      modifies remote
      ensures var after := AfterHeaders(old(remote.sheets), sheetId, f);
        var err := CallFault(old(remote.sheets), sheetId, f.append);
        && (err.None? ==>
              && r == Ok(AppendReply(|after[sheetId]| + 1, |values|))
              && remote.sheets.Keys == after.Keys
              && (forall other :: other in after && other != sheetId ==> remote.sheets[other] == after[other])
              && |remote.sheets[sheetId]| == |after[sheetId]| + |values|
              && remote.sheets[sheetId][..|after[sheetId]|] == after[sheetId]
              && (forall k :: 0 <= k < |values| ==> remote.sheets[sheetId][|after[sheetId]| + k] == Fit(values[k])))
        && (err.Some? ==> r == Err(AppendError(err.value, saEmail, sheetId)) && remote.sheets == after)
    {
      var err := CallFault(remote.sheets, sheetId, f.append);
      var _ := EnsureHeaders(f);
      var normalized := NormalizeRows(values);
      if err.Some? {
        return Err(AppendError(err.value, saEmail, sheetId));
      }
      var existing := remote.sheets[sheetId];
      remote.sheets := remote.sheets[sheetId := existing + normalized];
      r := Ok(AppendReply(|existing| + 1, |values|));
    }

    /** `get_last_n_rows`: reads columns A..U and keeps the last `n` data rows. */
    method GetLastNRows(n: int, f: ApiFaults) returns (r: Result<seq<Row>>)
      ensures var err := CallFault(remote.sheets, sheetId, f.tailRead);
        && (err.Some? ==> r == Err(ApiError(err.value)))
        && (err.None? ==> r == Ok(TailRows(ReadAll(remote.sheets[sheetId]), n)))
    {
      var err := CallFault(remote.sheets, sheetId, f.tailRead);
      if err.Some? {
        return Err(ApiError(err.value));
      }
      var values := ReadAll(remote.sheets[sheetId]);
      return Ok(TailRows(values, n));
    }
  }

  // ---------------------------------------------------------------------
  // The local CSV backup
  // ---------------------------------------------------------------------

  /** The backup file: whether it exists, and its rows. */
  datatype BackupState = BackupState(present: bool, lines: seq<Row>)

  /**
   * `local_csv_backup`: the file exists afterwards, its old lines are kept,
   * the header follows only when the file is new, and the rows come last.
   */
  function BackupAppend(st: BackupState, rows: seq<Row>): (r: BackupState)
    ensures r.present
    ensures |r.lines| == |st.lines| + (if st.present then 0 else 1) + |rows|
    ensures r.lines[..|st.lines|] == st.lines
    ensures !st.present ==> r.lines[|st.lines|] == HeaderRow
    ensures r.lines[|r.lines| - |rows|..] == rows
  {
    BackupState(true, st.lines + (if st.present then [] else [HeaderRow]) + rows)
  }

  class BackupFile {
    var present: bool
    var lines: seq<Row>

    constructor (present: bool, lines: seq<Row>)
      ensures this.present == present && this.lines == lines
    {
      this.present := present;
      this.lines := lines;
    }

    function State(): BackupState
      reads this
    {
      BackupState(present, lines)
    }

    method Append(rows: seq<Row>)
      modifies this
      ensures State() == BackupAppend(old(State()), rows)
      ensures present
      ensures lines == old(lines) + (if old(present) then [] else [HeaderRow]) + rows
    {
      var writeHeader := !present;
      present := true;
      if writeHeader {
        lines := lines + [HeaderRow];
      }
      lines := lines + rows;
    }
  }

  function Concat(batches: seq<seq<Row>>): seq<Row>
  {
    if batches == [] then [] else batches[0] + Concat(batches[1..])
  }

  /** Several backups in a row, oldest first: the old lines stay in front, and the file exists once one batch is written. */
  function BackupAll(st: BackupState, batches: seq<seq<Row>>): (r: BackupState)
    ensures |r.lines| >= |st.lines| && r.lines[..|st.lines|] == st.lines
    ensures r.present <==> st.present || batches != []
    decreases |batches|
  {
    if batches == [] then st else BackupAll(BackupAppend(st, batches[0]), batches[1..])
  }

  /** However many batches are backed up, the header is written once, only for a new file, and the rows follow in order. */
  lemma {:induction false} BackupHeaderOnce(st: BackupState, batches: seq<seq<Row>>)
    requires batches != []
    ensures BackupAll(st, batches) == BackupState(true, st.lines + (if st.present then [] else [HeaderRow]) + Concat(batches))
    decreases |batches|
  {
    var head: seq<Row> := if st.present then [] else [HeaderRow];
    var next := BackupAppend(st, batches[0]);
    assert next.lines == st.lines + head + batches[0];
    assert Concat(batches) == batches[0] + Concat(batches[1..]);
    if |batches| == 1 {
      assert Concat(batches[1..]) == [];
      Unit(batches[0]);
    } else {
      BackupHeaderOnce(next, batches[1..]);
      Unit(next.lines);
      Assoc(st.lines + head, batches[0], Concat(batches[1..]));
    }
  }

  lemma Assoc<T>(a: seq<T>, b: seq<T>, c: seq<T>)
    ensures a + b + c == a + (b + c)
  {
  }

  lemma Unit<T>(a: seq<T>)
    ensures a + [] == a
  {
  }
}
