/**
 * The end-to-end processing of one reel link: download, media text,
 * extraction, enrichment, routing to a spreadsheet, numbering, the append
 * and the local backup. The downloader, the media processing, the model's
 * reply, the geocoder, the clock and the credentials file are inputs; the
 * spreadsheets and the backup file are the state the run changes.
 */
module Pipeline {
  import opened Values
  import opened Text
  import opened Config
  import opened Sheets
  import opened Llm
  import opened Enrich

  // ---------------------------------------------------------------------
  // Rows
  // ---------------------------------------------------------------------

  /** The item fields of a row, in column order after Index, Timestamp and Reel Link. */
  const RowKeys: seq<string> := [
    "item_index", "type", "item_name", "brand_or_category", "city", "state",
    "country", "lat", "lng", "distance_km", "price", "price_source",
    "purchase_link", "key_specs", "notes", "confidence", "source_text", "processing_status"
  ]

  /** `item.get(key)` for every row field, in column order. */
  function ItemFields(item: Item): (cells: Row)
    ensures |cells| == |RowKeys|
    ensures forall k :: 0 <= k < |RowKeys| ==> cells[k] == Get(item, RowKeys[k])
  {
    seq(|RowKeys|, k requires 0 <= k < |RowKeys| => Get(item, RowKeys[k]))
  }

  /**
   * `item_to_row`: the global index, the timestamp and the link, then the
   * item's fields; a row is exactly as wide as the header.
   */
  function ItemToRow(globalIndex: int, timestamp: string, reelUrl: string, item: Item): (row: Row)
    ensures |row| == Width && |row| == |HeaderRow|
    ensures row[0] == Int(globalIndex) && row[1] == Str(timestamp) && row[2] == Str(reelUrl)
    ensures forall k :: 0 <= k < |RowKeys| ==> row[3 + k] == Get(item, RowKeys[k])
  {
    HeaderRowShape();
    [Int(globalIndex), Str(timestamp), Str(reelUrl)] + ItemFields(item)
  }

  /** The normalisation of `append_rows` leaves a row of the pipeline as it is. */
  lemma RowNeedsNoFit(globalIndex: int, timestamp: string, reelUrl: string, item: Item)
    ensures Fit(ItemToRow(globalIndex, timestamp, reelUrl, item)) == ItemToRow(globalIndex, timestamp, reelUrl, item)
  {
    FitFullWidth(ItemToRow(globalIndex, timestamp, reelUrl, item));
  }

  /** The rows of one run: one full-width row per item, numbered consecutively from `next`. */
  function RunRows(items: seq<Item>, next: int, timestamp: string, reelUrl: string): (rows: seq<Row>)
    ensures |rows| == |items|
    ensures forall i :: 0 <= i < |items| ==> |rows[i]| == Width && rows[i][0] == Int(next + i)
    ensures forall i :: 0 <= i < |items| ==> rows[i] == ItemToRow(next + i, timestamp, reelUrl, items[i])
  {
    seq(|items|, i requires 0 <= i < |items| => ItemToRow(next + i, timestamp, reelUrl, items[i]))
  }

  /** The loop of `process_reel_url` that builds the rows. */
  method BuildRows(items: seq<Item>, next: int, timestamp: string, reelUrl: string) returns (rows: seq<Row>)
    ensures rows == RunRows(items, next, timestamp, reelUrl)
  {
    rows := [];
    var i := 0;
    while i < |items|
      invariant 0 <= i <= |items| && |rows| == i
      invariant forall j :: 0 <= j < i ==> rows[j] == ItemToRow(next + j, timestamp, reelUrl, items[j])
    {
      rows := rows + [ItemToRow(next + i, timestamp, reelUrl, items[i])];
      i := i + 1;
    }
  }

  // ---------------------------------------------------------------------
  // The text given to the extraction
  // ---------------------------------------------------------------------

  /** What the downloader reports: the caption ("" when it has none). */
  datatype Meta = Meta(caption: string)

  /** The transcript and the on-screen text of the video. */
  datatype Media = Media(transcript: string, ocrText: string)

  /** The media text used: empty when there was no video file or its processing raised (None). */
  function MediaOrEmpty(media: Option<Media>): Media
  {
    if media.Some? then media.value else Media("", "")
  }

  /**
   * `filter(None, parts)`: the non-empty strings. `NonEmptyCounts` gives
   * how often each is kept, `NonEmptyAppend` and `NonEmptySingle` the order.
   */
  function NonEmpty(parts: seq<string>): (r: seq<string>)
    ensures |r| <= |parts|
    ensures forall p :: p in r ==> p in parts && p != ""
  {
    if parts == [] then []
    else if parts[0] == "" then NonEmpty(parts[1..])
    else [parts[0]] + NonEmpty(parts[1..])
  }

  /** Every non-empty string is kept as often as it occurs, and no empty one is. */
  lemma {:induction false} NonEmptyCounts(parts: seq<string>)
    ensures multiset(NonEmpty(parts))[""] == 0
    ensures forall p :: p != "" ==> multiset(NonEmpty(parts))[p] == multiset(parts)[p]
    decreases |parts|
  {
    if parts != [] {
      NonEmptyCounts(parts[1..]);
      assert parts == [parts[0]] + parts[1..];
    }
  }

  /** Filtering keeps order: filtering a concatenation is concatenating the filtered halves. */
  lemma {:induction false} NonEmptyAppend(a: seq<string>, b: seq<string>)
    ensures NonEmpty(a + b) == NonEmpty(a) + NonEmpty(b)
    decreases |a|
  {
    if a != [] {
      assert a + b == [a[0]] + (a[1..] + b);
      NonEmptyAppend(a[1..], b);
    } else {
      assert a + b == b;
    }
  }

  /** A non-empty list joins to a text that starts with its first element. */
  lemma {:induction false} JoinHead(parts: seq<string>, sep: string)
    requires parts != []
    ensures |parts[0]| <= |Join(parts, sep)| && Join(parts, sep)[..|parts[0]|] == parts[0]
  {
    if |parts| > 1 {
      assert Join(parts, sep) == parts[0] + (sep + Join(parts[1..], sep));
    }
  }

  /** `sep.join(parts)`. */
  function Join(parts: seq<string>, sep: string): string
  {
    if parts == [] then ""
    else if |parts| == 1 then parts[0]
    else parts[0] + sep + Join(parts[1..], sep)
  }

  const PartSeparator := "\n\n"

  /**
   * The labelled caption, transcript and on-screen text, the empty ones
   * left out; it always starts with the labelled caption.
   */
  function SourceBlob(caption: string, media: Media): (r: string)
    ensures |"caption: " + caption| <= |r| && r[..|"caption: " + caption|] == "caption: " + caption
  {
    var c := "caption: " + caption;
    var rest := [
      if media.transcript != "" then "transcript: " + media.transcript else "",
      if media.ocrText != "" then "ocr: " + media.ocrText else ""
    ];
    assert c != "" by { assert c[0] == 'c'; }
    NonEmptyAppend([c], rest);
    NonEmptySingle(c);
    JoinHead(NonEmpty([c] + rest), PartSeparator);
    Join(NonEmpty([c] + rest), PartSeparator)
  }

  /** The blob always starts with the caption part; a transcript and an on-screen text follow only when present. */
  lemma SourceBlobLayout(caption: string, media: Media)
    ensures SourceBlob(caption, media) ==
      ("caption: " + caption)
      + (if media.transcript != "" then PartSeparator + ("transcript: " + media.transcript) else "")
      + (if media.ocrText != "" then PartSeparator + ("ocr: " + media.ocrText) else "")
  {
    var c := "caption: " + caption;
    var t := if media.transcript != "" then "transcript: " + media.transcript else "";
    var o := if media.ocrText != "" then "ocr: " + media.ocrText else "";
    assert c != "" by { assert c[0] == 'c'; }
    assert t != "" <==> media.transcript != "" by {
      if media.transcript != "" { assert t[0] == 't'; }
    }
    assert o != "" <==> media.ocrText != "" by {
      if media.ocrText != "" { assert o[0] == 'o'; }
    }
    NonEmptyOfThree(c, t, o);
    JoinOfThree(c, t, o, PartSeparator);
  }

  /** Filtering three parts whose first is non-empty. */
  lemma {:induction false} NonEmptyOfThree(c: string, t: string, o: string)
    requires c != ""
    ensures NonEmpty([c, t, o]) == [c] + (if t != "" then [t] else []) + (if o != "" then [o] else [])
  {
    var kt := if t != "" then [t] else [];
    var ko := if o != "" then [o] else [];
    assert [c, t, o] == [c] + ([t] + [o]);
    NonEmptySingle(c);
    NonEmptySingle(t);
    NonEmptySingle(o);
    NonEmptyAppend([t], [o]);
    assert NonEmpty([t] + [o]) == kt + ko;
    NonEmptyAppend([c], [t] + [o]);
    assert NonEmpty([c, t, o]) == [c] + (kt + ko);
  }

  /** A single string is kept exactly when it is not empty. */
  lemma {:induction false} NonEmptySingle(p: string)
    ensures NonEmpty([p]) == (if p != "" then [p] else [])
  {
    assert |[p][1..]| == 0;
  }

  /** Joining the kept parts puts the separator before every part after the first. */
  lemma JoinOfThree(c: string, t: string, o: string, sep: string)
    ensures Join([c] + (if t != "" then [t] else []) + (if o != "" then [o] else []), sep)
      == c + (if t != "" then sep + t else "") + (if o != "" then sep + o else "")
  {
    var rest := (if t != "" then [t] else []) + (if o != "" then [o] else []);
    assert [c] + (if t != "" then [t] else []) + (if o != "" then [o] else []) == [c] + rest;
    JoinAfter(c, rest, sep);
    if t != "" && o != "" {
      assert rest == [t] + [o];
      JoinAfter(t, [o], sep);
      assert Join([o], sep) == o;
    } else if t != "" {
      assert Join([t], sep) == t;
    } else if o != "" {
      assert Join([o], sep) == o;
    }
  }

  /** Joining a non-empty list is its head followed by the separator and the joined rest. */
  lemma JoinAfter(head: string, rest: seq<string>, sep: string)
    ensures Join([head] + rest, sep) == head + (if rest == [] then "" else sep + Join(rest, sep))
  {
    var parts := [head] + rest;
    assert parts[0] == head && parts[1..] == rest;
    if rest != [] {
      assert head + sep + Join(rest, sep) == head + (sep + Join(rest, sep));
    }
  }

  // ---------------------------------------------------------------------
  // Enrichment of every item
  // ---------------------------------------------------------------------

  const SourceTextLength: nat := 200

  /** The item with the first 200 characters of the caption as its source text; its other fields stay. */
  function Stamped(item: Item, caption: string): (r: Item)
    ensures r.Keys == item.Keys + {"source_text"}
    ensures r["source_text"].Str? && |r["source_text"].s| == Min(SourceTextLength, |caption|)
    ensures caption[..|r["source_text"].s|] == r["source_text"].s
    ensures forall k :: k in item && k != "source_text" ==> r[k] == item[k]
  {
    item["source_text" := Str(Take(caption, SourceTextLength))]
  }

  /**
   * The enrichment loop's promise: every item, stamped with the caption,
   * went through `enrich_item`; an exception is logged and the item keeps
   * what was done to it before the exception.
   */
  ghost predicate EnrichedAll(items: seq<Item>, caption: string, originLat: Option<real>, originLng: Option<real>,
                              geo: Geocoder, out: seq<Item>, warnings: seq<Option<Error>>)
  {
    && |out| == |items| && |warnings| == |items|
    && forall k :: 0 <= k < |items| ==>
         EnrichRules(Stamped(items[k], caption), originLat, originLng, geo, out[k], warnings[k])
  }

  /** One turn of the loop: the stamp, then `enrich_item`, which keeps the stamp and every field. */
  method StampAndEnrich(item: Item, caption: string, originLat: Option<real>, originLng: Option<real>, geo: Geocoder)
    returns (enriched: Item, raised: Option<Error>)
    ensures EnrichRules(Stamped(item, caption), originLat, originLng, geo, enriched, raised)
    ensures Get(enriched, "source_text") == Str(Take(caption, SourceTextLength))
    ensures item.Keys <= enriched.Keys
  {
    var stamped := Stamped(item, caption);
    enriched, raised := EnrichItem(stamped, originLat, originLng, geo);
    assert "source_text" in stamped && "source_text" !in PlaceOverwrites + ProductFields;
  }

  /** The loop of `process_reel_url` that stamps and enriches the items. */
  method EnrichAll(items: seq<Item>, caption: string, originLat: Option<real>, originLng: Option<real>, geo: Geocoder)
    returns (out: seq<Item>, warnings: seq<Option<Error>>)
    ensures EnrichedAll(items, caption, originLat, originLng, geo, out, warnings)
    ensures forall k :: 0 <= k < |out| ==> Get(out[k], "source_text") == Str(Take(caption, SourceTextLength))
    ensures forall k :: 0 <= k < |out| ==> items[k].Keys <= out[k].Keys
  {
    out := [];
    warnings := [];
    var k := 0;
    while k < |items|
      invariant 0 <= k <= |items| && |out| == k && |warnings| == k
      invariant forall j :: 0 <= j < k ==>
        EnrichRules(Stamped(items[j], caption), originLat, originLng, geo, out[j], warnings[j])
      invariant forall j :: 0 <= j < k ==> Get(out[j], "source_text") == Str(Take(caption, SourceTextLength))
      invariant forall j :: 0 <= j < k ==> items[j].Keys <= out[j].Keys
    {
      var enriched, raised := StampAndEnrich(items[k], caption, originLat, originLng, geo);
      out := out + [enriched];
      warnings := warnings + [raised];
      k := k + 1;
    }
  }

  // ---------------------------------------------------------------------
  // Routing
  // ---------------------------------------------------------------------

  const TravelKinds: set<string> := {"place", "hotel"}
  const ProductKinds: set<string> := {"product"}

  /** Item `i` has a kind in `kinds`, and no item before it raised. */
  ghost predicate MatchAt(items: seq<Item>, kinds: set<string>, i: int)
  {
    && 0 <= i < |items| && ItemKind(items[i]).Ok? && ItemKind(items[i]).value in kinds
    && forall j :: 0 <= j < i ==> ItemKind(items[j]).Ok?
  }

  /** Item `i` has a type that is not a string, and no item before it matched or raised. */
  ghost predicate RaiseAt(items: seq<Item>, kinds: set<string>, i: int)
  {
    && 0 <= i < |items| && ItemKind(items[i]).Err?
    && forall j :: 0 <= j < i ==> ItemKind(items[j]).Ok? && ItemKind(items[j]).value !in kinds
  }

  /** Past a first item that neither matches nor raises, matches and raises are those of the rest, one place on. */
  lemma {:induction false} AnyKindShift(items: seq<Item>, kinds: set<string>)
    requires items != [] && ItemKind(items[0]).Ok? && ItemKind(items[0]).value !in kinds
    ensures (exists i :: MatchAt(items, kinds, i)) <==> exists i :: MatchAt(items[1..], kinds, i)
    ensures (exists i :: RaiseAt(items, kinds, i)) <==> exists i :: RaiseAt(items[1..], kinds, i)
  {
    assert forall i :: 1 <= i < |items| ==> items[i] == items[1..][i - 1];
    if exists i :: MatchAt(items, kinds, i) {
      var i :| MatchAt(items, kinds, i);
      assert MatchAt(items[1..], kinds, i - 1);
    }
    if exists i :: MatchAt(items[1..], kinds, i) {
      var i :| MatchAt(items[1..], kinds, i);
      assert MatchAt(items, kinds, i + 1);
    }
    if exists i :: RaiseAt(items, kinds, i) {
      var i :| RaiseAt(items, kinds, i);
      assert RaiseAt(items[1..], kinds, i - 1);
    }
    if exists i :: RaiseAt(items[1..], kinds, i) {
      var i :| RaiseAt(items[1..], kinds, i);
      assert RaiseAt(items, kinds, i + 1);
    }
  }

  /**
   * `any((it.get("type") or "").lower() in kinds for it in items)`: true
   * when an item matches before any item raised, AttributeError when an
   * item raises before any item matched, false when every item was read
   * and none matched.
   */
  function AnyKind(items: seq<Item>, kinds: set<string>): (r: Result<bool>)
    ensures r == Ok(false) <==> forall i :: 0 <= i < |items| ==> ItemKind(items[i]).Ok? && ItemKind(items[i]).value !in kinds
    ensures r.Err? ==> r.error == AttributeError
    decreases |items|
  {
    if items == [] then Ok(false)
    else match ItemKind(items[0])
      case Err(e) => Err(e)
      case Ok(kind) =>
        if kind in kinds then Ok(true)
        else
          var rest := AnyKind(items[1..], kinds);
          assert forall i :: 1 <= i < |items| ==> items[i] == items[1..][i - 1];
          rest
  }

  /**
   * `any` is true exactly when an item matches before any item raised, and
   * raises exactly when an item's type is not a string before any match.
   */
  lemma {:induction false} AnyKindFirst(items: seq<Item>, kinds: set<string>)
    ensures AnyKind(items, kinds) == Ok(true) <==> exists i :: MatchAt(items, kinds, i)
    ensures AnyKind(items, kinds).Err? <==> exists i :: RaiseAt(items, kinds, i)
    decreases |items|
  {
    if items == [] {
    } else if ItemKind(items[0]).Err? {
      assert RaiseAt(items, kinds, 0);
      forall i | MatchAt(items, kinds, i) ensures false { }
    } else if ItemKind(items[0]).value in kinds {
      assert MatchAt(items, kinds, 0);
      forall i | RaiseAt(items, kinds, i) ensures false { }
    } else {
      AnyKindFirst(items[1..], kinds);
      AnyKindShift(items, kinds);
    }
  }

  const NoSheetIdMessage := "No Google Sheet ID configured"

  /**
   * The spreadsheet a run writes to: the travel sheet when an item is a
   * place or a hotel and that sheet is configured, else the products sheet
   * when an item is a product and that sheet is configured, else the
   * default sheet.
   */
  function ChooseSheet(items: seq<Item>, settings: Settings): (r: Result<string>)
    ensures r.Ok? ==> r.value != ""
    ensures r.Ok? ==> Some(r.value) in {settings.sheetTravelId, settings.sheetProductsId, settings.googleSheetId}
    ensures AnyKind(items, TravelKinds) == Ok(true) && IsSet(settings.sheetTravelId) ==>
      r == Ok(settings.sheetTravelId.value)
    ensures settings.sheetTravelId.Some? && r == Ok(settings.sheetTravelId.value)
              && settings.sheetTravelId != settings.sheetProductsId
              && settings.sheetTravelId != settings.googleSheetId ==>
      AnyKind(items, TravelKinds) == Ok(true)
    ensures AnyKind(items, TravelKinds).Err? ==> r == Err(AttributeError)
    ensures AnyKind(items, TravelKinds).Ok? && !(AnyKind(items, TravelKinds).value && IsSet(settings.sheetTravelId))
              && AnyKind(items, ProductKinds).Err? ==>
      r == Err(AttributeError)
    ensures AnyKind(items, TravelKinds).Ok? && !(AnyKind(items, TravelKinds).value && IsSet(settings.sheetTravelId))
              && AnyKind(items, ProductKinds) == Ok(true) && IsSet(settings.sheetProductsId) ==>
      r == Ok(settings.sheetProductsId.value)
    ensures AnyKind(items, TravelKinds).Ok? && !(AnyKind(items, TravelKinds).value && IsSet(settings.sheetTravelId))
              && AnyKind(items, ProductKinds).Ok? && !(AnyKind(items, ProductKinds).value && IsSet(settings.sheetProductsId)) ==>
      r == (if IsSet(settings.googleSheetId) then Ok(settings.googleSheetId.value) else Err(ValueError(NoSheetIdMessage)))
    ensures r.Err? ==> r.error == AttributeError || r.error == ValueError(NoSheetIdMessage)
  {
    var travel := AnyKind(items, TravelKinds);
    if travel.Err? then Err(travel.error)
    else if travel.value && IsSet(settings.sheetTravelId) then Ok(settings.sheetTravelId.value)
    else
      var product := AnyKind(items, ProductKinds);
      if product.Err? then Err(product.error)
      else if product.value && IsSet(settings.sheetProductsId) then Ok(settings.sheetProductsId.value)
      else if IsSet(settings.googleSheetId) then Ok(settings.googleSheetId.value)
      else Err(ValueError(NoSheetIdMessage))
  }

  // ---------------------------------------------------------------------
  // Numbering
  // ---------------------------------------------------------------------

  /**
   * The next global index from what `get_last_n_rows(n=1)` gave: one more
   * than the integer in the first cell of the last data row (0 for an empty
   * cell), and 1 when the read failed, there is no data row, the row is
   * empty, or the cell is not an integer.
   */
  function NextIndex(last: Result<seq<Row>>): (next: int)
    ensures next != 1 ==> last.Ok? && last.value != [] && last.value[0] != [] && ToInt(last.value[0][0]) == Ok(next - 1)
    ensures last.Ok? && last.value != [] && last.value[0] != [] && ToInt(last.value[0][0]).Ok? ==>
      next == ToInt(last.value[0][0]).value + 1
  {
    if last.Err? || last.value == [] || last.value[0] == [] then 1
    else
      var cell := last.value[0][0];
      if !Truthy(cell) then
        assert ToInt(cell).Ok? ==> ToInt(cell).value == 0;
        1
      else match ToInt(cell)
        case Ok(n) => n + 1
        case Err(_) => 1
  }

  /**
   * Numbering continues the sheet: after a sheet whose last row starts
   * with an integer `n`, the next run starts at `n + 1`.
   */
  lemma {:induction false} NextIndexContinues(rows: seq<Row>, n: int)
    requires |rows| >= 2 && rows[|rows| - 1] != [] && ToInt(rows[|rows| - 1][0]) == Ok(n)
    ensures NextIndex(Ok(TailRows(ReadAll(rows), 1))) == n + 1
  {
    var values := ReadAll(rows);
    TailOfLong(values);
    assert values[|values| - 1][0] == rows[|rows| - 1][0];
  }

  // ---------------------------------------------------------------------
  // One run
  // ---------------------------------------------------------------------

  /** The start and end index written, and the enriched items. */
  datatype RunResult = RunResult(start: int, end: int, items: seq<Item>)

  const NoItemsMessage := "No items extracted from reel"

  /**
   * The first half of `process_reel_url`: the download, the text blob, the
   * extraction, the refusal of an empty extraction, and the enrichment.
   */
  method PrepareItems(download: Result<Meta>, media: Option<Media>, settings: Settings, reply: LlmReply,
                      originLat: Option<real>, originLng: Option<real>, geo: Geocoder)
    returns (r: Result<seq<Item>>, extracted: seq<Item>, warnings: seq<Option<Error>>)
    ensures download.Err? ==> r == Err(download.error)
    ensures download.Ok? ==>
      extracted == Extraction(SourceBlob(download.value.caption, MediaOrEmpty(media)), settings, reply)
    ensures download.Ok? && extracted == [] ==> r == Err(ValueError(NoItemsMessage))
    ensures download.Ok? && extracted != [] ==>
      r.Ok? && EnrichedAll(extracted, download.value.caption, originLat, originLng, geo, r.value, warnings)
    ensures r.Ok? ==> r.value != [] && forall k :: 0 <= k < |r.value| ==>
      Get(r.value[k], "source_text") == Str(Take(download.value.caption, SourceTextLength))
  {
    extracted, warnings := [], [];
    if download.Err? {
      return Err(download.error), extracted, warnings;
    }
    var caption := download.value.caption;
    var blob := SourceBlob(caption, MediaOrEmpty(media));
    extracted := ExtractItems(blob, settings, reply);
    if extracted == [] {
      return Err(ValueError(NoItemsMessage)), extracted, warnings;
    }
    var enriched;
    enriched, warnings := EnrichAll(extracted, caption, originLat, originLng, geo);
    r := Ok(enriched);
  }

  /**
   * What `get_last_n_rows(n=1)` gives for a spreadsheet: the service's
   * error, or the last row as read through column U, or nothing when the
   * sheet is empty or holds only its header.
   */
  function LastRowRead(sheets: map<string, seq<Row>>, id: string, f: ApiFaults): (r: Result<seq<Row>>)
    ensures r.Err? <==> CallFault(sheets, id, f.tailRead).Some?
    ensures r.Err? ==> r.error == ApiError(CallFault(sheets, id, f.tailRead).value)
    ensures r.Ok? ==> id in sheets && |r.value| <= 1
  {
    var err := CallFault(sheets, id, f.tailRead);
    if err.Some? then Err(ApiError(err.value)) else Ok(TailRows(ReadAll(sheets[id]), 1))
  }

  /** The row read is the sheet's last row through column U; none only when the sheet is empty or holds just its header. */
  lemma {:induction false} LastRowReadIsLast(sheets: map<string, seq<Row>>, id: string, f: ApiFaults)
    requires LastRowRead(sheets, id, f).Ok?
    ensures var rows := sheets[id]; var r := LastRowRead(sheets, id, f).value;
      && (r != [] ==> rows != [] && |r| == 1 && r[0] == Window(rows[|rows| - 1]))
      && (r != [] && rows[|rows| - 1] != [] ==> r[0] != [] && r[0][0] == rows[|rows| - 1][0])
      && (r == [] ==> rows == [] || (|rows| == 1 && rows[0] != [] && rows[0][0] == Str("Index")))
  {
    var rows := sheets[id];
    if |rows| >= 2 {
      TailOfLong(ReadAll(rows));
    } else if |rows| == 1 {
      assert rows == [rows[0]];
      TailOfOne(rows[0]);
    }
  }

  /** The spreadsheets after a successful append of `rows` to `id`, following the header assurance. */
  function Appended(sheets: map<string, seq<Row>>, id: string, f: ApiFaults, rows: seq<Row>): map<string, seq<Row>>
  {
    var after := AfterHeaders(sheets, id, f);
    if id in after then after[id := after[id] + rows] else after
  }

  /** A full-width row is appended as it is: the sheet ends with exactly the rows given. */
  lemma AppendedExactly(before: seq<Row>, now: seq<Row>, rows: seq<Row>)
    requires forall k :: 0 <= k < |rows| ==> |rows[k]| == Width
    requires |now| == |before| + |rows| && now[..|before|] == before
    requires forall k :: 0 <= k < |rows| ==> now[|before| + k] == Fit(rows[k])
    ensures now == before + rows
  {
    forall k | 0 <= k < |rows|
      ensures now[|before| + k] == rows[k]
    {
      FitFullWidth(rows[k]);
    }
    assert forall i :: 0 <= i < |before| ==> now[i] == now[..|before|][i];
  }

  /**
   * Runs continue one another's numbering: a run that follows a successful
   * run numbered from `next` starts where that one ended, plus one.
   */
  lemma {:induction false} RunsContinue(sheets: map<string, seq<Row>>, id: string, f: ApiFaults, g: ApiFaults,
                     items: seq<Item>, next: int, timestamp: string, reelUrl: string)
    requires items != [] && id in sheets && g.tailRead.None?
    ensures NextIndex(LastRowRead(Appended(sheets, id, f, RunRows(items, next, timestamp, reelUrl)), id, g))
         == next + |items|
  {
    var rows := RunRows(items, next, timestamp, reelUrl);
    assert rows[|rows| - 1][0] == Int(next + |items| - 1);
    NextAfterAppend(sheets, id, f, g, rows, next + |items| - 1);
  }

  /** After rows are appended whose last one starts with `n`, the next run is numbered from `n + 1`. */
  lemma {:induction false} NextAfterAppend(sheets: map<string, seq<Row>>, id: string, f: ApiFaults, g: ApiFaults,
                                           rows: seq<Row>, n: int)
    requires rows != [] && rows[|rows| - 1] != [] && rows[|rows| - 1][0] == Int(n)
    requires id in sheets && g.tailRead.None?
    ensures NextIndex(LastRowRead(Appended(sheets, id, f, rows), id, g)) == n + 1
  {
    AppendedEndsWith(sheets, id, f, rows);
    NextAfterLastRow(Appended(sheets, id, f, rows), id, g, n);
  }

  /** An append leaves the spreadsheet ending with the last row appended. */
  lemma {:induction false} AppendedEndsWith(sheets: map<string, seq<Row>>, id: string, f: ApiFaults, rows: seq<Row>)
    requires rows != [] && id in sheets
    ensures var now := Appended(sheets, id, f, rows);
      id in now && now[id] != [] && now[id][|now[id]| - 1] == rows[|rows| - 1]
  {
    var after := AfterHeaders(sheets, id, f);
    assert id in after;
  }

  /** A sheet whose last row starts with the integer `n` is continued from `n + 1`. */
  lemma {:induction false} NextAfterLastRow(now: map<string, seq<Row>>, id: string, g: ApiFaults, n: int)
    requires id in now && now[id] != [] && now[id][|now[id]| - 1] != [] && now[id][|now[id]| - 1][0] == Int(n)
    requires g.tailRead.None?
    ensures NextIndex(LastRowRead(now, id, g)) == n + 1
  {
    LastRowReadIsLast(now, id, g);
  }

  /**
   * The same for a first cell read back as text, as the service renders it:
   * the text of the integer `n` continues the numbering from `n + 1`.
   */
  lemma {:induction false} NextAfterTextRow(now: map<string, seq<Row>>, id: string, g: ApiFaults, n: int)
    requires id in now && now[id] != [] && now[id][|now[id]| - 1] != [] && now[id][|now[id]| - 1][0] == Str(Show(n))
    requires g.tailRead.None?
    ensures NextIndex(LastRowRead(now, id, g)) == n + 1
  {
    LastRowReadIsLast(now, id, g);
    IntRoundTrip(n);
    assert Show(n)[0] != 'I' by {
      if n < 0 {
        assert Show(n)[0] == '-';
      } else {
        assert Show(n) == Digits(n);
      }
    }
  }

  /**
   * The append of a run's rows and the backup that follows it, written
   * whether or not the append raised.
   */
  method AppendWithBackup(client: SheetsClient, rows: seq<Row>, f: ApiFaults, backup: BackupFile)
    returns (r: Result<AppendReply>)
    requires forall k :: 0 <= k < |rows| ==> |rows[k]| == Width
    modifies client.remote, backup
    ensures var err := CallFault(old(client.remote.sheets), client.sheetId, f.append);
      && (err.None? ==> r.Ok? && client.remote.sheets == Appended(old(client.remote.sheets), client.sheetId, f, rows))
      && (err.Some? ==> r == Err(AppendError(err.value, client.saEmail, client.sheetId))
                        && client.remote.sheets == AfterHeaders(old(client.remote.sheets), client.sheetId, f))
    ensures backup.State() == BackupAppend(old(backup.State()), rows)
  {
    ghost var before := client.remote.sheets;
    r := client.AppendRows(rows, f);
    backup.Append(rows);
    if r.Ok? {
      ghost var after := AfterHeaders(before, client.sheetId, f);
      AppendedExactly(after[client.sheetId], client.remote.sheets[client.sheetId], rows);
    }
  }

  /**
   * What a run on an open client does, from the spreadsheets and the backup
   * `before` to those `after`: the rows are numbered after the sheet's last
   * index and reach the backup, and are appended unless the append raised.
   */
  ghost predicate RunWritten(items: seq<Item>, reelUrl: string, timestamp: string, saEmail: string, f: ApiFaults,
                             before: map<string, seq<Row>>, saved: BackupState,
                             after: map<string, seq<Row>>, now: BackupState,
                             r: Result<RunResult>, sheetId: string, rows: seq<Row>)
  {
    var next := NextIndex(LastRowRead(before, sheetId, f));
    var err := CallFault(before, sheetId, f.append);
    && rows == RunRows(items, next, timestamp, reelUrl)
    && now == BackupAppend(saved, rows)
    && (err.None? ==> r == Ok(RunResult(next, next + |items| - 1, items))
                      && after == Appended(before, sheetId, f, rows))
    && (err.Some? ==> r == Err(AppendError(err.value, saEmail, sheetId))
                      && after == AfterHeaders(before, sheetId, f))
  }

  /**
   * Numbering, the rows, the append and the backup, on an open client: the
   * rows continue the sheet's numbering and reach the backup whether or not
   * the append raised.
   */
  method AppendRun(client: SheetsClient, items: seq<Item>, reelUrl: string, timestamp: string,
                   f: ApiFaults, backup: BackupFile)
    returns (r: Result<RunResult>, rows: seq<Row>)
    modifies client.remote, backup
    ensures RunWritten(items, reelUrl, timestamp, client.saEmail, f, old(client.remote.sheets), old(backup.State()),
                       client.remote.sheets, backup.State(), r, client.sheetId, rows)
  {
    var last := client.GetLastNRows(1, f);
    var next := NextIndex(last);
    rows := BuildRows(items, next, timestamp, reelUrl);
    var appended := AppendWithBackup(client, rows, f, backup);
    if appended.Err? {
      return Err(appended.error), rows;
    }
    r := Ok(RunResult(next, next + |rows| - 1, items));
  }

  /**
   * What the writing half promises, from the spreadsheets and the backup
   * `before` to those `after`: a routing or configuration error leaves both
   * alone; otherwise the rows are numbered after the sheet's last index,
   * reach the backup, and are appended unless the append raised.
   */
  ghost predicate Written(items: seq<Item>, reelUrl: string, timestamp: string, settings: Settings,
                          saFileExists: bool, saEmail: string, f: ApiFaults,
                          before: map<string, seq<Row>>, saved: BackupState,
                          after: map<string, seq<Row>>, now: BackupState,
                          r: Result<RunResult>, sheetId: string, rows: seq<Row>)
  {
    var chosen := ChooseSheet(items, settings);
    var config := OpenClient(Some(sheetId), settings, saFileExists, saEmail);
    && (chosen.Err? ==> r == Err(chosen.error) && after == before && now == saved)
    && (chosen.Ok? ==> sheetId == chosen.value)
    && (chosen.Ok? && config.Err? ==> r == Err(config.error) && after == before && now == saved)
    && (chosen.Ok? && config.Ok? ==>
          RunWritten(items, reelUrl, timestamp, saEmail, f, before, saved, after, now, r, sheetId, rows))
  }

  /**
   * The second half of `process_reel_url`: routing, the client, then the
   * numbered append and the backup. A routing or configuration error raises
   * before anything is written, the backup included.
   */
  method WriteRows(items: seq<Item>, reelUrl: string, timestamp: string, settings: Settings,
                   saFileExists: bool, saEmail: string, f: ApiFaults, remote: Remote, backup: BackupFile)
    returns (r: Result<RunResult>, sheetId: string, rows: seq<Row>)
    modifies remote, backup
    ensures Written(items, reelUrl, timestamp, settings, saFileExists, saEmail, f,
                    old(remote.sheets), old(backup.State()), remote.sheets, backup.State(), r, sheetId, rows)
    ensures r.Ok? ==>
      && r.value.items == items
      && rows == RunRows(items, r.value.start, timestamp, reelUrl)
      && r.value.end == r.value.start + |rows| - 1
      && remote.sheets == Appended(old(remote.sheets), sheetId, f, rows)
      && backup.State() == BackupAppend(old(backup.State()), rows)
  {
    rows := [];
    sheetId := "";
    var chosen := ChooseSheet(items, settings);
    if chosen.Err? {
      return Err(chosen.error), sheetId, rows;
    }
    sheetId := chosen.value;
    var config := OpenClient(Some(sheetId), settings, saFileExists, saEmail);
    if config.Err? {
      return Err(config.error), sheetId, rows;
    }
    var client := new SheetsClient(config.value, remote);
    r, rows := AppendRun(client, items, reelUrl, timestamp, f, backup);
  }

  /**
   * `process_reel_url`. Failures before the append leave the spreadsheets
   * and the backup alone; once rows are built they reach the backup whether
   * or not the append raised, and a successful run reports the first and
   * last index it wrote.
   */
  method ProcessReel(reelUrl: string, originLat: Option<real>, originLng: Option<real>, settings: Settings,
                     download: Result<Meta>, media: Option<Media>, reply: LlmReply, geo: Geocoder,
                     timestamp: string, saFileExists: bool, saEmail: string, f: ApiFaults,
                     remote: Remote, backup: BackupFile)
    returns (r: Result<RunResult>, sheetId: string, rows: seq<Row>, items: seq<Item>, warnings: seq<Option<Error>>)
    modifies remote, backup
    ensures download.Err? ==> r == Err(download.error) && unchanged(remote, backup)
    ensures download.Ok? && Extraction(SourceBlob(download.value.caption, MediaOrEmpty(media)), settings, reply) == [] ==>
      r == Err(ValueError(NoItemsMessage)) && unchanged(remote, backup)
    ensures download.Ok? && Extraction(SourceBlob(download.value.caption, MediaOrEmpty(media)), settings, reply) != [] ==>
      && EnrichedAll(Extraction(SourceBlob(download.value.caption, MediaOrEmpty(media)), settings, reply),
                     download.value.caption, originLat, originLng, geo, items, warnings)
      && Written(items, reelUrl, timestamp, settings, saFileExists, saEmail, f,
                 old(remote.sheets), old(backup.State()), remote.sheets, backup.State(), r, sheetId, rows)
    ensures r.Ok? ==>
      && r.value.items == items && items != [] && r.value.start <= r.value.end
      && rows == RunRows(items, r.value.start, timestamp, reelUrl)
      && r.value.end == r.value.start + |rows| - 1
      && remote.sheets == Appended(old(remote.sheets), sheetId, f, rows)
      && backup.State() == BackupAppend(old(backup.State()), rows)
  {
    sheetId, rows := "", [];
    var prepared, extracted;
    prepared, extracted, warnings := PrepareItems(download, media, settings, reply, originLat, originLng, geo);
    if prepared.Err? {
      return Err(prepared.error), sheetId, rows, [], warnings;
    }
    items := prepared.value;
    r, sheetId, rows := WriteRows(items, reelUrl, timestamp, settings, saFileExists, saEmail, f, remote, backup);
  }
}
