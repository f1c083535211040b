/**
 * The schema of the spreadsheet, the recogniser for post links that the
 * front ends use to screen messages, and the retry back-off delay.
 */
module Utils {
  import opened Values

  /** Number of columns in the sheet, A through U. */
  const Width: nat := 21

  /** The header row, column by column. */
  const SheetHeaders: seq<string> := [
    "Index", "Timestamp", "Reel Link", "Item Index", "Item Type", "Item Name",
    "Brand/Category", "City", "State", "Country", "Lat", "Lng", "Distance_km",
    "Price", "Price_Source", "Purchase_Link", "Key_Specs/Features",
    "Best_Time/Notes", "Confidence", "Source_Text", "Processing_Status"
  ]

  /** The header is as wide as the sheet, starts with "Index", and passes the five-column check. */
  lemma HeaderSchema()
    ensures |SheetHeaders| == Width && Width >= 5
    ensures SheetHeaders[0] == "Index"
  {
  }

  // ---------------------------------------------------------------------
  // Reel links: http(s)://(www.)instagram.com/(reel|p)/<id>(/)
  // ---------------------------------------------------------------------

  /** The characters of `[A-Za-z0-9_-]`. */
  predicate IsIdChar(c: char)
  {
    ('A' <= c <= 'Z') || ('a' <= c <= 'z') || ('0' <= c <= '9') || c == '_' || c == '-'
  }

  ghost predicate AllIdChars(id: string)
  {
    forall i :: 0 <= i < |id| ==> IsIdChar(id[i])
  }

  /** The text of a link up to and including the '/' after `reel` or `p`, followed by `rest`. */
  function Frame(secure: string, www: string, kind: string, rest: string): string
  {
    "http" + (secure + ("://" + (www + ("instagram.com/" + (kind + ("/" + rest))))))
  }

  predicate ValidParts(secure: string, www: string, kind: string)
  {
    (secure == "" || secure == "s") && (www == "" || www == "www.") && (kind == "reel" || kind == "p")
  }

  /** `t` is, as a whole, a string the pattern `https?://(www\.)?instagram\.com/(reel|p)/[A-Za-z0-9_-]+/?` matches. */
  ghost predicate IsReelUrl(t: string)
  {
    exists secure, www, kind, id, slash ::
      && ValidParts(secure, www, kind)
      && id != [] && AllIdChars(id)
      && (slash == "" || slash == "/")
      && t == Frame(secure, www, kind, id + slash)
  }

  predicate HasPrefix(t: string, p: string)
  {
    |p| <= |t| && t[..|p|] == p
  }

  /** Consumes the literal `p`, or fails. */
  function Skip(t: string, p: string): Option<string>
  {
    if HasPrefix(t, p) then Some(t[|p|..]) else None
  }

  /** Consumes an optional literal `p` when it is there. */
  function SkipOpt(t: string, p: string): string
  {
    if HasPrefix(t, p) then t[|p|..] else t
  }

  /** Reads `https?://`. */
  function AfterScheme(t: string): Option<string>
  {
    match Skip(t, "http")
    case None => None
    case Some(a) => Skip(SkipOpt(a, "s"), "://")
  }

  /** Reads `(www\.)?instagram\.com/`. */
  function AfterHost(t: string): Option<string>
  {
    Skip(SkipOpt(t, "www."), "instagram.com/")
  }

  /** Reads `(reel|p)/`. */
  function AfterKind(t: string): Option<string>
  {
    match (if HasPrefix(t, "reel") then Skip(t, "reel") else Skip(t, "p"))
    case None => None
    case Some(d) => Skip(d, "/")
  }

  /** Some prefix of `t` is a reel link: the pattern read left to right. */
  predicate MatchesAt(t: string)
  {
    match AfterScheme(t)
    case None => false
    case Some(b) =>
      match AfterHost(b)
      case None => false
      case Some(c) =>
        match AfterKind(c)
        case None => false
        case Some(e) => e != [] && IsIdChar(e[0])
  }

  /** `is_valid_reel_url`: the pattern is searched for anywhere in the text, trying every offset. */
  predicate IsValidReelUrl(text: string)
    decreases |text|
  {
    MatchesAt(text) || (text != [] && IsValidReelUrl(text[1..]))
  }

  /** The search succeeds when the anchored reading succeeds at some offset. */
  lemma {:induction false} SearchFrom(text: string, i: nat)
    requires i <= |text| && MatchesAt(text[i..])
    ensures IsValidReelUrl(text)
    decreases i
  {
    if i > 0 {
      assert text[1..][i - 1..] == text[i..];
      SearchFrom(text[1..], i - 1);
    }
  }



  lemma SkipLit(p: string, y: string)
    ensures Skip(p + y, p) == Some(y) && SkipOpt(p + y, p) == y
  {
    assert (p + y)[..|p|] == p;
    assert (p + y)[|p|..] == y;
  }

  lemma SkipMiss(p: string, y: string)
    requires p != [] && y != [] && y[0] != p[0]
    ensures Skip(y, p) == None && SkipOpt(y, p) == y
  {
    if |p| <= |y| {
      assert y[..|p|][0] == y[0];
    }
  }

  lemma SkipSome(t: string, p: string, a: string)
    requires Skip(t, p) == Some(a)
    ensures t == p + a
  {
  }

  lemma SkipOptSplit(t: string, p: string) returns (q: string)
    ensures (q == "" || q == p) && t == q + SkipOpt(t, p)
  {
    if HasPrefix(t, p) {
      q := p;
    } else {
      q := "";
      assert t == q + t;
    }
  }

  /** Reading the frame of a link leaves exactly the text after `reel/` or `p/`. */
  lemma ReadFrame(secure: string, www: string, kind: string, rest: string)
    requires ValidParts(secure, www, kind)
    ensures var c := "instagram.com/" + (kind + ("/" + rest));
      AfterScheme(Frame(secure, www, kind, rest)) == Some(www + c)
      && AfterHost(www + c) == Some(kind + ("/" + rest))
      && AfterKind(kind + ("/" + rest)) == Some(rest)
  {
    var e := "/" + rest;
    var d := kind + e;
    var c := "instagram.com/" + d;
    var b := www + c;
    var a := "://" + b;
    SkipLit("http", secure + a);
    if secure == "s" { SkipLit("s", a); } else { assert secure + a == a; SkipMiss("s", a); }
    SkipLit("://", b);
    if www == "www." { SkipLit("www.", c); } else { assert www + c == c; SkipMiss("www.", c); }
    SkipLit("instagram.com/", d);
    if kind == "reel" {
      SkipLit("reel", e);
    } else {
      SkipMiss("reel", d);
      SkipLit("p", e);
    }
    SkipLit("/", rest);
  }

  /** Anchored at a link, the reading succeeds exactly when an id character follows `reel/` or `p/`. */
  lemma FrameMatches(secure: string, www: string, kind: string, rest: string)
    requires ValidParts(secure, www, kind)
    ensures MatchesAt(Frame(secure, www, kind, rest)) <==> rest != [] && IsIdChar(rest[0])
  {
    ReadFrame(secure, www, kind, rest);
  }

  /** A successful reading takes apart the text as a frame and an id character after it. */
  lemma {:induction false} MatchesAtFrame(t: string) returns (secure: string, www: string, kind: string, rest: string)
    requires MatchesAt(t)
    ensures ValidParts(secure, www, kind) && t == Frame(secure, www, kind, rest)
    ensures rest != [] && IsIdChar(rest[0])
  {
    var a := Skip(t, "http").value;
    SkipSome(t, "http", a);
    secure := SkipOptSplit(a, "s");
    var b := AfterScheme(t).value;
    SkipSome(SkipOpt(a, "s"), "://", b);
    www := SkipOptSplit(b, "www.");
    var c := AfterHost(b).value;
    SkipSome(SkipOpt(b, "www."), "instagram.com/", c);
    var d: string;
    if HasPrefix(c, "reel") {
      kind := "reel";
      d := Skip(c, "reel").value;
    } else {
      kind := "p";
      d := Skip(c, "p").value;
    }
    SkipSome(c, kind, d);
    rest := AfterKind(c).value;
    SkipSome(d, "/", rest);
  }

  lemma PrefixThrough(p: string, y: string, k: nat)
    requires k <= |y|
    ensures (p + y)[..|p| + k] == p + y[..k]
  {
  }

  lemma AppendThrough(p: string, y: string, z: string)
    ensures (p + y) + z == p + (y + z)
  {
  }

  /** Cutting the text after a frame cuts the frame's tail alike. */
  lemma FramePrefix(secure: string, www: string, kind: string, rest: string, k: nat)
    requires k <= |rest|
    ensures |Frame(secure, www, kind, rest)| - |rest| + k >= 0
    ensures Frame(secure, www, kind, rest)[..|Frame(secure, www, kind, rest)| - |rest| + k] == Frame(secure, www, kind, rest[..k])
  {
    var e := "/" + rest;
    var d := kind + e;
    var c := "instagram.com/" + d;
    var b := www + c;
    var a := "://" + b;
    var s := secure + a;
    PrefixThrough("/", rest, k);
    PrefixThrough(kind, e, 1 + k);
    PrefixThrough("instagram.com/", d, |kind| + 1 + k);
    PrefixThrough(www, c, 14 + |kind| + 1 + k);
    PrefixThrough("://", b, |www| + 14 + |kind| + 1 + k);
    PrefixThrough(secure, a, 3 + |www| + 14 + |kind| + 1 + k);
    PrefixThrough("http", s, |secure| + 3 + |www| + 14 + |kind| + 1 + k);
  }

  /** Text after a frame can be moved into the frame's tail. */
  lemma FrameAppend(secure: string, www: string, kind: string, rest: string, more: string)
    ensures Frame(secure, www, kind, rest) + more == Frame(secure, www, kind, rest + more)
  {
    var e := "/" + rest;
    var d := kind + e;
    var c := "instagram.com/" + d;
    var b := www + c;
    var a := "://" + b;
    var s := secure + a;
    AppendThrough("/", rest, more);
    AppendThrough(kind, e, more);
    AppendThrough("instagram.com/", d, more);
    AppendThrough(www, c, more);
    AppendThrough("://", b, more);
    AppendThrough(secure, a, more);
    AppendThrough("http", s, more);
  }

  /** A full match found at the front of `x` makes the anchored reading succeed. */
  lemma MatchesAtComplete(x: string, j: int)
    requires 0 <= j <= |x| && IsReelUrl(x[..j])
    ensures MatchesAt(x)
  {
    var secure, www, kind, id, slash :|
      && ValidParts(secure, www, kind)
      && id != [] && AllIdChars(id)
      && (slash == "" || slash == "/")
      && x[..j] == Frame(secure, www, kind, id + slash);
    assert x == x[..j] + x[j..];
    FrameAppend(secure, www, kind, id + slash, x[j..]);
    assert (id + slash + x[j..])[0] == id[0];
    FrameMatches(secure, www, kind, id + slash + x[j..]);
  }

  /** A frame followed by an id character begins with a full match. */
  lemma FrameReelUrl(secure: string, www: string, kind: string, rest: string)
    requires ValidParts(secure, www, kind) && rest != [] && IsIdChar(rest[0])
    ensures |Frame(secure, www, kind, rest)| - |rest| + 1 >= 0
    ensures IsReelUrl(Frame(secure, www, kind, rest)[..|Frame(secure, www, kind, rest)| - |rest| + 1])
  {
    FramePrefix(secure, www, kind, rest, 1);
    var id := rest[..1];
    assert id + "" == id;
    assert AllIdChars(id);
  }

  /** The anchored reading only succeeds on a full match at the front of `x`. */
  lemma MatchesAtSound(x: string) returns (j: int)
    requires MatchesAt(x)
    ensures 0 <= j <= |x| && IsReelUrl(x[..j])
  {
    var secure, www, kind, rest := MatchesAtFrame(x);
    FrameReelUrl(secure, www, kind, rest);
    j := |x| - |rest| + 1;
  }

  /** A match anywhere in the text makes the recogniser accept it. */
  lemma ValidIfMatchInside(text: string, i: int, j: int)
    requires 0 <= i <= j <= |text| && IsReelUrl(text[i..j])
    ensures IsValidReelUrl(text)
  {
    assert text[i..][..j - i] == text[i..j];
    MatchesAtComplete(text[i..], j - i);
    SearchFrom(text, i);
  }

  /** A successful search names an offset where a frame followed by an id character starts. */
  lemma {:induction false} SearchFrame(text: string) returns (i: nat, secure: string, www: string, kind: string, rest: string)
    requires IsValidReelUrl(text)
    ensures i <= |text| && text[i..] == Frame(secure, www, kind, rest)
    ensures ValidParts(secure, www, kind) && rest != [] && IsIdChar(rest[0])
    decreases |text|
  {
    if MatchesAt(text) {
      i := 0;
      secure, www, kind, rest := MatchesAtFrame(text);
    } else {
      var k;
      k, secure, www, kind, rest := SearchFrame(text[1..]);
      i := k + 1;
      assert text[1..][k..] == text[i..];
    }
  }

  /** A full match at the front of a tail is a full match inside the text. */
  lemma ReelUrlInside(text: string, i: nat, secure: string, www: string, kind: string, rest: string) returns (j: int)
    requires i <= |text| && text[i..] == Frame(secure, www, kind, rest)
    requires ValidParts(secure, www, kind) && rest != [] && IsIdChar(rest[0])
    ensures i <= j <= |text| && IsReelUrl(text[i..j])
  {
    FrameReelUrl(secure, www, kind, rest);
    var x := Frame(secure, www, kind, rest);
    var n := |x| - |rest| + 1;
    assert x[..n] == text[i..i + n];
    j := i + n;
  }

  /** An accepted text holds a match somewhere. */
  lemma MatchInsideIfValid(text: string) returns (i: int, j: int)
    requires IsValidReelUrl(text)
    ensures 0 <= i <= j <= |text| && IsReelUrl(text[i..j])
  {
    var secure, www, kind, rest;
    i, secure, www, kind, rest := SearchFrame(text);
    j := ReelUrlInside(text, i, secure, www, kind, rest);
  }

  /** The recogniser accepts exactly the texts that contain a full match somewhere. */
  lemma IsValidReelUrlIff(text: string)
    ensures IsValidReelUrl(text) <==> exists i, j :: 0 <= i <= j <= |text| && IsReelUrl(text[i..j])
  {
    if IsValidReelUrl(text) {
      var i, j := MatchInsideIfValid(text);
    }
    forall i, j | 0 <= i <= j <= |text| && IsReelUrl(text[i..j]) ensures IsValidReelUrl(text) {
      ValidIfMatchInside(text, i, j);
    }
  }

  /** The anchored reading ignores what follows the first id character. */
  lemma MatchesAfterAppend(text: string, after: string, i: nat, secure: string, www: string, kind: string, rest: string)
    requires i <= |text| && text[i..] == Frame(secure, www, kind, rest)
    requires ValidParts(secure, www, kind) && rest != [] && IsIdChar(rest[0])
    ensures i <= |text + after| && MatchesAt((text + after)[i..])
  {
    assert (text + after)[i..] == text[i..] + after;
    FrameAppend(secure, www, kind, rest, after);
    assert (rest + after)[0] == rest[0];
    FrameMatches(secure, www, kind, rest + after);
  }

  /** Text after a link never makes it invalid. */
  lemma ValidWithSuffix(text: string, after: string)
    requires IsValidReelUrl(text)
    ensures IsValidReelUrl(text + after)
  {
    var i, secure, www, kind, rest := SearchFrame(text);
    MatchesAfterAppend(text, after, i, secure, www, kind, rest);
    SearchFrom(text + after, i);
  }

  lemma SliceAfter(before: string, text: string)
    ensures (before + text)[|before|..] == text
  {
  }

  /** A valid tail makes the whole text valid. */
  lemma {:induction false} ValidFromSuffix(t: string, k: nat)
    requires k <= |t| && IsValidReelUrl(t[k..])
    ensures IsValidReelUrl(t)
    decreases k
  {
    if k > 0 {
      assert t[1..][k - 1..] == t[k..];
      ValidFromSuffix(t[1..], k - 1);
    }
  }

  /** Text before a link never makes it invalid. */
  lemma ValidWithPrefix(before: string, text: string)
    requires IsValidReelUrl(text)
    ensures IsValidReelUrl(before + text)
  {
    SliceAfter(before, text);
    ValidFromSuffix(before + text, |before|);
  }

  /** Surrounding text never makes a link invalid: the match is unanchored. */
  lemma SurroundedLinkIsValid(before: string, text: string, after: string)
    requires IsValidReelUrl(text)
    ensures IsValidReelUrl(before + text + after)
  {
    ValidWithPrefix(before, text);
    ValidWithSuffix(before + text, after);
  }

  /** Directly after `reel/` or `p/` there must be an id character: an empty id is no link. */
  lemma EmptyIdRejected(secure: string, www: string, kind: string, rest: string)
    requires ValidParts(secure, www, kind)
    requires rest == [] || !IsIdChar(rest[0])
    ensures !MatchesAt(Frame(secure, www, kind, rest))
    ensures !IsReelUrl(Frame(secure, www, kind, rest))
  {
    FrameMatches(secure, www, kind, rest);
    var t := Frame(secure, www, kind, rest);
    if IsReelUrl(t) {
      assert t[..|t|] == t;
      MatchesAtComplete(t, |t|);
    }
  }

  // ---------------------------------------------------------------------
  // Back-off
  // ---------------------------------------------------------------------

  function Pow2(n: nat): (p: nat)
    ensures p >= 1
  {
    if n == 0 then 1 else 2 * Pow2(n - 1)
  }

  lemma {:induction false} Pow2Monotone(a: nat, b: nat)
    requires a <= b
    ensures Pow2(a) <= Pow2(b)
    decreases b
  {
    if a < b {
      Pow2Monotone(a, b - 1);
    }
  }

  /**
   * The seconds `sleep_backoff(attempt)` waits, `min(60, 2 ** attempt)`;
   * for a negative attempt Python's power is the fraction `1 / 2 ** -attempt`.
   */
  function BackoffDelay(attempt: int): (d: real)
    ensures 0.0 < d <= 60.0
    ensures 0 <= attempt <= 5 ==> d == Pow2(attempt) as real
    ensures attempt >= 6 ==> d == 60.0
    ensures attempt < 0 ==> d * Pow2(-attempt) as real == 1.0
  {
    if attempt >= 6 then
      Pow2Monotone(6, attempt);
      60.0
    else if attempt >= 0 then
      Pow2Monotone(attempt, 5);
      Pow2(attempt) as real
    else
      1.0 / Pow2(-attempt) as real
  }
}
