/** The clock readings the console turns into names: `datetime.now()` is a
    parameter, formatted as `strftime` does. */
module Clock {
  import opened Wrappers
  import opened PyStr

  /** A `datetime`, down to the second. */
  datatype DateTime = DateTime(year: nat, month: nat, day: nat, hour: nat, minute: nat, second: nat)
  {
    /** The ranges `datetime` enforces on its fields. */
    predicate Valid()
    {
      1 <= year <= 9999 && 1 <= month <= 12 && 1 <= day <= 31 &&
      hour < 24 && minute < 60 && second < 60
    }
  }

  /** A field printed with `width` digits, zero-padded on the left. */
  function Pad(n: nat, width: nat): (s: string)
    ensures |s| == width && AllDigits(s)
  {
    if width == 0 then [] else Pad(n / 10, width - 1) + [DigitChar(n % 10)]
  }

  /** `strftime("%Y%m%d%H%M%S")`. */
  function Stamp(t: DateTime): string
  {
    Pad(t.year, 4) + Pad(t.month, 2) + Pad(t.day, 2) + Pad(t.hour, 2) + Pad(t.minute, 2) + Pad(t.second, 2)
  }

  /** `strftime("%Y-%m-%d")`. */
  function DateName(t: DateTime): string
  {
    Pad(t.year, 4) + "-" + Pad(t.month, 2) + "-" + Pad(t.day, 2)
  }

  function Power10(k: nat): (p: nat)
    ensures p >= 1
  {
    if k == 0 then 1 else 10 * Power10(k - 1)
  }

  /** Reading a padded field back gives the field, when it fits the width. */
  lemma {:induction false} PadValue(n: nat, width: nat)
    requires n < Power10(width)
    ensures DigitsValue(Pad(n, width)) == n
  {
    if width > 0 {
      var s := Pad(n, width);
      assert s[..|s| - 1] == Pad(n / 10, width - 1);
      assert n / 10 < Power10(width - 1);
      PadValue(n / 10, width - 1);
    }
  }

  /** `int()` of a padded field is the field. */
  lemma ParsePad(n: nat, width: nat)
    requires 1 <= width && n < Power10(width)
    ensures ParseInt(Pad(n, width)) == Some(n)
  {
    PadValue(n, width);
    var s := Pad(n, width);
    assert IsDigit(s[0]);
  }

  /** The timestamp is fourteen decimal digits, so it holds no dot. */
  lemma StampShape(t: DateTime)
    ensures |Stamp(t)| == 14 && AllDigits(Stamp(t))
    ensures '.' !in Stamp(t)
  {
    var s := Stamp(t);
    assert forall k :: 0 <= k < |s| ==> IsDigit(s[k]) by {
      var a, b, c := Pad(t.year, 4), Pad(t.month, 2), Pad(t.day, 2);
      var d, e, f := Pad(t.hour, 2), Pad(t.minute, 2), Pad(t.second, 2);
      assert s == a + b + c + d + e + f;
      forall k | 0 <= k < |s| ensures IsDigit(s[k]) {
        if k < 4 { assert s[k] == a[k]; }
        else if k < 6 { assert s[k] == b[k - 4]; }
        else if k < 8 { assert s[k] == c[k - 6]; }
        else if k < 10 { assert s[k] == d[k - 8]; }
        else if k < 12 { assert s[k] == e[k - 10]; }
        else { assert s[k] == f[k - 12]; }
      }
    }
  }

  /** The day name splits on '-' into year, month and day, which read back
      as the clock's fields. */
  lemma DateNameFields(t: DateTime)
    requires t.Valid()
    ensures var parts := Split(DateName(t), '-');
      && |parts| == 3
      && ParseInt(parts[0]) == Some(t.year)
      && ParseInt(parts[1]) == Some(t.month)
      && ParseInt(parts[2]) == Some(t.day)
  {
    var y, m, d := Pad(t.year, 4), Pad(t.month, 2), Pad(t.day, 2);
    NoDash(y);
    NoDash(m);
    NoDash(d);
    var parts := [y, m, d];
    assert Join(parts[2..], '-') == d;
    assert Join(parts[1..], '-') == m + "-" + d;
    assert Join(parts, '-') == DateName(t);
    SplitJoin(parts, '-');
    assert Power10(2) == 100 && Power10(4) == 10000;
    ParsePad(t.year, 4);
    ParsePad(t.month, 2);
    ParsePad(t.day, 2);
  }

  lemma NoDash(s: string)
    requires AllDigits(s)
    ensures '-' !in s
  {
  }
}

/** The name `_upload_image` stores an upload under (web_app.py lines
    105-118); writing the file is not modelled. */
module UploadNames {
  import opened Wrappers
  import opened PyStr
  import opened Clock

  /** Python truthiness of an optional string: neither None nor empty. */
  predicate Truthy(o: Option<string>)
  {
    o.Some? && o.value != ""
  }

  /** The stored name. With a requested `filename`, that name with the
      requested `suffix` (`jpg` when none is given); otherwise the time of
      the upload with the extension of the uploaded file; otherwise
      `image.jpg`. */
  function UploadName(now: DateTime, uploaded: Option<string>, filename: Option<string>, suffix: Option<string>): (r: string)
    ensures Truthy(filename) ==> StartsWith(r, filename.value + ".")
    ensures !Truthy(filename) && Truthy(uploaded) ==> StartsWith(r, Stamp(now) + ".")
    ensures !Truthy(filename) && !Truthy(uploaded) ==> r == "image.jpg"
  {
    if !Truthy(filename) then
      if Truthy(uploaded) then Stamp(now) + "." + LastPiece(uploaded.value, '.')
      else "image.jpg"
    else if Truthy(suffix) then filename.value + "." + suffix.value
    else filename.value + ".jpg"
  }

  /** The extension of the stored name: the requested suffix, else `jpg`
      for a requested name, and `jpg` for the fallback name. */
  lemma UploadExtension(now: DateTime, uploaded: Option<string>, filename: Option<string>, suffix: Option<string>)
    ensures var r := UploadName(now, uploaded, filename, suffix);
      && (Truthy(filename) && Truthy(suffix) && '.' !in suffix.value ==> LastPiece(r, '.') == suffix.value)
      && (Truthy(filename) && !Truthy(suffix) ==> LastPiece(r, '.') == "jpg")
      && (!Truthy(filename) && !Truthy(uploaded) ==> LastPiece(r, '.') == "jpg")
  {
    var r := UploadName(now, uploaded, filename, suffix);
    if !Truthy(filename) {
      if !Truthy(uploaded) {
        assert r == "image" + ['.'] + "jpg";
        LastPieceAfter("image", '.', "jpg");
      }
    } else if Truthy(suffix) {
      if '.' !in suffix.value {
        assert r == filename.value + ['.'] + suffix.value;
        LastPieceAfter(filename.value, '.', suffix.value);
      }
    } else {
      assert r == filename.value + ['.'] + "jpg";
      LastPieceAfter(filename.value, '.', "jpg");
    }
  }

  /** Without a requested name, an upload is stored as exactly fourteen
      digits of time, one dot, and the uploaded file's extension. */
  lemma StampedName(now: DateTime, uploaded: Option<string>, filename: Option<string>, suffix: Option<string>)
    requires !Truthy(filename) && Truthy(uploaded)
    ensures var r := UploadName(now, uploaded, filename, suffix);
      var ext := LastPiece(uploaded.value, '.');
      && LastPiece(r, '.') == ext
      && Split(r, '.') == [Stamp(now), ext]
      && |Stamp(now)| == 14 && AllDigits(Stamp(now))
  {
    var ext := LastPiece(uploaded.value, '.');
    LastPieceIsTail(uploaded.value, '.');
    LastPieceAfter(Stamp(now), '.', ext);
    StampShape(now);
    var parts := [Stamp(now), ext];
    assert Join(parts, '.') == Stamp(now) + "." + ext;
    SplitJoin(parts, '.');
  }
}

/** `get_history_logs` (web_app.py lines 612-642): which log file a request
    reads, and the page of its entries it returns. Reading and parsing the
    file is not modelled; its entries are a parameter. */
module HistoryLogs {
  import opened Wrappers
  import opened PyStr
  import opened Clock

  /** The `data` of the reply: the number of entries and the rows sent. */
  datatype LogPage<T> = LogPage(count: nat, rows: seq<T>)

  /** The file name read for `date`, today's date when none is given; a
      trailing `.log` on the request is not doubled. */
  function LogFile(date: Option<string>, today: DateTime): (f: string)
    ensures EndsWith(f, ".log")
    ensures date.None? ==> f == DateName(today) + ".log"
  {
    var d := if date.None? then DateName(today) else date.value;
    assert date.None? ==> !EndsWith(d, ".log") by {
      if date.None? {
        var day := Pad(today.day, 2);
        assert d[|d| - 1] == day[1];
        assert IsDigit(day[1]);
      }
    }
    var stem := if EndsWith(d, ".log") then RemoveSuffix(d, ".log") else d;
    var f := stem + ".log";
    assert f[|f| - 4..] == ".log";
    f
  }

  /** Asking for `d` or for `d.log` reads the same file `d.log`, and asking
      for the file's own name reads that file again. */
  lemma LogFileNames(d: string, today: DateTime)
    ensures !EndsWith(d, ".log") ==>
      LogFile(Some(d + ".log"), today) == LogFile(Some(d), today) == d + ".log"
    ensures LogFile(Some(LogFile(Some(d), today)), today) == LogFile(Some(d), today)
  {
    var e := d + ".log";
    assert EndsWith(e, ".log") by { assert e[|e| - 4..] == ".log"; }
    var f := LogFile(Some(d), today);
    assert RemoveSuffix(f, ".log") + ".log" == f;
  }

  /** The page: every entry when `page` or `perPage` is 0, else the slice
      `[(page - 1) * perPage : (page - 1) * perPage + perPage]`. */
  function Paginate<T>(entries: seq<T>, page: int, perPage: int): (r: LogPage<T>)
    ensures r.count == |entries|
    ensures page == 0 || perPage == 0 ==> r.rows == entries
    ensures page >= 1 && perPage >= 1 ==> |r.rows| <= perPage
  {
    if page != 0 && perPage != 0 then
      var start := (page - 1) * perPage;
      LogPage(|entries|, PySlice(entries, start, start + perPage))
    else
      LogPage(|entries|, entries)
  }

  function Min(a: int, b: int): int
  {
    if a < b then a else b
  }

  /** Page `page` is the run of at most `perPage` entries that starts after
      `page - 1` full pages, cut short by the end of the entries. */
  lemma PageSlice<T>(entries: seq<T>, page: int, perPage: int)
    requires page >= 1 && perPage >= 1
    ensures var start := (page - 1) * perPage;
      Paginate(entries, page, perPage).rows == entries[Min(start, |entries|)..Min(start + perPage, |entries|)]
  {
    var n := |entries|;
    var start := (page - 1) * perPage;
    assert start >= 0;
    var end := start + perPage;
    assert SliceBound(start, n) == Min(start, n);
    assert SliceBound(end, n) == Min(end, n);
  }

  /** The rows of pages 1 to k, one after the other. */
  function PagesUpTo<T>(entries: seq<T>, k: nat, perPage: int): seq<T>
  {
    if k == 0 then [] else PagesUpTo(entries, k - 1, perPage) + Paginate(entries, k, perPage).rows
  }

  /** Walking the pages from the first hands out the entries in order,
      none skipped or repeated: pages 1 to k are the first k * perPage
      entries. */
  lemma {:induction false} PagesCover<T>(entries: seq<T>, k: nat, perPage: int)
    requires perPage >= 1
    ensures PagesUpTo(entries, k, perPage) == entries[..Min(k * perPage, |entries|)]
  {
    if k > 0 {
      PagesCover(entries, k - 1, perPage);
      var n := |entries|;
      var start, end := (k - 1) * perPage, k * perPage;
      PageBounds(k, perPage);
      PageSlice(entries, k, perPage);
      SliceJoin(entries, Min(start, n), Min(end, n));
    }
  }

  lemma SliceJoin<T>(s: seq<T>, a: int, b: int)
    requires 0 <= a <= b <= |s|
    ensures s[..a] + s[a..b] == s[..b]
  {
  }

  /** Page k starts where page k - 1 ends. */
  lemma PageBounds(k: nat, perPage: int)
    requires k >= 1 && perPage >= 1
    ensures 0 <= (k - 1) * perPage && (k - 1) * perPage + perPage == k * perPage
  {
  }

  /** Once the pages run past the entries, they come back empty. */
  lemma PagesEnd<T>(entries: seq<T>, page: int, perPage: int)
    requires page >= 1 && perPage >= 1 && (page - 1) * perPage >= |entries|
    ensures Paginate(entries, page, perPage).rows == []
  {
  }
}
