/** ScreenshotUtils: file names for saved screenshots and the rule for
    cleaning old ones up. Images, the clock and the file system are inputs:
    a timestamp's calendar fields, whether a write succeeds, and a directory
    listing. Strings are sequences of Unicode code points, as Java's regex
    engine sees them. */
module Screenshots {
  import opened Common
  import opened JavaText
  import Configuration

  datatype ScreenshotError = SaveFailed(path: string)   // RuntimeException wrapping an IOException

  /** The characters `[a-zA-Z0-9.-]` kept by the sanitiser. */
  predicate IsKept(c: char) {
    'a' <= c <= 'z' || 'A' <= c <= 'Z' || '0' <= c <= '9' || c == '.' || c == '-'
  }

  /** replaceAll("[^a-zA-Z0-9.-]", "_"), one character at a time. */
  function ReplaceInvalid(s: string): (r: string)
    ensures |r| == |s|
    ensures forall i :: 0 <= i < |s| ==> r[i] == (if IsKept(s[i]) then s[i] else '_')
  {
    if s == [] then [] else [if IsKept(s[0]) then s[0] else '_'] + ReplaceInvalid(s[1..])
  }

  /** sanitizeFileName: null or "" becomes "screenshot"; otherwise every
      character outside the kept set becomes one underscore. */
  function SanitizeFileName(name: Option<string>): (r: string)
    ensures name.None? || name.value == [] ==> r == "screenshot"
    ensures name.Some? && name.value != [] ==> (|r| == |name.value|
      && forall i :: 0 <= i < |r| ==> r[i] == (if IsKept(name.value[i]) then name.value[i] else '_'))
    ensures r != []
    ensures forall i :: 0 <= i < |r| ==> IsKept(r[i]) || r[i] == '_'
  {
    if name.None? || name.value == [] then "screenshot" else ReplaceInvalid(name.value)
  }

  /** Sanitising a sanitised name changes nothing. */
  lemma SanitizeIdempotent(name: Option<string>)
    ensures SanitizeFileName(Some(SanitizeFileName(name))) == SanitizeFileName(name)
  {
  }

  /** A name made of kept characters and underscores is left alone. */
  lemma SanitizeKeepsCleanNames(name: string)
    requires name != []
    requires forall i :: 0 <= i < |name| ==> IsKept(name[i]) || name[i] == '_'
    ensures SanitizeFileName(Some(name)) == name
  {
  }

  // --------------------------------------------------------- timestamps

  /** A number in decimal, left-padded with zeros to a width, as
      SimpleDateFormat prints a numeric field. */
  function Padded(n: nat, width: nat): (r: string)
    ensures AllDigits(r) && |r| >= width
    ensures |NatDigits(n)| >= width ==> r == NatDigits(n)
    ensures DigitsValue(r) == n
    ensures 0 < width && n < Pow10(width) ==> |r| == width
  {
    var digits := NatDigits(n);
    NatDigitsValue(n);
    DigitsFit(n, width);
    if |digits| >= width then digits
    else
      LeadingZerosValue(width - |digits|, digits);
      seq(width - |digits|, _ => '0') + digits
  }

  /** Zeros read as the number 0. */
  lemma {:induction false} ZerosValue(k: nat)
    ensures AllDigits(seq(k, _ => '0')) && DigitsValue(seq(k, _ => '0')) == 0
  {
    if k > 0 {
      ZerosValue(k - 1);
      assert seq(k, _ => '0')[..k - 1] == seq(k - 1, _ => '0');
    }
  }

  /** Leading zeros do not change the value of a decimal numeral. */
  lemma {:induction false} LeadingZerosValue(k: nat, d: string)
    requires AllDigits(d)
    ensures AllDigits(seq(k, _ => '0') + d)
    ensures DigitsValue(seq(k, _ => '0') + d) == DigitsValue(d)
    decreases |d|
  {
    var s := seq(k, _ => '0') + d;
    if d == [] {
      assert s == seq(k, _ => '0');
      ZerosValue(k);
    } else {
      LeadingZerosValue(k, d[..|d| - 1]);
      assert s[..|s| - 1] == seq(k, _ => '0') + d[..|d| - 1];
    }
  }

  /** A number below 10^width, for a positive width, has at most width digits. */
  lemma DigitsFit(n: nat, width: nat)
    ensures 0 < width && n < Pow10(width) ==> |NatDigits(n)| <= width
  {
    if 0 < width && n < Pow10(width) {
      NatDigitsLength(n, width, Pow10(width));
    }
  }

  /** A number below 10^k has at most k digits. */
  lemma {:induction false} NatDigitsLength(n: nat, k: nat, bound: nat)
    requires n < bound && bound == Pow10(k) && k > 0
    ensures |NatDigits(n)| <= k
    decreases k
  {
    if n >= 10 {
      assert k > 1;
      NatDigitsLength(n / 10, k - 1, Pow10(k - 1));
    }
  }

  function Pow10(k: nat): (p: nat)
    ensures p >= 1
  {
    if k == 0 then 1 else 10 * Pow10(k - 1)
  }

  /** new SimpleDateFormat("yyyyMMdd_HHmmss").format(date), from the date's
      calendar fields. */
  function Timestamp(year: nat, month: nat, day: nat, hour: nat, minute: nat, second: nat): (r: string)
    ensures |r| >= 15 && '_' in r
    ensures forall i :: 0 <= i < |r| ==> IsDigit(r[i]) || r[i] == '_'
  {
    var head := Padded(year, 4) + Padded(month, 2) + Padded(day, 2);
    var tail := Padded(hour, 2) + Padded(minute, 2) + Padded(second, 2);
    DigitsConcat(Padded(year, 4), Padded(month, 2));
    DigitsConcat(Padded(year, 4) + Padded(month, 2), Padded(day, 2));
    DigitsConcat(Padded(hour, 2), Padded(minute, 2));
    DigitsConcat(Padded(hour, 2) + Padded(minute, 2), Padded(second, 2));
    DigitsAroundUnderscore(head, tail);
    head + "_" + tail
  }

  lemma DigitsConcat(a: string, b: string)
    requires AllDigits(a) && AllDigits(b)
    ensures AllDigits(a + b)
  {
    forall i | 0 <= i < |a + b| ensures IsDigit((a + b)[i]) {
      if i < |a| { assert (a + b)[i] == a[i]; } else { assert (a + b)[i] == b[i - |a|]; }
    }
  }

  lemma DigitsAroundUnderscore(head: string, tail: string)
    requires AllDigits(head) && AllDigits(tail)
    ensures var s := head + "_" + tail;
      '_' in s && forall i :: 0 <= i < |s| ==> IsDigit(s[i]) || s[i] == '_'
  {
    var s := head + "_" + tail;
    assert s[|head|] == '_';
    forall i | 0 <= i < |s| ensures IsDigit(s[i]) || s[i] == '_' {
      if i < |head| { assert s[i] == head[i]; }
      else if i > |head| { assert s[i] == tail[i - |head| - 1]; }
    }
  }

  /** For four-digit years a timestamp is fifteen characters: eight digits,
      an underscore, six digits. */
  lemma TimestampShape(year: nat, month: nat, day: nat, hour: nat, minute: nat, second: nat)
    requires year < 10000 && 1 <= month <= 12 && 1 <= day <= 31 && hour < 24 && minute < 60 && second < 60
    ensures var t := Timestamp(year, month, day, hour, minute, second);
      |t| == 15 && t[8] == '_' && AllDigits(t[..8]) && AllDigits(t[9..])
  {
    NatDigitsLength(year, 4, 10000);
    NatDigitsLength(month, 2, 100);
    NatDigitsLength(day, 2, 100);
    NatDigitsLength(hour, 2, 100);
    NatDigitsLength(minute, 2, 100);
    NatDigitsLength(second, 2, 100);
    var t := Timestamp(year, month, day, hour, minute, second);
    var head := Padded(year, 4) + Padded(month, 2) + Padded(day, 2);
    var tail := Padded(hour, 2) + Padded(minute, 2) + Padded(second, 2);
    assert t == head + "_" + tail;
    assert t[..8] == head;
    assert t[9..] == tail;
  }

  /** Each field of a timestamp reads back as the calendar field it prints:
      year, month, day, then hour, minute and second. */
  lemma TimestampFields(year: nat, month: nat, day: nat, hour: nat, minute: nat, second: nat)
    requires year < 10000 && 1 <= month <= 12 && 1 <= day <= 31 && hour < 24 && minute < 60 && second < 60
    ensures var t := Timestamp(year, month, day, hour, minute, second);
      && |t| == 15 && t[8] == '_'
      && AllDigits(t[..4]) && DigitsValue(t[..4]) == year
      && AllDigits(t[4..6]) && DigitsValue(t[4..6]) == month
      && AllDigits(t[6..8]) && DigitsValue(t[6..8]) == day
      && AllDigits(t[9..11]) && DigitsValue(t[9..11]) == hour
      && AllDigits(t[11..13]) && DigitsValue(t[11..13]) == minute
      && AllDigits(t[13..15]) && DigitsValue(t[13..15]) == second
  {
    assert Pow10(2) == 100 && Pow10(4) == 10000;
    var t := Timestamp(year, month, day, hour, minute, second);
    var y, mo, d := Padded(year, 4), Padded(month, 2), Padded(day, 2);
    var h, mi, se := Padded(hour, 2), Padded(minute, 2), Padded(second, 2);
    assert t == y + mo + d + "_" + h + mi + se;
    StampSlices(y, mo, d, h, mi, se);
  }

  /** Where each field sits in a `yyyyMMdd_HHmmss` stamp. */
  lemma StampSlices(y: string, mo: string, d: string, h: string, mi: string, se: string)
    requires |y| == 4 && |mo| == 2 && |d| == 2 && |h| == 2 && |mi| == 2 && |se| == 2
    ensures var t := y + mo + d + "_" + h + mi + se;
      && |t| == 15 && t[8] == '_'
      && t[..4] == y && t[4..6] == mo && t[6..8] == d
      && t[9..11] == h && t[11..13] == mi && t[13..15] == se
  {
    var head, tail := y + mo + d, h + mi + se;
    var t := head + "_" + tail;
    assert t[..8] == head && t[9..] == tail;
    assert head[..4] == y && head[4..6] == mo && head[6..] == d;
    assert tail[..2] == h && tail[2..4] == mi && tail[4..] == se;
  }

  // ------------------------------------------------------------- naming

  /** `<sanitised name>_<timestamp>.png`. */
  function ScreenshotFileName(testName: Option<string>, timestamp: string): (r: string)
    ensures |r| == |SanitizeFileName(testName)| + 1 + |timestamp| + 4
    ensures r[..|SanitizeFileName(testName)|] == SanitizeFileName(testName)
    ensures r[|SanitizeFileName(testName)|] == '_'
    ensures r[|SanitizeFileName(testName)| + 1..|r| - 4] == timestamp
    ensures r[|r| - 4..] == ".png"
  {
    SanitizeFileName(testName) + "_" + timestamp + ".png"
  }

  /** The name part cannot hold a path separator, so a screenshot always
      lands directly in the screenshot directory. */
  lemma FileNameHasNoSeparator(testName: Option<string>, timestamp: string, separator: char)
    requires !IsKept(separator) && separator != '_'
    requires separator !in timestamp
    ensures separator !in ScreenshotFileName(testName, timestamp)
  {
    var s := SanitizeFileName(testName);
    var r := ScreenshotFileName(testName, timestamp);
    assert r == s + "_" + timestamp + ".png";
    forall i | 0 <= i < |r| ensures r[i] != separator {
      if i < |s| {
        assert r[i] == s[i];
      } else if i == |s| {
      } else if i < |s| + 1 + |timestamp| {
        assert r[i] == timestamp[i - |s| - 1];
      } else {
        assert r[i] == ".png"[i - |s| - 1 - |timestamp|];
      }
    }
  }

  /** saveScreenshot (both overloads): the path is the configured directory,
      the platform separator and the file name; a failed write is an error. */
  function SaveScreenshot(config: Configuration.ConfigManager, separator: string, testName: Option<string>,
                          timestamp: string, writeSucceeds: bool): (r: Result<string, ScreenshotError>)
    reads config
    ensures var path := config.GetScreenshotPath() + separator + ScreenshotFileName(testName, timestamp);
      && (writeSucceeds ==> r == Ok(path))
      && (!writeSucceeds ==> r == Err(SaveFailed(path)))
  {
    var path := config.GetScreenshotPath() + separator + ScreenshotFileName(testName, timestamp);
    if writeSucceeds then Ok(path) else Err(SaveFailed(path))
  }

  /** Java string concatenation: null prints as "null". */
  function ConcatNullable(prefix: string, s: Option<string>): (r: string)
    ensures |r| >= |prefix| && r[..|prefix|] == prefix
    ensures s.Some? ==> r[|prefix|..] == s.value
    ensures s.None? ==> r[|prefix|..] == "null"
  {
    prefix + (if s.Some? then s.value else "null")
  }

  /** saveElementScreenshot: the name is "element_" + elementName. */
  function SaveElementScreenshot(config: Configuration.ConfigManager, separator: string, elementName: Option<string>,
                                 timestamp: string, writeSucceeds: bool): (r: Result<string, ScreenshotError>)
    reads config
    ensures r == SaveScreenshot(config, separator, Some(ConcatNullable("element_", elementName)), timestamp, writeSucceeds)
    ensures r.Ok? <==> writeSucceeds
    ensures var prefix := config.GetScreenshotPath() + separator;
      var path := if r.Ok? then r.value else r.error.path;
      && |path| >= |prefix| + 8 + 4
      && path[..|prefix|] == prefix
      && path[|prefix|..|prefix| + 8] == "element_"
      && path[|path| - 4..] == ".png"
  {
    var name := Some(ConcatNullable("element_", elementName));
    ElementPathShape(config.GetScreenshotPath() + separator, elementName, timestamp);
    SaveScreenshot(config, separator, name, timestamp, writeSucceeds)
  }

  /** Below any directory prefix an element screenshot path reads
      prefix, "element_", the rest of the name, ".png". */
  lemma ElementPathShape(prefix: string, elementName: Option<string>, timestamp: string)
    ensures var path := prefix + ScreenshotFileName(Some(ConcatNullable("element_", elementName)), timestamp);
      && |path| >= |prefix| + 8 + 4
      && path[..|prefix|] == prefix
      && path[|prefix|..|prefix| + 8] == "element_"
      && path[|path| - 4..] == ".png"
  {
    var f := ScreenshotFileName(Some(ConcatNullable("element_", elementName)), timestamp);
    ElementNamePrefix(elementName, timestamp);
    PrefixedName(prefix, f);
  }

  lemma PrefixedName(prefix: string, f: string)
    requires |f| >= 12 && f[..8] == "element_" && f[|f| - 4..] == ".png"
    ensures var path := prefix + f;
      && |path| >= |prefix| + 8 + 4
      && path[..|prefix|] == prefix
      && path[|prefix|..|prefix| + 8] == "element_"
      && path[|path| - 4..] == ".png"
  {
    var path := prefix + f;
    assert path[|prefix|..|prefix| + 8] == f[..8];
    assert path[|path| - 4..] == f[|f| - 4..];
  }

  /** Element screenshot files always start with "element_", the null name
      included (it reads "element_null"). */
  lemma ElementNamePrefix(elementName: Option<string>, timestamp: string)
    ensures var f := ScreenshotFileName(Some(ConcatNullable("element_", elementName)), timestamp);
      |f| >= 8 && f[..8] == "element_"
    ensures elementName.None? ==>
      ScreenshotFileName(Some(ConcatNullable("element_", elementName)), timestamp) == "element_null" + "_" + timestamp + ".png"
  {
    var name := ConcatNullable("element_", elementName);
    SanitizedElementPrefix(name);
    var s := SanitizeFileName(Some(name));
    var f := ScreenshotFileName(Some(name), timestamp);
    assert f[..8] == f[..|s|][..8];
    if elementName.None? {
      assert name == "element_null";
      ElementNullFileName(timestamp);
    }
  }

  /** The null element name survives sanitising unchanged. */
  lemma ElementNullFileName(timestamp: string)
    ensures ScreenshotFileName(Some("element_null"), timestamp) == "element_null" + "_" + timestamp + ".png"
  {
    ElementNullIsClean();
    CleanFileName("element_null", timestamp);
  }

  lemma ElementNullIsClean()
    ensures forall i :: 0 <= i < |"element_null"| ==> IsKept("element_null"[i]) || "element_null"[i] == '_'
  {
    KeptAroundUnderscore("element", "null");
    assert "element_null" == "element" + "_" + "null";
  }

  /** A clean, non-empty name is used as it stands. */
  lemma CleanFileName(name: string, timestamp: string)
    requires name != []
    requires forall i :: 0 <= i < |name| ==> IsKept(name[i]) || name[i] == '_'
    ensures ScreenshotFileName(Some(name), timestamp) == name + "_" + timestamp + ".png"
  {
    SanitizeKeepsCleanNames(name);
  }

  lemma KeptAroundUnderscore(a: string, b: string)
    requires forall i :: 0 <= i < |a| ==> IsKept(a[i])
    requires forall i :: 0 <= i < |b| ==> IsKept(b[i])
    ensures var s := a + "_" + b;
      forall i :: 0 <= i < |s| ==> IsKept(s[i]) || s[i] == '_'
  {
    var s := a + "_" + b;
    forall i | 0 <= i < |s| ensures IsKept(s[i]) || s[i] == '_' {
      if i < |a| { assert s[i] == a[i]; }
      else if i > |a| { assert s[i] == b[i - |a| - 1]; }
    }
  }

  /** The sanitiser leaves a leading "element_" as it is. */
  lemma SanitizedElementPrefix(name: string)
    requires |name| >= 8 && name[..8] == "element_"
    ensures |SanitizeFileName(Some(name))| >= 8 && SanitizeFileName(Some(name))[..8] == "element_"
  {
    var s := SanitizeFileName(Some(name));
    forall i | 0 <= i < 8 ensures s[i] == "element_"[i] {
      assert name[i] == name[..8][i];
    }
  }

  // ------------------------------------------------------------ cleanup

  /** One entry of a directory listing. */
  datatype FileEntry = FileEntry(name: string, isFile: bool, lastModified: Int64, deletable: bool)

  /** The screenshot directory as the cleanup finds it. */
  datatype Directory = Missing | NotADirectory | Unlistable | Listing(files: seq<FileEntry>)

  const MillisPerDay: int := 24 * 60 * 60 * 1000

  /** Java long arithmetic: wrap into the 64-bit range. */
  function WrapLong(x: int): (r: Int64)
    ensures -0x8000_0000_0000_0000 <= x < 0x8000_0000_0000_0000 ==> r == x
    ensures (x - r) % 0x1_0000_0000_0000_0000 == 0
  {
    var m := x % 0x1_0000_0000_0000_0000;
    if m < 0x8000_0000_0000_0000 then m else m - 0x1_0000_0000_0000_0000
  }

  /** currentTimeMillis() - daysOld * 24L * 60L * 60L * 1000L, in long arithmetic. */
  function Cutoff(now: Int64, daysOld: Int32): (r: Int64)
    ensures 0 <= now < 0x4000_0000_0000_0000 ==> r == now - daysOld * MillisPerDay
  {
    WrapLong(now - daysOld * MillisPerDay)
  }

  /** A regular file last modified strictly before the cutoff. */
  predicate IsExpired(f: FileEntry, cutoff: int) {
    f.isFile && f.lastModified < cutoff
  }

  /** The files the cleanup removes, in listing order. */
  function Removed(files: seq<FileEntry>, cutoff: int): (r: seq<FileEntry>)
    ensures |r| <= |files|
    ensures forall i :: 0 <= i < |r| ==> r[i] in files && IsExpired(r[i], cutoff) && r[i].deletable
    decreases |files|
  {
    if files == [] then []
    else
      var before := Removed(files[..|files| - 1], cutoff);
      var f := files[|files| - 1];
      if IsExpired(f, cutoff) && f.deletable then before + [f] else before
  }

  /** A file is removed exactly when it is expired and the delete succeeds. */
  lemma {:induction false} RemovedExactly(files: seq<FileEntry>, cutoff: int, f: FileEntry)
    ensures f in Removed(files, cutoff) <==> f in files && IsExpired(f, cutoff) && f.deletable
    decreases |files|
  {
    if files != [] {
      var init := files[..|files| - 1];
      RemovedExactly(init, cutoff, f);
      assert files == init + [files[|files| - 1]];
    }
  }

  /** One more listed file is removed after those before it, or kept. */
  lemma RemovedStep(files: seq<FileEntry>, cutoff: int, i: nat)
    requires i < |files|
    ensures Removed(files[..i + 1], cutoff)
      == Removed(files[..i], cutoff) + (if IsExpired(files[i], cutoff) && files[i].deletable then [files[i]] else [])
  {
    assert files[..i + 1][..i] == files[..i];
  }

  /** A directory that is missing, is not a directory or cannot be listed
      loses nothing. */
  function RemovedFrom(dir: Directory, cutoff: int): (r: seq<FileEntry>)
    ensures !dir.Listing? ==> r == []
  {
    if dir.Listing? then Removed(dir.files, cutoff) else []
  }

  /** cleanupOldScreenshots: the loop over the listing deleting expired files. */
  method CleanupOldScreenshots(dir: Directory, now: Int64, daysOld: Int32) returns (deleted: seq<FileEntry>)
    ensures deleted == RemovedFrom(dir, Cutoff(now, daysOld))
  {
    deleted := [];
    if !dir.Listing? {
      return;
    }
    var cutoff := now - daysOld * 24 * 60 * 60 * 1000;
    assert daysOld * 24 * 60 * 60 * 1000 == daysOld * MillisPerDay;
    cutoff := WrapLong(cutoff);
    assert cutoff == Cutoff(now, daysOld);
    var files := dir.files;
    for i := 0 to |files|
      invariant deleted == Removed(files[..i], cutoff)
    {
      var file := files[i];
      RemovedStep(files, cutoff, i);
      if file.isFile && file.lastModified < cutoff {
        if file.deletable {
          deleted := deleted + [file];
        }
      }
    }
    assert files[..|files|] == files;
  }
}
