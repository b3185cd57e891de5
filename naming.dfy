/**
 * The string helpers of the service: the workbook file name derived from the
 * caller's base name, the managed storage path, `os.path.basename`, the stored
 * and listed payload previews, the 31-character sheet name, and the decimal
 * rendering used in batch labels.
 */
module Naming {

  const ProcessedSuffix := "_processed.xlsx"
  const PreviewLimit := 500
  const ListPreviewLimit := 100
  const SheetNameLimit := 31
  const Ellipsis := "..."

  /** `s[:n]` in Python: the first `n` characters, or all of `s` when it is shorter. */
  function Prefix(s: string, n: nat): (r: string)
    ensures |r| == if |s| <= n then |s| else n
    ensures r == s[..|r|]
  {
    if |s| <= n then s else s[..n]
  }

  // ---------------------------------------------------------------------------
  // File name sanitising (main.py:120-121, main_backup.py:248-249)
  // ---------------------------------------------------------------------------

  /** `str.isalnum` on the ASCII range. */
  predicate IsAlnum(c: char) {
    ('a' <= c <= 'z') || ('A' <= c <= 'Z') || ('0' <= c <= '9')
  }

  /** The characters the generator expression keeps. */
  predicate IsKept(c: char) {
    IsAlnum(c) || c == ' ' || c == '-' || c == '_'
  }

  /** `"".join(c for c in s if c.isalnum() or c in (' ', '-', '_'))` */
  function KeepAllowed(s: string): (r: string)
    ensures |r| <= |s|
    ensures forall i :: 0 <= i < |r| ==> IsKept(r[i])
  {
    if s == [] then []
    else (if IsKept(s[0]) then [s[0]] else []) + KeepAllowed(s[1..])
  }

  /** Drops the leading spaces. */
  function TrimStart(s: string): (r: string)
    ensures |r| <= |s| && r == s[|s| - |r|..]
    ensures forall i :: 0 <= i < |s| - |r| ==> s[i] == ' '
    ensures r == [] || r[0] != ' '
  {
    if s != [] && s[0] == ' ' then TrimStart(s[1..]) else s
  }

  /** Drops the trailing spaces. */
  function TrimEnd(s: string): (r: string)
    ensures |r| <= |s| && r == s[..|r|]
    ensures forall i :: |r| <= i < |s| ==> s[i] == ' '
    ensures r == [] || r[|r| - 1] != ' '
  {
    if s != [] && s[|s| - 1] == ' ' then TrimEnd(s[..|s| - 1]) else s
  }

  /** `str.strip()` on a string whose only whitespace is `' '` (all that `KeepAllowed` lets through). */
  function Strip(s: string): string {
    TrimEnd(TrimStart(s))
  }

  /** The sanitised base name: allowed characters only, stripped. */
  function Sanitize(name: string): (r: string)
    ensures |r| <= |name|
    ensures forall i :: 0 <= i < |r| ==> IsKept(r[i])
    ensures r == [] || (r[0] != ' ' && r[|r| - 1] != ' ')
  {
    var r := Strip(KeepAllowed(name));
    assert r == [] || r[0] == TrimStart(KeepAllowed(name))[0];
    r
  }

  /** The display name of a directly converted workbook: `f"{safe_filename}_processed.xlsx"`. */
  function DisplayName(fileName: string): (r: string)
    ensures |r| >= |ProcessedSuffix| && r[|r| - |ProcessedSuffix|..] == ProcessedSuffix
  {
    Sanitize(fileName) + ProcessedSuffix
  }

  /** `os.path.join(dir, name)` for a directory path without a trailing separator. */
  function JoinPath(dir: string, name: string): string {
    dir + "/" + name
  }

  /** The managed file name `f"{file_id}_{name}"`. */
  function ManagedName(fileId: string, name: string): string {
    fileId + "_" + name
  }

  /** The storage path of a workbook registered under `fileId`. */
  function StoragePath(dir: string, fileId: string, name: string): string {
    JoinPath(dir, ManagedName(fileId, name))
  }

  function DownloadUrl(fileId: string): string {
    "/download/" + fileId
  }

  lemma {:induction false} KeepAllowedAppend(s: string, t: string)
    ensures KeepAllowed(s + t) == KeepAllowed(s) + KeepAllowed(t)
  {
    if s == [] {
      assert s + t == t;
    } else {
      assert (s + t)[0] == s[0];
      assert (s + t)[1..] == s[1..] + t;
      KeepAllowedAppend(s[1..], t);
    }
  }

  /** The filter on a single character: kept when allowed, dropped otherwise.
      With `KeepAllowedAppend` this determines `KeepAllowed` on every string:
      the allowed characters, each once, in their original order. */
  lemma KeepAllowedSingle(c: char)
    ensures KeepAllowed([c]) == if IsKept(c) then [c] else []
  {
    assert [c][1..] == [];
  }

  /** Filtering changes nothing exactly when every character is already allowed. */
  lemma {:induction false} KeepAllowedFixedPoint(s: string)
    ensures KeepAllowed(s) == s <==> forall i :: 0 <= i < |s| ==> IsKept(s[i])
  {
    if s != [] {
      KeepAllowedFixedPoint(s[1..]);
      if !IsKept(s[0]) {
        assert |KeepAllowed(s)| < |s|;
      } else if KeepAllowed(s) == s {
        assert KeepAllowed(s[1..]) == s[1..];
        forall i | 1 <= i < |s| ensures IsKept(s[i]) {
          assert s[i] == s[1..][i - 1];
        }
      }
    }
  }

  /** Sanitising keeps exactly the allowed characters in order and strips the
      spaces at both ends: the result is a slice of the filtered name, and what
      lies outside the slice is spaces. */
  lemma SanitizeIsStrippedFilter(name: string) returns (i: nat, j: nat)
    ensures var f := KeepAllowed(name);
      && i <= j <= |f|
      && Sanitize(name) == f[i..j]
      && (forall k :: 0 <= k < i ==> f[k] == ' ')
      && (forall k :: j <= k < |f| ==> f[k] == ' ')
  {
    var f := KeepAllowed(name);
    var t := TrimStart(f);
    i := |f| - |t|;
    j := i + |TrimEnd(t)|;
    forall k | j <= k < |f| ensures f[k] == ' ' {
      assert f[k] == t[k - i];
    }
  }

  /** Sanitising an already sanitised name changes nothing. */
  lemma SanitizeIdempotent(name: string)
    ensures Sanitize(Sanitize(name)) == Sanitize(name)
  {
    var r := Sanitize(name);
    KeepAllowedFixedPoint(r);
    assert TrimStart(r) == r;
    assert TrimEnd(r) == r;
  }

  // ---------------------------------------------------------------------------
  // os.path.basename (main.py:327, main_backup.py:203)
  // ---------------------------------------------------------------------------

  /** The part of a path after its last `/`. */
  function Basename(p: string): (r: string)
    ensures '/' !in r
    ensures |r| <= |p| && r == p[|p| - |r|..]
    ensures |r| < |p| ==> p[|p| - |r| - 1] == '/'
  {
    if p == [] then []
    else if p[|p| - 1] == '/' then []
    else
      var r := Basename(p[..|p| - 1]) + [p[|p| - 1]];
      assert p[..|p| - 1][|p| - 1 - (|r| - 1)..] + [p[|p| - 1]] == p[|p| - |r|..];
      r
  }

  /** The base name of a joined path is the name joined, when the name has no separator. */
  lemma {:induction false} BasenameOfJoin(dir: string, name: string)
    requires '/' !in name
    ensures Basename(JoinPath(dir, name)) == name
  {
    var p := JoinPath(dir, name);
    if name == [] {
      assert p[|p| - 1] == '/';
    } else {
      var init := name[..|name| - 1];
      assert '/' !in init by {
        forall k | 0 <= k < |init| ensures init[k] != '/' {
          assert init[k] == name[k];
        }
      }
      assert p[..|p| - 1] == JoinPath(dir, init);
      assert p[|p| - 1] == name[|name| - 1];
      BasenameOfJoin(dir, init);
      assert init + [name[|name| - 1]] == name;
    }
  }

  /** A managed storage path ends in `{file_id}_{name}`. */
  lemma StoragePathBasename(dir: string, fileId: string, name: string)
    requires '/' !in fileId && '/' !in name
    ensures Basename(StoragePath(dir, fileId, name)) == ManagedName(fileId, name)
  {
    var m := ManagedName(fileId, name);
    forall k | 0 <= k < |m| ensures m[k] != '/' {
      if k < |fileId| {
        assert m[k] == fileId[k];
      } else if k > |fileId| {
        assert m[k] == name[k - |fileId| - 1];
      }
    }
    BasenameOfJoin(dir, ManagedName(fileId, name));
  }

  /** A display name never contains a separator, so it survives as a path's base name. */
  lemma DisplayNameHasNoSeparator(fileName: string)
    ensures '/' !in DisplayName(fileName)
  {
  }

  // ---------------------------------------------------------------------------
  // Previews (main.py:280 and 419, main_backup.py:217 and 371)
  // ---------------------------------------------------------------------------

  /** `json_data[:500] + "..." if len(json_data) > 500 else json_data` */
  function StoredPreview(payload: string): (r: string)
    ensures |payload| <= PreviewLimit ==> r == payload
    ensures |payload| > PreviewLimit ==>
      |r| == PreviewLimit + |Ellipsis| && r[..PreviewLimit] == payload[..PreviewLimit] && r[PreviewLimit..] == Ellipsis
  {
    if |payload| > PreviewLimit then payload[..PreviewLimit] + Ellipsis else payload
  }

  /** `preview[:100] + "..."`, appended unconditionally. */
  function ListPreview(preview: string): (r: string)
    ensures |r| == (if |preview| <= ListPreviewLimit then |preview| else ListPreviewLimit) + |Ellipsis|
    ensures r[..|r| - |Ellipsis|] == preview[..|r| - |Ellipsis|]
    ensures r[|r| - |Ellipsis|..] == Ellipsis
  {
    Prefix(preview, ListPreviewLimit) + Ellipsis
  }

  /** Listing a stored preview shows the first 100 characters of the original payload:
      the 500-character truncation never reaches into what the listing shows. */
  lemma ListPreviewOfStored(payload: string)
    ensures ListPreview(StoredPreview(payload)) == ListPreview(payload)
  {
    var s := StoredPreview(payload);
    if |payload| > PreviewLimit {
      assert s[..ListPreviewLimit] == payload[..ListPreviewLimit];
    }
  }

  // ---------------------------------------------------------------------------
  // Sheet names (main.py:136 and 140)
  // ---------------------------------------------------------------------------

  /** `str(key)[:31]`: Excel's limit on sheet names. */
  function SheetName(key: string): (r: string)
    ensures |r| <= SheetNameLimit && |r| <= |key|
    ensures r == key[..|r|]
    ensures |key| <= SheetNameLimit ==> r == key
    ensures |key| > SheetNameLimit ==> |r| == SheetNameLimit
  {
    Prefix(key, SheetNameLimit)
  }

  // ---------------------------------------------------------------------------
  // Decimal rendering of f"{i+1}" (main_backup.py:321, 337 and 340)
  // ---------------------------------------------------------------------------

  predicate IsDigit(c: char) {
    '0' <= c <= '9'
  }

  function DigitChar(d: nat): (c: char)
    requires d < 10
    ensures IsDigit(c) && c as int - '0' as int == d
  {
    (d + '0' as int) as char
  }

  /** `str(n)` for a natural number. */
  function Decimal(n: nat): (r: string)
    ensures |r| >= 1
    ensures forall i :: 0 <= i < |r| ==> IsDigit(r[i])
    ensures n >= 10 ==> r[0] != '0'
    decreases n
  {
    if n < 10 then [DigitChar(n)] else Decimal(n / 10) + [DigitChar(n % 10)]
  }

  /** The value of a string of decimal digits, read left to right. */
  function DigitsValue(s: string): nat
    requires forall i :: 0 <= i < |s| ==> IsDigit(s[i])
  {
    if s == [] then 0
    else
      assert IsDigit(s[|s| - 1]);
      DigitsValue(s[..|s| - 1]) * 10 + (s[|s| - 1] as int - '0' as int)
  }

  /** Reading a rendered number back gives the number: distinct batch positions get distinct labels. */
  lemma {:induction false} DecimalRoundTrip(n: nat)
    ensures DigitsValue(Decimal(n)) == n
    decreases n
  {
    if n >= 10 {
      var r := Decimal(n);
      assert r[..|r| - 1] == Decimal(n / 10);
      DecimalRoundTrip(n / 10);
    }
  }
}
