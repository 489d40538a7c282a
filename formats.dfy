/**
 * Picking a parser from a file name: Node's POSIX `path.extname`, lower-cased, decides
 * between the delimited-text reader and the spreadsheet reader.
 */
module Formats {
  import opened Wrappers
  import opened Text

  /** The two row parsers of the import. */
  datatype Format = Csv | Spreadsheet

  /** `p` without the trailing `/` characters that `extname` ignores. */
  function StripTrailingSlashes(p: string): (r: string)
    ensures r <= p
    ensures r == [] || r[|r| - 1] != '/'
    ensures forall i :: |r| <= i < |p| ==> p[i] == '/'
  {
    if p != [] && p[|p| - 1] == '/' then StripTrailingSlashes(p[..|p| - 1]) else p
  }

  /** The part of `p` after its last `/` (all of `p` when it has none). */
  function AfterLastSlash(p: string): (r: string)
    ensures |r| <= |p| && r == p[|p| - |r|..]
    ensures '/' !in r
    ensures |r| < |p| ==> p[|p| - |r| - 1] == '/'
  {
    if p == [] || p[|p| - 1] == '/' then [] else AfterLastSlash(p[..|p| - 1]) + [p[|p| - 1]]
  }

  /** The last path segment, as `extname` sees it. */
  function BaseName(p: string): string {
    AfterLastSlash(StripTrailingSlashes(p))
  }

  /** The index of the last `.` in `b`, if any. */
  function LastDot(b: string): (k: Option<nat>)
    ensures k.Some? ==> k.value < |b| && b[k.value] == '.' && '.' !in b[k.value + 1..]
    ensures k.None? ==> '.' !in b
  {
    if b == [] then None
    else if b[|b| - 1] == '.' then Some(|b| - 1)
    else LastDot(b[..|b| - 1])
  }

  /**
   * The extension of a last segment `b`: from its last `.` to its end, except when `b` has
   * no `.`, when that `.` is its first character (`.csv`), or when `b` is `..`.
   */
  function ExtOfBase(b: string): (e: string)
    ensures e == [] || (e[0] == '.' && '.' !in e[1..])
    ensures e == [] || (|e| < |b| && e == b[|b| - |e|..])
  {
    match LastDot(b)
    case None => ""
    case Some(k) =>
      if k == 0 || b == ".." then "" else
      assert b[k..][1..] == b[k + 1..];
      b[k..]
  }

  /** `path.extname(p)` on a POSIX path. */
  function ExtName(p: string): string {
    ExtOfBase(BaseName(p))
  }

  /**
   * The dispatch of both entry points: `.csv` and `.txt` select the delimited-text parser,
   * `.xlsx` and `.xls` the spreadsheet parser, compared after lower-casing; anything else is
   * unsupported.
   */
  function FormatOf(fileName: string): (f: Option<Format>)
    ensures f == Some(Csv) <==> ToLower(ExtName(fileName)) in {".csv", ".txt"}
    ensures f == Some(Spreadsheet) <==> ToLower(ExtName(fileName)) in {".xlsx", ".xls"}
  {
    var ext := ToLower(ExtName(fileName));
    if ext == ".csv" || ext == ".txt" then Some(Csv)
    else if ext == ".xlsx" || ext == ".xls" then Some(Spreadsheet)
    else None
  }

  lemma {:induction false} StripTrailingSlashesLower(p: string)
    ensures StripTrailingSlashes(ToLower(p)) == ToLower(StripTrailingSlashes(p))
    decreases |p|
  {
    if p != [] {
      assert ToLower(p)[..|p| - 1] == ToLower(p[..|p| - 1]);
      if p[|p| - 1] == '/' {
        StripTrailingSlashesLower(p[..|p| - 1]);
      }
    }
  }

  lemma {:induction false} AfterLastSlashLower(p: string)
    ensures AfterLastSlash(ToLower(p)) == ToLower(AfterLastSlash(p))
    decreases |p|
  {
    if p != [] && p[|p| - 1] != '/' {
      var q, c := p[..|p| - 1], p[|p| - 1];
      assert ToLower(p)[..|p| - 1] == ToLower(q);
      assert ToLower(p)[|p| - 1] == LowerChar(c) != '/';
      assert AfterLastSlash(ToLower(p)) == AfterLastSlash(ToLower(q)) + [LowerChar(c)];
      AfterLastSlashLower(q);
      ToLowerConcat(AfterLastSlash(q), [c]);
      assert ToLower([c]) == [LowerChar(c)];
    }
  }

  lemma {:induction false} LastDotLower(b: string)
    ensures LastDot(ToLower(b)) == LastDot(b)
    decreases |b|
  {
    if b != [] && b[|b| - 1] != '.' {
      assert ToLower(b)[..|b| - 1] == ToLower(b[..|b| - 1]);
      LastDotLower(b[..|b| - 1]);
    }
  }

  lemma ExtOfBaseLower(b: string)
    ensures ExtOfBase(ToLower(b)) == ToLower(ExtOfBase(b))
  {
    LastDotLower(b);
    if ToLower(b) == ".." {
      assert LowerChar(b[0]) == '.' && LowerChar(b[1]) == '.';
      assert b == "..";
    }
    match LastDot(b)
    case None =>
    case Some(k) =>
      assert ToLower(b)[k..] == ToLower(b[k..]);
  }

  /** `extname` commutes with lower-casing: neither `/` nor `.` is a letter. */
  lemma ExtNameLower(p: string)
    ensures ExtName(ToLower(p)) == ToLower(ExtName(p))
  {
    StripTrailingSlashesLower(p);
    AfterLastSlashLower(StripTrailingSlashes(p));
    ExtOfBaseLower(BaseName(p));
  }

  /** Format dispatch is case-insensitive: names equal up to letter case pick the same parser. */
  lemma FormatCaseInsensitive(p: string, q: string)
    requires ToLower(p) == ToLower(q)
    ensures FormatOf(p) == FormatOf(q)
  {
    ExtNameLower(p);
    ExtNameLower(q);
    ToLowerIdempotent(ExtName(p));
    ToLowerIdempotent(ExtName(q));
  }
}
