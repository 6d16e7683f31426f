/**
 * File-system-safe names for one audit run: the sanitised URL, the safe
 * timestamp and the per-run folder name built from the two.
 */
module Naming {

  /** The characters `sanitizeUrl` keeps: the class `[a-zA-Z0-9]`. */
  predicate IsAlnum(c: char) {
    ('a' <= c <= 'z') || ('A' <= c <= 'Z') || ('0' <= c <= '9')
  }

  /** The characters the timestamp replacement removes: the class `[:.]`. */
  predicate IsTimeSeparator(c: char) {
    c == ':' || c == '.'
  }

  /**
   * `s.replace(/[...]/g, replacement)` for a one-character class: every character
   * matched by `unsafe` is replaced by `replacement`, every other one is kept in place.
   */
  function Replace(s: string, unsafe: char -> bool, replacement: char): (r: string)
    ensures |r| == |s|
    ensures forall i :: 0 <= i < |s| && unsafe(s[i]) ==> r[i] == replacement
    ensures forall i :: 0 <= i < |s| && !unsafe(s[i]) ==> r[i] == s[i]
  {
    if s == [] then []
    else [if unsafe(s[0]) then replacement else s[0]] + Replace(s[1..], unsafe, replacement)
  }

  /** `sanitizeUrl`: every character outside `[A-Za-z0-9]` becomes `_`. */
  function SanitizeUrl(url: string): (r: string)
    ensures |r| == |url|
    ensures forall i :: 0 <= i < |r| ==> IsAlnum(r[i]) || r[i] == '_'
    ensures forall i :: 0 <= i < |url| && IsAlnum(url[i]) ==> r[i] == url[i]
    ensures forall i :: 0 <= i < |url| && !IsAlnum(url[i]) ==> r[i] == '_'
  {
    Replace(url, c => !IsAlnum(c), '_')
  }

  /** The ISO timestamp with every `:` and `.` replaced by `-`. */
  function SafeTimestamp(timestamp: string): (r: string)
    ensures |r| == |timestamp|
    ensures forall i :: 0 <= i < |r| ==> !IsTimeSeparator(r[i])
    ensures forall i :: 0 <= i < |timestamp| && IsTimeSeparator(timestamp[i]) ==> r[i] == '-'
    ensures forall i :: 0 <= i < |timestamp| && !IsTimeSeparator(timestamp[i]) ==> r[i] == timestamp[i]
  {
    Replace(timestamp, IsTimeSeparator, '-')
  }

  /** The per-run folder name `${sanitizedUrl}-${safeTimestamp}`. */
  function FolderName(url: string, timestamp: string): string {
    SanitizeUrl(url) + "-" + SafeTimestamp(timestamp)
  }

  /** Sanitising a sanitised URL changes nothing. */
  lemma SanitizeUrlIdempotent(url: string)
    ensures SanitizeUrl(SanitizeUrl(url)) == SanitizeUrl(url)
  {
  }

  /** Replacing the separators of a safe timestamp again changes nothing. */
  lemma SafeTimestampIdempotent(timestamp: string)
    ensures SafeTimestamp(SafeTimestamp(timestamp)) == SafeTimestamp(timestamp)
  {
  }

  /**
   * The folder name splits back into its parts: the sanitised URL holds no
   * `-`, so the first `-` of the folder name is the one that joins the URL to
   * the timestamp.
   */
  lemma {:induction false} FolderNameSplits(url: string, timestamp: string)
    ensures var f := FolderName(url, timestamp);
      && |f| == |url| + 1 + |timestamp|
      && (forall i :: 0 <= i < |url| ==> f[i] != '-')
      && f[|url|] == '-'
      && f[..|url|] == SanitizeUrl(url)
      && f[|url| + 1..] == SafeTimestamp(timestamp)
  {
    var f := FolderName(url, timestamp);
    var s := SanitizeUrl(url);
    assert f == s + ("-" + SafeTimestamp(timestamp));
    forall i | 0 <= i < |url| ensures f[i] != '-' {
      assert f[i] == s[i];
    }
  }

  /**
   * Two runs share a folder only if their sanitised URLs and safe timestamps
   * are equal: the folder name determines both parts.
   */
  lemma {:induction false} FolderNameDeterminesParts(url1: string, ts1: string, url2: string, ts2: string)
    requires FolderName(url1, ts1) == FolderName(url2, ts2)
    ensures |url1| == |url2|
    ensures SanitizeUrl(url1) == SanitizeUrl(url2)
    ensures SafeTimestamp(ts1) == SafeTimestamp(ts2)
  {
    var f := FolderName(url1, ts1);
    FolderNameSplits(url1, ts1);
    FolderNameSplits(url2, ts2);
  }

  /** Worked example: `https://example.com/path?q=1`. */
  lemma SanitizeUrlExample(url: string, expected: string)
    requires url == "https://example.com/path?q=1"
    requires expected == "https___example_com_path_q_1"
    ensures SanitizeUrl(url) == expected
  {
  }

  /** Worked example: `http://test.com` at `2024-01-01T00:00:00.000Z`. */
  lemma FolderNameExample(url: string, timestamp: string, expected: string)
    requires url == "http://test.com" && timestamp == "2024-01-01T00:00:00.000Z"
    requires expected == "http___test_com-2024-01-01T00-00-00-000Z"
    ensures FolderName(url, timestamp) == expected
  {
    SafeTimestampExample(timestamp, "2024-01-01T00-00-00-000Z");
    assert SanitizeUrl(url) == "http___test_com";
  }

  /** Worked example: the safe form of `2024-01-01T00:00:00.000Z`. */
  lemma SafeTimestampExample(timestamp: string, expected: string)
    requires timestamp == "2024-01-01T00:00:00.000Z"
    requires expected == "2024-01-01T00-00-00-000Z"
    ensures SafeTimestamp(timestamp) == expected
  {
  }

  /**
   * Sanitising is lossy: two different URLs of the same length get the same
   * folder name at the same instant.
   */
  lemma SanitizeUrlCollides(url1: string, url2: string)
    requires url1 == "http://a.b" && url2 == "http_//a_b"
    ensures url1 != url2
    ensures SanitizeUrl(url1) == SanitizeUrl(url2)
  {
  }
}
