/**
 * The scheme check `connect` applies to its url: a url without "://" is
 * given the secure scheme; otherwise the text before the first "://",
 * lower-cased, must be "http" or "https". An accepted url keeps its case.
 */
module Url {
  import opened Types

  const SchemeSeparator: string := "://"
  const DefaultScheme: string := "https://"

  predicate OccursAt(s: string, pat: string, i: int)
  {
    0 <= i && i + |pat| <= |s| && s[i..i + |pat|] == pat
  }

  /** The first index at or after `from` where `pat` occurs. */
  function FindFrom(s: string, pat: string, from: nat): (r: Option<nat>)
    ensures r.Some? ==> from <= r.value && OccursAt(s, pat, r.value)
    ensures r.Some? ==> forall j :: from <= j < r.value ==> !OccursAt(s, pat, j)
    ensures r.None? ==> forall j :: from <= j ==> !OccursAt(s, pat, j)
    decreases |s| - from
  {
    if from + |pat| > |s| then None
    else if s[from..from + |pat|] == pat then Some(from)
    else FindFrom(s, pat, from + 1)
  }

  /** The first occurrence of `pat` in `s`, as std::string::find gives it. */
  function Find(s: string, pat: string): (r: Option<nat>)
    ensures r.Some? ==> OccursAt(s, pat, r.value)
    ensures r.Some? ==> forall j :: 0 <= j < r.value ==> !OccursAt(s, pat, j)
    ensures r.None? ==> forall j :: !OccursAt(s, pat, j)
  {
    FindFrom(s, pat, 0)
  }

  /** ::tolower in the C locale: only 'A'..'Z' change. */
  function LowerChar(c: char): char
  {
    if 'A' <= c <= 'Z' then (c as int + 32) as char else c
  }

  function ToLower(s: string): (t: string)
    ensures |t| == |s|
    ensures forall i :: 0 <= i < |s| ==> t[i] == LowerChar(s[i])
  {
    seq(|s|, i requires 0 <= i < |s| => LowerChar(s[i]))
  }

  predicate SupportedScheme(scheme: string)
  {
    var lower := ToLower(scheme);
    lower == "http" || lower == "https"
  }

  /**
   * The url `connect` stores, or None when the scheme is refused. A url
   * without a separator gets the secure scheme in front; one with a separator
   * is kept exactly as given when its scheme is supported in any letter case.
   */
  function Normalize(url: string): (r: Option<string>)
    ensures Find(url, SchemeSeparator).None? ==> r == Some(DefaultScheme + url)
    ensures Find(url, SchemeSeparator).Some? ==>
              (r.Some? <==> SupportedScheme(url[..Find(url, SchemeSeparator).value])) &&
              (r.Some? ==> r.value == url)
  {
    match Find(url, SchemeSeparator)
    case None => Some(DefaultScheme + url)
    case Some(pos) => if SupportedScheme(url[..pos]) then Some(url) else None
  }

  /** The stored url always carries a supported scheme before its first separator. */
  predicate HasSupportedScheme(u: string)
  {
    match Find(u, SchemeSeparator)
    case None => false
    case Some(pos) => SupportedScheme(u[..pos])
  }

  lemma DefaultSchemeFound(url: string)
    ensures Find(DefaultScheme + url, SchemeSeparator) == Some(5)
  {
    var u := DefaultScheme + url;
    assert OccursAt(u, SchemeSeparator, 5) by {
      assert u[5..8] == DefaultScheme[5..8];
    }
    forall j | 0 <= j < 5
      ensures !OccursAt(u, SchemeSeparator, j)
    {
      assert u[j] == DefaultScheme[j];
      OccursAtStartsWith(u, SchemeSeparator, j);
    }
  }

  /** An occurrence starts with the pattern's first character. */
  lemma OccursAtStartsWith(s: string, pat: string, j: int)
    ensures OccursAt(s, pat, j) && |pat| > 0 ==> s[j] == pat[0]
  {
    if OccursAt(s, pat, j) && |pat| > 0 {
      assert s[j..j + |pat|][0] == s[j];
    }
  }

  /** The first separator of a url whose first ':' is at `pos` and starts one. */
  lemma FindAtFirstColon(s: string, pos: nat)
    requires OccursAt(s, SchemeSeparator, pos)
    requires forall j :: 0 <= j < pos ==> s[j] != ':'
    ensures Find(s, SchemeSeparator) == Some(pos)
  {
    forall j | 0 <= j < pos
      ensures !OccursAt(s, SchemeSeparator, j)
    {
      OccursAtStartsWith(s, SchemeSeparator, j);
    }
  }

  /** Every url that `connect` accepts is stored with a supported scheme. */
  lemma NormalizedHasScheme(url: string)
    requires Normalize(url).Some?
    ensures HasSupportedScheme(Normalize(url).value)
  {
    if Find(url, SchemeSeparator).None? {
      DefaultSchemeFound(url);
      assert (DefaultScheme + url)[..5] == "https";
    }
  }

  /** Normalising a stored url changes nothing: normalisation is idempotent. */
  lemma NormalizeIdempotent(url: string)
    requires Normalize(url).Some?
    ensures Normalize(Normalize(url).value) == Normalize(url)
  {
    NormalizedHasScheme(url);
  }

  /** A url is refused exactly when it has a separator and an unsupported scheme. */
  lemma RefusedIffBadScheme(url: string)
    ensures Normalize(url).None? <==>
              (exists pos :: OccursAt(url, SchemeSeparator, pos)) && !HasSupportedScheme(url)
  {
    match Find(url, SchemeSeparator)
    case None =>
    case Some(pos) =>
  }

  /** An upper-case scheme is accepted and the url is kept in its own case. */
  lemma UpperCaseSchemeKept()
    ensures Normalize("HTTP://Hub") == Some("HTTP://Hub")
  {
    var a := "HTTP://Hub";
    assert OccursAt(a, SchemeSeparator, 4) by { assert a[4..7] == "://"; }
    FindAtFirstColon(a, 4);
    assert ToLower(a[..4]) == "http";
  }

  /** A scheme other than http or https is refused. */
  lemma OtherSchemeRefused()
    ensures Normalize("ws://hub") == None
  {
    var b := "ws://hub";
    assert OccursAt(b, SchemeSeparator, 2) by { assert b[2..5] == "://"; }
    FindAtFirstColon(b, 2);
    assert ToLower(b[..2]) == "ws";
  }

  /** A url without a scheme gets the secure one. */
  lemma MissingSchemeMadeSecure()
    ensures Normalize("hub/x") == Some("https://hub/x")
  {
    var c := "hub/x";
    forall j | 0 <= j
      ensures !OccursAt(c, SchemeSeparator, j)
    {
      if j < |c| {
        assert c[j] != ':';
      }
      OccursAtStartsWith(c, SchemeSeparator, j);
    }
    assert Find(c, SchemeSeparator) == None;
    assert DefaultScheme + c == "https://hub/x";
  }
}
