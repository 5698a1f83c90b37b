/**
 * The content extractor of order intake: a shared location becomes a Google Maps search link,
 * otherwise the first `https?://` URL of the text (the regular expression `https?:\/\/[^\s]+`)
 * becomes the link and the rest of the text, trimmed, the items.
 */
module Intake {
  import opened Wrappers
  import opened Strings
  import opened Domain

  const MapsPrefix: string := "https://www.google.com/maps/search/?api=1&query="

  /** The maps search link for a shared location. */
  function MapsLink(loc: Location): string {
    MapsPrefix + loc.latitude + "," + loc.longitude
  }

  /**
   * The link gives the location back: after the search prefix, the query splits at its comma
   * into the latitude and the longitude (decimal renderings carry no comma).
   */
  lemma MapsLinkCoordinates(loc: Location)
    requires ',' !in loc.latitude && ',' !in loc.longitude
    ensures var link := MapsLink(loc);
      && |MapsPrefix| <= |link| && link[..|MapsPrefix|] == MapsPrefix
      && Split(link[|MapsPrefix|..], ',') == [loc.latitude, loc.longitude]
  {
    var parts := [loc.latitude, loc.longitude];
    SplitJoin(parts, ',');
    assert Join(parts[1..], ',') == loc.longitude;
    assert MapsLink(loc)[|MapsPrefix|..] == Join(parts, ',');
  }

  /** The number of non-whitespace characters of `s` from position `k` on (`[^\s]+`, greedy). */
  function NonSpaceRun(s: string, k: nat): (n: nat)
    requires k <= |s|
    ensures k + n <= |s|
    ensures forall j :: k <= j < k + n ==> !IsSpace(s[j])
    ensures k + n == |s| || IsSpace(s[k + n])
    decreases |s| - k
  {
    if k < |s| && !IsSpace(s[k]) then 1 + NonSpaceRun(s, k + 1) else 0
  }

  /** A scheme: `https://` or `http://` (the `s?` of the pattern). */
  function SchemeAt(s: string, k: nat): (n: nat)
    requires k <= |s|
    ensures n == 0 || n == 7 || n == 8
    ensures k + n <= |s|
    ensures n == 8 <==> "https://" <= s[k..]
    ensures n == 7 <==> "http://" <= s[k..] && !("https://" <= s[k..])
  {
    if "https://" <= s[k..] then 8 else if "http://" <= s[k..] then 7 else 0
  }

  /** Whether the pattern matches at position `k`: a scheme followed by at least one non-space. */
  predicate MatchesAt(s: string, k: nat)
    requires k <= |s|
  {
    var n := SchemeAt(s, k);
    n > 0 && NonSpaceRun(s, k + n) > 0
  }

  /** The text the pattern matches at `k`: the scheme and the longest run of non-spaces after it. */
  function MatchAt(s: string, k: nat): (u: string)
    requires k <= |s| && MatchesAt(s, k)
    ensures k + |u| <= |s| && u == s[k..k + |u|]
  {
    var n := SchemeAt(s, k);
    s[k..k + n + NonSpaceRun(s, k + n)]
  }

  /** The leftmost match at or after `k`, as the regular expression engine finds it. */
  function FirstMatchFrom(s: string, k: nat): (p: Option<nat>)
    requires k <= |s|
    ensures p.Some? ==> k <= p.value <= |s| && MatchesAt(s, p.value)
    ensures p.Some? ==> forall j :: k <= j < p.value ==> !MatchesAt(s, j)
    ensures p.None? ==> forall j :: k <= j <= |s| ==> !MatchesAt(s, j)
    decreases |s| - k
  {
    if MatchesAt(s, k) then Some(k)
    else if k == |s| then None
    else FirstMatchFrom(s, k + 1)
  }

  /** `items.match(/(https?:\/\/[^\s]+)/g)[0]`: the first URL of the text, if any. */
  function FirstUrl(s: string): Option<string> {
    match FirstMatchFrom(s, 0)
    case None => None
    case Some(p) => Some(MatchAt(s, p))
  }

  /** A matched URL starts with a scheme, has something after it and contains no whitespace. */
  lemma MatchIsUrl(s: string, k: nat)
    requires k <= |s| && MatchesAt(s, k)
    ensures var u := MatchAt(s, k);
      && ("https://" <= u || "http://" <= u)
      && |u| > SchemeAt(s, k)
      && forall i :: 0 <= i < |u| ==> !IsSpace(u[i])
  {
    var n := SchemeAt(s, k);
    var u := MatchAt(s, k);
    forall i | 0 <= i < |u| ensures !IsSpace(u[i]) {
      assert u[i] == s[k + i];
      if i < n {
        assert u[i] in "https://";
      }
    }
  }

  /** Wherever the matched text occurs, the pattern matches too. */
  lemma OccurrenceMatches(s: string, k: nat, j: nat)
    requires k <= |s| && MatchesAt(s, k) && j <= |s|
    ensures MatchAt(s, k) <= s[j..] ==> MatchesAt(s, j)
  {
    var u := MatchAt(s, k);
    var n := SchemeAt(s, k);
    if u <= s[j..] {
      assert u[..n] == s[k..k + n];
      assert !IsSpace(u[n]) by { assert u[n] == s[k + n]; }
      if n == 8 {
        assert "https://" <= s[j..] by {
          assert s[j..][..8] == u[..8];
        }
        assert s[j + 8] == u[8];
      } else {
        assert "http://" <= s[j..] by {
          assert s[j..][..7] == u[..7];
        }
        assert !("https://" <= s[j..]) by {
          assert s[j + 4] == u[4] == ':';
        }
        assert s[j + 7] == u[7];
      }
    }
  }

  /** The first occurrence of the first URL is where the pattern matched it. */
  lemma FirstUrlOccurrence(s: string, p: nat)
    requires FirstMatchFrom(s, 0) == Some(p)
    ensures IndexOf(s, MatchAt(s, p)) == Some(p)
  {
    var u := MatchAt(s, p);
    forall j | 0 <= j < p ensures !(u <= s[j..]) {
      OccurrenceMatches(s, p, j);
    }
    assert u <= s[p..];
  }

  /** So `replace` removes exactly the matched text. */
  lemma FirstUrlRemoved(s: string, p: nat)
    requires FirstMatchFrom(s, 0) == Some(p)
    ensures ReplaceFirst(s, MatchAt(s, p), "") == s[..p] + s[p + |MatchAt(s, p)|..]
  {
    FirstUrlOccurrence(s, p);
  }

  /** What the extractor yields: the location link, if any, and the items text. */
  datatype Extracted = Extracted(link: Option<string>, items: string)

  /**
   * The extraction of `createOrderFromForward`: a location wins, with the text (or else the
   * caption) as items; else a text's first URL is the link and the text without it, trimmed,
   * the items; else the caption is the items.
   */
  function Extract(text: string, caption: string, location: Option<Location>): Extracted {
    if location.Some? then
      Extracted(Some(MapsLink(location.value)), if text != "" then text else caption)
    else if text != "" then
      match FirstUrl(text)
      case None => Extracted(None, text)
      case Some(u) => Extracted(Some(u), Trim(ReplaceFirst(text, u, "")))
    else
      Extracted(None, caption)
  }

  /** A location yields its maps link, with the text or else the caption as items. */
  lemma ExtractLocation(text: string, caption: string, loc: Location)
    ensures Extract(text, caption, Some(loc)) ==
      Extracted(Some(MapsPrefix + loc.latitude + "," + loc.longitude), if text != "" then text else caption)
  {
  }

  /**
   * Without a location, a text whose leftmost URL match is at `p` yields that URL as the link
   * and the text around it, trimmed, as the items.
   */
  lemma ExtractUrl(text: string, caption: string, p: nat)
    requires FirstMatchFrom(text, 0) == Some(p)
    ensures var u := MatchAt(text, p);
      && u == text[p..p + |u|]
      && Extract(text, caption, None) == Extracted(Some(u), Trim(text[..p] + text[p + |u|..]))
  {
    assert text != [] by { assert MatchesAt(text, p); }
    FirstUrlRemoved(text, p);
  }

  /** Without a location, a text with no URL is kept whole as the items and there is no link. */
  lemma ExtractPlainText(text: string, caption: string)
    requires text != "" && FirstMatchFrom(text, 0).None?
    ensures Extract(text, caption, None) == Extracted(None, text)
  {
  }

  /** The extractor yields neither a link nor items exactly when the message carries nothing. */
  lemma ExtractNothing(text: string, caption: string, location: Option<Location>)
    ensures var e := Extract(text, caption, location);
      (e.link.None? && e.items == "") <==> (location.None? && text == "" && caption == "")
  {
  }
}
