/**
 * Share-token handling: the check that the `token` and `reportId` query
 * values of the current location are present and that the token has the
 * textual layout of a UUID, and the construction of a shareable report URL.
 */
module TokenUtils {
  import opened Wrappers
  import opened Text

  /** A hexadecimal digit in either case (the regex is case-insensitive). */
  predicate IsHexDigit(c: char)
  {
    '0' <= c <= '9' || 'a' <= c <= 'f' || 'A' <= c <= 'F'
  }

  predicate AllHex(s: string)
  {
    forall i :: 0 <= i < |s| ==> IsHexDigit(s[i])
  }

  /** The group lengths of the UUID pattern: 8-4-4-4-12. */
  const UuidGroups: seq<nat> := [8, 4, 4, 4, 12]

  /**
   * The anchored pattern `^g0-g1-...-gn$` where group k is `[0-9a-f]{lens[k]}`:
   * a run of hex digits of the first length, then, if more groups follow,
   * a dash and the rest of the pattern.
   */
  predicate MatchGroups(t: string, lens: seq<nat>)
    decreases |lens|
  {
    if |lens| == 0 then false
    else if |lens| == 1 then |t| == lens[0] && AllHex(t)
    else |t| > lens[0] && AllHex(t[..lens[0]]) && t[lens[0]] == '-' && MatchGroups(t[lens[0] + 1..], lens[1..])
  }

  /** The length of every string the pattern of `lens` accepts. */
  function PatternLength(lens: seq<nat>): nat
    requires |lens| > 0
  {
    if |lens| == 1 then lens[0] else lens[0] + 1 + PatternLength(lens[1..])
  }

  /** Position `i` holds a separating dash in the pattern of `lens`. */
  predicate DashAt(lens: seq<nat>, i: int)
    requires |lens| > 0
    decreases |lens|
  {
    |lens| > 1 && (i == lens[0] || (i > lens[0] && DashAt(lens[1..], i - lens[0] - 1)))
  }

  /** The positional reading of the pattern: the right length, dashes at the separators, hex digits everywhere else. */
  predicate HasShape(t: string, lens: seq<nat>)
    requires |lens| > 0
  {
    |t| == PatternLength(lens)
    && forall i :: 0 <= i < |t| ==> if DashAt(lens, i) then t[i] == '-' else IsHexDigit(t[i])
  }

  /** The group-by-group pattern and its positional reading accept the same strings. */
  lemma {:induction false} MatchGroupsShape(t: string, lens: seq<nat>)
    requires |lens| > 0
    ensures MatchGroups(t, lens) <==> HasShape(t, lens)
    decreases |lens|
  {
    if |lens| > 1 {
      var n := lens[0];
      if |t| > n {
        var rest := t[n + 1..];
        MatchGroupsShape(rest, lens[1..]);
        if MatchGroups(t, lens) {
          forall i | 0 <= i < |t| ensures if DashAt(lens, i) then t[i] == '-' else IsHexDigit(t[i]) {
            if i < n {
              assert t[i] == t[..n][i];
            } else if i > n {
              assert t[i] == rest[i - n - 1];
            }
          }
        }
        if HasShape(t, lens) {
          forall i | 0 <= i < n ensures IsHexDigit(t[..n][i]) {
            assert !DashAt(lens, i);
          }
          assert t[n] == '-' by { assert DashAt(lens, n); }
          forall i | 0 <= i < |rest| ensures if DashAt(lens[1..], i) then rest[i] == '-' else IsHexDigit(rest[i]) {
            assert rest[i] == t[n + 1 + i];
            assert DashAt(lens, n + 1 + i) == DashAt(lens[1..], i);
          }
        }
      }
    }
  }

  /** The dash positions of the UUID layout. */
  predicate IsUuidDashPosition(i: int)
  {
    i == 8 || i == 13 || i == 18 || i == 23
  }

  /**
   * The UUID layout of section 3 of RFC 4122, read position by position:
   * 36 characters, `-` at 8, 13, 18 and 23, a hex digit of either case elsewhere.
   */
  predicate IsUuidShape(t: string)
  {
    |t| == 36 && forall i :: 0 <= i < 36 ==> if IsUuidDashPosition(i) then t[i] == '-' else IsHexDigit(t[i])
  }

  lemma UuidDashPositions(i: int)
    requires 0 <= i < 36
    ensures DashAt(UuidGroups, i) <==> IsUuidDashPosition(i)
  {
    assert UuidGroups[1..] == [4, 4, 4, 12];
    assert UuidGroups[1..][1..] == [4, 4, 12];
    assert UuidGroups[1..][1..][1..] == [4, 12];
    assert UuidGroups[1..][1..][1..][1..] == [12];
  }

  /** The UUID pattern accepts exactly the strings of UUID layout. */
  lemma UuidPatternIsShape(t: string)
    ensures MatchGroups(t, UuidGroups) <==> IsUuidShape(t)
  {
    MatchGroupsShape(t, UuidGroups);
    assert PatternLength(UuidGroups) == 36 by {
      assert UuidGroups[1..] == [4, 4, 4, 12];
      assert UuidGroups[1..][1..] == [4, 4, 12];
      assert UuidGroups[1..][1..][1..] == [4, 12];
      assert UuidGroups[1..][1..][1..][1..] == [12];
    }
    forall i | 0 <= i < 36 {
      UuidDashPositions(i);
    }
  }

  /**
   * The decision of the validator on the `token` and `reportId` query values:
   * both present and non-empty, and the token matching the UUID pattern.
   * The reportId is only tested for presence.
   */
  function ValidTokenParams(token: Option<string>, reportId: Option<string>): (ok: bool)
    ensures ok <==> token.Some? && token.value != [] && reportId.Some? && reportId.value != []
                    && IsUuidShape(token.value)
  {
    if token.None? || token.value == [] || reportId.None? || reportId.value == [] then false
    else
      UuidPatternIsShape(token.value);
      MatchGroups(token.value, UuidGroups)
  }

  /** The position of the first `c` in `s`, if any. */
  function FirstIndex(s: string, c: char): (r: Option<nat>)
    ensures r.None? ==> c !in s
    ensures r.Some? ==> r.value < |s| && s[r.value] == c && c !in s[..r.value]
  {
    if |s| == 0 then None
    else if s[0] == c then Some(0)
    else match FirstIndex(s[1..], c)
      case None => None
      case Some(i) =>
        assert s[..i + 1] == [s[0]] + s[1..][..i];
        Some(i + 1)
  }

  /** In `a + b`, with no `c` in `a` and `b` starting with `c`, the first `c` is where `b` starts. */
  lemma {:induction false} FirstIndexAfter(a: string, b: string, c: char)
    requires c !in a && |b| > 0 && b[0] == c
    ensures FirstIndex(a + b, c) == Some(|a|)
  {
    if |a| > 0 {
      assert (a + b)[1..] == a[1..] + b;
      FirstIndexAfter(a[1..], b, c);
    }
  }

  /** A position holding the first `c` of `s` is what `FirstIndex` finds. */
  lemma FirstIndexUnique(s: string, c: char, q: nat)
    requires q < |s| && s[q] == c && c !in s[..q]
    ensures FirstIndex(s, c) == Some(q)
  {
    assert s[q] in s;
  }

  /** The pieces joined back with `sep` between them. */
  function Join(pieces: seq<string>, sep: char): string
    requires |pieces| >= 1
  {
    if |pieces| == 1 then pieces[0] else pieces[0] + [sep] + Join(pieces[1..], sep)
  }

  /** The pieces of `s` between occurrences of `sep`. */
  function SplitOn(s: string, sep: char): (r: seq<string>)
    ensures |r| >= 1
    ensures forall k :: 0 <= k < |r| ==> sep !in r[k]
    ensures Join(r, sep) == s
    decreases |s|
  {
    match FirstIndex(s, sep)
    case None => [s]
    case Some(i) =>
      var rest := SplitOn(s[i + 1..], sep);
      assert s == s[..i] + [sep] + s[i + 1..];
      assert ([s[..i]] + rest)[1..] == rest;
      [s[..i]] + rest
  }

  /**
   * The `search` part of a location's href: from the first `?` before the
   * fragment up to the fragment, or empty when there is no query.
   */
  function SearchOf(href: string): (r: string)
    ensures r == [] || r[0] == '?'
    ensures '#' !in r
    ensures r != [] ==> FirstIndex(href, '?').Some?
                        && var q := FirstIndex(href, '?').value;
                           q + |r| <= |href| && r == href[q..q + |r|] && '#' !in href[..q + |r|]
                           && (q + |r| == |href| || href[q + |r|] == '#')
    ensures r == [] <==> FirstIndex(href, '?').None?
                         || var q := FirstIndex(href, '?').value;
                            '#' in href[..q] || q + 1 == |href| || href[q + 1] == '#'
  {
    var base := match FirstIndex(href, '#') case None => href case Some(h) => href[..h];
    assert base == href[..|base|];
    match FirstIndex(base, '?')
    case None =>
      assert FirstIndex(href, '?').Some? ==> '#' in href[..FirstIndex(href, '?').value] by {
        if FirstIndex(href, '?').Some? {
          var q := FirstIndex(href, '?').value;
          if q >= |base| {
            var h := FirstIndex(href, '#').value;
            assert h == |base| && h < q;
            assert href[..q][h] == '#';
          }
        }
      }
      []
    case Some(q) =>
      assert href[..q] == base[..q];
      FirstIndexUnique(href, '?', q);
      if q + 1 == |base| then [] else base[q..]
  }

  /** A name and value pair of a query: split at the first `=`, the value empty when there is none. */
  function ParsePair(piece: string): (r: (string, string))
    ensures '=' !in r.0
    ensures '=' !in piece ==> r == (piece, [])
    ensures '=' in piece ==> r.0 + "=" + r.1 == piece
  {
    match FirstIndex(piece, '=')
    case None => (piece, [])
    case Some(i) =>
      assert piece == piece[..i] + "=" + piece[i + 1..];
      (piece[..i], piece[i + 1..])
  }

  /** The pairs of a query string in order, with empty pieces skipped and a leading `?` dropped. */
  function QueryPairs(search: string): seq<(string, string)>
  {
    var body := if |search| > 0 && search[0] == '?' then search[1..] else search;
    var pieces := SplitOn(body, '&');
    PairsOf(pieces)
  }

  function PairsOf(pieces: seq<string>): seq<(string, string)>
  {
    if |pieces| == 0 then []
    else if pieces[0] == [] then PairsOf(pieces[1..])
    else [ParsePair(pieces[0])] + PairsOf(pieces[1..])
  }

  /** The value of the first pair named `name`. */
  function Lookup(pairs: seq<(string, string)>, name: string): (r: Option<string>)
    ensures r.Some? ==> exists k :: 0 <= k < |pairs| && pairs[k] == (name, r.value)
                                    && forall j :: 0 <= j < k ==> pairs[j].0 != name
    ensures r.None? ==> forall k :: 0 <= k < |pairs| ==> pairs[k].0 != name
  {
    if |pairs| == 0 then None
    else if pairs[0].0 == name then Some(pairs[0].1)
    else
      var r := Lookup(pairs[1..], name);
      if r.Some? then
        var k :| 0 <= k < |pairs[1..]| && pairs[1..][k] == (name, r.value)
                 && forall j :: 0 <= j < k ==> pairs[1..][j].0 != name;
        assert pairs[k + 1] == (name, r.value);
        assert forall j :: 0 <= j < k + 1 ==> pairs[j].0 != name by {
          forall j | 0 <= j < k + 1 ensures pairs[j].0 != name {
            if j > 0 { assert pairs[j] == pairs[1..][j - 1]; }
          }
        }
        r
      else r
  }

  /** `new URLSearchParams(search).get(name)`. */
  function QueryGet(search: string, name: string): Option<string>
  {
    Lookup(QueryPairs(search), name)
  }

  /** `validateReportToken()`, given the `search` of the current location. */
  function ValidateReportToken(search: string): bool
  {
    ValidTokenParams(QueryGet(search, "token"), QueryGet(search, "reportId"))
  }

  /** A location without a `token` query value never validates. */
  lemma MissingTokenFails(search: string)
    requires forall k :: 0 <= k < |QueryPairs(search)| ==> QueryPairs(search)[k].0 != "token"
    ensures !ValidateReportToken(search)
  {
  }

  /** The reportId value is tested for presence only: any two non-empty values give the same verdict. */
  lemma ReportIdOnlyPresence(token: Option<string>, a: string, b: string)
    requires a != [] && b != []
    ensures ValidTokenParams(token, Some(a)) == ValidTokenParams(token, Some(b))
  {
  }

  /** Version and variant nibbles are not checked: the nil UUID, whose version nibble is 0, passes. */
  lemma VersionBitsUnchecked()
    ensures ValidTokenParams(Some("00000000-0000-0000-0000-000000000000"), Some("r"))
  {
    var nil := "00000000-0000-0000-0000-000000000000";
    forall i | 0 <= i < 36 ensures if IsUuidDashPosition(i) then nil[i] == '-' else IsHexDigit(nil[i]) {
      assert nil[i] == '-' || nil[i] == '0';
    }
  }

  /** A string of UUID layout holds only hex digits and dashes, so no query or fragment delimiter. */
  lemma UuidShapeHasNoDelimiters(t: string)
    requires IsUuidShape(t)
    ensures '#' !in t && '&' !in t && '?' !in t && '=' !in t
  {
    forall i | 0 <= i < |t| ensures t[i] != '#' && t[i] != '&' && t[i] != '?' && t[i] != '=' {
      if IsUuidDashPosition(i) {
      }
    }
  }

  /** `generateShareableURL`: the origin, the shared-report path of the report, and the token as the query. */
  function ShareableUrl(origin: string, reportId: string, token: string): (url: string)
    ensures StartsWith(url, origin + "/shared-report/" + reportId)
    ensures EndsWith(url, "?token=" + token)
    ensures |url| == |origin| + |"/shared-report/"| + |reportId| + |"?token="| + |token|
  {
    var url := origin + "/shared-report/" + reportId + "?token=" + token;
    assert url == (origin + "/shared-report/" + reportId) + ("?token=" + token);
    EndsWithAppend(origin + "/shared-report/" + reportId, "?token=" + token);
    url
  }

  /** The query part of a link built by `generateShareableURL` is the token parameter alone. */
  lemma ShareableUrlSearch(origin: string, reportId: string, token: string)
    requires '?' !in origin && '#' !in origin
    requires '?' !in reportId && '#' !in reportId
    requires IsUuidShape(token)
    ensures SearchOf(ShareableUrl(origin, reportId, token)) == "?token=" + token
  {
    UuidShapeHasNoDelimiters(token);
    var path := origin + "/shared-report/" + reportId;
    var url := ShareableUrl(origin, reportId, token);
    assert url == path + ("?token=" + token);
    assert '#' !in url by {
      forall i | 0 <= i < |url| ensures url[i] != '#' {
        if i < |origin| {
          assert url[i] == origin[i];
        } else if i < |path| {
          assert url[i] == path[i];
          if i >= |origin| + 15 {
            assert path[i] == reportId[i - |origin| - 15];
          }
        } else if i >= |path| + 7 {
          assert url[i] == token[i - |path| - 7];
        }
      }
    }
    assert '?' !in path by {
      forall i | 0 <= i < |path| ensures path[i] != '?' {
        if i >= |origin| + 15 {
          assert path[i] == reportId[i - |origin| - 15];
        }
      }
    }
    FirstIndexAfter(path, "?token=" + token, '?');
  }

  /** A query holding only `token=` and a UUID-shaped value parses to that one pair. */
  lemma TokenOnlyQuery(token: string)
    requires IsUuidShape(token)
    ensures QueryPairs("?token=" + token) == [("token", token)]
  {
    UuidShapeHasNoDelimiters(token);
    var search := "?token=" + token;
    var body := search[1..];
    assert body == "token=" + token;
    assert '&' !in body by {
      forall i | 0 <= i < |body| ensures body[i] != '&' {
        if i >= 6 {
          assert body[i] == token[i - 6];
        }
      }
    }
    assert SplitOn(body, '&') == [body];
    assert FirstIndex(body, '=') == Some(5);
    assert body[..5] == "token" && body[6..] == token;
    assert ParsePair(body) == ("token", token);
    assert PairsOf([body]) == [ParsePair(body)] + PairsOf([]);
  }

  /**
   * A link built by `generateShareableURL` carries the token as its only
   * query value and no `reportId`, so the validator rejects it on arrival.
   */
  lemma ShareableUrlFailsValidation(origin: string, reportId: string, token: string)
    requires '?' !in origin && '#' !in origin
    requires '?' !in reportId && '#' !in reportId
    requires IsUuidShape(token)
    ensures SearchOf(ShareableUrl(origin, reportId, token)) == "?token=" + token
    ensures QueryGet(SearchOf(ShareableUrl(origin, reportId, token)), "token") == Some(token)
    ensures QueryGet(SearchOf(ShareableUrl(origin, reportId, token)), "reportId") == None
    ensures !ValidateReportToken(SearchOf(ShareableUrl(origin, reportId, token)))
  {
    ShareableUrlSearch(origin, reportId, token);
    TokenOnlyQuery(token);
  }
}
