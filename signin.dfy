/**
 * The sign-in handshake: the server answers a successful sign-in with
 * `Login successful. UserID: <id>` and the client pulls the id out of that
 * text with the regular expression `/UserID:\s*(\d+)/`.
 */
module SigninHandshake {
  import opened Wrappers
  import opened Strings
  import opened Decimal
  import opened ServerHttp

  /** The text before the id in a successful sign-in reply. */
  const LoginPrefix: string := "Login successful. UserID: "

  /** The literal part of the client's pattern. */
  const Marker: string := "UserID:"

  /** The body of a successful sign-in: `Login successful. UserID: %d`, with no newline. */
  function LoginBody(userId: int): string {
    LoginPrefix + FormatInt(userId)
  }

  /**
   * `signinHandler`. `lookup` is the outcome of the credentials query: the
   * id of the user whose email and password match, or `None`.
   */
  method SigninHandler(requestMethod: string, lookup: Option<int>) returns (reply: Reply)
    ensures requestMethod != MethodPost ==> reply == HttpError(405, "Only POST allowed")
    ensures requestMethod == MethodPost && lookup.None? ==> reply == HttpError(401, "Invalid credentials")
    ensures requestMethod == MethodPost && lookup.Some? ==> reply == Reply(200, LoginBody(lookup.value))
    ensures IsOk(reply.status) <==> requestMethod == MethodPost && lookup.Some?
  {
    if requestMethod != MethodPost {
      return HttpError(405, "Only POST allowed");
    }
    if lookup.None? {
      return HttpError(401, "Invalid credentials");
    }
    reply := Reply(200, LoginBody(lookup.value));
  }

  /** The first index at or after `i` that `\s*` does not consume. */
  function SkipSpaces(s: string, i: nat): (j: nat)
    requires i <= |s|
    ensures i <= j <= |s|
    decreases |s| - i
  {
    if i < |s| && IsSpace(s[i]) then SkipSpaces(s, i + 1) else i
  }

  /** `SkipSpaces` stops at the first character that is not whitespace, having passed only whitespace. */
  lemma {:induction false} SkipSpacesSpec(s: string, i: nat)
    requires i <= |s|
    ensures var j := SkipSpaces(s, i); (j < |s| ==> !IsSpace(s[j])) && forall k :: i <= k < j ==> IsSpace(s[k])
    decreases |s| - i
  {
    if i < |s| && IsSpace(s[i]) {
      SkipSpacesSpec(s, i + 1);
    }
  }

  /** The longest run of digits starting at `i`: what the greedy `(\d+)` captures there. */
  function DigitRun(s: string, i: nat): (r: string)
    requires i <= |s|
    decreases |s| - i
  {
    if i < |s| && IsDigit(s[i]) then [s[i]] + DigitRun(s, i + 1) else []
  }

  /** `DigitRun` is the text from `i` on up to the first character that is not a digit. */
  lemma {:induction false} DigitRunSpec(s: string, i: nat)
    requires i <= |s|
    ensures var r := DigitRun(s, i);
      && i + |r| <= |s| && r == s[i..i + |r|]
      && (forall k :: 0 <= k < |r| ==> IsDigit(r[k]))
      && (i + |r| < |s| ==> !IsDigit(s[i + |r|]))
    decreases |s| - i
  {
    if i < |s| && IsDigit(s[i]) {
      DigitRunSpec(s, i + 1);
    }
  }

  /** A pattern `<lit>\s*(\d+)` matches at `q`: `lit` there, then optional whitespace, then a digit. */
  predicate MatchesAt(s: string, lit: string, q: nat) {
    OccursAt(s, lit, q) && var j := SkipSpaces(s, q + |lit|); j < |s| && IsDigit(s[j])
  }

  /** The group a match at `q` captures. */
  function CapturedAt(s: string, lit: string, q: nat): string
    requires MatchesAt(s, lit, q)
  {
    DigitRun(s, SkipSpaces(s, q + |lit|))
  }

  /**
   * The regular-expression search for `<lit>\s*(\d+)`: the pattern is tried
   * at `i`, `i + 1`, ... and the first position where it matches wins.
   * Backtracking never helps at a position: `\s*` gives back only
   * whitespace, which `\d` rejects, and nothing follows the greedy `(\d+)`.
   */
  function MatchFrom(s: string, lit: string, i: nat): (r: Option<string>)
    decreases |s| + 1 - i
  {
    if i + |lit| > |s| then None
    else if MatchesAt(s, lit, i) then Some(CapturedAt(s, lit, i))
    else MatchFrom(s, lit, i + 1)
  }

  /** `text.match(/UserID:\s*(\d+)/)`, reduced to the captured group `idMatch[1]`. */
  function MatchUserId(text: string): Option<string> {
    MatchFrom(text, Marker, 0)
  }

  /** `MatchFrom` reports no match exactly when the pattern matches nowhere at or after `i`. */
  lemma {:induction false} MatchFromNone(s: string, lit: string, i: nat)
    ensures MatchFrom(s, lit, i).None? <==> forall q: nat :: i <= q ==> !MatchesAt(s, lit, q)
    decreases |s| + 1 - i
  {
    if i + |lit| <= |s| && !MatchesAt(s, lit, i) {
      MatchFromNone(s, lit, i + 1);
    }
  }

  /** A match `MatchFrom` reports is the leftmost one at or after `i`, and it captures that match's digits. */
  lemma {:induction false} MatchFromLeftmost(s: string, lit: string, i: nat) returns (q: nat)
    requires MatchFrom(s, lit, i).Some?
    ensures i <= q && MatchesAt(s, lit, q) && MatchFrom(s, lit, i).value == CapturedAt(s, lit, q)
    ensures forall q': nat :: i <= q' < q ==> !MatchesAt(s, lit, q')
    decreases |s| + 1 - i
  {
    if MatchesAt(s, lit, i) {
      q := i;
    } else {
      q := MatchFromLeftmost(s, lit, i + 1);
    }
  }

  /** When the pattern first matches at `q`, the search from `i` captures that match. */
  lemma {:induction false} MatchFromFirst(s: string, lit: string, i: nat, q: nat)
    requires i <= q && MatchesAt(s, lit, q)
    requires forall q': nat :: i <= q' < q ==> !MatchesAt(s, lit, q')
    ensures MatchFrom(s, lit, i) == Some(CapturedAt(s, lit, q))
    decreases q - i
  {
    if i < q {
      MatchFromFirst(s, lit, i + 1, q);
    }
  }

  /** What the client keeps as the user id is a non-empty run of ASCII digits. */
  lemma MatchUserIdDigits(text: string)
    ensures MatchUserId(text).Some? ==> AllDigits(MatchUserId(text).value)
  {
    if MatchUserId(text).Some? {
      var q := MatchFromLeftmost(text, Marker, 0);
      var j := SkipSpaces(text, q + |Marker|);
      var r := DigitRun(text, j);
      DigitRunSpec(text, j);
      assert r[0] == text[j];
    }
  }

  /** A text without `UserID:` gives "no match". */
  lemma NoMarkerNoMatch(text: string)
    requires !Contains(text, Marker)
    ensures MatchUserId(text) == None
  {
    FindSpec(text, Marker);
    MatchFromNone(text, Marker, 0);
  }

  lemma MarkerBorderFree()
    ensures BorderFree(Marker)
  {
    forall k | 0 < k < |Marker| ensures Marker[k..] != Marker[..|Marker| - k] {
      assert Marker[..|Marker| - k][0] == 'U';
      assert k == 1 || k == 2 || k == 3 || k == 4 || k == 5 || k == 6;
    }
  }

  /** The first `UserID:` of a login body is the one the server put there. */
  lemma MarkerInLoginBody(digits: string)
    ensures OccursAt(LoginPrefix + digits, Marker, 18)
    ensures forall q: nat :: q < 18 ==> !OccursAt(LoginPrefix + digits, Marker, q)
  {
    var head := "Login successful. ";
    var rest := " " + digits;
    assert LoginPrefix + digits == head + Marker + rest;
    assert NoChar(head, Marker[0]) by {
      forall i | 0 <= i < |head| ensures head[i] != 'U' {
        assert i < 18;
      }
    }
    NoHeadNoOccurrence(head, Marker);
    MarkerBorderFree();
    FirstOccurrence(head, Marker, rest);
    FindSpec(LoginPrefix + digits, Marker);
  }

  /** A run of digits to the end of the text is captured whole. */
  lemma {:induction false} DigitRunToEnd(s: string, i: nat)
    requires i <= |s| && forall k :: i <= k < |s| ==> IsDigit(s[k])
    ensures DigitRun(s, i) == s[i..]
    decreases |s| - i
  {
    if i < |s| {
      DigitRunToEnd(s, i + 1);
    }
  }

  /**
   * The handshake round trip: for any non-negative id, the client's pattern
   * captures exactly the decimal text the server wrote, and `strconv.Atoi`
   * reads that text back as the same id.
   */
  lemma SigninRoundTrip(userId: nat)
    ensures MatchUserId(LoginBody(userId)) == Some(FormatInt(userId))
    ensures Atoi(MatchUserId(LoginBody(userId)).value) == Some(userId)
  {
    var digits := FormatInt(userId);
    var s := LoginBody(userId);
    FormatIntShape(userId);
    MarkerInLoginBody(digits);
    assert s[25] == ' ' && s[26..] == digits;
    assert SkipSpaces(s, 25) == 26 by {
      assert IsSpace(s[25]) && s[26] == digits[0] && !IsSpace(s[26]);
      assert SkipSpaces(s, 26) == 26;
    }
    assert MatchesAt(s, Marker, 18);
    MatchFromFirst(s, Marker, 0, 18);
    DigitRunToEnd(s, 26);
    AtoiFormatInt(userId);
  }
}
