/** `formatJid`: the user part of a WhatsApp id, for display in an alert.

    The plugin writes it as `jid?.replace(/@.+/, '') || 'Unknown'`. The regular
    expression has no `g` flag, so only its first match is removed. In a
    JavaScript regular expression `.` matches any character except the four line
    terminators, so a match is an `@` followed by at least one character that is
    not a line terminator, and it extends greedily up to the next line terminator
    or the end of the string. */
module Jid {
  import opened JsValues

  predicate IsLineTerminator(c: char)
  {
    c == '\n' || c == '\r' || c == '\U{2028}' || c == '\U{2029}'
  }

  predicate SingleLine(s: string)
  {
    forall j :: 0 <= j < |s| ==> !IsLineTerminator(s[j])
  }

  /** The pattern `/@.+/` can start matching at index `i` of `s`. */
  predicate MatchesAt(s: string, i: int)
  {
    0 <= i && i + 1 < |s| && s[i] == '@' && !IsLineTerminator(s[i + 1])
  }

  /** The leftmost index at or after `from` where the pattern matches. */
  function FirstMatch(s: string, from: nat): (r: Option<nat>)
    requires from <= |s|
    ensures r.Some? ==> from <= r.value < |s| && MatchesAt(s, r.value)
    ensures r.Some? ==> forall j :: from <= j < r.value ==> !MatchesAt(s, j)
    ensures r.None? ==> forall j :: from <= j < |s| ==> !MatchesAt(s, j)
    decreases |s| - from
  {
    if from == |s| then None
    else if MatchesAt(s, from) then Some(from)
    else FirstMatch(s, from + 1)
  }

  /** Where a greedy `.+` that starts at `i` stops: the first line terminator at
      or after `i`, or the end of the string. */
  function LineEnd(s: string, i: nat): (r: nat)
    requires i <= |s|
    ensures i <= r <= |s|
    ensures forall j :: i <= j < r ==> !IsLineTerminator(s[j])
    ensures r < |s| ==> IsLineTerminator(s[r])
    decreases |s| - i
  {
    if i == |s| || IsLineTerminator(s[i]) then i else LineEnd(s, i + 1)
  }

  /** `s.replace(/@.+/, '')`: without a match the id is returned as is;
      with one, everything before the match is kept and at least the `@` and
      one character after it are cut. */
  function StripHost(s: string): (r: string)
    ensures FirstMatch(s, 0).None? ==> r == s
    ensures FirstMatch(s, 0).Some? ==> s[..FirstMatch(s, 0).value] <= r && |r| <= |s| - 2
    ensures r == s <==> FirstMatch(s, 0).None?
  {
    match FirstMatch(s, 0)
    case None => s
    case Some(i) => s[..i] + s[LineEnd(s, i + 1)..]
  }

  /** `formatJid(jid)`: never empty; `'Unknown'` for a missing id or when nothing
      is left after the host part is cut off. */
  function FormatJid(jid: Option<string>): (r: string)
    ensures r != ""
    ensures jid.None? ==> r == "Unknown"
    ensures jid.Some? && StripHost(jid.value) != "" ==> r == StripHost(jid.value)
    ensures jid.Some? && StripHost(jid.value) == "" ==> r == "Unknown"
  {
    if jid.None? then "Unknown"
    else
      var t := StripHost(jid.value);
      if t == "" then "Unknown" else t
  }

  /** On an id with no line terminator, the host part is everything from the
      first `@` that has a character after it: what is left is a prefix of the
      id, and when something was cut it holds no `@` at all. */
  lemma {:induction false} StripHostSingleLine(s: string)
    requires SingleLine(s)
    ensures StripHost(s) <= s
    ensures FirstMatch(s, 0).Some? ==> StripHost(s) == s[..FirstMatch(s, 0).value]
    ensures FirstMatch(s, 0).Some? ==> '@' !in StripHost(s)
    ensures FirstMatch(s, 0).None? ==> StripHost(s) == s
  {
    match FirstMatch(s, 0)
    case None =>
    case Some(i) =>
      var e := LineEnd(s, i + 1);
      assert e == |s|;
      assert s[e..] == [];
      assert StripHost(s) == s[..i];
      forall j | 0 <= j < i
        ensures s[..i][j] != '@'
      {
        assert !MatchesAt(s, j);
      }
  }

  /** A string without `@` has no match, so `StripHost` leaves it alone. */
  lemma {:induction false} StripHostNoAt(t: string)
    requires '@' !in t
    ensures StripHost(t) == t
  {
    match FirstMatch(t, 0)
    case None =>
    case Some(i) =>
      assert false;
  }

  /** Stripping the host from a single-line id is idempotent. */
  lemma {:induction false} StripHostIdempotent(s: string)
    requires SingleLine(s)
    ensures StripHost(StripHost(s)) == StripHost(s)
  {
    StripHostSingleLine(s);
    if FirstMatch(s, 0).Some? {
      StripHostNoAt(StripHost(s));
    } else {
      assert StripHost(s) == s;
    }
  }

  /** Formatting an already formatted single-line id changes nothing. */
  lemma {:induction false} FormatJidIdempotent(s: string)
    requires SingleLine(s)
    ensures FormatJid(Some(FormatJid(Some(s)))) == FormatJid(Some(s))
  {
    var t := StripHost(s);
    if t == "" {
      StripHostNoAt("Unknown");
    } else {
      StripHostIdempotent(s);
    }
  }

  /** The usual case: a personal id loses its server part. */
  lemma FormatJidExamples()
    ensures FormatJid(Some("123@s.whatsapp.net")) == "123"
  {
    var s := "123@s.whatsapp.net";
    assert !MatchesAt(s, 0) && !MatchesAt(s, 1) && !MatchesAt(s, 2) && MatchesAt(s, 3);
    assert FirstMatch(s, 0) == Some(3);
    StripHostSingleLine(s);
    assert StripHost(s) == "123";
  }

  /** A missing or empty id, or one that is only a host part, reads
      `'Unknown'`; an `@` with nothing after it does not match and stays. */
  lemma FormatJidEdgeCases()
    ensures FormatJid(None) == "Unknown"
    ensures FormatJid(Some("")) == "Unknown"
    ensures FormatJid(Some("@g.us")) == "Unknown"
    ensures FormatJid(Some("123@")) == "123@"
  {
    StripHostNoAt("");
    var h := "@g.us";
    assert MatchesAt(h, 0);
    assert FirstMatch(h, 0) == Some(0);
    StripHostSingleLine(h);
    var u := "123@";
    assert FirstMatch(u, 0) == None by {
      assert forall j :: 0 <= j < |u| ==> !MatchesAt(u, j);
    }
  }
}
