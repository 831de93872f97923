/**
 * The session-status payload sent through the page's script channel at the
 * end of a scenario. `status` and `reason` are spliced into a fixed
 * template verbatim: nothing in them is escaped.
 */
module Status {
  import opened Wrappers

  /** The template around `status` and `reason`, split at the two insertion points. */
  const StatusOpen: string :=
    "browserstack_executor: {\"action\": \"setSessionStatus\", \"arguments\": {\"status\":\""
  const ReasonOpen: string := "\", \"reason\": \""
  const PayloadClose: string := "\"}}"

  /**
   * The script argument that reports `status` and `reason` to the provider:
   * the template's opening, then `status`, the reason separator, `reason`
   * and the closing braces, with nothing in between.
   */
  function StatusPayload(status: string, reason: string): (payload: string)
    ensures |payload| == |StatusOpen| + |status| + |ReasonOpen| + |reason| + |PayloadClose|
    ensures payload[..|StatusOpen|] == StatusOpen
    ensures payload[|StatusOpen|..|StatusOpen| + |status|] == status
    ensures payload[|payload| - |PayloadClose|..] == PayloadClose
  {
    StatusOpen + status + ReasonOpen + reason + PayloadClose
  }

  predicate QuoteFree(s: string)
  {
    forall i :: 0 <= i < |s| ==> s[i] != '"'
  }

  /**
   * Text a JSON reader takes verbatim between two quotes: no double quote,
   * no backslash (which would start an escape) and no control character
   * (which JSON does not allow unescaped inside a string).
   */
  predicate JsonSafe(s: string)
  {
    forall i :: 0 <= i < |s| ==> s[i] != '"' && s[i] != '\\' && s[i] >= ' '
  }

  /** The position of the first double quote in `s`, or `|s|` if there is none. */
  function QuoteIndex(s: string): (n: nat)
    ensures n <= |s| && QuoteFree(s[..n])
    ensures n < |s| ==> s[n] == '"'
  {
    if s == [] || s[0] == '"' then 0
    else
      var n := 1 + QuoteIndex(s[1..]);
      assert s[..n] == [s[0]] + s[1..][..n - 1];
      n
  }

  /** `s` cut just before its first double quote. */
  function SplitAtQuote(s: string): (parts: (string, string))
    ensures parts.0 + parts.1 == s
    ensures QuoteFree(parts.0)
    ensures parts.1 != [] ==> parts.1[0] == '"'
  {
    var i := QuoteIndex(s);
    assert s == s[..i] + s[i..];
    (s[..i], s[i..])
  }

  /**
   * Reads a status payload back: the status and the reason are the text up
   * to the next double quote, and are accepted only when they are JSON-safe,
   * so that a JSON reader of the template would take them verbatim too.
   */
  function ParseStatusPayload(payload: string): (parsed: Option<(string, string)>)
    ensures parsed.Some? ==>
      && JsonSafe(parsed.value.0) && JsonSafe(parsed.value.1)
      && StatusPayload(parsed.value.0, parsed.value.1) == payload
  {
    match StripPrefix(StatusOpen, payload)
    case None => None
    case Some(afterOpen) =>
      var (status, afterStatus) := SplitAtQuote(afterOpen);
      match StripPrefix(ReasonOpen, afterStatus)
      case None => None
      case Some(afterReasonOpen) =>
        var (reason, rest) := SplitAtQuote(afterReasonOpen);
        if rest != PayloadClose || !JsonSafe(status) || !JsonSafe(reason) then None
        else
          Reassociate(StatusOpen, status, ReasonOpen, reason, PayloadClose);
          Some((status, reason))
  }

  lemma NoQuoteAt(s: string, i: nat)
    requires QuoteFree(s) && i < |s|
    ensures s[i] != '"'
  {}

  lemma Reassociate(a: string, b: string, c: string, d: string, e: string)
    ensures a + b + c + d + e == a + (b + (c + (d + e)))
  {}

  /** Stripping a prefix from text that starts with it leaves the rest. */
  lemma StripPrefixOf(prefix: string, rest: string)
    ensures StripPrefix(prefix, prefix + rest) == Some(rest)
  {
    assert (prefix + rest)[..|prefix|] == prefix;
  }

  /** In quote-free text followed by a quote, the first quote is the one that follows. */
  lemma QuoteIndexAfter(s: string, t: string)
    requires QuoteFree(s) && 0 < |t| && t[0] == '"'
    ensures QuoteIndex(s + t) == |s|
  {
    var n := QuoteIndex(s + t);
    if n > |s| {
      NoQuoteAt((s + t)[..n], |s|);
    }
  }

  /** In quote-free text followed by a quote, the split falls just before that quote. */
  lemma SplitAtQuoteAfter(s: string, t: string)
    requires QuoteFree(s) && 0 < |t| && t[0] == '"'
    ensures SplitAtQuote(s + t) == (s, t)
  {
    QuoteIndexAfter(s, t);
    assert (s + t)[..|s|] == s && (s + t)[|s|..] == t;
  }

  /** A payload built from JSON-safe status and reason reads back as that status and reason. */
  lemma StatusPayloadRoundTrip(status: string, reason: string)
    requires JsonSafe(status) && JsonSafe(reason)
    ensures ParseStatusPayload(StatusPayload(status, reason)) == Some((status, reason))
  {
    var afterReasonOpen := reason + PayloadClose;
    var afterStatus := ReasonOpen + afterReasonOpen;
    var afterOpen := status + afterStatus;
    Reassociate(StatusOpen, status, ReasonOpen, reason, PayloadClose);
    StripPrefixOf(StatusOpen, afterOpen);
    SplitAtQuoteAfter(status, afterStatus);
    StripPrefixOf(ReasonOpen, afterReasonOpen);
    SplitAtQuoteAfter(reason, PayloadClose);
  }

  /**
   * Without escaping, the payload does not determine its inputs: a status
   * that itself contains the reason separator collides with a different
   * status/reason pair.
   */
  lemma StatusPayloadCollides()
    ensures var forged := "passed\", \"reason\": \"ok";
      && StatusPayload(forged, "late") == StatusPayload("passed", "ok\", \"reason\": \"late")
      && forged != "passed"
  {
    var forged := "passed\", \"reason\": \"ok";
    assert forged == "passed" + ReasonOpen + "ok";
    assert "ok\", \"reason\": \"late" == "ok" + ReasonOpen + "late";
    calc {
      StatusPayload(forged, "late");
      StatusOpen + ("passed" + ReasonOpen + "ok") + ReasonOpen + "late" + PayloadClose;
      StatusOpen + "passed" + ReasonOpen + ("ok" + ReasonOpen + "late") + PayloadClose;
      StatusPayload("passed", "ok\", \"reason\": \"late");
    }
  }
}
