/**
 * The agent IDs of `script/ai_message_envelope.py`: ActivityPub-style handles such
 * as `https://domain/@name`, checked against `^https?://[^\s/@]+/@[^\s/@]+$`.
 * `\s` is the whitespace of Python's `str.isspace`, which `Text.IsSpace` gives.
 */
module AgentIds {
  import opened Text

  /** A character of `[^\s/@]`. */
  predicate IsHandleChar(c: char) {
    !IsSpace(c) && c != '/' && c != '@'
  }

  /** `[^\s/@]+` over the whole of `s`. */
  predicate IsHandle(s: string) {
    s != [] && forall i :: 0 <= i < |s| ==> IsHandleChar(s[i])
  }

  /** `https?://` */
  predicate IsScheme(p: string) {
    p == "https://" || p == "http://"
  }

  // ---------------------------------------------------------------------------
  // The pattern, read left to right

  /** How much of `s` the `https?://` at its start takes; 0 when it does not match. */
  function SchemeLength(s: string): (k: nat)
    ensures k <= |s|
    ensures k > 0 ==> IsScheme(s[..k])
  {
    if StartsWith(s, "https://") then 8
    else if StartsWith(s, "http://") then 7
    else 0
  }

  /** How much of `s` a greedy `[^\s/@]+` takes from its start. */
  function HandleLength(s: string): (k: nat)
    ensures k <= |s|
  {
    if s == [] || !IsHandleChar(s[0]) then 0 else 1 + HandleLength(s[1..])
  }

  /** The run is made of handle characters and stops at the first other one. */
  lemma {:induction false} HandleLengthSpec(s: string)
    ensures var k := HandleLength(s);
            && (forall i :: 0 <= i < k ==> IsHandleChar(s[i]))
            && (k < |s| ==> !IsHandleChar(s[k]))
  {
    if s != [] && IsHandleChar(s[0]) {
      HandleLengthSpec(s[1..]);
      assert forall i :: 1 <= i < |s| ==> s[1..][i - 1] == s[i];
    }
  }

  /** The pattern matched against the whole string: the scheme, a host, `/@` and a
      name, and nothing after it. */
  predicate ValidAgentId(s: string) {
    var p := SchemeLength(s);
    p > 0 &&
    var rest := s[p..];
    var k := HandleLength(rest);
    0 < k && k + 2 <= |rest| && rest[k] == '/' && rest[k + 1] == '@' && IsHandle(rest[k + 2..])
  }

  // ---------------------------------------------------------------------------
  // The pattern as a set of strings

  function Compose(scheme: string, host: string, name: string): string {
    scheme + host + "/@" + name
  }

  /** The strings the pattern describes: a scheme, a host, `/@`, a name. */
  ghost predicate InPattern(s: string) {
    exists scheme, host, name :: IsScheme(scheme) && IsHandle(host) && IsHandle(name) && s == Compose(scheme, host, name)
  }

  /** A greedy handle run stops exactly at the end of a handle followed by `/`. */
  lemma HandleLengthOf(host: string, tail: string)
    requires IsHandle(host) && tail != [] && tail[0] == '/'
    ensures HandleLength(host + tail) == |host|
  {
    HandleLengthSpec(host + tail);
    assert (host + tail)[|host|] == '/';
    assert forall i :: 0 <= i < |host| ==> (host + tail)[i] == host[i];
  }

  /** Where the scheme, the host and the name of a composed ID lie. */
  lemma ComposeParts(scheme: string, host: string, name: string)
    requires IsScheme(scheme) && IsHandle(host) && IsHandle(name)
    ensures var s := Compose(scheme, host, name);
            && SchemeLength(s) == |scheme|
            && s[|scheme|..] == host + "/@" + name
  {
    var s := Compose(scheme, host, name);
    var rest := host + "/@" + name;
    assert s == scheme + rest;
    assert s[..|scheme|] == scheme;
    if scheme == "http://" {
      assert s[4] == ':';
    }
  }

  /** The run a greedy handle reading takes is a handle when it is not empty. */
  lemma HandleRun(rest: string)
    requires HandleLength(rest) > 0
    ensures IsHandle(rest[..HandleLength(rest)])
  {
    HandleLengthSpec(rest);
    var k := HandleLength(rest);
    assert forall i :: 0 <= i < k ==> rest[..k][i] == rest[i];
  }

  lemma ComposedInPattern(scheme: string, host: string, name: string)
    requires IsScheme(scheme) && IsHandle(host) && IsHandle(name)
    ensures InPattern(Compose(scheme, host, name))
  {
  }

  /** A string split at `k`, with `/@` at `k`. */
  lemma SplitAtSeparator(rest: string, k: nat)
    requires k + 2 <= |rest| && rest[k] == '/' && rest[k + 1] == '@'
    ensures rest == rest[..k] + "/@" + rest[k + 2..]
  {
    assert rest[k..k + 2] == "/@";
    assert rest == rest[..k] + rest[k..k + 2] + rest[k + 2..];
  }

  /** What the left-to-right reading accepts is in the pattern. */
  lemma ValidInPattern(s: string)
    requires ValidAgentId(s)
    ensures InPattern(s)
  {
    var p := SchemeLength(s);
    var rest := s[p..];
    var k := HandleLength(rest);
    HandleRun(rest);
    SplitAtSeparator(rest, k);
    assert s == s[..p] + rest;
    ComposedInPattern(s[..p], rest[..k], rest[k + 2..]);
  }

  /** Every string of the pattern is accepted by the left-to-right reading. */
  lemma ComposedIsValid(scheme: string, host: string, name: string)
    requires IsScheme(scheme) && IsHandle(host) && IsHandle(name)
    ensures ValidAgentId(Compose(scheme, host, name))
  {
    ComposeParts(scheme, host, name);
    var rest := host + "/@" + name;
    HandleLengthOf(host, "/@" + name);
    assert host + ("/@" + name) == rest;
    assert rest[|host|] == '/' && rest[|host| + 1] == '@';
    assert rest[|host| + 2..] == name;
  }

  /** The left-to-right reading accepts exactly the strings of the pattern. */
  lemma ValidAgentIdIff(s: string)
    ensures ValidAgentId(s) <==> InPattern(s)
  {
    if ValidAgentId(s) {
      ValidInPattern(s);
    }
    if InPattern(s) {
      var scheme, host, name :| IsScheme(scheme) && IsHandle(host) && IsHandle(name) && s == Compose(scheme, host, name);
      ComposedIsValid(scheme, host, name);
    }
  }

  // ---------------------------------------------------------------------------
  // What `AGENT_ID_PATTERN.match` accepts

  /** `AGENT_ID_PATTERN.match(s)` as written: outside multi-line mode `$` matches at
      the end of the string and also just before a newline that ends it. */
  predicate MatchesAgentPatternAsWritten(s: string) {
    ValidAgentId(s) || (|s| > 0 && s[|s| - 1] == '\n' && ValidAgentId(s[..|s| - 1]))
  }

  /** Any accepted ID with a newline after it passes the check as written, and the
      newline stays in the ID the envelope stores; the full-string check refuses it. */
  lemma TrailingNewlineAccepted(t: string)
    requires ValidAgentId(t)
    ensures MatchesAgentPatternAsWritten(t + "\n")
    ensures !ValidAgentId(t + "\n")
  {
    var s := t + "\n";
    assert s[..|s| - 1] == t;
    if ValidAgentId(s) {
      ValidHasNoSpace(s);
      assert IsSpace(s[|t|]);
    }
  }

  /** `https://a/@b` followed by a newline is such an ID. */
  lemma NewlineExample()
    ensures MatchesAgentPatternAsWritten("https://a/@b\n") && !ValidAgentId("https://a/@b\n")
  {
    assert IsHandle("a") && IsHandle("b");
    ComposedIsValid("https://", "a", "b");
    assert Compose("https://", "a", "b") == "https://a/@b";
    TrailingNewlineAccepted("https://a/@b");
    assert "https://a/@b" + "\n" == "https://a/@b\n";
  }

  /** An accepted ID holds no whitespace at all, so in particular no newline. */
  lemma ValidHasNoSpace(s: string)
    requires ValidAgentId(s)
    ensures forall i :: 0 <= i < |s| ==> !IsSpace(s[i])
  {
    ValidAgentIdIff(s);
    var scheme, host, name :| IsScheme(scheme) && IsHandle(host) && IsHandle(name) && s == Compose(scheme, host, name);
    ComposedHasNoSpace(scheme, host, name);
  }

  lemma ComposedHasNoSpace(scheme: string, host: string, name: string)
    requires IsScheme(scheme) && IsHandle(host) && IsHandle(name)
    ensures var s := Compose(scheme, host, name);
            forall i :: 0 <= i < |s| ==> !IsSpace(s[i])
  {
    var s := Compose(scheme, host, name);
    forall i | 0 <= i < |s|
      ensures !IsSpace(s[i])
    {
      if i < |scheme| {
        assert s[i] == scheme[i];
      } else if i < |scheme| + |host| {
        assert s[i] == host[i - |scheme|];
      } else if i < |scheme| + |host| + 2 {
        assert s[i] == "/@"[i - |scheme| - |host|];
      } else {
        assert s[i] == name[i - |scheme| - |host| - 2];
      }
    }
  }
}
