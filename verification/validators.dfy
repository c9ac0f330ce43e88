/**
 * The input checks of utils/validators.py. Each returns a verdict and a message that is
 * empty exactly when the input is accepted. The character-class checks follow Python's
 * `re.match("^[...]+$", s)`: the class is matched greedily from the start, and `$` matches
 * at the end of the text or just before a newline that ends it.
 */
module Validators {
  import opened Wrappers

  datatype Verdict = Verdict(ok: bool, message: string)

  const Accepted := Verdict(true, "")

  predicate IsAsciiLetter(c: char) { 'a' <= c <= 'z' || 'A' <= c <= 'Z' }

  predicate IsDigit(c: char) { '0' <= c <= '9' }

  /** Python's `\s` in a text pattern: the characters for which `str.isspace()` holds. */
  predicate IsWhitespace(c: char)
  {
    '\t' <= c <= '\r' || '\U{1c}' <= c <= ' ' || c == '\U{85}' || c == '\U{a0}'
    || c == '\U{1680}' || '\U{2000}' <= c <= '\U{200a}' || c == '\U{2028}' || c == '\U{2029}'
    || c == '\U{202f}' || c == '\U{205f}' || c == '\U{3000}'
  }

  /** The two character classes: `[a-zA-Z\s\-']` for names, `[a-zA-Z0-9\-_]` for client ids. */
  datatype CharClass = NameChars | IdChars

  predicate InClass(cls: CharClass, c: char)
  {
    match cls
    case NameChars => IsAsciiLetter(c) || IsWhitespace(c) || c == '-' || c == '\''
    case IdChars => IsAsciiLetter(c) || IsDigit(c) || c == '-' || c == '_'
  }

  /** How many characters `[...]+` consumes greedily from the start of `s`. */
  function LeadingRun(s: string, cls: CharClass): (k: nat)
    ensures k <= |s|
    ensures forall i :: 0 <= i < k ==> InClass(cls, s[i])
    ensures k < |s| ==> !InClass(cls, s[k])
  {
    if s == [] || !InClass(cls, s[0]) then 0 else 1 + LeadingRun(s[1..], cls)
  }

  /** Python's `$` at position `k`: the end of the text, or a final newline. */
  predicate AtEnd(s: string, k: nat)
  {
    k == |s| || (k + 1 == |s| && s[k] == '\n')
  }

  /** `re.match("^[...]+$", s)` as the matcher runs it: the greedy run, then the anchor.
      Backing off the run never helps, because a shorter run stops at a class character
      and the anchor only accepts a newline there when it is the very last character. */
  predicate FullMatch(s: string, cls: CharClass)
  {
    var k := LeadingRun(s, cls);
    k >= 1 && AtEnd(s, k)
  }

  /** What the pattern describes: some non-empty prefix of class characters followed by `$`. */
  ghost predicate PatternDescribes(s: string, cls: CharClass)
  {
    exists k: nat {:trigger AtEnd(s, k)} :: 1 <= k <= |s| && (forall i :: 0 <= i < k ==> InClass(cls, s[i])) && AtEnd(s, k)
  }

  /** The greedy matcher accepts exactly the strings the pattern describes. */
  lemma FullMatchIsPattern(s: string, cls: CharClass)
    ensures FullMatch(s, cls) <==> PatternDescribes(s, cls)
  {
    var run := LeadingRun(s, cls);
    if PatternDescribes(s, cls) {
      var k: nat :| 1 <= k <= |s| && (forall i :: 0 <= i < k ==> InClass(cls, s[i])) && AtEnd(s, k);
      assert run >= k;
      if k == |s| {
        assert run == |s|;
      } else {
        assert AtEnd(s, run);
      }
    }
    if FullMatch(s, cls) {
      assert AtEnd(s, run);
    }
  }

  /** A name matches exactly when it is non-empty and every character is in the name class
      (a final newline is whitespace, so the anchor adds nothing here). */
  lemma NameMatchIsAllNameChars(s: string)
    ensures FullMatch(s, NameChars) <==> s != [] && forall i :: 0 <= i < |s| ==> InClass(NameChars, s[i])
  {
    var run := LeadingRun(s, NameChars);
  }

  /** A client id matches exactly when it is non-empty class characters, optionally
      followed by one final newline. */
  lemma IdMatchAllowsFinalNewline(s: string)
    ensures FullMatch(s, IdChars) <==>
      (s != [] && forall i :: 0 <= i < |s| ==> InClass(IdChars, s[i]))
      || (|s| >= 2 && s[|s| - 1] == '\n' && forall i :: 0 <= i < |s| - 1 ==> InClass(IdChars, s[i]))
  {
    var run := LeadingRun(s, IdChars);
    if |s| >= 2 && s[|s| - 1] == '\n' && forall i :: 0 <= i < |s| - 1 ==> InClass(IdChars, s[i]) {
      assert !InClass(IdChars, s[|s| - 1]);
    }
  }

  const EmptyName := "Name cannot be empty"
  const BadName := "Name can only contain letters, spaces, hyphens, and apostrophes"
  const EmptyClientId := "Client ID cannot be empty"
  const BadClientId := "Client ID can only contain letters, numbers, hyphens, and underscores"
  const NotANumber := "Must be a valid number"
  const Negative := "Value cannot be negative"

  /** validate_name: emptiness is reported first, then any character outside the class. */
  function ValidateName(name: string): (r: Verdict)
    ensures r.ok <==> r.message == ""
    ensures name == [] ==> r == Verdict(false, EmptyName)
    ensures r.ok <==> name != [] && forall i :: 0 <= i < |name| ==> InClass(NameChars, name[i])
    ensures name != [] && !r.ok ==> r.message == BadName
  {
    NameMatchIsAllNameChars(name);
    if name == [] then Verdict(false, EmptyName)
    else if !FullMatch(name, NameChars) then Verdict(false, BadName)
    else Accepted
  }

  /** validate_client_id: emptiness first, then the class, where one final newline passes. */
  function ValidateClientId(clientId: string): (r: Verdict)
    ensures r.ok <==> r.message == ""
    ensures clientId == [] ==> r == Verdict(false, EmptyClientId)
    ensures r.ok <==> clientId != [] && PatternDescribes(clientId, IdChars)
    ensures clientId != [] && !r.ok ==> r.message == BadClientId
  {
    FullMatchIsPattern(clientId, IdChars);
    if clientId == [] then Verdict(false, EmptyClientId)
    else if !FullMatch(clientId, IdChars) then Verdict(false, BadClientId)
    else Accepted
  }

  /** validate_numeric on the outcome of `float(value)`: no number, or a negative one when
      negatives are not allowed, is refused; anything else is accepted. */
  function ValidateNumeric(parsed: Option<real>, allowNegative: bool): (r: Verdict)
    ensures r.ok <==> r.message == ""
    ensures parsed.None? ==> r == Verdict(false, NotANumber)
    ensures parsed.Some? ==> (r.ok <==> allowNegative || parsed.value >= 0.0)
    ensures parsed.Some? && !r.ok ==> r.message == Negative
  {
    match parsed
    case None => Verdict(false, NotANumber)
    case Some(num) => if !allowNegative && num < 0.0 then Verdict(false, Negative) else Accepted
  }
}
