/** The regular expressions and marker words the contact classifier uses,
    as predicates over ASCII text. A pattern anchored with `$` also matches
    when the text ends in one extra line feed (Python's `$` may match just
    before a final newline). */
module ContactPatterns {
  import opened PyStr

  predicate EndsInNewline(s: string) {
    |s| > 0 && s[|s| - 1] == '\n'
  }

  // ---------------------------------------------------------------- phone: ^\+?\d[\d\s\-]{7,}$

  predicate PhoneChar(c: char) {
    IsDigit(c) || IsSpace(c) || c == '-'
  }

  /** `\d[\d\s\-]{7,}` spanning all of `t`. */
  predicate DigitRun(t: string) {
    |t| >= 8 && IsDigit(t[0]) && forall i :: 1 <= i < |t| ==> PhoneChar(t[i])
  }

  predicate PhoneBody(s: string) {
    DigitRun(s) || (|s| > 0 && s[0] == '+' && DigitRun(s[1..]))
  }

  predicate IsPhone(s: string) {
    PhoneBody(s) || (EndsInNewline(s) && PhoneBody(s[..|s| - 1]))
  }

  // ---------------------------------------------------------------- email: ^\S+@\S+\.\S+$

  predicate NoSpace(s: string) {
    forall i :: 0 <= i < |s| ==> !IsSpace(s[i])
  }

  /** `\S+@\S+\.\S+` spanning all of `s`: no whitespace, an '@' after a
      non-empty part, then a '.' with something on each side. */
  predicate EmailBody(s: string) {
    NoSpace(s) &&
    exists p, q :: 0 < p && p + 1 < q && q + 1 < |s| && s[p] == '@' && s[q] == '.'
  }

  predicate IsEmail(s: string) {
    EmailBody(s) || (EndsInNewline(s) && EmailBody(s[..|s| - 1]))
  }

  // ---------------------------------------------------------------- postal code: ^\d{4}$

  predicate FourDigits(s: string) {
    |s| == 4 && forall i :: 0 <= i < 4 ==> IsDigit(s[i])
  }

  predicate IsPostalCode(s: string) {
    FourDigits(s) || (EndsInNewline(s) && FourDigits(s[..|s| - 1]))
  }

  /** On a stripped token the final-newline allowance of `$` never applies:
      each pattern then matches exactly its body. */
  lemma TrimmedPatterns(s: string)
    requires Trimmed(s)
    ensures IsPhone(s) <==> PhoneBody(s)
    ensures IsEmail(s) <==> EmailBody(s)
    ensures IsPostalCode(s) <==> FourDigits(s)
  {
  }

  /** Tokens as they appear on the directory's pages. */
  lemma PatternExamples()
    ensures IsPhone("+41 44 123 45 67") && IsPhone("044-123-45-67") && !IsPhone("1234567")
    ensures IsEmail("info@acme.ch") && !IsEmail("info@acme") && !IsEmail("in fo@acme.ch")
    ensures IsPostalCode("8001") && IsPostalCode("8001\n") && !IsPostalCode("800")
  {
    var e := "info@acme.ch";
    assert e[4] == '@' && e[9] == '.';
    assert EmailBody(e);
    assert !NoSpace("in fo@acme.ch") by { assert "in fo@acme.ch"[2] == ' '; }
    var t := "info@acme";
    assert forall q :: 0 <= q < |t| ==> t[q] != '.';
    assert "8001\n"[..4] == "8001";
  }

  // ---------------------------------------------------------------- markers

  /** The words that open and close the list of spoken languages. The
      classifier is stated for any choice of words; `ScriptMarkers` is the
      script's own. */
  datatype Markers = Markers(opening: seq<string>, closing: seq<string>)

  /** German, French and Italian headings of the directory's detail page. */
  const ScriptMarkers := Markers(["Sprachen", "Langues", "Lingue"],
                                 ["Zahlungsmethoden", "Payment Methods", "Opzioni di pagamento"])

  /** A token that opens the list of spoken languages. */
  predicate IsLanguageMarker(m: Markers, t: string) {
    t in m.opening
  }

  /** A token that closes the list of spoken languages. */
  predicate IsPaymentMarker(m: Markers, t: string) {
    t in m.closing
  }

  /** A marker word is neither a phone number nor an email address, and no
      word both opens and closes the list. */
  predicate WordsOnly(m: Markers) {
    && (forall i :: 0 <= i < |m.opening| ==>
          !IsPhone(m.opening[i]) && !IsEmail(m.opening[i]) && m.opening[i] !in m.closing)
    && (forall i :: 0 <= i < |m.closing| ==> !IsPhone(m.closing[i]) && !IsEmail(m.closing[i]))
  }

  /** A word that starts with neither a digit nor '+', ends in no line feed
      and has no '@' matches neither pattern. */
  lemma PlainWord(t: string)
    requires |t| > 0 && !IsDigit(t[0]) && t[0] != '+' && t[|t| - 1] != '\n' && '@' !in t
    ensures !IsPhone(t) && !IsEmail(t)
  {
  }

  /** The script's words are words. */
  lemma ScriptMarkersAreWords()
    ensures WordsOnly(ScriptMarkers)
  {
    var m := ScriptMarkers;
    forall i | 0 <= i < |m.opening|
      ensures !IsPhone(m.opening[i]) && !IsEmail(m.opening[i]) && m.opening[i] !in m.closing
    {
      PlainWord(m.opening[i]);
    }
    forall i | 0 <= i < |m.closing|
      ensures !IsPhone(m.closing[i]) && !IsEmail(m.closing[i])
    {
      PlainWord(m.closing[i]);
    }
  }

  /** What `WordsOnly` says about one token. */
  lemma MarkersAreWords(m: Markers, t: string)
    requires WordsOnly(m)
    ensures IsLanguageMarker(m, t) ==> !IsPhone(t) && !IsEmail(t) && !IsPaymentMarker(m, t)
    ensures IsPaymentMarker(m, t) ==> !IsPhone(t) && !IsEmail(t)
  {
    if IsLanguageMarker(m, t) {
      var i :| 0 <= i < |m.opening| && m.opening[i] == t;
    }
    if IsPaymentMarker(m, t) {
      var i :| 0 <= i < |m.closing| && m.closing[i] == t;
    }
  }

  /** Nothing is both a phone number and an email address, so testing the
      phone pattern first never hides an email. */
  lemma PhoneAndEmailExclusive(s: string)
    ensures !(IsPhone(s) && IsEmail(s))
  {
  }
}
