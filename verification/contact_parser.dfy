/** The contact post-processor (`data.py`): each record's contact text is cut
    at tabs into tokens, the leading tokens fill positional fields, and every
    later token is sorted into phones, emails, languages or additional info. */
module ContactParser {
  import opened Common
  import opened Json
  import opened PyStr
  import opened ContactPatterns

  // ---------------------------------------------------------------- tokens

  /** Strips every piece and drops the ones left empty, keeping their order. */
  function Compact(pieces: seq<string>): (ts: seq<string>)
    ensures |ts| <= |pieces|
    ensures forall i :: 0 <= i < |ts| ==> ts[i] != "" && Trimmed(ts[i])
  {
    if |pieces| == 0 then []
    else
      var t := Strip(pieces[0]);
      if t == "" then Compact(pieces[1..]) else [t] + Compact(pieces[1..])
  }

  /** The tokens of a contact text. */
  function Tokens(contact: string): seq<string> {
    Compact(Split(contact, '\t'))
  }

  /** One piece becomes its stripped text, or nothing when that is empty. */
  lemma CompactSingle(p: string)
    ensures Compact([p]) == if Strip(p) == "" then [] else [Strip(p)]
  {
    assert [p][1..] == [];
  }

  /** Compacting works piece by piece: the tokens of a concatenation are the
      tokens of each part, in order. With `CompactSingle` this pins `Compact`
      down on every input. */
  lemma {:induction false} CompactAppend(a: seq<string>, b: seq<string>)
    ensures Compact(a + b) == Compact(a) + Compact(b)
  {
    if |a| == 0 {
      assert a + b == b;
    } else {
      assert (a + b)[0] == a[0];
      assert (a + b)[1..] == a[1..] + b;
      CompactAppend(a[1..], b);
    }
  }

  lemma {:induction false} CompactOfTokens(ts: seq<string>)
    requires forall i :: 0 <= i < |ts| ==> ts[i] != "" && Trimmed(ts[i])
    ensures Compact(ts) == ts
  {
    if |ts| > 0 {
      var rest := ts[1..];
      assert ts == [ts[0]] + rest;
      StripTrimmed(ts[0]);
      forall i | 0 <= i < |rest| ensures rest[i] != "" && Trimmed(rest[i]) {
        assert rest[i] == ts[i + 1];
      }
      CompactOfTokens(rest);
    }
  }

  /** Tokenising is the inverse of joining with tabs: non-empty, already
      stripped, tab-free tokens come back unchanged. A missing contact (the
      empty text) has no tokens. */
  lemma TokensOfJoin(ts: seq<string>)
    requires forall i :: 0 <= i < |ts| ==> ts[i] != "" && Trimmed(ts[i]) && '\t' !in ts[i]
    ensures Tokens(Join(ts, "\t")) == ts
  {
    if |ts| == 0 {
      assert Split("", '\t') == [""];
      assert Strip("") == "";
    } else {
      SplitJoin(ts, '\t');
      CompactOfTokens(ts);
    }
  }

  // ---------------------------------------------------------------- classification of the tail

  /** The four lists being built, and whether a language list is open. */
  datatype Buckets = Buckets(phones: seq<string>, emails: seq<string>, languages: seq<string>,
                             additional: seq<string>, inLanguages: bool)

  const NoBuckets := Buckets([], [], [], [], false)

  /** Sorting one token. Inside a language list every token but a payment
      marker is a language; otherwise the phone test comes before the email
      test, a language marker opens a list and is itself dropped, and anything
      else is additional info. */
  function Step(m: Markers, b: Buckets, t: string): Buckets {
    if b.inLanguages && !IsPaymentMarker(m, t) then b.(languages := b.languages + [t])
    else if IsPhone(t) then b.(phones := b.phones + [t], inLanguages := false)
    else if IsEmail(t) then b.(emails := b.emails + [t], inLanguages := false)
    else if IsLanguageMarker(m, t) then b.(inLanguages := true)
    else b.(additional := b.additional + [t], inLanguages := false)
  }

  /** Sorting a run of tokens, left to right. */
  function Classify(m: Markers, ts: seq<string>): Buckets {
    if |ts| == 0 then NoBuckets else Step(m, Classify(m, ts[..|ts| - 1]), ts[|ts| - 1])
  }

  /** Where a token lands, read off its position alone. */
  datatype Kind = PhoneKind | EmailKind | LanguageKind | MarkerKind | OtherKind

  function NormalKind(m: Markers, t: string): Kind {
    if IsPhone(t) then PhoneKind
    else if IsEmail(t) then EmailKind
    else if IsLanguageMarker(m, t) then MarkerKind
    else OtherKind
  }

  /** After reading `ts` a language list is open: some language marker has no
      payment marker after it. */
  ghost predicate LanguageListOpen(m: Markers, ts: seq<string>) {
    exists j :: 0 <= j < |ts| && IsLanguageMarker(m, ts[j]) &&
                forall k :: j < k < |ts| ==> !IsPaymentMarker(m, ts[k])
  }

  ghost function KindAt(m: Markers, ts: seq<string>, i: int): Kind
    requires 0 <= i < |ts|
  {
    if LanguageListOpen(m, ts[..i]) && !IsPaymentMarker(m, ts[i]) then LanguageKind else NormalKind(m, ts[i])
  }

  /** The tokens of `ts` of one kind, in order. */
  ghost function Select(m: Markers, ts: seq<string>, kind: Kind): seq<string> {
    if |ts| == 0 then []
    else Select(m, ts[..|ts| - 1], kind) + (if KindAt(m, ts, |ts| - 1) == kind then [ts[|ts| - 1]] else [])
  }

  lemma LanguageListStep(m: Markers, ts: seq<string>, t: string)
    ensures LanguageListOpen(m, ts + [t]) <==>
              IsLanguageMarker(m, t) || (LanguageListOpen(m, ts) && !IsPaymentMarker(m, t))
  {
    var s := ts + [t];
    assert forall k :: 0 <= k < |ts| ==> s[k] == ts[k];
    if IsLanguageMarker(m, t) {
      assert s[|ts|] == t;
    } else if LanguageListOpen(m, s) {
      var j :| 0 <= j < |s| && IsLanguageMarker(m, s[j]) && forall k :: j < k < |s| ==> !IsPaymentMarker(m, s[k]);
      assert j < |ts|;
      assert s[|ts|] == t;
    }
  }

  /** The left-to-right sort agrees with the positional reading: each list is
      exactly the tokens of its kind, in order, and the language flag says
      whether a list is open. */
  lemma {:induction false} ClassifyByKind(m: Markers, ts: seq<string>)
    requires WordsOnly(m)
    ensures Classify(m, ts).inLanguages == LanguageListOpen(m, ts)
    ensures Classify(m, ts).phones == Select(m, ts, PhoneKind)
    ensures Classify(m, ts).emails == Select(m, ts, EmailKind)
    ensures Classify(m, ts).languages == Select(m, ts, LanguageKind)
    ensures Classify(m, ts).additional == Select(m, ts, OtherKind)
  {
    if |ts| > 0 {
      var p, t := ts[..|ts| - 1], ts[|ts| - 1];
      ClassifyByKind(m, p);
      assert ts == p + [t];
      LanguageListStep(m, p, t);
      MarkersAreWords(m, t);
    }
  }

  lemma {:induction false} SelectPartitions(m: Markers, ts: seq<string>)
    ensures |Select(m, ts, PhoneKind)| + |Select(m, ts, EmailKind)| + |Select(m, ts, LanguageKind)| +
            |Select(m, ts, MarkerKind)| + |Select(m, ts, OtherKind)| == |ts|
  {
    if |ts| > 0 {
      SelectPartitions(m, ts[..|ts| - 1]);
    }
  }

  /** Every token is put in exactly one list or is a dropped language marker. */
  lemma ClassifyPartitions(m: Markers, ts: seq<string>)
    requires WordsOnly(m)
    ensures var b := Classify(m, ts);
            |b.phones| + |b.emails| + |b.languages| + |b.additional| + |Select(m, ts, MarkerKind)| == |ts|
  {
    ClassifyByKind(m, ts);
    SelectPartitions(m, ts);
  }

  // ---------------------------------------------------------------- positional fields

  /** The index of the first token from `i` on that is not blank. */
  function SkipBlank(ts: seq<string>, i: nat): (j: nat)
    requires i <= |ts|
    ensures i <= j <= |ts|
    ensures j == |ts| || Strip(ts[j]) != ""
    decreases |ts| - i
  {
    if i < |ts| && Strip(ts[i]) == "" then SkipBlank(ts, i + 1) else i
  }

  /** Every token skipped is blank once stripped. */
  lemma {:induction false} SkippedAreBlank(ts: seq<string>, i: nat)
    requires i <= |ts|
    ensures forall k :: i <= k < SkipBlank(ts, i) ==> Strip(ts[k]) == ""
    decreases |ts| - i
  {
    if i < |ts| && Strip(ts[i]) == "" {
      SkippedAreBlank(ts, i + 1);
      assert SkipBlank(ts, i) == SkipBlank(ts, i + 1);
    } else {
      assert SkipBlank(ts, i) == i;
    }
  }

  /** The positional fields, and the index where sorting begins. */
  datatype Head = Head(labelText: string, company: string, street: string, postal: string,
                       city: string, next: nat)

  function ReadHead(ts: seq<string>): (h: Head)
    ensures h.next <= |ts|
  {
    var labelText := if 0 < |ts| then ts[0] else "";
    var company := if 1 < |ts| then ts[1] else "";
    var street := if 2 < |ts| then ts[2] else "";
    var afterStreet := if |ts| < 3 then |ts| else 3;
    var hasPostal := afterStreet < |ts| && IsPostalCode(ts[afterStreet]);
    var postal := if hasPostal then ts[afterStreet] else "";
    var c := SkipBlank(ts, if hasPostal then afterStreet + 1 else afterStreet);
    var city := if c < |ts| then ts[c] else "";
    Head(labelText, company, street, postal, city, if c < |ts| then c + 1 else c)
  }

  /** What one contact becomes, as lists. */
  datatype Fields = Fields(labelText: string, company: string, street: string, postal: string,
                           city: string, phones: seq<string>, emails: seq<string>,
                           languages: seq<string>, additional: seq<string>)

  function Structure(m: Markers, ts: seq<string>): Fields {
    var h := ReadHead(ts);
    var b := Classify(m, ts[h.next..]);
    Fields(h.labelText, h.company, h.street, h.postal, h.city, b.phones, b.emails, b.languages, b.additional)
  }

  /** On real tokens the blank-skipping loop never moves: tokens 0-2 are
      labelText, company and street; token 3 is the postal code only when it is
      four digits, and otherwise the city; sorting starts right after the city. */
  lemma HeadOfTokens(ts: seq<string>)
    requires forall i :: 0 <= i < |ts| ==> ts[i] != "" && Trimmed(ts[i])
    ensures var h := ReadHead(ts);
            && h.labelText == (if |ts| > 0 then ts[0] else "")
            && h.company == (if |ts| > 1 then ts[1] else "")
            && h.street == (if |ts| > 2 then ts[2] else "")
            && (h.postal != "" <==> |ts| > 3 && IsPostalCode(ts[3]))
            && (h.postal != "" ==> h.postal == ts[3])
            && var cityAt := if h.postal != "" then 4 else 3;
               && h.city == (if |ts| > cityAt then ts[cityAt] else "")
               && h.next == (if |ts| > cityAt then cityAt + 1 else |ts|)
  {
    if |ts| > 3 {
      StripTrimmed(ts[3]);
      if |ts| > 4 { StripTrimmed(ts[4]); }
    }
  }

  /** The script's loop skipping tokens that are blank once stripped. */
  method SkipBlanks(ts: seq<string>, from: nat) returns (idx: nat)
    requires from <= |ts|
    ensures idx == SkipBlank(ts, from)
  {
    idx := from;
    while idx < |ts| && Strip(ts[idx]) == ""
      invariant from <= idx <= |ts|
      invariant SkipBlank(ts, idx) == SkipBlank(ts, from)
    {
      idx := idx + 1;
    }
  }

  /** The index walk of the script over the positional fields: three tokens,
      an optional postal code, a loop skipping blank tokens, then the city. */
  method WalkHead(ts: seq<string>) returns (h: Head)
    ensures h == ReadHead(ts)
  {
    var labelText, company, street, postal, city := "", "", "", "", "";
    var idx := 0;
    var total := |ts|;

    if idx < total {
      labelText := ts[idx];
      idx := idx + 1;
    }
    if idx < total {
      company := ts[idx];
      idx := idx + 1;
    }
    if idx < total {
      street := ts[idx];
      idx := idx + 1;
    }
    ghost var afterStreet := idx;
    assert afterStreet == (if |ts| < 3 then |ts| else 3);
    assert labelText == ReadHead(ts).labelText && company == ReadHead(ts).company
        && street == ReadHead(ts).street;
    if idx < total && IsPostalCode(ts[idx]) {
      postal := ts[idx];
      idx := idx + 1;
    } else {
      postal := "";
    }
    ghost var hasPostal := afterStreet < |ts| && IsPostalCode(ts[afterStreet]);
    assert idx == (if hasPostal then afterStreet + 1 else afterStreet);
    assert postal == ReadHead(ts).postal;

    idx := SkipBlanks(ts, idx);

    if idx < total {
      city := ts[idx];
      idx := idx + 1;
    }
    h := Head(labelText, company, street, postal, city, idx);
  }

  lemma ClassifySnoc(m: Markers, ts: seq<string>, lo: int, hi: int)
    requires 0 <= lo <= hi < |ts|
    ensures Classify(m, ts[lo..hi + 1]) == Step(m, Classify(m, ts[lo..hi]), ts[hi])
  {
    assert ts[lo..hi + 1][..hi - lo] == ts[lo..hi];
  }

  lemma StepInList(m: Markers, b: Buckets, t: string)
    requires b.inLanguages && !IsPaymentMarker(m, t)
    ensures Step(m, b, t) == b.(languages := b.languages + [t])
  {
  }

  /** The inner loop of the script: the tokens of an open language list, up
      to the next payment marker or the end, go to the languages. */
  method WalkLanguages(m: Markers, ts: seq<string>, start: nat, from: nat, acc: Buckets) returns (acc': Buckets, next: nat)
    requires start <= from <= |ts|
    requires acc == Classify(m, ts[start..from]) && acc.inLanguages
    ensures from <= next <= |ts| && (next == |ts| || IsPaymentMarker(m, ts[next]))
    ensures acc' == Classify(m, ts[start..next]) && acc'.inLanguages
  {
    acc', next := acc, from;
    while next < |ts| && !IsPaymentMarker(m, ts[next])
      invariant from <= next <= |ts|
      invariant acc' == Classify(m, ts[start..next]) && acc'.inLanguages
    {
      ClassifySnoc(m, ts, start, next);
      StepInList(m, acc', ts[next]);
      acc' := acc'.(languages := acc'.languages + [ts[next]]);
      next := next + 1;
    }
  }

  /** One pass of the script's outer sorting loop, at token `idx`: a phone,
      an email, a language marker followed by its list, or additional info.
      After a language list the script steps back one token and then forward
      again at the end of the pass; the two cancel, so the pass ends on the
      payment marker that closed the list, which the next pass sorts. */
  method SortAt(m: Markers, ts: seq<string>, start: nat, idx: nat, acc: Buckets) returns (acc': Buckets, next: nat)
    requires start <= idx < |ts|
    requires acc == Classify(m, ts[start..idx]) && (acc.inLanguages ==> IsPaymentMarker(m, ts[idx]))
    ensures idx < next <= |ts| && acc' == Classify(m, ts[start..next])
    ensures acc'.inLanguages ==> next == |ts| || IsPaymentMarker(m, ts[next])
  {
    var element := ts[idx];
    if IsPhone(element) {
      acc' := acc.(phones := acc.phones + [element], inLanguages := false);
      SortedPhone(m, ts, start, idx, acc);
      next := idx + 1;
    } else if IsEmail(element) {
      acc' := acc.(emails := acc.emails + [element], inLanguages := false);
      SortedEmail(m, ts, start, idx, acc);
      next := idx + 1;
    } else if IsLanguageMarker(m, element) {
      SortedMarker(m, ts, start, idx, acc);
      acc', next := WalkLanguages(m, ts, start, idx + 1, acc.(inLanguages := true));
    } else {
      acc' := acc.(additional := acc.additional + [element], inLanguages := false);
      SortedOther(m, ts, start, idx, acc);
      next := idx + 1;
    }
  }

  // What one pass adds to the buckets, branch by branch.

  lemma SortedPhone(m: Markers, ts: seq<string>, start: nat, idx: nat, acc: Buckets)
    requires start <= idx < |ts|
    requires acc == Classify(m, ts[start..idx]) && (acc.inLanguages ==> IsPaymentMarker(m, ts[idx]))
    requires IsPhone(ts[idx])
    ensures Classify(m, ts[start..idx + 1]) == acc.(phones := acc.phones + [ts[idx]], inLanguages := false)
  {
    ClassifySnoc(m, ts, start, idx);
  }

  lemma SortedEmail(m: Markers, ts: seq<string>, start: nat, idx: nat, acc: Buckets)
    requires start <= idx < |ts|
    requires acc == Classify(m, ts[start..idx]) && (acc.inLanguages ==> IsPaymentMarker(m, ts[idx]))
    requires !IsPhone(ts[idx]) && IsEmail(ts[idx])
    ensures Classify(m, ts[start..idx + 1]) == acc.(emails := acc.emails + [ts[idx]], inLanguages := false)
  {
    ClassifySnoc(m, ts, start, idx);
  }

  lemma SortedMarker(m: Markers, ts: seq<string>, start: nat, idx: nat, acc: Buckets)
    requires start <= idx < |ts|
    requires acc == Classify(m, ts[start..idx]) && (acc.inLanguages ==> IsPaymentMarker(m, ts[idx]))
    requires !IsPhone(ts[idx]) && !IsEmail(ts[idx]) && IsLanguageMarker(m, ts[idx])
    ensures Classify(m, ts[start..idx + 1]) == acc.(inLanguages := true)
  {
    ClassifySnoc(m, ts, start, idx);
  }

  lemma SortedOther(m: Markers, ts: seq<string>, start: nat, idx: nat, acc: Buckets)
    requires start <= idx < |ts|
    requires acc == Classify(m, ts[start..idx]) && (acc.inLanguages ==> IsPaymentMarker(m, ts[idx]))
    requires !IsPhone(ts[idx]) && !IsEmail(ts[idx]) && !IsLanguageMarker(m, ts[idx])
    ensures Classify(m, ts[start..idx + 1]) == acc.(additional := acc.additional + [ts[idx]], inLanguages := false)
  {
    ClassifySnoc(m, ts, start, idx);
  }

  /** The sorting loop of the script from token `start` on. */
  method WalkTail(m: Markers, ts: seq<string>, start: nat) returns (phones: seq<string>, emails: seq<string>,
                                                        languages: seq<string>, additional: seq<string>)
    requires start <= |ts|
    ensures var b := Classify(m, ts[start..]);
            phones == b.phones && emails == b.emails && languages == b.languages && additional == b.additional
  {
    var acc := NoBuckets;
    var idx := start;
    while idx < |ts|
      invariant start <= idx <= |ts|
      invariant acc == Classify(m, ts[start..idx])
      invariant acc.inLanguages ==> idx == |ts| || IsPaymentMarker(m, ts[idx])
    {
      acc, idx := SortAt(m, ts, start, idx, acc);
    }
    assert ts[start..idx] == ts[start..];
    phones, emails, languages, additional := acc.phones, acc.emails, acc.languages, acc.additional;
  }

  /** The script's walk over one contact's tokens. */
  method WalkTokens(m: Markers, ts: seq<string>) returns (f: Fields)
    ensures f == Structure(m, ts)
  {
    var h := WalkHead(ts);
    var phones, emails, languages, additional := WalkTail(m, ts, h.next);
    f := Fields(h.labelText, h.company, h.street, h.postal, h.city, phones, emails, languages, additional);
  }

  // ---------------------------------------------------------------- entries

  /** One row of the spreadsheet; the lists are joined with "; ". */
  datatype Row = Row(url: Json, labelText: string, company: string, streetAddress: string,
                     postalCode: string, city: string, phones: string, emails: string,
                     additionalInfo: string, languages: string)

  /** The contact text of an entry: `entry.get('contact', '')`; None when the
      entry is not an object or the contact is not a string, where `.split`
      would raise. */
  function ContactOf(entry: Json): (c: Option<string>)
    ensures c.Some? <==> entry.JObject? && GetOr(entry.members, "contact", JString("")).JString?
  {
    if !entry.JObject? then None
    else match GetOr(entry.members, "contact", JString(""))
      case JString(s) => Some(s)
      case _ => None
  }

  function StructureEntry(m: Markers, entry: Json): (r: Eval<Row>)
    ensures r.Ok? <==> ContactOf(entry).Some?
    ensures r.Ok? ==> r.value.url == GetOr(entry.members, "url", JString(""))
  {
    match ContactOf(entry)
    case None => Raises
    case Some(contact) =>
      var f := Structure(m, Tokens(contact));
      Ok(Row(GetOr(entry.members, "url", JString("")), f.labelText, f.company, f.street, f.postal, f.city,
             Join(f.phones, "; "), Join(f.emails, "; "), Join(f.additional, "; "), Join(f.languages, "; ")))
  }

  /** The whole loop: one row per entry, in order; any entry that raises ends
      the script before anything is written. */
  function StructureAll(m: Markers, entries: seq<Json>): (r: Eval<seq<Row>>)
    ensures r.Ok? <==> forall i :: 0 <= i < |entries| ==> StructureEntry(m, entries[i]).Ok?
    ensures r.Ok? ==> |r.value| == |entries| &&
                      forall i :: 0 <= i < |entries| ==> r.value[i] == StructureEntry(m, entries[i]).value
  {
    var steps := seq(|entries|, i requires 0 <= i < |entries| => StructureEntry(m, entries[i]));
    assert forall i :: 0 <= i < |entries| ==> steps[i] == StructureEntry(m, entries[i]);
    AllOk(steps)
  }

  /** A contact made of clean, tab-free tokens: the first three are the
      label, company and street, the fourth is the postal code exactly
      when it is four digits, and the city is the token after the postal code,
      or the fourth when there is none. */
  lemma RowOfCleanContact(m: Markers, entry: Json, ts: seq<string>)
    requires ContactOf(entry) == Some(Join(ts, "\t"))
    requires forall i :: 0 <= i < |ts| ==> ts[i] != "" && Trimmed(ts[i]) && '\t' !in ts[i]
    ensures StructureEntry(m, entry).Ok?
    ensures var row := StructureEntry(m, entry).value;
            && row.labelText == (if |ts| > 0 then ts[0] else "")
            && row.company == (if |ts| > 1 then ts[1] else "")
            && row.streetAddress == (if |ts| > 2 then ts[2] else "")
            && (row.postalCode != "" <==> |ts| > 3 && IsPostalCode(ts[3]))
            && row.postalCode == (if |ts| > 3 && IsPostalCode(ts[3]) then ts[3] else "")
            && var cityAt := if row.postalCode != "" then 4 else 3;
               row.city == (if |ts| > cityAt then ts[cityAt] else "")
  {
    TokensOfJoin(ts);
    HeadOfTokens(ts);
    var h := ReadHead(ts);
    var f := Structure(m, ts);
    assert f.labelText == h.labelText && f.company == h.company && f.street == h.street && f.postal == h.postal;
    assert f.city == h.city;
  }

  /** The joined lists of a row hold, in order, the tokens after the city of
      each kind, as read off their positions. */
  lemma RowListsByKind(m: Markers, entry: Json)
    requires WordsOnly(m)
    requires ContactOf(entry).Some?
    ensures var ts := Tokens(ContactOf(entry).value);
            var rest := ts[ReadHead(ts).next..];
            var row := StructureEntry(m, entry).value;
            && row.phones == Join(Select(m, rest, PhoneKind), "; ")
            && row.emails == Join(Select(m, rest, EmailKind), "; ")
            && row.languages == Join(Select(m, rest, LanguageKind), "; ")
            && row.additionalInfo == Join(Select(m, rest, OtherKind), "; ")
  {
    var ts := Tokens(ContactOf(entry).value);
    ClassifyByKind(m, ts[ReadHead(ts).next..]);
  }
}
