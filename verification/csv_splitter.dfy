/** The line-based exporter (`extract_csv.py`): each record's contact text is
    cut at line feeds and the lines are read by position. Line 0 is never
    used; lines 1-4 are company, address, postal code and city, and the first
    phone; line 5 is a second phone or an email, depending on whether it holds
    an '@'; everything from line 7 on is joined with spaces as notes. */
module CsvSplitter {
  import opened Common
  import opened Json
  import opened PyStr

  /** One row of the exported sheet; `None` is an empty cell. */
  datatype ContactInfo = ContactInfo(url: Json, company: Option<string>, address: Option<string>,
                                     postalCity: Option<string>, phone1: Option<string>,
                                     phone2: Option<string>, email: Option<string>, notes: Option<string>)

  /** `lines[k] if len(lines) > k else None`. */
  function LineAt(lines: seq<string>, k: nat): (r: Option<string>)
    ensures r.Some? <==> k < |lines|
    ensures r.Some? ==> r.value == lines[k]
  {
    if |lines| > k then Some(lines[k]) else None
  }

  /** The cells read from the lines of one contact. Line 5 is the second
      phone when it has no '@' and the email when it has one; failing that,
      line 6 is the email when it has an '@'. */
  function Fill(url: Json, lines: seq<string>): (c: ContactInfo)
    ensures c.url == url
    ensures c.company == LineAt(lines, 1) && c.address == LineAt(lines, 2)
    ensures c.postalCity == LineAt(lines, 3) && c.phone1 == LineAt(lines, 4)
    ensures |lines| > 5 && '@' in lines[5] ==> c.email == Some(lines[5]) && c.phone2.None?
    ensures |lines| > 5 && '@' !in lines[5] ==> c.phone2 == Some(lines[5])
    ensures c.email.None? <==> forall k :: 5 <= k < |lines| && k <= 6 ==> '@' !in lines[k]
    ensures c.notes.Some? <==> |lines| > 7
    ensures c.phone2.Some? ==> '@' !in c.phone2.value
    ensures c.email.Some? ==> '@' in c.email.value
    ensures c.phone2.Some? || c.email.Some? <==> |lines| > 5
    ensures c.phone2.Some? && c.email.Some? ==> c.email == LineAt(lines, 6)
  {
    ContactInfo(
      url,
      LineAt(lines, 1),
      LineAt(lines, 2),
      LineAt(lines, 3),
      LineAt(lines, 4),
      if |lines| > 5 && '@' !in lines[5] then Some(lines[5]) else None,
      if |lines| > 5 && '@' in lines[5] then Some(lines[5])
      else if |lines| > 6 && '@' in lines[6] then Some(lines[6])
      else None,
      if |lines| > 7 then Some(Join(lines[7..], " ")) else None)
  }

  /** The cells of one contact text. */
  function FillText(url: Json, contact: string): ContactInfo {
    Fill(url, Split(contact, '\n'))
  }

  /** The first line of a contact never reaches the sheet. */
  lemma FirstLineIgnored(url: Json, a: string, b: string, rest: seq<string>)
    ensures Fill(url, [a] + rest) == Fill(url, [b] + rest)
  {
    assert ([a] + rest)[1..] == rest && ([b] + rest)[1..] == rest;
    if |rest| > 6 {
      assert ([a] + rest)[7..] == rest[6..] == ([b] + rest)[7..];
    }
  }

  /** A cell is filled exactly when the contact has enough line feeds: one
      for the company, two for the address, three for postal code and city,
      four for the first phone, five for the second phone or the email, and
      seven for the notes. */
  lemma CellsByLineCount(url: Json, contact: string)
    ensures var c := FillText(url, contact);
            var n := Occurrences(contact, '\n');
            && (c.company.Some? <==> n >= 1)
            && (c.address.Some? <==> n >= 2)
            && (c.postalCity.Some? <==> n >= 3)
            && (c.phone1.Some? <==> n >= 4)
            && (c.phone2.Some? || c.email.Some? <==> n >= 5)
            && (c.notes.Some? <==> n >= 7)
  {
    SplitLength(contact, '\n');
  }

  /** Writing the lines out with line feeds and reading them back gives the
      same cells as the lines themselves. */
  lemma FillOfJoinedLines(url: Json, lines: seq<string>)
    requires |lines| >= 1
    requires forall i :: 0 <= i < |lines| ==> '\n' !in lines[i]
    ensures FillText(url, Join(lines, "\n")) == Fill(url, lines)
    ensures FillText(url, Join(lines, "\n")).company == (if |lines| > 1 then Some(lines[1]) else None)
  {
    SplitJoin(lines, '\n');
  }

  /** The notes are everything after the seventh line feed, with each later
      line feed turned into a space. */
  lemma NotesAreTheRest(url: Json, first: seq<string>, tail: string)
    requires |first| == 7
    requires forall i :: 0 <= i < 7 ==> '\n' !in first[i]
    ensures FillText(url, Join(first, "\n") + "\n" + tail).notes == Some(Replace(tail, '\n', ' '))
  {
    var lines := Split(Join(first, "\n") + "\n" + tail, '\n');
    SplitAfterPieces(first, tail, '\n');
    assert lines[7..] == Split(tail, '\n');
    JoinSplitReplace(tail, '\n', ' ');
  }

  /** One entry of the input: `entry["contact"].split("\n")` and
      `entry["url"]`. A missing key, a contact that is not a string or an
      entry that is not an object raises. */
  function SplitEntry(entry: Json): (r: Eval<ContactInfo>)
    ensures r.Ok? <==> entry.JObject? && HasKey(entry.members, "contact") &&
                       Get(entry.members, "contact").value.JString? && HasKey(entry.members, "url")
    ensures r.Ok? ==> r.value.url == Get(entry.members, "url").value
  {
    if !entry.JObject? then Raises
    else match Get(entry.members, "contact")
      case Some(JString(contact)) =>
        (match Get(entry.members, "url")
         case Some(url) => Ok(FillText(url, contact))
         case None => Raises)
      case _ => Raises
  }

  /** The whole loop: one row per entry, in order; any entry that raises ends
      the script before the sheet is written. */
  function SplitAll(entries: seq<Json>): (r: Eval<seq<ContactInfo>>)
    ensures r.Ok? <==> forall i :: 0 <= i < |entries| ==> SplitEntry(entries[i]).Ok?
    ensures r.Ok? ==> |r.value| == |entries| &&
                      forall i :: 0 <= i < |entries| ==> r.value[i] == SplitEntry(entries[i]).value
  {
    var steps := seq(|entries|, i requires 0 <= i < |entries| => SplitEntry(entries[i]));
    assert forall i :: 0 <= i < |entries| ==> steps[i] == SplitEntry(entries[i]);
    AllOk(steps)
  }
}
