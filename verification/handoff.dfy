/** The file the scraper writes and both post-processors read: a list of
    objects with a "url" and a "contact" member. */
module Handoff {
  import opened Common
  import opened Json
  import opened PyStr
  import opened ResultExtractor
  import ContactParser
  import CsvSplitter
  import ContactPatterns

  /** `{"url": url, "contact": contact_text}` as appended by the scraper. */
  function RecordJson(r: Record): (j: Json)
    ensures j.JObject? && |j.members| == 2
    ensures Get(j.members, "url") == Some(JString(r.url))
    ensures Get(j.members, "contact") == Some(r.contact)
  {
    var ms := [("url", JString(r.url)), ("contact", r.contact)];
    GetAt(ms, 1);
    GetAt(ms, 0);
    JObject(ms)
  }

  /** The entries of the saved file, in record order. */
  function Entries(records: seq<Record>): (es: seq<Json>)
    ensures |es| == |records|
    ensures forall i :: 0 <= i < |records| ==> es[i] == RecordJson(records[i])
  {
    seq(|records|, i requires 0 <= i < |records| => RecordJson(records[i]))
  }

  predicate AllTextContacts(records: seq<Record>) {
    forall i :: 0 <= i < |records| ==> records[i].contact.JString?
  }

  /** The tab classifier accepts the scraper's file exactly when every
      contact is text (the sentinel included); each row then carries its
      record's URL. A contact taken from a non-string "text" member makes
      `.split` raise. */
  lemma TabRowsFollowRecords(m: ContactPatterns.Markers, records: seq<Record>)
    ensures ContactParser.StructureAll(m, Entries(records)).Ok? <==> AllTextContacts(records)
    ensures ContactParser.StructureAll(m, Entries(records)).Ok? ==>
              forall i :: 0 <= i < |records| ==>
                ContactParser.StructureAll(m, Entries(records)).value[i].url == JString(records[i].url)
  {
    var es := Entries(records);
    forall i | 0 <= i < |records|
      ensures ContactParser.StructureEntry(m, es[i]).Ok? <==> records[i].contact.JString?
    {
      assert GetOr(es[i].members, "contact", JString("")) == records[i].contact;
    }
  }

  /** The line splitter accepts the scraper's file exactly when every contact
      is text, and keeps each record's URL. */
  lemma LineRowsFollowRecords(records: seq<Record>)
    ensures CsvSplitter.SplitAll(Entries(records)).Ok? <==> AllTextContacts(records)
    ensures CsvSplitter.SplitAll(Entries(records)).Ok? ==>
              forall i :: 0 <= i < |records| ==>
                CsvSplitter.SplitAll(Entries(records)).value[i].url == JString(records[i].url)
  {
    var es := Entries(records);
    forall i | 0 <= i < |records|
      ensures CsvSplitter.SplitEntry(es[i]).Ok? <==> records[i].contact.JString?
    {
      assert HasKey(es[i].members, "url");
    }
  }

  /** A URL the scraper found nothing for becomes a tab-classifier row whose
      label is the sentinel text and whose other cells are empty. */
  lemma SentinelRow(m: ContactPatterns.Markers, url: string)
    ensures var row := ContactParser.StructureEntry(m, RecordJson(Record(url, Sentinel))).value;
            && ContactParser.StructureEntry(m, RecordJson(Record(url, Sentinel))).Ok?
            && row.labelText == NoText && row.company == "" && row.phones == ""
  {
    var ts := [NoText];
    assert NoText[0] == 'N' && NoText[|NoText| - 1] == 'e';
    assert Trimmed(NoText);
    assert '\t' !in NoText;
    assert Join(ts, "\t") == NoText;
    ContactParser.RowOfCleanContact(m, RecordJson(Record(url, Sentinel)), ts);
    ContactParser.TokensOfJoin(ts);
    assert ContactParser.ReadHead(ts).next == 1;
    assert ContactParser.Classify(m, ts[1..]) == ContactParser.NoBuckets;
  }
}
