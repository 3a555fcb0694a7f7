/** The scraper's main loop: for each URL in order, submit a job, poll it to
    the end, extract the contact text and append one record. */
module Pipeline {
  import opened Common
  import opened Json
  import opened JobClient
  import opened ResultExtractor

  /** Everything the job service answers while one URL is handled: the replies
      to the (up to three) submission requests and to the status requests. */
  datatype Exchange = Exchange(submitReplies: seq<SubmitReply>, statusReplies: seq<StatusReply>)

  predicate WellFormed(ex: Exchange) {
    MaxRetries <= |ex.submitReplies|
  }

  /** How handling one URL ends. */
  datatype Visit =
    | Skipped              // submission gave no id: logged, no record
    | Emitted(record: Record)
    | Raised               // an exception nothing in the loop catches
    | Blocked              // polling never reaches a terminal status

  function VisitUrl(url: string, ex: Exchange): (v: Visit)
    requires WellFormed(ex)
    ensures v.Skipped? <==> Submit(ex.submitReplies).outcome.NotSubmitted?
    ensures v.Emitted? <==> Submit(ex.submitReplies).outcome.Submitted? && Poll(ex.statusReplies).Finished? &&
                            ContactText(Poll(ex.statusReplies).result, url).Ok?
    ensures v.Emitted? ==> v.record == Record(url, ContactText(Poll(ex.statusReplies).result, url).value)
    ensures v.Blocked? <==> Submit(ex.submitReplies).outcome.Submitted? && Poll(ex.statusReplies).Waiting?
    ensures v.Raised? <==> Submit(ex.submitReplies).outcome.SubmitRaised? ||
                           (Submit(ex.submitReplies).outcome.Submitted? && Poll(ex.statusReplies).Finished? &&
                            ContactText(Poll(ex.statusReplies).result, url).Raises?)
  {
    match Submit(ex.submitReplies).outcome
    case NotSubmitted => Skipped
    case SubmitRaised => Raised
    case Submitted(_) =>
      match Poll(ex.statusReplies)
      case Waiting => Blocked
      case Finished(result, _) =>
        match ContactText(result, url)
        case Raises => Raised
        case Ok(text) => Emitted(Record(url, text))
  }

  /** Once a submitted job finishes polling, the visit's record is exactly what
      `process_result` appends to the records so far, and the visit raises
      exactly when `process_result` does. */
  lemma VisitGoesThroughProcessResult(url: string, ex: Exchange, output: seq<Record>)
    requires WellFormed(ex)
    ensures Submit(ex.submitReplies).outcome.Submitted? && Poll(ex.statusReplies).Finished? ==>
            var r := ProcessResult(output, Poll(ex.statusReplies).result, url);
            && (VisitUrl(url, ex).Raised? <==> r.Raises?)
            && (VisitUrl(url, ex).Emitted? <==> r.Ok?)
            && (VisitUrl(url, ex).Emitted? ==> r == Ok(output + [VisitUrl(url, ex).record]))
  {
  }

  predicate Continues(v: Visit) {
    v.Skipped? || v.Emitted?
  }

  /** The run as a whole and the records written by the `finally` clause. */
  datatype RunOutcome =
    | Done(records: seq<Record>)
    | Aborted(records: seq<Record>)    // an exception ended the loop; records so far are saved
    | Stuck(records: seq<Record>)      // still polling; nothing has been saved yet

  function Prepend(r: Record, o: RunOutcome): RunOutcome {
    o.(records := [r] + o.records)
  }

  /** How each URL's handling would end, in input order. */
  function Visits(urls: seq<string>, exs: seq<Exchange>): (vs: seq<Visit>)
    requires |urls| == |exs|
    requires forall i :: 0 <= i < |exs| ==> WellFormed(exs[i])
    ensures |vs| == |urls|
    ensures forall i :: 0 <= i < |urls| ==> vs[i] == VisitUrl(urls[i], exs[i])
  {
    seq(|urls|, i requires 0 <= i < |urls| && WellFormed(exs[i]) => VisitUrl(urls[i], exs[i]))
  }

  /** The loop over the visits: a skipped URL adds nothing, an emitted record
      is appended, and the first exception or endless poll ends the loop. */
  function Collect(vs: seq<Visit>): (o: RunOutcome)
    ensures |o.records| <= |vs|
  {
    if |vs| == 0 then Done([])
    else match vs[0]
      case Skipped => Collect(vs[1..])
      case Emitted(r) => Prepend(r, Collect(vs[1..]))
      case Raised => Aborted([])
      case Blocked => Stuck([])
  }

  /** The scraper's main loop over `urls`; `exs[i]` is the service's side of
      handling `urls[i]`. */
  function Run(urls: seq<string>, exs: seq<Exchange>): (o: RunOutcome)
    requires |urls| == |exs|
    requires forall i :: 0 <= i < |exs| ==> WellFormed(exs[i])
    ensures |o.records| <= |urls|
  {
    Collect(Visits(urls, exs))
  }

  /** The URLs, in input order, whose submission returned an id. */
  function SubmittedUrls(urls: seq<string>, exs: seq<Exchange>): seq<string>
    requires |urls| == |exs|
    requires forall i :: 0 <= i < |exs| ==> WellFormed(exs[i])
  {
    if |urls| == 0 then []
    else
      assert WellFormed(exs[0]);
      assert forall i :: 0 <= i < |exs| - 1 ==> exs[1..][i] == exs[i + 1];
      var rest := SubmittedUrls(urls[1..], exs[1..]);
      if Submit(exs[0].submitReplies).outcome.Submitted? then [urls[0]] + rest else rest
  }

  /** The records a complete run should hold, read straight off the replies:
      for each URL in order whose submission returned an id, the contact text
      extracted from what polling returned. */
  function RepliedRecords(urls: seq<string>, exs: seq<Exchange>): seq<Record>
    requires |urls| == |exs|
    requires forall i :: 0 <= i < |exs| ==> WellFormed(exs[i])
  {
    if |urls| == 0 then []
    else
      assert WellFormed(exs[0]);
      assert forall i :: 0 <= i < |exs| - 1 ==> exs[1..][i] == exs[i + 1];
      var rest := RepliedRecords(urls[1..], exs[1..]);
      var ex := exs[0];
      if Submit(ex.submitReplies).outcome.Submitted? && Poll(ex.statusReplies).Finished? &&
         ContactText(Poll(ex.statusReplies).result, urls[0]).Ok?
      then [Record(urls[0], ContactText(Poll(ex.statusReplies).result, urls[0]).value)] + rest
      else rest
  }

  function Urls(records: seq<Record>): seq<string> {
    if |records| == 0 then [] else [records[0].url] + Urls(records[1..])
  }

  lemma VisitsTail(urls: seq<string>, exs: seq<Exchange>)
    requires |urls| == |exs| > 0
    requires forall i :: 0 <= i < |exs| ==> WellFormed(exs[i])
    ensures forall i :: 0 <= i < |exs| - 1 ==> WellFormed(exs[1..][i])
    ensures Visits(urls, exs)[1..] == Visits(urls[1..], exs[1..])
  {
    assert forall i :: 0 <= i < |exs| - 1 ==> exs[1..][i] == exs[i + 1];
  }

  /** The loop completes exactly when no visit raises or blocks. */
  lemma {:induction false} CollectDoneIff(vs: seq<Visit>)
    ensures Collect(vs).Done? <==> forall i :: 0 <= i < |vs| ==> Continues(vs[i])
  {
    if |vs| > 0 {
      CollectDoneIff(vs[1..]);
      assert forall i :: 1 <= i < |vs| ==> vs[1..][i - 1] == vs[i];
    }
  }

  /** The run completes exactly when no URL raises or blocks. */
  lemma RunDoneIff(urls: seq<string>, exs: seq<Exchange>)
    requires |urls| == |exs|
    requires forall i :: 0 <= i < |exs| ==> WellFormed(exs[i])
    ensures Run(urls, exs).Done? <==> forall i :: 0 <= i < |urls| ==> Continues(VisitUrl(urls[i], exs[i]))
  {
    CollectDoneIff(Visits(urls, exs));
  }

  /** A completed run holds a record for exactly the URLs whose submission
      returned an id, in input order. */
  lemma {:induction false} RunRecordsFollowSubmissions(urls: seq<string>, exs: seq<Exchange>)
    requires |urls| == |exs|
    requires forall i :: 0 <= i < |exs| ==> WellFormed(exs[i])
    requires Run(urls, exs).Done?
    ensures Urls(Run(urls, exs).records) == SubmittedUrls(urls, exs)
  {
    if |urls| > 0 {
      var vs := Visits(urls, exs);
      VisitsTail(urls, exs);
      var rest := Collect(vs[1..]);
      if vs[0].Skipped? {
        assert Run(urls, exs) == rest;
        RunRecordsFollowSubmissions(urls[1..], exs[1..]);
      } else {
        assert vs[0].Emitted?;
        assert Run(urls, exs) == Prepend(vs[0].record, rest);
        RunRecordsFollowSubmissions(urls[1..], exs[1..]);
        assert ([vs[0].record] + rest.records)[1..] == rest.records;
      }
    }
  }

  /** A completed run holds, in input order, one record per submitted URL,
      whose contact is what `process_result` extracts from the polled result. */
  lemma {:induction false} RunRecordsFollowReplies(urls: seq<string>, exs: seq<Exchange>)
    requires |urls| == |exs|
    requires forall i :: 0 <= i < |exs| ==> WellFormed(exs[i])
    requires Run(urls, exs).Done?
    ensures Run(urls, exs).records == RepliedRecords(urls, exs)
  {
    if |urls| > 0 {
      var vs := Visits(urls, exs);
      VisitsTail(urls, exs);
      var rest := Collect(vs[1..]);
      if vs[0].Skipped? {
        assert Run(urls, exs) == rest;
      } else {
        assert vs[0].Emitted?;
        assert Run(urls, exs) == Prepend(vs[0].record, rest);
      }
      RunRecordsFollowReplies(urls[1..], exs[1..]);
    }
  }

  /** A loop that stops at visit `k` keeps the records of the visits before it. */
  lemma {:induction false} CollectStopsAt(vs: seq<Visit>, k: nat)
    requires k < |vs|
    requires forall i :: 0 <= i < k ==> Continues(vs[i])
    requires !Continues(vs[k])
    ensures Collect(vs).records == Collect(vs[..k]).records
    ensures Collect(vs).Aborted? <==> vs[k].Raised?
    ensures Collect(vs).Stuck? <==> vs[k].Blocked?
  {
    if k > 0 {
      assert vs[..k][1..] == vs[1..][..k - 1];
      assert forall i :: 0 <= i < |vs| - 1 ==> vs[1..][i] == vs[i + 1];
      CollectStopsAt(vs[1..], k - 1);
    }
  }

  /** When URL `k` raises or blocks, the run ends there and the records saved
      are those of the URLs before it: partial results are kept. */
  lemma RunKeepsEarlierRecords(urls: seq<string>, exs: seq<Exchange>, k: nat)
    requires |urls| == |exs|
    requires forall i :: 0 <= i < |exs| ==> WellFormed(exs[i])
    requires k < |urls|
    requires forall i :: 0 <= i < k ==> Continues(VisitUrl(urls[i], exs[i]))
    requires !Continues(VisitUrl(urls[k], exs[k]))
    ensures Run(urls, exs).records == Run(urls[..k], exs[..k]).records
    ensures Run(urls, exs).Aborted? <==> VisitUrl(urls[k], exs[k]).Raised?
    ensures Run(urls, exs).Stuck? <==> VisitUrl(urls[k], exs[k]).Blocked?
  {
    var vs := Visits(urls, exs);
    CollectStopsAt(vs, k);
    assert Visits(urls[..k], exs[..k]) == vs[..k];
  }

  /** A job that ends "Failed" still gives its URL a record, with the sentinel
      text. */
  lemma FailedJobGivesSentinel(url: string, ex: Exchange)
    requires WellFormed(ex)
    ensures Submit(ex.submitReplies).outcome.Submitted? &&
            Poll(ex.statusReplies).Finished? && Poll(ex.statusReplies).result.None? ==>
            VisitUrl(url, ex) == Emitted(Record(url, Sentinel))
  {
  }

  /** Three replies with no usable id: nothing is submitted and the URL is
      skipped. */
  lemma EmptyIdsSkipUrl(url: string, statusReplies: seq<StatusReply>)
    ensures var ex := Exchange([SubmitBody(JObject([])), SubmitBody(JObject([("id", JString(""))])),
                                SubmitBody(JObject([("id", JNull)]))], statusReplies);
            VisitUrl(url, ex) == Skipped
  {
  }
}
