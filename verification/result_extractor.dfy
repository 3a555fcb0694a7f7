/** `process_result` of the scraper: picks one contact text out of a job result
    whose shape the service does not guarantee, and appends one output record. */
module ResultExtractor {
  import opened Common
  import opened Json
  import opened PyStr
  import JobClient

  /** The text recorded when no contact can be determined. */
  const NoText: string := "No text available"
  const Sentinel: Json := JString(NoText)

  /** One output record `{"url": ..., "contact": ...}`. The contact is usually
      a string but is whatever JSON value the result's `text` field held. */
  datatype Record = Record(url: string, contact: Json)

  /** A result key names the scraped URL when both agree after `rstrip('/')`. */
  predicate KeyMatches(key: string, url: string) {
    RightStripChar(key, '/') == RightStripChar(url, '/')
  }

  /** Matching ignores any number of trailing slashes on either side, and
      nothing else. */
  lemma KeyMatchesIff(key: string, url: string)
    ensures KeyMatches(key, url) <==> SameUpToTrailing(key, url, '/')
  {
    RightStripCharEqualIff(key, url, '/');
  }

  /** The first member (in document order) whose key matches `url`. */
  function FirstMatchingKey(ms: seq<(string, Json)>, url: string): (k: Option<string>)
    ensures k.None? <==> forall i :: 0 <= i < |ms| ==> !KeyMatches(ms[i].0, url)
    ensures k.Some? ==> exists i :: 0 <= i < |ms| && ms[i].0 == k.value && KeyMatches(k.value, url) &&
                                    forall j :: 0 <= j < i ==> !KeyMatches(ms[j].0, url)
  {
    if |ms| == 0 then None
    else if KeyMatches(ms[0].0, url) then Some(ms[0].0)
    else
      var k := FirstMatchingKey(ms[1..], url);
      assert forall i :: 1 <= i < |ms| ==> ms[1..][i - 1] == ms[i];
      k
  }

  /** `x[0]` on a truthy value: a list gives its first item, a string its first
      character; indexing a dict by 0, a number or `True` raises. */
  function FirstElement(v: Json): (r: Eval<Json>)
    requires Truthy(v)
    ensures r.Ok? <==> v.JArray? || v.JString?
    ensures v.JArray? ==> r == Ok(v.items[0])
    ensures v.JString? ==> r == Ok(JString([v.str[0]]))
  {
    match v
    case JArray(xs) => Ok(xs[0])
    case JString(s) => Ok(JString([s[0]]))
    case _ => Raises
  }

  /** The text a first element gives: an object its `text` field (sentinel when
      absent), a string itself; anything else leaves the text as it was. */
  function TextOf(first: Json): Option<Json> {
    match first
    case JObject(ms) => Some(GetOr(ms, "text", Sentinel))
    case JString(_) => Some(first)
    case _ => None
  }

  /** Reading `ContactSection` out of the data stored for a URL: None keeps
      the current text (section missing or empty, or an unusable element). */
  function SectionUpdate(data: Json): (r: Eval<Option<Json>>)
    ensures !data.JObject? ==> r == Raises
    ensures data.JObject? && !Truthy(GetOr(data.members, JobClient.ContactSectionName, JArray([]))) ==>
              r == Ok(None)
    ensures data.JObject? ==>
              var section := GetOr(data.members, JobClient.ContactSectionName, JArray([]));
              section.JArray? && |section.items| > 0 ==> r == Ok(TextOf(section.items[0]))
    ensures data.JObject? ==>
              var section := GetOr(data.members, JobClient.ContactSectionName, JArray([]));
              Truthy(section) && !section.JArray? ==>
                (r.Raises? <==> !section.JString?) &&
                (section.JString? ==> r == Ok(Some(JString([section.str[0]]))))
  {
    if !data.JObject? then Raises
    else
      var section := GetOr(data.members, JobClient.ContactSectionName, JArray([]));
      if !Truthy(section) then Ok(None)
      else match FirstElement(section)
        case Raises => Raises
        case Ok(first) => Ok(TextOf(first))
  }

  /** One item of a list result: only the first key matching `url` is read. */
  function ItemUpdate(item: Json, url: string): (r: Eval<Option<Json>>)
    ensures !item.JObject? ==> r == Ok(None)
    ensures item.JObject? && FirstMatchingKey(item.members, url).None? ==> r == Ok(None)
  {
    if !item.JObject? then Ok(None)
    else match FirstMatchingKey(item.members, url)
      case None => Ok(None)
      case Some(key) => SectionUpdate(Get(item.members, key).value)
  }

  /** The loop over a list result, from the current text on. Items are
      scanned to the end: a later match overwrites an earlier one. */
  function ScanItems(items: seq<Json>, url: string, current: Json): Eval<Json> {
    if |items| == 0 then Ok(current)
    else match ItemUpdate(items[0], url)
      case Raises => Raises
      case Ok(None) => ScanItems(items[1..], url, current)
      case Ok(Some(text)) => ScanItems(items[1..], url, text)
  }

  /** The contact text `process_result` settles on; `result` is None when
      polling returned None. */
  function ContactText(result: Option<Json>, url: string): (r: Eval<Json>)
    ensures result.None? ==> r == Ok(Sentinel)
    ensures result.Some? && !Truthy(result.value) ==> r == Ok(Sentinel)
    ensures result.Some? && Truthy(result.value) && !result.value.JArray? && !result.value.JObject? ==>
              r == Ok(Sentinel)
  {
    match result
    case None => Ok(Sentinel)
    case Some(v) =>
      if !Truthy(v) then Ok(Sentinel)
      else match v
        case JArray(items) => ScanItems(items, url, Sentinel)
        case JObject(_) =>
          (match SectionUpdate(v)
           case Raises => Raises
           case Ok(t) => Ok(t.GetOr(Sentinel)))
        case _ => Ok(Sentinel)
  }

  /** `process_result` as a whole: exactly one record, for `url`, is appended
      and the records already there are kept. */
  function ProcessResult(output: seq<Record>, result: Option<Json>, url: string): (r: Eval<seq<Record>>)
    ensures r.Ok? <==> ContactText(result, url).Ok?
    ensures r.Ok? ==> |r.value| == |output| + 1 && r.value[..|output|] == output
    ensures r.Ok? ==> r.value[|output|] == Record(url, ContactText(result, url).value)
  {
    match ContactText(result, url)
    case Raises => Raises
    case Ok(text) => Ok(output + [Record(url, text)])
  }

  /** An object result: a missing, empty or otherwise falsy "ContactSection"
      records the sentinel; a list section is read through its first element
      (an object's `text`, sentinel when absent; a string itself; anything else
      the sentinel); a string section gives its first character; any other
      truthy section raises. An empty object is falsy and records the
      sentinel too. */
  lemma ObjectResultText(ms: seq<(string, Json)>, url: string)
    ensures var section := GetOr(ms, JobClient.ContactSectionName, JArray([]));
            var r := ContactText(Some(JObject(ms)), url);
            && (!Truthy(section) ==> r == Ok(Sentinel))
            && (Truthy(section) && section.JArray? ==>
                  var first := section.items[0];
                  && (first.JObject? ==> r == Ok(GetOr(first.members, "text", Sentinel)))
                  && (first.JString? ==> r == Ok(first))
                  && (!first.JObject? && !first.JString? ==> r == Ok(Sentinel)))
            && (Truthy(section) && section.JString? ==> r == Ok(JString([section.str[0]])))
            && (Truthy(section) && !section.JArray? && !section.JString? ==> r == Raises)
  {
  }

  // ---------------------------------------------------------------- list results, read backwards

  /** An independent reading of a list result: the text comes from the LAST
      item that sets one, or stays `current` when none does. */
  function LastUpdate(items: seq<Json>, url: string, current: Json): Json {
    if |items| == 0 then current
    else match ItemUpdate(items[|items| - 1], url)
      case Ok(Some(text)) => text
      case _ => LastUpdate(items[..|items| - 1], url, current)
  }

  /** Scanning a list raises exactly when some item raises. */
  lemma {:induction false} ScanItemsRaises(items: seq<Json>, url: string, current: Json)
    ensures ScanItems(items, url, current).Raises? <==>
              exists i :: 0 <= i < |items| && ItemUpdate(items[i], url).Raises?
  {
    if |items| > 0 {
      match ItemUpdate(items[0], url)
      case Raises =>
      case Ok(t) =>
        ScanItemsRaises(items[1..], url, t.GetOr(current));
        assert forall i :: 1 <= i < |items| ==> items[1..][i - 1] == items[i];
        assert forall i :: 0 <= i < |items| - 1 ==> items[1..][i] == items[i + 1];
    }
  }

  lemma {:induction false} ScanItemsSnoc(items: seq<Json>, item: Json, url: string, current: Json)
    requires ScanItems(items, url, current).Ok?
    ensures ScanItems(items + [item], url, current) ==
              match ItemUpdate(item, url)
              case Raises => Raises
              case Ok(None) => ScanItems(items, url, current)
              case Ok(Some(text)) => Ok(text)
  {
    if |items| == 0 {
      assert [item][1..] == [];
    } else {
      assert (items + [item])[0] == items[0];
      assert (items + [item])[1..] == items[1..] + [item];
      match ItemUpdate(items[0], url)
      case Ok(None) => ScanItemsSnoc(items[1..], item, url, current);
      case Ok(Some(text)) => ScanItemsSnoc(items[1..], item, url, text);
    }
  }

  lemma LastUpdateSnoc(front: seq<Json>, last: Json, url: string, current: Json)
    ensures LastUpdate(front + [last], url, current) ==
              match ItemUpdate(last, url)
              case Ok(Some(text)) => text
              case _ => LastUpdate(front, url, current)
  {
    var items := front + [last];
    assert items[..|items| - 1] == front;
  }

  /** Scanning forwards and overwriting is taking the last item that sets a
      text: earlier matches are overwritten by later ones. */
  lemma {:induction false} ScanItemsIsLastUpdate(items: seq<Json>, url: string, current: Json)
    requires forall i :: 0 <= i < |items| ==> ItemUpdate(items[i], url).Ok?
    ensures ScanItems(items, url, current) == Ok(LastUpdate(items, url, current))
  {
    if |items| > 0 {
      var front, last := items[..|items| - 1], items[|items| - 1];
      assert items == front + [last];
      assert forall i :: 0 <= i < |front| ==> front[i] == items[i];
      ScanItemsIsLastUpdate(front, url, current);
      ScanItemsSnoc(front, last, url, current);
      LastUpdateSnoc(front, last, url, current);
    }
  }

  /** A list result whose items all read without raising records the text
      of the last item that sets one, or the sentinel when none does. */
  lemma ListResultText(items: seq<Json>, url: string)
    requires forall i :: 0 <= i < |items| ==> ItemUpdate(items[i], url).Ok?
    ensures ContactText(Some(JArray(items)), url) == Ok(LastUpdate(items, url, Sentinel))
  {
    ScanItemsIsLastUpdate(items, url, Sentinel);
  }

  /** A list result raises exactly when one of its items does. */
  lemma ListResultRaises(items: seq<Json>, url: string)
    ensures ContactText(Some(JArray(items)), url).Raises? <==>
              exists i :: 0 <= i < |items| && ItemUpdate(items[i], url).Raises?
  {
    ScanItemsRaises(items, url, Sentinel);
  }

  /** A list result with no item keyed by the URL records the sentinel. */
  lemma {:induction false} NoMatchingItemGivesSentinel(items: seq<Json>, url: string)
    requires |items| > 0
    requires forall i :: 0 <= i < |items| ==>
               !items[i].JObject? || FirstMatchingKey(items[i].members, url).None?
    ensures ContactText(Some(JArray(items)), url) == Ok(Sentinel)
  {
    ScanItemsIsLastUpdate(items, url, Sentinel);
    NoUpdateKeeps(items, url, Sentinel);
  }

  lemma {:induction false} NoUpdateKeeps(items: seq<Json>, url: string, current: Json)
    requires forall i :: 0 <= i < |items| ==> ItemUpdate(items[i], url) == Ok(None)
    ensures LastUpdate(items, url, current) == current
  {
    if |items| > 0 {
      var front := items[..|items| - 1];
      assert forall i :: 0 <= i < |front| ==> front[i] == items[i];
      NoUpdateKeeps(front, url, current);
    }
  }

  /** The first member whose key matches is found by FirstMatchingKey. */
  lemma {:induction false} FirstMatchAt(before: seq<(string, Json)>, key: string, value: Json,
                                        after: seq<(string, Json)>, url: string)
    requires forall i :: 0 <= i < |before| ==> !KeyMatches(before[i].0, url)
    requires KeyMatches(key, url)
    ensures FirstMatchingKey(before + [(key, value)] + after, url) == Some(key)
  {
    var ms := before + [(key, value)] + after;
    if |before| > 0 {
      assert ms[1..] == before[1..] + [(key, value)] + after;
      FirstMatchAt(before[1..], key, value, after, url);
    }
  }

  /** Within one item only the first matching key counts, and `item[key]`
      reads its last duplicate: other members after it are never read. */
  lemma FirstMatchDecides(before: seq<(string, Json)>, key: string, value: Json,
                          after: seq<(string, Json)>, url: string)
    requires forall i :: 0 <= i < |before| ==> !KeyMatches(before[i].0, url)
    requires KeyMatches(key, url)
    ensures var ms := before + [(key, value)] + after;
            && Get(ms, key).Some?
            && ItemUpdate(JObject(ms), url) == SectionUpdate(Get(ms, key).value)
    ensures !HasKey(after, key) ==>
              ItemUpdate(JObject(before + [(key, value)] + after), url) == SectionUpdate(value)
    ensures HasKey(after, key) ==>
              ItemUpdate(JObject(before + [(key, value)] + after), url) == SectionUpdate(Get(after, key).value)
  {
    var ms := before + [(key, value)] + after;
    FirstMatchAt(before, key, value, after, url);
    assert ms[|before|] == (key, value);
    if HasKey(after, key) {
      GetAppend(before + [(key, value)], after, key);
    } else {
      assert forall j :: |before| < j < |ms| ==> ms[j] == after[j - |before| - 1];
      GetAt(ms, |before|);
    }
  }

  // ---------------------------------------------------------------- worked examples

  /** An object result: the first ContactSection element's text. */
  lemma ObjectResultExample()
    ensures ContactText(Some(JObject([("ContactSection", JArray([JObject([("text", JString("Acme GmbH"))])]))])), "https://x.com")
            == Ok(JString("Acme GmbH"))
  {
  }

  /** A list result keyed by the URL without its trailing slash. */
  lemma ListResultExample()
    ensures ContactText(Some(JArray([JObject([("https://x.com", JObject([("ContactSection", JArray([JString("raw text")]))]))])])), "https://x.com/")
            == Ok(JString("raw text"))
  {
    assert KeyMatches("https://x.com", "https://x.com/");
  }

  /** An empty list result records the sentinel without raising. */
  lemma EmptyListExample(url: string)
    ensures ContactText(Some(JArray([])), url) == Ok(Sentinel)
  {
  }
}
