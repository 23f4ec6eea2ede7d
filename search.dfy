/**
  The projection performed by the `search_adala` tool (server.py:41-72):
  navigate the decoded response to `pageProps.searchResult.data`, keep the
  first `limit` items with Python's `[:limit]`, turn each item into a flat
  six-field record, and answer with either the serialised list or the fixed
  no-results message. The HTTP request itself is a parameter (`Fetch`).
 */
module Search {
  import opened JsonValue
  import Config

  /** One entry of the result list, keyed in the source as
      title, type, law_type, date, relative_path and download_url. */
  datatype Record = Record(
    title: Json,
    docType: Json,
    lawType: Json,
    date: Json,
    relativePath: Json,
    downloadUrl: string)

  /** What the GET request produced: a decoded body, or an exception
      (transport, `raise_for_status`, or `response.json()`). */
  datatype Fetch = Fetched(body: Json) | FetchFailed

  /** The string the tool returns: the no-results message, `json.dumps` of
      the records (kept symbolic), or "Error connecting to Adala: ..." for the
      fault that was raised. */
  datatype Reply =
    | Message(text: string)
    | Serialized(records: seq<Record>)
    | Failed(fault: Fault)

  const NoResultsMessage: string := "No results found for that keyword."
  const NotAvailable: string := "N/A"

  function Min(a: int, b: int): int { if a <= b then a else b }
  function Max(a: int, b: int): int { if a <= b then b else a }

  // ---------------------------------------------------------------------------
  // Navigation and slicing

  /** The value under `pageProps`, then `searchResult`, then `data`; an absent
      `pageProps` or `searchResult` counts as an empty object and an absent
      `data` as an empty list, and looking into a non-object raises. */
  function Navigate(body: Json): Result<Json> {
    var pageProps :- Get(body, "pageProps", EmptyObject);
    var searchResult :- Get(pageProps, "searchResult", EmptyObject);
    Get(searchResult, "data", EmptyArray)
  }

  /** Python's `s[:limit]`: a stop index at or above the length keeps
      everything, a negative one counts back from the end, clamped at 0. */
  function Take<T>(s: seq<T>, limit: int): (t: seq<T>)
    ensures t <= s
    ensures 0 <= limit ==> |t| == Min(limit, |s|)
    ensures limit < 0 ==> |t| == Max(|s| + limit, 0)
  {
    var stop := if limit < 0 then limit + |s| else limit;
    var end := if stop < 0 then 0 else if stop > |s| then |s| else stop;
    s[..end]
  }

  /** `raw_results[:limit]` followed by iteration: a list yields its items,
      a string yields one-character strings, anything else cannot be sliced. */
  function Items(raw: Json, limit: int): Result<seq<Json>> {
    match raw
    case JArray(a) => Ok(Take(a, limit))
    case JString(s) =>
      var t := Take(s, limit);
      Ok(seq(|t|, k requires 0 <= k < |t| => JString([t[k]])))
    case _ => Err(NotSliceable)
  }

  // ---------------------------------------------------------------------------
  // Per-item projection

  /** The item's download link: the origin, a '/' and the rendered path when
      the path is truthy, otherwise the "N/A" sentinel. */
  function DownloadUrl(path: Json): Result<string> {
    if Truthy(path) then
      var text :- Str(path);
      Ok(Config.BaseUrl + "/" + text)
    else
      Ok(NotAvailable)
  }

  /** The loop body of server.py:53-63. The `.get` calls run in source
      order: on the item, then on `fileMeta` and on `fileMeta.LawType` (the
      second `item.get("fileMeta", {})` returns the dict the first one
      already checked); the first one applied to a non-dict raises. */
  function Project(item: Json): Result<Record> {
    match item
    case JObject(m) =>
      var path := Lookup(m, "path", JNull);
      var url :- DownloadUrl(path);
      var meta := Lookup(m, "fileMeta", EmptyObject);
      (match meta
       case JObject(fm) =>
         var lawType :- Get(Lookup(fm, "LawType", EmptyObject), "name", JNull);
         Ok(Record(
           Lookup(m, "name", JNull),
           Lookup(m, "type", JNull),
           lawType,
           Lookup(fm, "gregorianDate", JNull),
           path,
           url))
       case _ => Err(AttributeError))
    case _ => Err(AttributeError)
  }

  /** The whole loop: records are produced in order and the first item that
      raises aborts the call with its fault. */
  function ProjectAll(items: seq<Json>): Result<seq<Record>> {
    if items == [] then Ok([])
    else
      var head :- Project(items[0]);
      var tail :- ProjectAll(items[1..]);
      Ok([head] + tail)
  }

  /** server.py:66-69. */
  function Respond(records: seq<Record>): Reply {
    if records == [] then Message(NoResultsMessage) else Serialized(records)
  }

  /** Everything inside the `try` once the body is decoded. */
  function Records(body: Json, limit: int): Result<seq<Record>> {
    var raw :- Navigate(body);
    var items :- Items(raw, limit);
    ProjectAll(items)
  }

  /** The reply of `search_adala` for a given outcome of the request. */
  function SearchReply(fetch: Fetch, limit: int): Reply {
    match fetch
    case FetchFailed => Failed(RequestError)
    case Fetched(body) =>
      match Records(body, limit)
      case Err(f) => Failed(f)
      case Ok(records) => Respond(records)
  }

  // ---------------------------------------------------------------------------
  // The tool, written as the source writes it

  /** `search_adala` after the request: the results list is built by a loop
      that appends one record per kept item. */
  method SearchAdala(fetch: Fetch, limit: int := 5) returns (reply: Reply)
    ensures reply == SearchReply(fetch, limit)
  {
    if fetch.FetchFailed? {
      return Failed(RequestError);
    }
    var raw := Navigate(fetch.body);
    if raw.Err? {
      return Failed(raw.fault);
    }
    var items := Items(raw.value, limit);
    if items.Err? {
      return Failed(items.fault);
    }
    var processed: seq<Record> := [];
    var i := 0;
    while i < |items.value|
      invariant 0 <= i <= |items.value|
      invariant ProjectAll(items.value[..i]) == Ok(processed)
    {
      var entry := Project(items.value[i]);
      ProjectAllStep(items.value, i, processed);
      if entry.Err? {
        return Failed(entry.fault);
      }
      processed := processed + [entry.value];
      i := i + 1;
    }
    assert items.value[..i] == items.value;
    if processed == [] {
      return Message(NoResultsMessage);
    }
    return Serialized(processed);
  }

  // ---------------------------------------------------------------------------
  // Properties

  /** Projecting a concatenation projects each part; the first fault wins. */
  lemma {:induction false} ProjectAllAppend(a: seq<Json>, b: seq<Json>)
    ensures ProjectAll(a + b) ==
      match ProjectAll(a)
      case Err(f) => Err(f)
      case Ok(ra) =>
        match ProjectAll(b)
        case Err(f) => Err(f)
        case Ok(rb) => Ok(ra + rb)
  {
    if a == [] {
      assert a + b == b;
      match ProjectAll(b)
      case Err(f) =>
      case Ok(rb) => assert [] + rb == rb;
    } else {
      assert (a + b)[0] == a[0];
      assert (a + b)[1..] == a[1..] + b;
      ProjectAllAppend(a[1..], b);
      match Project(a[0])
      case Err(f) =>
      case Ok(head) =>
        match ProjectAll(a[1..])
        case Err(f) =>
        case Ok(ra) =>
          match ProjectAll(b)
          case Err(f) =>
          case Ok(rb) =>
            assert [head] + (ra + rb) == ([head] + ra) + rb;
    }
  }

  /** One turn of the loop: a raising item aborts the whole projection with
      its fault, otherwise its record extends the records so far. */
  lemma ProjectAllStep(items: seq<Json>, i: nat, processed: seq<Record>)
    requires i < |items| && ProjectAll(items[..i]) == Ok(processed)
    ensures Project(items[i]).Err? ==> ProjectAll(items) == Err(Project(items[i]).fault)
    ensures Project(items[i]).Ok? ==> ProjectAll(items[..i + 1]) == Ok(processed + [Project(items[i]).value])
  {
    var item := items[i];
    ProjectAllAppend(items[..i], items[i..]);
    assert items[..i] + items[i..] == items;
    assert items[i..][0] == item;
    ProjectAllAppend(items[..i], [item]);
    assert items[..i + 1] == items[..i] + [item];
    assert [item][0] == item && [item][1..] == [];
    assert ProjectAll([item][1..]) == Ok([]);
    if Project(item).Ok? {
      assert [Project(item).value] + [] == [Project(item).value];
    }
  }

  /** The loop succeeds exactly when every kept item projects, and then record
      k is the projection of item k: one record per item, in upstream order. */
  lemma {:induction false} ProjectAllSucceeds(items: seq<Json>)
    ensures ProjectAll(items).Ok? <==> forall k :: 0 <= k < |items| ==> Project(items[k]).Ok?
    ensures ProjectAll(items).Ok? ==>
      |ProjectAll(items).value| == |items| &&
      forall k :: 0 <= k < |items| ==> ProjectAll(items).value[k] == Project(items[k]).value
  {
    if items != [] {
      ProjectAllSucceeds(items[1..]);
      assert forall k :: 1 <= k < |items| ==> items[k] == items[1..][k - 1];
    }
  }

  /** When the loop aborts, its fault is that of the first item that raises. */
  lemma {:induction false} ProjectAllFirstFault(items: seq<Json>)
    requires ProjectAll(items).Err?
    ensures exists k :: (0 <= k < |items| && Project(items[k]) == Err(ProjectAll(items).fault) &&
      forall j :: 0 <= j < k ==> Project(items[j]).Ok?)
  {
    if Project(items[0]).Err? {
      assert Project(items[0]) == Err(ProjectAll(items).fault);
    } else {
      ProjectAllFirstFault(items[1..]);
      var k :| 0 <= k < |items[1..]| && Project(items[1..][k]) == Err(ProjectAll(items[1..]).fault) &&
        (forall j :: 0 <= j < k ==> Project(items[1..][j]).Ok?);
      assert Project(items[k + 1]) == Err(ProjectAll(items).fault);
      forall j | 0 <= j < k + 1 ensures Project(items[j]).Ok? {
        if j > 0 { assert items[j] == items[1..][j - 1]; }
      }
    }
  }

  /** The download link depends only on `path`: the sentinel exactly when the
      path is falsy (absent, null, empty), the origin joined to the path when it
      is a non-empty string. */
  lemma DownloadUrlOfPath(path: Json)
    ensures DownloadUrl(path) == Ok(NotAvailable) <==> !Truthy(path)
    ensures path.JString? && path.s != "" ==> DownloadUrl(path) == Ok(Config.BaseUrl + "/" + path.s)
    ensures DownloadUrl(path).Err? <==> Truthy(path) && !Renderable(path)
  {
  }

  /** `At(v, keys)`: the value reached by following `keys` through nested
      objects, null as soon as a key is absent. */
  function At(v: Json, keys: seq<string>): Json
    decreases |keys|
  {
    if keys == [] then v
    else match v
      case JObject(m) => if keys[0] in m then At(m[keys[0]], keys[1..]) else JNull
      case _ => JNull
  }

  /** Every value that `keys` passes through, and that is present, is an object. */
  predicate Walkable(v: Json, keys: seq<string>)
    decreases |keys|
  {
    keys == [] ||
    (v.JObject? && (keys[0] in v.fields ==> Walkable(v.fields[keys[0]], keys[1..])))
  }

  /** An item projects exactly when it is an object whose `fileMeta` and
      `fileMeta.LawType`, where present, are objects and whose truthy `path`
      can be rendered; the record then takes each field from its own key path,
      null where a key is absent, and keeps `path` unchanged. */
  lemma ProjectFields(item: Json)
    ensures Project(item).Ok? <==>
      Walkable(item, ["fileMeta", "LawType", "name"]) &&
      (Truthy(At(item, ["path"])) ==> Renderable(At(item, ["path"])))
    ensures Project(item).Ok? ==>
      var r := Project(item).value;
      r.title == At(item, ["name"]) &&
      r.docType == At(item, ["type"]) &&
      r.lawType == At(item, ["fileMeta", "LawType", "name"]) &&
      r.date == At(item, ["fileMeta", "gregorianDate"]) &&
      r.relativePath == At(item, ["path"]) &&
      DownloadUrl(r.relativePath) == Ok(r.downloadUrl)
  {
  }

  /** With a successful navigation to a list, the reply carries exactly
      `len(data[:limit])` records, record k being the projection of item k;
      it is the no-results message exactly when that slice is empty. */
  lemma SearchOfList(body: Json, limit: int, data: seq<Json>)
    requires Navigate(body) == Ok(JArray(data))
    requires forall k :: 0 <= k < |Take(data, limit)| ==> Project(data[k]).Ok?
    ensures SearchReply(Fetched(body), limit) == Message(NoResultsMessage) <==> Take(data, limit) == []
    ensures SearchReply(Fetched(body), limit).Serialized? <==> Take(data, limit) != []
    ensures SearchReply(Fetched(body), limit).Serialized? ==>
      var rs := SearchReply(Fetched(body), limit).records;
      |rs| == (if 0 <= limit then Min(limit, |data|) else Max(|data| + limit, 0)) &&
      forall k :: 0 <= k < |rs| ==> rs[k] == Project(data[k]).value
  {
    var kept := Take(data, limit);
    assert forall k :: 0 <= k < |kept| ==> kept[k] == data[k];
    ProjectAllSucceeds(kept);
    assert Records(body, limit) == ProjectAll(kept);
  }

  /** Every key of `keys` is present, each in turn inside an object. */
  predicate Reaches(v: Json, keys: seq<string>)
    decreases |keys|
  {
    keys == [] ||
    (v.JObject? && keys[0] in v.fields && Reaches(v.fields[keys[0]], keys[1..]))
  }

  /** Navigation raises exactly when the body, or a present `pageProps` or
      `searchResult`, is not an object. Otherwise it yields `data` when the
      whole key path is present, and the empty list as soon as a key is absent. */
  lemma NavigateFollowsKeys(body: Json)
    ensures Navigate(body).Err? <==> !Walkable(body, ["pageProps", "searchResult", "data"])
    ensures Reaches(body, ["pageProps", "searchResult", "data"]) ==>
      Navigate(body) == Ok(At(body, ["pageProps", "searchResult", "data"]))
    ensures Navigate(body).Ok? && !Reaches(body, ["pageProps", "searchResult", "data"]) ==>
      Navigate(body) == Ok(EmptyArray)
  {
  }

  /** If any of `pageProps`, `searchResult` or `data` is absent, the call
      answers with the no-results message whatever the limit. */
  lemma MissingKeysMeanNoResults(body: Json, limit: int)
    requires body.JObject?
    requires
      "pageProps" !in body.fields ||
      (body.fields["pageProps"].JObject? &&
        ("searchResult" !in body.fields["pageProps"].fields ||
         (body.fields["pageProps"].fields["searchResult"].JObject? &&
          "data" !in body.fields["pageProps"].fields["searchResult"].fields)))
    ensures SearchReply(Fetched(body), limit) == Message(NoResultsMessage)
  {
  }

  /** The message is only ever the no-results text, a serialised answer is
      never an empty list, and the call fails exactly when the request failed,
      navigation or slicing raised, or some kept item does not project. */
  lemma ReplyShape(fetch: Fetch, limit: int)
    ensures SearchReply(fetch, limit).Message? ==> SearchReply(fetch, limit).text == NoResultsMessage
    ensures SearchReply(fetch, limit).Serialized? ==> SearchReply(fetch, limit).records != []
    ensures SearchReply(fetch, limit).Failed? <==>
      fetch.FetchFailed? || Navigate(fetch.body).Err? ||
      Items(Navigate(fetch.body).value, limit).Err? ||
      exists k :: 0 <= k < |Items(Navigate(fetch.body).value, limit).value| &&
        Project(Items(Navigate(fetch.body).value, limit).value[k]).Err?
  {
    if fetch.Fetched? && Navigate(fetch.body).Ok? && Items(Navigate(fetch.body).value, limit).Ok? {
      ProjectAllSucceeds(Items(Navigate(fetch.body).value, limit).value);
    }
  }

  /** A negative limit does not empty the list: it drops the last `-limit`
      items, so the kept items and the dropped tail make the whole list. */
  lemma NegativeLimitDropsTail(data: seq<Json>, limit: int)
    requires limit < 0 && -limit <= |data|
    ensures Take(data, limit) + data[|data| + limit..] == data
    ensures |Take(data, limit)| == |data| + limit
  {
  }

  /** A limit of zero always answers with the no-results message unless
      navigation or slicing raised. */
  lemma ZeroLimitMeansNoResults(body: Json)
    requires Navigate(body).Ok? && Items(Navigate(body).value, 0).Ok?
    ensures SearchReply(Fetched(body), 0) == Message(NoResultsMessage)
  {
  }

  /** A string in place of the list is sliced and iterated character by
      character, so a non-empty slice raises on the first `.get`. */
  lemma StringDataRaises(body: Json, limit: int, s: string)
    requires Navigate(body) == Ok(JString(s))
    requires Take(s, limit) != []
    ensures SearchReply(Fetched(body), limit) == Failed(AttributeError)
  {
  }
}
