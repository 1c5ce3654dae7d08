/**
 * The extract-and-filter step of `open_links_from_json` and the ordered
 * "open in a new tab" calls that follow it.
 *
 * The specification functions (MediaItems, ItemUrl, Links, OpenCalls,
 * Expected) say what the program should produce from a parsed document;
 * the methods (CollectLinks, OpenAll, OpenLinksFromJson) follow the
 * program's own loops and are proved against them.  The browser is not
 * called: each call the program would make is recorded, with its 1-based
 * progress number, in the trace the method returns.
 */
module OpenLinks {
  import opened Json

  datatype Option<T> = None | Some(value: T)

  /** The top-level key whose value should be the list of saved media. */
  const PrimaryListKey: string := "Saved Media"
  /** The key, inside each media item, that holds the link to open. */
  const UrlKeyInItem: string := "Media Download Url"

  const HttpPrefix: string := "http://"
  const HttpsPrefix: string := "https://"

  /** One "open in a new tab" call, with the "Opening link progress/total" it announces. */
  datatype OpenCall = OpenCall(progress: nat, total: nat, url: string)

  /** The three ways the extract-and-open step ends. */
  datatype Outcome =
    | StructureError          // no list under PrimaryListKey
    | NoLinks                 // the list holds no usable link
    | Opened(calls: seq<OpenCall>)

  // ---------------------------------------------------------------------
  // Specification

  /** Python's `s.startswith(prefix)`: a case-sensitive prefix test. */
  predicate StartsWith(s: string, prefix: string)
  {
    |prefix| <= |s| && s[..|prefix|] == prefix
  }

  /** The link validation: the string starts with "http://" or "https://". */
  predicate IsWebUrl(s: string)
  {
    StartsWith(s, HttpPrefix) || StartsWith(s, HttpsPrefix)
  }

  /**
   * The list of media items, when the document is an object that has
   * PrimaryListKey and the value there is a list; None otherwise.
   */
  function MediaItems(data: Json): Option<seq<Json>>
  {
    if data.JObject? && PrimaryListKey in data.fields && data.fields[PrimaryListKey].JArray?
    then Some(data.fields[PrimaryListKey].items)
    else None
  }

  /**
   * The per-item filter: the link an item contributes, if any.  An item
   * contributes only when it is an object holding UrlKeyInItem whose value
   * is a string that passes IsWebUrl.
   */
  function ItemUrl(item: Json): Option<string>
  {
    if item.JObject? && UrlKeyInItem in item.fields then
      var url := item.fields[UrlKeyInItem];
      if url.JString? && IsWebUrl(url.str) then Some(url.str) else None
    else None
  }

  /** Qualifies(item) is true when the item contributes a link. */
  predicate Qualifies(item: Json)
  {
    ItemUrl(item).Some?
  }

  /** The links collected from `items`, in encounter order. */
  function Links(items: seq<Json>): seq<string>
    decreases |items|
  {
    if items == [] then []
    else
      var last := items[|items| - 1];
      Links(items[..|items| - 1]) + (if Qualifies(last) then [ItemUrl(last).value] else [])
  }

  /**
   * The positions of the qualifying items, an independent description of
   * what the filter keeps: strictly increasing, each one qualifies, and
   * every qualifying position is among them.
   */
  function QualifyingIndices(items: seq<Json>): (idx: seq<nat>)
    ensures forall k :: 0 <= k < |idx| ==> idx[k] < |items| && Qualifies(items[idx[k]])
    ensures forall k, l :: 0 <= k < l < |idx| ==> idx[k] < idx[l]
    ensures forall i :: 0 <= i < |items| && Qualifies(items[i]) ==> i in idx
    decreases |items|
  {
    if items == [] then []
    else
      var n := |items| - 1;
      QualifyingIndices(items[..n]) + (if Qualifies(items[n]) then [n] else [])
  }

  /** The calls announcing and opening the first `n` links. */
  function OpenCalls(links: seq<string>, n: nat): seq<OpenCall>
    requires n <= |links|
  {
    if n == 0 then [] else OpenCalls(links, n - 1) + [OpenCall(n, |links|, links[n - 1])]
  }

  /** What the extract-and-open step should produce from a parsed document. */
  function Expected(data: Json): Outcome
  {
    match MediaItems(data)
    case None => StructureError
    case Some(items) =>
      var links := Links(items);
      if links == [] then NoLinks else Opened(OpenCalls(links, |links|))
  }

  // ---------------------------------------------------------------------
  // Properties of the specification

  /** Each of the skip reasons makes an item contribute nothing; only a web URL string is kept. */
  lemma ItemUrlCases(item: Json)
    ensures !item.JObject? ==> ItemUrl(item) == None
    ensures item.JObject? && UrlKeyInItem !in item.fields ==> ItemUrl(item) == None
    ensures (item.JObject? && UrlKeyInItem in item.fields && !item.fields[UrlKeyInItem].JString?)
              ==> ItemUrl(item) == None
    ensures (item.JObject? && UrlKeyInItem in item.fields && item.fields[UrlKeyInItem].JString?)
              ==> ItemUrl(item) == (if IsWebUrl(item.fields[UrlKeyInItem].str)
                                    then Some(item.fields[UrlKeyInItem].str) else None)
  {
  }

  /** A string that differs from the prefix at some position within it does not start with it. */
  lemma DiffersAt(s: string, prefix: string, j: nat)
    requires j < |prefix| && (j < |s| ==> s[j] != prefix[j])
    ensures !StartsWith(s, prefix)
  {
  }

  /** The prefix test is case-sensitive and accepts no other scheme. */
  lemma SchemeCheckIsExact()
    ensures IsWebUrl("http://x") && IsWebUrl("https://x")
    ensures !IsWebUrl("HTTP://x") && !IsWebUrl("Https://x") && !IsWebUrl("ftp://x")
    ensures !IsWebUrl("http:/x") && !IsWebUrl("")
  {
    assert "http://x"[..7] == HttpPrefix;
    assert "https://x"[..8] == HttpsPrefix;
    DiffersAt("HTTP://x", HttpPrefix, 0);
    DiffersAt("HTTP://x", HttpsPrefix, 0);
    DiffersAt("Https://x", HttpPrefix, 0);
    DiffersAt("Https://x", HttpsPrefix, 0);
    DiffersAt("ftp://x", HttpPrefix, 0);
    DiffersAt("ftp://x", HttpsPrefix, 0);
    DiffersAt("http:/x", HttpPrefix, 6);
    DiffersAt("http:/x", HttpsPrefix, 4);
    DiffersAt("", HttpPrefix, 0);
    DiffersAt("", HttpsPrefix, 0);
  }

  /** Every collected link passes the scheme check. */
  lemma {:induction false} LinksAreWebUrls(items: seq<Json>)
    ensures forall k :: 0 <= k < |Links(items)| ==> IsWebUrl(Links(items)[k])
    decreases |items|
  {
    if items != [] {
      LinksAreWebUrls(items[..|items| - 1]);
    }
  }

  /** Collecting over a concatenation concatenates the collected links. */
  lemma {:induction false} LinksAppend(a: seq<Json>, b: seq<Json>)
    ensures Links(a + b) == Links(a) + Links(b)
    decreases |b|
  {
    if b == [] {
      assert a + b == a;
    } else {
      var n := |b| - 1;
      assert (a + b)[..|a + b| - 1] == a + b[..n];
      assert (a + b)[|a + b| - 1] == b[n];
      LinksAppend(a, b[..n]);
    }
  }

  /** An item that does not qualify can be removed without changing the links. */
  lemma SkippedItemContributesNothing(before: seq<Json>, item: Json, after: seq<Json>)
    requires !Qualifies(item)
    ensures Links(before + [item] + after) == Links(before + after)
  {
    LinksAppend(before + [item], after);
    LinksAppend(before, [item]);
    LinksAppend(before, after);
    assert [item][..0] == [];
  }

  /**
   * The links are exactly the URLs of the qualifying items, one per item and
   * in their order: no item is dropped, none reordered, none deduplicated.
   */
  lemma {:induction false} LinksSelectQualifyingItems(items: seq<Json>)
    ensures |Links(items)| == |QualifyingIndices(items)|
    ensures forall k :: 0 <= k < |Links(items)| ==>
              Links(items)[k] == ItemUrl(items[QualifyingIndices(items)[k]]).value
    decreases |items|
  {
    if items != [] {
      var n := |items| - 1;
      LinksSelectQualifyingItems(items[..n]);
      forall k | 0 <= k < |QualifyingIndices(items[..n])|
        ensures items[..n][QualifyingIndices(items[..n])[k]] == items[QualifyingIndices(items[..n])[k]]
      {
      }
    }
  }

  /** Nothing is collected exactly when no item qualifies. */
  lemma {:induction false} LinksEmptyIff(items: seq<Json>)
    ensures Links(items) == [] <==> forall i :: 0 <= i < |items| ==> !Qualifies(items[i])
    decreases |items|
  {
    if items != [] {
      var n := |items| - 1;
      LinksEmptyIff(items[..n]);
      assert forall i :: 0 <= i < n ==> items[..n][i] == items[i];
    }
  }

  /** The k-th call opens the k-th link and announces progress k+1 of the total. */
  lemma {:induction false} OpenCallsInOrder(links: seq<string>, n: nat)
    requires n <= |links|
    ensures |OpenCalls(links, n)| == n
    ensures forall k :: 0 <= k < n ==>
              OpenCalls(links, n)[k] == OpenCall(k + 1, |links|, links[k])
  {
    if n > 0 {
      OpenCallsInOrder(links, n - 1);
    }
  }

  /** A structure error happens exactly when there is no list under PrimaryListKey. */
  lemma StructureErrorIff(data: Json)
    ensures Expected(data) == StructureError <==>
              !(data.JObject? && PrimaryListKey in data.fields && data.fields[PrimaryListKey].JArray?)
  {
  }

  /** "No links" happens exactly when the list exists and none of its items qualifies. */
  lemma NoLinksIff(data: Json)
    ensures Expected(data) == NoLinks <==>
              MediaItems(data).Some? &&
              forall i :: 0 <= i < |MediaItems(data).value| ==> !Qualifies(MediaItems(data).value[i])
  {
    if MediaItems(data).Some? {
      LinksEmptyIff(MediaItems(data).value);
    }
  }

  /**
   * When links are opened, there is one call per collected link, in order,
   * each to a web URL, with progress numbers 1 to the number of links.
   */
  lemma OpenedCallsMatchLinks(data: Json)
    requires Expected(data).Opened?
    ensures MediaItems(data).Some?
    ensures var links := Links(MediaItems(data).value);
            var calls := Expected(data).calls;
            && |calls| == |links| > 0
            && forall k :: 0 <= k < |calls| ==>
                 calls[k] == OpenCall(k + 1, |links|, links[k]) && IsWebUrl(calls[k].url)
  {
    var links := Links(MediaItems(data).value);
    OpenCallsInOrder(links, |links|);
    LinksAreWebUrls(MediaItems(data).value);
  }

  /** A media item whose download URL is the string `url`. */
  function MediaItem(url: string): Json
  {
    JObject(map[UrlKeyInItem := JString(url)])
  }

  /** https://a, ftp://b, https://c: two links, opened in that order. */
  lemma ExampleMixedSchemes()
    ensures var data := JObject(map[PrimaryListKey := JArray([MediaItem("https://a"), MediaItem("ftp://b"), MediaItem("https://c")])]);
            && Links(MediaItems(data).value) == ["https://a", "https://c"]
            && Expected(data) == Opened([OpenCall(1, 2, "https://a"), OpenCall(2, 2, "https://c")])
  {
    var items := [MediaItem("https://a"), MediaItem("ftp://b"), MediaItem("https://c")];
    assert "https://a"[..8] == HttpsPrefix;
    assert "https://c"[..8] == HttpsPrefix;
    DiffersAt("ftp://b", HttpPrefix, 0);
    DiffersAt("ftp://b", HttpsPrefix, 0);
    assert items[..2][..1] == [MediaItem("https://a")];
    assert items[..2][..1][..0] == [];
    assert Links(items[..1]) == ["https://a"];
    assert Links(items[..2]) == ["https://a"];
    assert Links(items) == ["https://a", "https://c"];
    assert OpenCalls(["https://a", "https://c"], 1) == [OpenCall(1, 2, "https://a")];
  }

  /** The same valid URL twice is collected, and opened, twice. */
  lemma ExampleDuplicatesKept()
    ensures var data := JObject(map[PrimaryListKey := JArray([MediaItem("https://a"), MediaItem("https://a")])]);
            Expected(data) == Opened([OpenCall(1, 2, "https://a"), OpenCall(2, 2, "https://a")])
  {
    var item := MediaItem("https://a");
    assert "https://a"[..8] == HttpsPrefix;
    assert [item, item][..1] == [item];
    assert [item][..0] == [];
    assert Links([item]) == ["https://a"];
    assert Links([item, item]) == ["https://a", "https://a"];
    assert OpenCalls(["https://a", "https://a"], 1) == [OpenCall(1, 2, "https://a")];
  }

  /** An empty media list yields "no links" and no call. */
  lemma ExampleEmptyList()
    ensures Expected(JObject(map[PrimaryListKey := JArray([])])) == NoLinks
  {
  }

  // ---------------------------------------------------------------------
  // The program's loops

  /** The filter loop: walk the items in order, appending each usable link. */
  method CollectLinks(mediaItems: seq<Json>) returns (linksToOpen: seq<string>)
    ensures linksToOpen == Links(mediaItems)
  {
    linksToOpen := [];
    for i := 0 to |mediaItems|
      invariant linksToOpen == Links(mediaItems[..i])
    {
      var item := mediaItems[i];
      if item.JObject? && UrlKeyInItem in item.fields {
        var url := item.fields[UrlKeyInItem];
        if url.JString? && (StartsWith(url.str, HttpPrefix) || StartsWith(url.str, HttpsPrefix)) {
          linksToOpen := linksToOpen + [url.str];
        }
      }
      assert mediaItems[..i + 1][..i] == mediaItems[..i];
    }
    assert mediaItems[..|mediaItems|] == mediaItems;
  }

  /** The open loop: one announced "open in a new tab" call per link, in order. */
  method OpenAll(linksToOpen: seq<string>) returns (calls: seq<OpenCall>)
    ensures |calls| == |linksToOpen|
    ensures forall k :: 0 <= k < |calls| ==> calls[k] == OpenCall(k + 1, |linksToOpen|, linksToOpen[k])
  {
    calls := [];
    for i := 0 to |linksToOpen|
      invariant |calls| == i
      invariant forall k :: 0 <= k < i ==> calls[k] == OpenCall(k + 1, |linksToOpen|, linksToOpen[k])
    {
      calls := calls + [OpenCall(i + 1, |linksToOpen|, linksToOpen[i])];
    }
  }

  /** The extract-and-open step of `open_links_from_json`, from a parsed document. */
  method OpenLinksFromJson(data: Json) returns (outcome: Outcome)
    ensures outcome == Expected(data)
  {
    if !(data.JObject? && PrimaryListKey in data.fields && data.fields[PrimaryListKey].JArray?) {
      return StructureError;
    }
    var mediaItems := data.fields[PrimaryListKey].items;
    var linksToOpen := CollectLinks(mediaItems);
    if linksToOpen == [] {
      return NoLinks;
    }
    var calls := OpenAll(linksToOpen);
    OpenCallsInOrder(linksToOpen, |linksToOpen|);
    return Opened(calls);
  }
}
