# Saved-media link opener, modelled in Dafny

`open_links.py` reads a Snapchat "saved memories" export and opens every
download link in it in a new browser tab. This project models the part of
`open_links_from_json` that comes after the file is parsed:

1. the structure check: the document must hold a list under `'Saved Media'`;
2. the filter loop: walk that list in order and keep the value under
   `'Media Download Url'` of each item that is a dictionary holding that key,
   whose value is a string starting with `http://` or `https://`;
3. the empty check: with no link kept, stop with "no valid links";
4. the open loop: one "open in a new tab" call per kept link, in order,
   each announced as "Opening link i/total" with i running from 1.

Files:

- `Json.dfy` (module `Json`): the parsed JSON value. Objects are
  `map<string, Json>`, as a Python `dict` is after `json.load`.
- `OpenLinks.dfy` (module `OpenLinks`): the two configuration constants,
  the specification functions, the lemmas about them, and the program's
  two loops as methods proved against those functions.

The specification is stated as functions on values. `MediaItems` is the
structure check. `ItemUrl` is the per-item filter. `Links` is the kept
links in order. `QualifyingIndices` independently describes which items
qualify. `OpenCalls` is the announced open calls. `Expected` is the whole
outcome, one of `StructureError`, `NoLinks` or `Opened(calls)`.
`OpenLinksFromJson` follows the Python control flow. `CollectLinks` mirrors
the `links_to_open.append` loop and `OpenAll` mirrors the `enumerate` loop.
The browser is represented by the returned sequence of `OpenCall(progress,
total, url)` records, one per call the program would make.

## Model

| member | source | states |
|---|---|---|
| `OpenLinks.OpenLinksFromJson` | open_links.py:27-61 | the three exits of the function: the outcome is exactly the specified one (structure error, no links, or the ordered open calls) for every parsed document |
| `OpenLinks.CollectLinks` | open_links.py:33-50 | the filter loop collects exactly `Links(items)`: the usable links in encounter order |
| `OpenLinks.OpenAll` | open_links.py:58-61 | one call per link, the k-th call opens the k-th link and announces progress k+1 of the number of links |
| `OpenLinks.QualifyingIndices` | open_links.py:39-44 | the positions of the items that contribute a link: strictly increasing, each one qualifies, and every qualifying position is included |
| `OpenLinks.LinksSelectQualifyingItems` | open_links.py:39-44 | the link list is the URLs of the qualifying items, one per item, in input order, with no deduplication, and its length is the number of qualifying items |
| `OpenLinks.LinksAreWebUrls` | open_links.py:43-44 | every collected link starts with `http://` or `https://` |
| `OpenLinks.ItemUrlCases` | open_links.py:40-50 | a non-dictionary item, an item lacking `'Media Download Url'`, or a non-string value contributes nothing; a string value is kept exactly when it passes the scheme check |
| `OpenLinks.SchemeCheckIsExact` | open_links.py:43 | the prefix test is case-sensitive: `http://x` and `https://x` pass; `HTTP://x`, `Https://x`, `ftp://x`, `http:/x` and the empty string do not |
| `OpenLinks.LinksAppend` | open_links.py:38-44 | the filter is compositional: the links of a concatenation are the concatenation of the links |
| `OpenLinks.SkippedItemContributesNothing` | open_links.py:45-50 | removing an item that does not qualify, wherever it stands, leaves the link list unchanged |
| `OpenLinks.LinksEmptyIff` | open_links.py:39-52 | no link is collected if and only if no item qualifies |
| `OpenLinks.StructureErrorIff` | open_links.py:27-31 | the outcome is a structure error if and only if the document has no list under `'Saved Media'` |
| `OpenLinks.NoLinksIff` | open_links.py:52-54 | the outcome is "no valid links" if and only if the list exists and none of its items qualifies |
| `OpenLinks.OpenCallsInOrder` | open_links.py:59-61 | the n specified open calls are, in order, link k with progress k+1 out of the number of links |
| `OpenLinks.OpenedCallsMatchLinks` | open_links.py:52-61 | when links are opened, there is at least one call, one per collected link, in order, each to a web URL, with progress numbers 1 to the number of links |
| `OpenLinks.ExampleMixedSchemes` | open_links.py:39-61 | items `https://a`, `ftp://b`, `https://c` give the links `["https://a", "https://c"]` and exactly two open calls, in that order |
| `OpenLinks.ExampleDuplicatesKept` | open_links.py:39-61 | the same valid URL in two items is collected twice and opened twice |
| `OpenLinks.ExampleEmptyList` | open_links.py:52-54 | an empty `'Saved Media'` list gives "no valid links" and no open call |

## Left out

- Reading the file and parsing JSON (open_links.py:14-25) are left out. This covers `open`, `json.load`, and the file-not-found, invalid-JSON and unexpected-error reports. The model starts from an already-parsed value. Duplicate keys in an object are therefore already collapsed, as Python's parser does.
- `webbrowser.open_new_tab` (open_links.py:61) is an operating-system side effect. The model records each call it would make in the returned trace.
- The printed text is left out: the diagnostics, "Found n valid links", "Opening link i/total" and the completion banner (open_links.py:29-30, 53, 56, 60, 63). The outcome kind and each call's progress and total numbers stand for them.
- The command-line entry point and its usage text (open_links.py:65-71) are left out.
- `OpenLinks.Expected` treats any top-level value that is not an object as a structure error. In Python, line 28 is outside any `try`. A top-level list or string is tested for membership or as a substring instead. If that test finds `'Saved Media'`, the following subscript raises an uncaught `TypeError`. A top-level number, boolean or `null` raises `TypeError` at once. The model does not reproduce these crashes.
- JSON numbers are modelled as `real`. Python's int/float distinction and NaN/Infinity do not affect the filter and are not modelled.
