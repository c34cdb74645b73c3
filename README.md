# NetSuite REST client: pagination and status dispatch

A model of the decision logic in `netsuite_all_functions.py`. This is a thin
client for NetSuite's REST web services. Once the HTTP transport is taken
out, two things are left:

- Three **paginated fetchers**:
  - `fetch_all_netsuite_records` pages through a record list.
  - `fetch_all_dataset_records` pages through a SuiteAnalytics dataset.
  - `run_suiteql_query` pages through a SuiteQL query.

  Each one loops, appends every page's `items` to a single list, and moves an
  offset forward. Each uses its own stepping rule and its own end-of-data
  test. All three stop at the first non-200 status and return what they have
  gathered so far.
- Four **single-record operations**: fetch, create, update and delete. Each
  maps the status code of one reply (section 15.3 of RFC 9110) to a body,
  `{}`, `None` or a bool. Create can also recover the new record's id from the
  `Location` header (section 10.2.2 of RFC 9110) with
  `rstrip("/").split("/")[-1]`.

Modules:

- `Values` (values.dfy): `Option`, the parsed `Json` value, and Python's
  truthiness of such a value.
- `Location` (location.dfy): `rstrip("/")`, `split("/")`, `"/".join` and the
  identifier taken from a `Location` header.
- `RecordOps` (record_ops.dfy): the four single-record operations. Each is a
  function of the reply (status, body, `Location`).
- `Paging` (paging.dfy): the three fetchers. Each is a method with a `while`
  loop over a finite **script** of answers, where the i-th request is
  answered by `script[i]`. A method returns three things:
  - the gathered items;
  - the offsets it requested, in order;
  - how the loop ended: `Failed(status)`, `Finished`, or
    `ScriptEnded(nextOffset)`. `ScriptEnded` means the source would send
    another request but the script holds no answer for it.

  Each method is proved against reference functions. `Consumed` gives how many
  answers are read. `Gathered` gives the in-order concatenation of the 200
  pages' items. `PageSizeSum` gives the running item count. `Ending` gives how
  the loop ended.

Notes on what the code does:

- The record-list fetcher takes no page-size parameter.
- Both `hasMore` tests check Python truthiness, not the literal `true`.
- A 204 with an empty `Location` header is treated like a 204 with no header:
  the result is `{}`.
- A header made only of slashes passes `if location:` and yields the id `""`.
- A 200 (or 201) reply whose body is JSON `null` makes `response.json()`
  return `None`. Fetch and update then return the same value a failure
  returns. Create instead raises `AttributeError` when it calls
  `result.get("id")`, as it does for any 200/201 body that is not a JSON
  object; `RecordOps.Outcome` records that as `Raised`.

The contracts below are stated in terms of a few definitions that transcribe
single Python expressions and carry them as their own `ensures`:

- `Values.AsPython` (netsuite_all_functions.py:128) is the object that
  `response.json()` returns: `None` for a JSON `null`, the value otherwise.
- `Paging.ItemsOf` (netsuite_all_functions.py:63) is `data.get("items", [])`.
- `RecordOps.HasLocation` (netsuite_all_functions.py:201-202) is the test
  `if location:`.
- `Paging.Continues` (netsuite_all_functions.py:66, 104, 167) is each loop's
  test for asking again: a 200 page with a truthy `hasMore`, or, for SuiteQL,
  a 200 page with at least 1000 items.

## Model

| member | source | states |
|---|---|---|
| `Location.StripTrailingSlashes` | netsuite_all_functions.py:203 | `rstrip("/")` keeps a prefix of the header that is empty or ends in a non-slash, and everything it removes is a slash |
| `Location.Split` | netsuite_all_functions.py:203 | `split("/")` always yields at least one piece, and no piece contains a slash |
| `Location.JoinSplit` | netsuite_all_functions.py:203 | joining the pieces of a split with `/` gives back the original string |
| `Location.SplitJoin` | netsuite_all_functions.py:203 | splitting the `/`-join of slash-free pieces gives back those pieces, so split and join are inverses |
| `Location.LastSegmentIsSuffix` | netsuite_all_functions.py:203 | the last piece of a split (`[-1]`) ends the string, and it is either the whole string or comes right after a slash |
| `Location.StripUnique` | netsuite_all_functions.py:203 | `rstrip("/")` applied to a string that does not end in a slash, followed by slashes, returns that string |
| `Location.LocationId` | netsuite_all_functions.py:203 | the id has no slash; it is a suffix of the stripped header and is either the whole stripped header or follows a slash; it is empty exactly when the header is all slashes |
| `Location.LocationIdOfRecordUrl` | netsuite_all_functions.py:201-205 | a header `<base>/<id>` with any number of trailing slashes yields exactly `<id>` |
| `Location.LocationIdExamples` | netsuite_all_functions.py:203 | `.../record/v1/customer/4821` and `.../customer/4821/` both yield `4821` |
| `Values.Truthy` | netsuite_all_functions.py:66 | a `hasMore` value is false exactly when it is one of Python's false JSON objects: `None`, `False`, `0`, `""`, `[]`, `{}` |
| `Paging.HasMore` | netsuite_all_functions.py:66-104 | the `hasMore` test shared by the record list (:66) and the dataset (:104): an absent, `null` or `false` `hasMore` stops the loop and `true` continues it |
| `RecordOps.FetchRecordById` | netsuite_all_functions.py:127-132 | the result is the body exactly when the status is 200 and the body is not `null`, and `None` otherwise |
| `RecordOps.CreateRecord` | netsuite_all_functions.py:193-213 | a 200 or 201 returns the body when it is a JSON object, and raises exactly when it is not (`result.get("id")`); a 204 with a non-empty `Location` returns `{"id": <last segment>}`; a 204 without one returns `{}`; the result is `None` exactly when the status is not 200, 201 or 204 |
| `RecordOps.UpdateRecord` | netsuite_all_functions.py:234-242 | 200 or 201 gives the body, or `None` for a `null` body; 204 gives `{}`; the result is `None` exactly when the status is not 200, 201 or 204, or the body of a 200/201 is `null` |
| `RecordOps.DeleteRecord` | netsuite_all_functions.py:261-267 | the result is true exactly when the status is 204 |
| `RecordOps.SuccessImplies2xx` | netsuite_all_functions.py:127-267 | no operation reports success for a status outside 2xx; a 202 is a failure for all four |
| `RecordOps.NullBodyLooksLikeFailure` | netsuite_all_functions.py:127-242 | a 200/201 with a `null` body gives fetch and update the same `None` as a failing status, while create raises on it and returns `None` on the failure |
| `RecordOps.CreateAgreesWithUpdate` | netsuite_all_functions.py:194-242 | create returns what update returns for a reply exactly when it is neither a 204 with a usable `Location` nor a 200/201 whose body is not a JSON object (where create raises) |
| `RecordOps.CreateRecoversAssignedId` | netsuite_all_functions.py:200-205 | a 204 whose `Location` is `<base>/<id>`, with trailing slashes allowed, makes create return `{"id": id}` |
| `RecordOps.CreateWithoutLocation` | netsuite_all_functions.py:200-208 | a 204 with no header, or an empty one, gives `{}`, which is not `None`; a header of only slashes gives `{"id": ""}` |
| `Paging.HasMoreIsTruthiness` | netsuite_all_functions.py:66-104 | the loop goes on exactly when `hasMore` is present and not one of Python's false values; `"false"` as a string continues it |
| `Paging.Consumed` | netsuite_all_functions.py:57-67 | the number of answers read is at most the script length; every answer before the last one read continues the loop; if the loop stops early, the last answer read does not continue it |
| `Paging.FetchAllRecords` | netsuite_all_functions.py:37-71 | reads `Consumed` answers; the result is the in-order items of the 200 pages read; request k is at the item count of pages before it, starting at 0; every page but the last was a 200 with truthy `hasMore`; the loop ends `Failed(status)` on a non-200, `Finished` on a 200 without truthy `hasMore`, and otherwise `ScriptEnded` at the next offset; a failed first answer gives `[]` after one request at offset 0 |
| `Paging.FetchAllDatasetRecords` | netsuite_all_functions.py:73-109 | the same as the record list, except that request k is at offset `k * limit` whatever the pages held; `limit` defaults to 1000 |
| `Paging.RunSuiteQLQuery` | netsuite_all_functions.py:134-176 | request k is at offset `k * 1000`; every page before the last one read was a 200 with at least 1000 items; a page with fewer than 1000 items finishes the loop; a non-200 fails it; the result is the in-order items gathered |
| `Paging.GatheredAppend` | netsuite_all_functions.py:62-64 | gathering is concatenation in page order: `Gathered(a + b) == Gathered(a) + Gathered(b)` |
| `Paging.GatheredLength` | netsuite_all_functions.py:62-69 | over 200 pages, the number of items gathered is the sum of the page sizes, so a record-list offset equals the number of records received before it |
| `Paging.LaterPagesIgnored` | netsuite_all_functions.py:57-60 | once an answer stops the loop, answers after it are never read and do not change the result |
| `Paging.RecordListStalls` | netsuite_all_functions.py:66-69 | 200 answers with `hasMore` true and no items are read without end: for every script length, every request is at offset 0, nothing is gathered, and the loop still asks again at offset 0 |
| `Paging.FullPagesAlignOffsets` | netsuite_all_functions.py:104-107 | when every page holds exactly `limit` items, the dataset offset `k * limit` equals the number of items received |
| `Paging.ShortPageRunsAhead` | netsuite_all_functions.py:104-107 | if pages hold at most `limit` items and one holds fewer, the dataset offset moves past the number of items received |
| `Paging.ThreePageScenario` | netsuite_all_functions.py:50-71 | pages of 1000, 1000 and 250 items with `hasMore` true, true, false take three requests at 0, 1000 and 2000 and gather 2250 items; the end-of-data test of all three fetchers finishes there |

## Left out

- Loading `.env` and building the OAuth1 signer (netsuite_all_functions.py:1-33). This is configuration plus a foreign library that does HMAC signing. The `auth` parameter is dropped.
- The `requests.get/post/patch/delete` calls and `response.json()`. The model replaces them with an answer datatype (`Paging.Page`, `RecordOps.Reply`). Network exceptions and JSON decoding errors, which propagate in the source, are not modelled.
- URL building from the company id, endpoint, record id, dataset id and query string. Also the `Content-Type`, `Prefer: transient` headers and the `{"q": ...}` payload. None of them affect a decision. Only the offset of each request is recorded.
- The `print` diagnostics. They are output only.
- Non-termination. Each fetcher runs over a finite script. A loop that would keep asking ends with `ScriptEnded`, which records the offset of the request that would come next. `RecordListStalls` shows that no script length is ever enough.
- Pages whose `items` is present but is not a list. A string or object `items` is extended element by element (characters, or keys) and counted that way by `len(items)`; a `null`, number or bool `items` makes `extend` raise. `Paging.Page.items` can only hold a list, so none of these can be represented.
- Page bodies that are not JSON objects. `data.get` raises for them in the source.
- JSON numbers are integers. Floats, and the falsiness of `0.0`, are not modelled.
- Python's `split` and `rstrip` are modelled for the one-character separator `/` only, which is the only one the source uses.

