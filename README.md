# OkHttpUtils: a Dafny model of its locally written logic

OkHttpUtils is a small Android wrapper around the OkHttp client. Almost
everything it does is delegated to library objects (client, request, call,
dispatcher, form and multipart builders). This project models the logic the
wrapper writes itself and proves what that logic promises:

- `ProgressBody` (progress_body.dfy) models `ProgressRequestBody`.
  - The decorator passes the content type through. It passes the content
    length through, except that -1 replaces a length query that throws.
  - Its inner `ProgressSink` forwards every write to its delegate sink, then
    raises a running byte counter, then reports (counter, content length) to
    the listener.
  - `writeTo` caches its buffered sink in a field. The delegate sink, the
    listener, the ProgressSink and the buffered sink are classes. The
    delegate is modelled as the bytes it has received. The listener is
    modelled as the log of its `onProgress` calls. The wrapped body is a
    value.
- `HttpUtils` (http_utils.dfy) models `OkHttpUtils`:
  - the lazily built shared instance;
  - the result rule of the synchronous helpers;
  - `buildParams` and the part list of the multipart upload;
  - the 128-byte download copy loop;
  - `cancel(call)`.
  The network is a function parameter (`execute`, for
  `newCall(request).execute()`). The multipart encoder is another
  (`encode`). The dispatcher's queues are sequences of call objects.
- `Wrappers` (wrappers.dfy) holds `Option`, which stands for Java's `null`.

How Okio splits a body into `write` calls is left open. `writeTo` takes the
writes as a parameter `chunks`, and the only constraint is that their
concatenation is the body's bytes. A Java `HashMap`'s iteration order is
also left open: the loops pick the next key with `:|`.

`cancel(call)` is easy to misread as cancelling every queued and running
call, since its tag test compares a tag with itself and always holds. The
code does something narrower. Its loops call `cancel()` on the argument
`call` only, once per queued or running call, and never touch the calls they
iterate over. The model follows the code (`HttpUtils.OkHttpUtils.Cancel`).

## Model

| member | source | states |
|---|---|---|
| `ProgressBody.ProgressRequestBody.constructor` | app/src/main/java/com/example/administrator/okhttpdemo/ProgressRequestBody.java:25-28 | keeps the wrapped body and listener; no ProgressSink and no buffered sink exist yet |
| `ProgressBody.ProgressRequestBody.ContentType` | app/src/main/java/com/example/administrator/okhttpdemo/ProgressRequestBody.java:31-33 | the wrapped body's content type, unchanged (null stays null) |
| `ProgressBody.ProgressRequestBody.ContentLength` | app/src/main/java/com/example/administrator/okhttpdemo/ProgressRequestBody.java:50-56 | the wrapped body's length when its query returns, exactly -1 when it throws IOException |
| `ProgressBody.ProgressRequestBody.WriteTo` | app/src/main/java/com/example/administrator/okhttpdemo/ProgressRequestBody.java:37-47 | a fresh ProgressSink over `sink` each call; the buffered sink is built only on the first call. First call: `sink` receives exactly the body's bytes in order, counted from 0, one report per write. Later calls: the bytes go to the first call's sink, the count continues from its total, and the new sink receives nothing. A failing sink: nothing is delivered, counted or reported |
| `ProgressBody.ProgressSink.constructor` | app/src/main/java/com/example/administrator/okhttpdemo/ProgressRequestBody.java:59-62 | a new ProgressSink's byteWrite is 0 |
| `ProgressBody.ProgressSink.Write` | app/src/main/java/com/example/administrator/okhttpdemo/ProgressRequestBody.java:65-73 | the delegate receives exactly the first byteCount bytes of source. Only then does byteWrite rise by exactly byteCount, and a non-null listener gets exactly one report of the new byteWrite with contentLength(). A null listener gets no report, but the counter still rises. When the delegate throws, neither counter nor listener changes |
| `ProgressBody.BufferedSink.WriteAllAndFlush` | app/src/main/java/com/example/administrator/okhttpdemo/ProgressRequestBody.java:45-46 | after the body's writes and the flush, the delegate holds the concatenation of the writes. The counter rose by their total length. The listener received `Reports(start, sizes, contentLength)`, one report per write |
| `ProgressBody.BufferedSink.WriteAll` | app/src/main/java/com/example/administrator/okhttpdemo/ProgressRequestBody.java:45 | the body's writes reach the ProgressSink in order: the delegate gains their concatenation, the counter their summed sizes, the listener one report per write. A failing delegate throws on the first write, and nothing changes |
| `ProgressBody.SumSizes` | app/src/main/java/com/example/administrator/okhttpdemo/ProgressRequestBody.java:65-68 | the byte counts of the writes add up to the number of bytes they carry, so byteWrite ends at the payload size |
| `ProgressBody.ReportsAt` | app/src/main/java/com/example/administrator/okhttpdemo/ProgressRequestBody.java:68-72 | one report per write; the k-th report carries the sum of the first k+1 byte counts (plus the starting count) and the same content length every time |
| `ProgressBody.ReportsNondecreasing` | app/src/main/java/com/example/administrator/okhttpdemo/ProgressRequestBody.java:68-71 | with non-negative byte counts, the reported totals never decrease and none exceeds the final counter |
| `ProgressBody.ReportsIncreasing` | app/src/main/java/com/example/administrator/okhttpdemo/ProgressRequestBody.java:68-71 | with positive byte counts, the reported totals strictly increase |
| `ProgressBody.LastReportIsPayloadSize` | app/src/main/java/com/example/administrator/okhttpdemo/ProgressRequestBody.java:39-46 | on a first pass, the last report carries exactly the number of bytes the body wrote |
| `ProgressBody.FirstWriteEndsAtPayloadSize` | app/src/main/java/com/example/administrator/okhttpdemo/ProgressRequestBody.java:37-47 | a new body around the given body and listener, then a first writeTo through a working sink: the sink receives the body, the listener hears once per write, and the last report is (all of the body's bytes, the wrapped body's contentLength()) |
| `ProgressBody.RetriedWrite` | app/src/main/java/com/example/administrator/okhttpdemo/ProgressRequestBody.java:39-46 | two writeTo calls with two sinks: the first sink receives the body twice, the second receives nothing, and the second pass's reports continue from the first pass's total. The last report is (twice the body's size, the wrapped body's contentLength()), so for a non-empty body of known length it overshoots the content length |
| `ProgressBody.ProgressRequestBody.WriteToFresh` | app/src/main/java/com/example/administrator/okhttpdemo/ProgressRequestBody.java:37-47 | corrected writeTo: every call delivers the body to its own sink and counts from 0 |
| `ProgressBody.RetriedWriteFresh` | app/src/main/java/com/example/administrator/okhttpdemo/ProgressRequestBody.java:37-47 | with the corrected writeTo, on a new body around the given body and listener, each of two passes reaches its own sink and both report from 0 |
| `HttpUtils.InstanceHolder.GetInstance` | app/src/main/java/com/example/administrator/okhttpdemo/OkHttpUtils.java:60-69 | builds an instance only when none exists, so at most one is ever built. Every later call returns that instance, whatever context it is given |
| `HttpUtils.OkHttpUtils.constructor` | app/src/main/java/com/example/administrator/okhttpdemo/OkHttpUtils.java:45-58 | keeps the context and a fresh dispatcher with empty queues |
| `HttpUtils.SyncResult` | app/src/main/java/com/example/administrator/okhttpdemo/OkHttpUtils.java:78-86 | the body text exactly when execute() and reading the body throw no IOException and the status is 2xx. A non-2xx status, a failed execute() and a failed read all give null |
| `HttpUtils.OkHttpUtils.GetSync` | app/src/main/java/com/example/administrator/okhttpdemo/OkHttpUtils.java:72-87 | executes a GET of url with no body and returns by the sync result rule |
| `HttpUtils.OkHttpUtils.PostSyncJson` | app/src/main/java/com/example/administrator/okhttpdemo/OkHttpUtils.java:122-139 | executes a POST of the JSON text as `application/json;charset=utf-8` and returns by the sync result rule |
| `HttpUtils.OkHttpUtils.PostSyncForm` | app/src/main/java/com/example/administrator/okhttpdemo/OkHttpUtils.java:141-158 | executes a POST of a form that is exactly buildParams of the map, and returns by the sync result rule. A null key makes buildParams throw NullPointerException, which leaves the method uncaught, exactly when the map has a null key |
| `HttpUtils.OkHttpUtils.BuildParams` | app/src/main/java/com/example/administrator/okhttpdemo/OkHttpUtils.java:334-348 | exactly one field per map entry, under the same key. A null value becomes "" and any other value is kept. The field names are distinct and cover the keys. A null map gives no fields. A null key makes `FormBody.Builder.add` throw NullPointerException, and that happens exactly when the map has a null key |
| `HttpUtils.ToMapOfDistinct` | app/src/main/java/com/example/administrator/okhttpdemo/OkHttpUtils.java:339-346 | fields with distinct names, read back by name, give each name its own value |
| `HttpUtils.FormReadsBack` | app/src/main/java/com/example/administrator/okhttpdemo/OkHttpUtils.java:334-348 | round trip: a form built from the map, read back by name, is the map with null values as "" |
| `HttpUtils.OkHttpUtils.UploadParts` | app/src/main/java/com/example/administrator/okhttpdemo/OkHttpUtils.java:290-300 | one text part per map entry (none for a null map), then exactly one final part named "image" carrying the file's name as `application/octet-stream`. A null key or a null value throws NullPointerException, and that happens exactly when the map has a null key or a null value |
| `HttpUtils.OkHttpUtils.UploadFileAndParams` | app/src/main/java/com/example/administrator/okhttpdemo/OkHttpUtils.java:286-307 | a POST to url whose body is a fresh ProgressRequestBody with the given listener. It wraps the multipart body of that part list. Nothing is built when a key or a value is null |
| `HttpUtils.OkHttpUtils.SaveDownload` | app/src/main/java/com/example/administrator/okhttpdemo/OkHttpUtils.java:250-271 | the file receives exactly the stream's bytes, in order. Every write has 1 to 128 bytes, and `sum` ends at the number of bytes read. A FileNotFoundException or IOException stops the copy and is only printed; the callback's onError is never called |
| `HttpUtils.OkHttpUtils.Cancel` | app/src/main/java/com/example/administrator/okhttpdemo/OkHttpUtils.java:352-365 | as written: `call` receives one cancel() per queued and per running call. It ends cancelled exactly when a queue is non-empty (or it already was), and no other call changes |
| `HttpUtils.CancelSparesSameTagCall` | app/src/main/java/com/example/administrator/okhttpdemo/OkHttpUtils.java:352-365 | a queued call with the same tag as `call` is not cancelled, while `call`, in no queue, is |
| `HttpUtils.OkHttpUtils.CancelByTag` | app/src/main/java/com/example/administrator/okhttpdemo/OkHttpUtils.java:352-365 | corrected: exactly the queued or running calls whose tag equals `call`'s tag become cancelled |
| `HttpUtils.CancelByTagStopsSameTagOnly` | app/src/main/java/com/example/administrator/okhttpdemo/OkHttpUtils.java:352-365 | with the corrected cancel, a call with the same tag is cancelled and a call with another tag is not |

## Left out

- Client construction (OkHttpUtils.java:47-56) is not modelled: the connect, read and write timeouts, the 10 MiB cache and its directory. It is library configuration with no local logic. The instance only keeps its context.
- The wire encodings are not modelled: `multipart/form-data` (RFC 7578) built by `MultipartBody`, and `application/x-www-form-urlencoded` built by `FormBody`. The model keeps the list of fields and parts handed to the builders; `encode` stands for the multipart build.
- `get_Async`, `post_AsyncJSON`, `post_AsyncForm`, the enqueue in `async_uploadFileAndParams` and in `async_LoadFile`, the `Callback` classes and the `mHandler.post` hop to the UI thread are left out. They are concurrency and thread-hopping glue over the library. Only the request built for the upload and the download's `onResponse` body are modelled.
- `HttpUtils.InstanceHolder.GetInstance`: the `volatile` field and `synchronized` double-checked locking are not modelled; only the sequential "build once" behaviour is.
- `HttpUtils.OkHttpUtils.SaveDownload`: the float progress ratio logged at OkHttpUtils.java:265 is not modelled. It uses floats and divides by a content length that may be -1. Logging, the `Environment` paths and the `girl.png` name are also left out.
- `HttpUtils.OkHttpUtils.SaveDownload`: an IOException thrown by a write to the file (a full disk, say) is not modelled separately. A failing read reaches the same catch. The stream and the file are never closed in the source, and the model has no close either.
- `cancelAll` (OkHttpUtils.java:368-370) is left out: it is a single call into the library dispatcher.
- `HttpUtils.OkHttpUtils.Cancel` models `Call.cancel()` only as the number of calls it receives and a cancelled flag, not the library's own cancellation. The NullPointerException from a null tag at OkHttpUtils.java:355 is not modelled: the tag is a plain string.
- `ProgressBody.RetriedWrite`: the model's sinks are never closed. The transport that calls `writeTo` may close the sink it passed once `writeTo` returns; the reused buffered sink would then throw on the second pass instead of delivering the body to the first sink again. The source fixes only that the second sink receives nothing and that the second pass goes to the first call's ProgressSink and counter.
- Okio buffering (segment sizes, when the buffered sink emits) is not modelled. The split into `write` calls is the arbitrary parameter `chunks`, constrained only by the bytes delivered after the flush.
- `ProgressBody.ProgressSink.Write`: `byteWrite` is an unbounded integer. Java's `long` would wrap after 2^63-1 bytes, which no upload reaches.
- `ProgressBody.ProgressRequestBody.WriteTo`: the wrapped body's own `writeTo` never throws in the model (a file that cannot be read mid-upload, say). Only the delegate sink can fail; it is modelled as a sink whose writes and flush all throw IOException.
- `HttpUtils.OkHttpUtils.GetSync`, `PostSyncJson`, `PostSyncForm`: a malformed URL makes the request builder throw IllegalArgumentException before the try block, and a null `json` makes `RequestBody.create` throw NullPointerException at OkHttpUtils.java:124, also before the try block. Neither is modelled: the URL and the JSON text are non-null strings.
- `HttpUtils.OkHttpUtils.UploadParts`, `HttpUtils.OkHttpUtils.BuildParams`: the NullPointerException for a null key or a null value comes from the library's `addFormDataPart` and `FormBody.Builder.add`, which the model assumes. A null file is not modelled.

## Findings

| source | as written | input that shows it | evidently intended | confidence | as-written member | corrected member |
|---|---|---|---|---|---|---|
| app/src/main/java/com/example/administrator/okhttpdemo/OkHttpUtils.java:352-365 | the test compares `call`'s tag with itself and cancels `call` once per queued or running call | one queued call `other` tagged "upload", and `cancel(call)` with `call` also tagged "upload": `other` keeps running, while `call` (in no queue) is cancelled | cancel every queued or running call whose tag equals `call`'s tag | high, not executed | `HttpUtils.CancelSparesSameTagCall` | `HttpUtils.OkHttpUtils.CancelByTag` |
| app/src/main/java/com/example/administrator/okhttpdemo/ProgressRequestBody.java:39-46 | `mBufferedSink` is built around the first call's ProgressSink and reused; later calls build a new ProgressSink that nothing writes to | `writeTo(first)` then `writeTo(second)` on one body (a retried request): `second` receives no bytes, and the second pass goes to the first call's ProgressSink, whose counter continues from the first pass's total. Where that sink still accepts writes, as the model's sinks always do, a body of known length ends with a last report of twice its size, past the content length | each `writeTo` delivers the body to the sink it is given and counts from 0 | medium, not executed | `ProgressBody.RetriedWrite` | `ProgressBody.ProgressRequestBody.WriteToFresh` |
