/**
  The locally written logic of OkHttpUtils.java: the lazily built shared
  instance, the rule by which the synchronous helpers turn an execution
  into a result, the form and multipart part lists handed to the library's
  builders, the chunked download copy, and cancel(call).

  The HTTP client itself is a parameter: `execute` stands for
  newCall(request).execute(), `encode` for MultipartBody.Builder.build(),
  and the dispatcher's queues are sequences of call objects.
 */
module HttpUtils {
  import opened Wrappers
  import opened ProgressBody

  // ---------------------------------------------------------------------------
  // Requests and responses
  // ---------------------------------------------------------------------------

  /** What getInstance is given: the place of the external cache directory. */
  datatype Context = Context(externalCacheDir: string)

  datatype HttpMethod = GET | POST

  /** One field added to a FormBody.Builder. */
  datatype FormField = FormField(name: string, value: string)

  /** A local file: its name (file.getName()) and its bytes. */
  datatype File = File(name: string, contents: seq<byte>)

  /** One part added to a MultipartBody.Builder: a text field, or a named file with its media type. */
  datatype Part =
    | FieldPart(field: FormField)
    | FilePart(name: string, fileName: string, mediaType: string, file: File)

  datatype Payload =
    | Json(mediaType: string, json: string)
    | Form(fields: seq<FormField>)
    | Counting(body: ProgressRequestBody)

  datatype Request = Request(verb: HttpMethod, url: string, payload: Option<Payload>)

  /** response.body().string(): the text, or an IOException while reading it. */
  datatype BodyText = Text(text: string) | ReadThrows

  /** call.execute(): throws IOException, or yields a response with a status code and a body. */
  datatype Execution = ExecuteThrows | Responded(code: int, body: BodyText)

  /** A Java Map<String, String> (a HashMap): a key or null maps to a value or to null. */
  type Params = map<Option<string>, Option<string>>

  const JsonMediaType := "application/json;charset=utf-8"
  const OctetStream := "application/octet-stream"
  const DownloadBufferSize := 128

  /** Response.isSuccessful(): a 2xx status. */
  predicate IsSuccessful(code: int)
  {
    200 <= code < 300
  }

  /**
    The result rule shared by get_Sync, post_SyncJSON and pots_SyncForm:
    the body text exactly when execute() and reading the body throw no
    IOException and the status is successful; null otherwise.
   */
  function SyncResult(e: Execution): (r: Option<string>)
    ensures r.Some? <==> e.Responded? && IsSuccessful(e.code) && e.body.Text?
    ensures r.Some? ==> r.value == e.body.text
  {
    if e.Responded? && IsSuccessful(e.code) then
      match e.body
      case Text(t) => Some(t)
      case ReadThrows => None
    else
      None
  }

  // ---------------------------------------------------------------------------
  // Form fields
  // ---------------------------------------------------------------------------

  /** A null map stands for the empty map. */
  function ParamsOrEmpty(params: Option<Params>): Params
  {
    if params.None? then map[] else params.value
  }

  /** A null value stands for "". */
  function OrEmpty(value: Option<string>): string
  {
    if value.None? then "" else value.value
  }

  function Names(fields: seq<FormField>): set<string>
  {
    set i | 0 <= i < |fields| :: fields[i].name
  }

  /** Adding one field adds its name. */
  lemma NamesSnoc(fields: seq<FormField>, f: FormField)
    ensures Names(fields + [f]) == Names(fields) + {f.name}
  {
    var extended := fields + [f];
    forall x | x in Names(extended) ensures x in Names(fields) + {f.name} {
      var i :| 0 <= i < |extended| && extended[i].name == x;
      if i < |fields| {
        assert fields[i].name == x;
      }
    }
    forall x | x in Names(fields) ensures x in Names(extended) {
      var i :| 0 <= i < |fields| && fields[i].name == x;
      assert extended[i].name == x;
    }
    assert extended[|fields|].name == f.name;
  }

  /**
    The fields list one field per entry of `m`, in some order, with null
    values read as "". Every key is a string: a map with a null key has no
    form.
   */
  ghost predicate IsFormOf(fields: seq<FormField>, m: Params)
  {
    && (forall i | 0 <= i < |fields| ::
          Some(fields[i].name) in m && fields[i].value == OrEmpty(m[Some(fields[i].name)]))
    && (forall i, j | 0 <= i < j < |fields| :: fields[i].name != fields[j].name)
    && (forall k | k in m :: k.Some? && k.value in Names(fields))
  }

  ghost predicate NoNullKey(params: Option<Params>)
  {
    params.Some? ==> None !in params.value
  }

  ghost predicate NoNullValues(params: Option<Params>)
  {
    params.Some? ==> forall k | k in params.value :: params.value[k].Some?
  }

  /** How a server reads a form back: each name bound to its value (a later field wins). */
  function ToMap(fields: seq<FormField>): map<string, string>
  {
    if fields == [] then map[]
    else ToMap(fields[..|fields| - 1])[fields[|fields| - 1].name := fields[|fields| - 1].value]
  }

  /** The parameters under their string keys, with every null value replaced by "". */
  function Normalized(m: Params): map<string, string>
  {
    map k | k in m && k.Some? :: k.value := OrEmpty(m[k])
  }

  lemma {:induction false} ToMapOfDistinct(fields: seq<FormField>)
    requires forall i, j | 0 <= i < j < |fields| :: fields[i].name != fields[j].name
    ensures ToMap(fields).Keys == Names(fields)
    ensures forall i | 0 <= i < |fields| :: ToMap(fields)[fields[i].name] == fields[i].value
  {
    if fields != [] {
      var n := |fields|;
      var init := fields[..n - 1];
      ToMapOfDistinct(init);
      assert init + [fields[n - 1]] == fields;
      NamesSnoc(init, fields[n - 1]);
      forall i | 0 <= i < n ensures ToMap(fields)[fields[i].name] == fields[i].value {
        if i < n - 1 {
          assert init[i] == fields[i];
        }
      }
    }
  }

  /** Round trip: a form built from `m`, read back by name, gives `m` with null values as "". */
  lemma FormReadsBack(fields: seq<FormField>, m: Params)
    requires IsFormOf(fields, m)
    ensures ToMap(fields) == Normalized(m)
  {
    ToMapOfDistinct(fields);
    forall x | x in Normalized(m) ensures x in ToMap(fields) && ToMap(fields)[x] == OrEmpty(m[Some(x)]) {
      assert Some(x) in m;
      var i :| 0 <= i < |fields| && fields[i].name == x;
    }
    forall x | x in ToMap(fields) ensures x in Normalized(m) {
      var i :| 0 <= i < |fields| && fields[i].name == x;
      assert Some(x) in m;
    }
  }

  /** The field part list in the upload request, then the one "image" part. */
  function ImagePart(file: File): Part
  {
    FilePart("image", file.name, OctetStream, file)
  }

  /** What buildParams ends with: the form's fields, or the NullPointerException FormBody.Builder.add throws on a null key. */
  datatype FormBuilt = FormBuilt(fields: seq<FormField>) | NullKey

  /**
    What building the upload's part list ends with: the parts, or the key
    of the entry whose null key or null value made addFormDataPart throw
    NullPointerException.
   */
  datatype Built = Built(parts: seq<Part>) | NullEntry(key: Option<string>)

  /** What pots_SyncForm ends with: a returned result, or the NullPointerException of buildParams, which it does not catch. */
  datatype FormPost = Returned(result: Option<string>) | NullPointerThrown

  // ---------------------------------------------------------------------------
  // Cancellation: calls and the dispatcher's queues
  // ---------------------------------------------------------------------------

  /** A dispatched call: the tag of its request, and the cancel() calls it has received. */
  class Call {
    const tag: string
    var canceled: bool
    var cancelCalls: nat

    constructor (tag: string)
      ensures this.tag == tag && !canceled && cancelCalls == 0
    {
      this.tag := tag;
      canceled := false;
      cancelCalls := 0;
    }

    method Cancel()
      modifies this
      ensures canceled && cancelCalls == old(cancelCalls) + 1
    {
      canceled := true;
      cancelCalls := cancelCalls + 1;
    }
  }

  /** The client's dispatcher, as its queuedCalls() and runningCalls() lists. */
  class Dispatcher {
    var queued: seq<Call>
    var running: seq<Call>

    constructor ()
      ensures queued == [] && running == []
    {
      queued := [];
      running := [];
    }
  }

  // ---------------------------------------------------------------------------
  // Download: the response stream and the destination file
  // ---------------------------------------------------------------------------

  /** How a response stream ends: -1 from read(), or an IOException. */
  datatype StreamEnd = CleanEnd | Fault

  /** is.read(bytes): a count (-1 at the end), or an IOException. */
  datatype ReadResult = Count(len: int) | ReadIOException

  /** The response body's byte stream: the bytes still to come and how it ends. */
  class InputStream {
    var rest: seq<byte>
    const end: StreamEnd

    constructor (data: seq<byte>, end: StreamEnd)
      ensures rest == data && this.end == end
    {
      rest := data;
      this.end := end;
    }

    /** read(b): at least one and at most b.Length bytes while any remain; how many is the stream's choice. */
    method Read(b: array<byte>) returns (r: ReadResult)
      requires b.Length > 0
      modifies this, b
      ensures old(rest) == [] ==> rest == [] && r == (if end == CleanEnd then Count(-1) else ReadIOException)
      ensures old(rest) != [] ==>
        && r.Count? && 1 <= r.len <= b.Length && r.len <= |old(rest)|
        && b[..r.len] == old(rest)[..r.len] && rest == old(rest)[r.len..]
    {
      if rest == [] {
        r := if end == CleanEnd then Count(-1) else ReadIOException;
        return;
      }
      var n :| 1 <= n <= b.Length && n <= |rest|;
      forall i | 0 <= i < n {
        b[i] := rest[i];
      }
      r := Count(n);
      rest := rest[n..];
    }
  }

  /** The destination file: its bytes and the length of every write made to it. */
  class LocalFile {
    /** false: new FileOutputStream(file) throws FileNotFoundException. */
    const creatable: bool
    var contents: seq<byte>
    var writeSizes: seq<int>

    constructor (creatable: bool)
      ensures this.creatable == creatable && contents == [] && writeSizes == []
    {
      this.creatable := creatable;
      contents := [];
      writeSizes := [];
    }

    /** new FileOutputStream(file): truncates the file, or throws FileNotFoundException. */
    method Open() returns (ok: bool)
      modifies this
      ensures ok == creatable
      ensures ok ==> contents == [] && writeSizes == []
      ensures !ok ==> contents == old(contents) && writeSizes == old(writeSizes)
    {
      ok := creatable;
      if ok {
        contents := [];
        writeSizes := [];
      }
    }

    /** fos.write(b, off, len). */
    method Write(b: array<byte>, off: int, len: int)
      requires 0 <= off <= off + len <= b.Length
      modifies this
      ensures contents == old(contents) + b[off..off + len]
      ensures writeSizes == old(writeSizes) + [len]
    {
      contents := contents + b[off..off + len];
      writeSizes := writeSizes + [len];
    }
  }

  /** OkHttpCallback, as the number of onResponse and onError calls it has received. */
  class OkHttpCallback {
    var responses: nat
    var errors: nat

    constructor ()
      ensures responses == 0 && errors == 0
    {
      responses := 0;
      errors := 0;
    }
  }

  /** Where the download copy stopped on an exception it only printed. */
  datatype DownloadError = FileNotFound | ReadFailed

  // ---------------------------------------------------------------------------
  // OkHttpUtils
  // ---------------------------------------------------------------------------

  class OkHttpUtils {
    /** The context the instance was built with (its cache directory). */
    const context: Context
    /** mOkHttpClient.dispatcher(). */
    const dispatcher: Dispatcher

    constructor (context: Context)
      ensures this.context == context
      ensures fresh(dispatcher) && dispatcher.queued == [] && dispatcher.running == []
    {
      this.context := context;
      dispatcher := new Dispatcher();
    }

    /** get_Sync(url): executes a GET of url and applies the sync result rule. */
    method GetSync(url: string, execute: Request -> Execution) returns (r: Option<string>)
      ensures r == SyncResult(execute(Request(GET, url, None)))
    {
      var request := Request(GET, url, None);
      r := SyncResult(execute(request));
    }

    /** post_SyncJSON(url, json): executes a POST of json as application/json and applies the sync result rule. */
    method PostSyncJson(url: string, json: string, execute: Request -> Execution) returns (r: Option<string>)
      ensures r == SyncResult(execute(Request(POST, url, Some(Json(JsonMediaType, json)))))
    {
      var request := Request(POST, url, Some(Json(JsonMediaType, json)));
      r := SyncResult(execute(request));
    }

    /**
      pots_SyncForm(url, params): executes a POST of the form buildParams
      makes of params and applies the sync result rule. `request` is the
      request that was sent, none when nothing was sent. The
      NullPointerException of a null key is thrown before the try block
      and reaches the caller.
     */
    method PostSyncForm(url: string, params: Option<Params>, execute: Request -> Execution)
      returns (r: FormPost, ghost request: Option<Request>)
      ensures r.NullPointerThrown? <==> !NoNullKey(params)
      ensures r.NullPointerThrown? <==> request.None?
      ensures r.Returned? ==>
        && request.value.verb == POST && request.value.url == url
        && request.value.payload.Some? && request.value.payload.value.Form?
        && IsFormOf(request.value.payload.value.fields, ParamsOrEmpty(params))
        && r.result == SyncResult(execute(request.value))
    {
      request := None;
      var built := BuildParams(params);
      if built.NullKey? {
        r := NullPointerThrown;
        return;
      }
      var sent := Request(POST, url, Some(Form(built.fields)));
      request := Some(sent);
      r := Returned(SyncResult(execute(sent)));
    }

    /**
      buildParams(params): one form field per map entry, under the same
      key, with a null value replaced by ""; a null map gives no fields.
      A null key makes FormBody.Builder.add throw NullPointerException.
      The map's iteration order is left open.
     */
    method BuildParams(params: Option<Params>) returns (r: FormBuilt)
      ensures r.FormBuilt? <==> NoNullKey(params)
      ensures r.FormBuilt? ==> IsFormOf(r.fields, ParamsOrEmpty(params))
      ensures params.None? ==> r == FormBuilt([])
    {
      var m: Params := if params.None? then map[] else params.value;
      var fields: seq<FormField> := [];
      var remaining := m.Keys;
      while remaining != {}
        invariant remaining <= m.Keys
        invariant forall i | 0 <= i < |fields| ::
          && Some(fields[i].name) in m && Some(fields[i].name) !in remaining
          && fields[i].value == OrEmpty(m[Some(fields[i].name)])
        invariant forall i, j | 0 <= i < j < |fields| :: fields[i].name != fields[j].name
        invariant forall k | k in m && k !in remaining :: k.Some? && k.value in Names(fields)
        invariant params.None? ==> fields == []
        decreases remaining
      {
        var key :| key in remaining;
        if key.None? {
          r := NullKey;
          return;
        }
        var value := m[key];
        var text := if value.None? then "" else value.value;
        NamesSnoc(fields, FormField(key.value, text));
        fields := fields + [FormField(key.value, text)];
        remaining := remaining - {key};
      }
      r := FormBuilt(fields);
    }

    /**
      The part list of async_uploadFileAndParams: one text part per entry
      of params (none when params is null), then one part named "image"
      carrying the file under its name as application/octet-stream. A null
      value makes addFormDataPart throw NullPointerException. `fields` are
      the text parts' fields, in order.
     */
    method UploadParts(params: Option<Params>, file: File) returns (r: Built, ghost fields: seq<FormField>)
      ensures r.Built? <==> NoNullKey(params) && NoNullValues(params)
      ensures r.NullEntry? ==> params.Some? && r.key in params.value && (r.key.None? || params.value[r.key].None?)
      ensures r.Built? ==>
        && |r.parts| == |fields| + 1
        && (forall i | 0 <= i < |fields| :: r.parts[i] == FieldPart(fields[i]))
        && r.parts[|fields|] == ImagePart(file)
        && IsFormOf(fields, ParamsOrEmpty(params))
      ensures params.None? ==> r == Built([ImagePart(file)])
    {
      var parts: seq<Part> := [];
      fields := [];
      if params != None {
        var m := params.value;
        var remaining := m.Keys;
        while remaining != {}
          invariant remaining <= m.Keys
          invariant |parts| == |fields|
          invariant forall i | 0 <= i < |fields| :: parts[i] == FieldPart(fields[i])
          invariant forall i | 0 <= i < |fields| ::
            && Some(fields[i].name) in m && Some(fields[i].name) !in remaining
            && m[Some(fields[i].name)] == Some(fields[i].value)
          invariant forall i, j | 0 <= i < j < |fields| :: fields[i].name != fields[j].name
          invariant forall k | k in m && k !in remaining :: k.Some? && m[k].Some? && k.value in Names(fields)
          decreases remaining
        {
          var key :| key in remaining;
          if key.None? || m[key].None? {
            r := NullEntry(key);
            return;
          }
          var field := FormField(key.value, m[key].value);
          NamesSnoc(fields, field);
          parts := parts + [FieldPart(field)];
          fields := fields + [field];
          remaining := remaining - {key};
        }
      }
      r := Built(parts + [ImagePart(file)]);
    }

    /**
      async_uploadFileAndParams up to the enqueue: the multipart body made
      of the part list is wrapped in a fresh ProgressRequestBody with the
      listener, and a POST of it to url is built. None: building the part
      list threw NullPointerException and nothing was sent.
     */
    method UploadFileAndParams(url: string, params: Option<Params>, file: File, listener: ProgressListener?,
                               encode: seq<Part> -> Body)
      returns (r: Option<Request>, ghost fields: seq<FormField>)
      ensures r.Some? <==> NoNullKey(params) && NoNullValues(params)
      ensures r.Some? ==>
        && r.value.verb == POST && r.value.url == url
        && r.value.payload.Some? && r.value.payload.value.Counting?
        && IsFormOf(fields, ParamsOrEmpty(params))
        && var counting := r.value.payload.value.body;
           && fresh(counting) && counting.Valid()
           && counting.body == encode(seq(|fields|, i requires 0 <= i < |fields| => FieldPart(fields[i])) + [ImagePart(file)])
           && counting.listener == listener
           && counting.progressSink == null && counting.bufferedSink == null
    {
      var built;
      built, fields := UploadParts(params, file);
      if built.NullEntry? {
        r := None;
        return;
      }
      assert built.parts == seq(|fields|, i requires 0 <= i < |fields| => FieldPart(fields[i])) + [ImagePart(file)];
      var counting := new ProgressRequestBody(encode(built.parts), listener);
      r := Some(Request(POST, url, Some(Counting(counting))));
    }

    /**
      The onResponse handler of async_LoadFile: copies the response stream
      into the file through a 128-byte buffer, keeping the running total
      `sum`. A FileNotFoundException or IOException ends the copy and is
      only printed (`printed`); the callback is not told.
     */
    method SaveDownload(stream: InputStream, file: LocalFile, callback: OkHttpCallback)
      returns (sum: int, printed: Option<DownloadError>)
      modifies stream, file
      ensures callback.errors == old(callback.errors) && callback.responses == old(callback.responses)
      ensures printed == Some(FileNotFound) <==> !file.creatable
      ensures !file.creatable ==>
        sum == 0 && file.contents == old(file.contents) && stream.rest == old(stream.rest)
      ensures file.creatable ==>
        && file.contents == old(stream.rest) && stream.rest == []
        && sum == |file.contents| == Sum(file.writeSizes)
        && (forall i | 0 <= i < |file.writeSizes| :: 0 < file.writeSizes[i] <= DownloadBufferSize)
        && printed == (if stream.end == CleanEnd then None else Some(ReadFailed))
    {
      sum := 0;
      printed := None;
      var created := file.Open();
      if !created {
        printed := Some(FileNotFound);
        return;
      }
      var bytes := new byte[DownloadBufferSize];
      while true
        invariant file.contents + stream.rest == old(stream.rest)
        invariant sum == |file.contents| == Sum(file.writeSizes)
        invariant forall i | 0 <= i < |file.writeSizes| :: 0 < file.writeSizes[i] <= DownloadBufferSize
        invariant printed == None
        decreases |stream.rest|
      {
        var r := stream.Read(bytes);
        if r.ReadIOException? {
          printed := Some(ReadFailed);
          return;
        }
        if r.len == -1 {
          break;
        }
        ghost var sizes := file.writeSizes;
        file.Write(bytes, 0, r.len);
        assert file.writeSizes[..|sizes|] == sizes;
        sum := sum + r.len;
      }
    }

    /**
      cancel(call) as written: for every queued and then every running
      call it compares `call`'s tag with itself, which always holds, and
      cancels `call`. No other call is touched.
     */
    method Cancel(call: Call)
      modifies call
      ensures call.cancelCalls == old(call.cancelCalls) + |dispatcher.queued| + |dispatcher.running|
      ensures call.canceled == (old(call.canceled) || dispatcher.queued != [] || dispatcher.running != [])
      ensures forall c | c in dispatcher.queued + dispatcher.running && c != call ::
        c.canceled == old(c.canceled) && c.cancelCalls == old(c.cancelCalls)
    {
      var queued := dispatcher.queued;
      for k := 0 to |queued|
        invariant call.cancelCalls == old(call.cancelCalls) + k
        invariant call.canceled == (old(call.canceled) || k > 0)
      {
        if call.tag == call.tag {
          call.Cancel();
        }
      }
      var running := dispatcher.running;
      for k := 0 to |running|
        invariant call.cancelCalls == old(call.cancelCalls) + |queued| + k
        invariant call.canceled == (old(call.canceled) || |queued| > 0 || k > 0)
      {
        if call.tag == call.tag {
          call.Cancel();
        }
      }
    }

    /** The calls in the dispatcher's queues. */
    ghost function InFlight(): set<Call>
      reads this, dispatcher
    {
      (set c | c in dispatcher.queued) + (set c | c in dispatcher.running)
    }

    /**
      cancel(call) as evidently intended: every queued or running call
      whose tag equals `call`'s tag is cancelled, and no other.
     */
    method CancelByTag(call: Call)
      modifies InFlight()
      ensures forall c | c in InFlight() :: c.canceled == (old(c.canceled) || c.tag == call.tag)
    {
      var queued := dispatcher.queued;
      for k := 0 to |queued|
        invariant forall c | c in InFlight() ::
          c.canceled == (old(c.canceled) || (c.tag == call.tag && c in queued[..k]))
      {
        var d := queued[k];
        if d.tag == call.tag {
          d.Cancel();
        }
        assert queued[..k + 1] == queued[..k] + [d];
      }
      assert queued[..|queued|] == queued;
      var running := dispatcher.running;
      for k := 0 to |running|
        invariant forall c | c in InFlight() ::
          c.canceled == (old(c.canceled) || (c.tag == call.tag && (c in queued || c in running[..k])))
      {
        var d := running[k];
        if d.tag == call.tag {
          d.Cancel();
        }
        assert running[..k + 1] == running[..k] + [d];
      }
      assert running[..|running|] == running;
    }
  }

  /** The static field mOkHttpUtils and getInstance. */
  class InstanceHolder {
    var instance: OkHttpUtils?
    /** How many OkHttpUtils objects getInstance has built. */
    ghost var constructions: nat

    ghost predicate Valid()
      reads this
    {
      constructions <= 1 && (instance == null <==> constructions == 0)
    }

    constructor ()
      ensures Valid() && instance == null
    {
      instance := null;
      constructions := 0;
    }

    /**
      getInstance(context): builds the instance on the first call only;
      every call returns that instance, whatever context it is given.
      (The double-checked locking reduces to one check when run
      sequentially.)
     */
    method GetInstance(context: Context) returns (u: OkHttpUtils)
      requires Valid()
      modifies this
      ensures Valid() && instance == u
      ensures old(instance) == null ==> fresh(u) && u.context == context && constructions == 1
      ensures old(instance) != null ==> u == old(instance) && constructions == old(constructions)
    {
      if instance == null {
        instance := new OkHttpUtils(context);
        constructions := constructions + 1;
      }
      u := instance;
    }
  }

  /**
    cancel(call) as written, on one queued call `other` with the same tag
    as `call`: `call` is cancelled although it is in no queue, `other`
    keeps running.
   */
  method CancelSparesSameTagCall() returns (callCanceled: bool, otherCanceled: bool)
    ensures callCanceled && !otherCanceled
  {
    var utils := new OkHttpUtils(Context("cache"));
    var call := new Call("upload");
    var other := new Call("upload");
    utils.dispatcher.queued := [other];
    utils.Cancel(call);
    callCanceled, otherCanceled := call.canceled, other.canceled;
  }

  /**
    The corrected cancel on a queued call tagged like `call` and a running
    call with another tag: the first is cancelled, the second is not.
   */
  method CancelByTagStopsSameTagOnly() returns (sameTagCanceled: bool, otherTagCanceled: bool)
    ensures sameTagCanceled && !otherTagCanceled
  {
    var utils := new OkHttpUtils(Context("cache"));
    var call := new Call("X");
    var same := new Call("X");
    var different := new Call("Y");
    utils.dispatcher.queued := [same];
    utils.dispatcher.running := [different];
    utils.CancelByTag(call);
    sameTagCanceled, otherTagCanceled := same.canceled, different.canceled;
  }
}
