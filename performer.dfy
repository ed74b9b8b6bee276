/**
 * The per-request executor of src/network/TaskPerformerImpl.ts: request body clean-up, header
 * merging, the parser-chain scan, retry and the fan-out to listener lists.
 *
 * The transport (`createRequest`, `runAbort`, implemented by AxiosTaskImpl) is abstract: a send
 * and a cancel are recorded in ghost logs, and the transport's completion callback is the
 * method OnTransportResult, called once per send. Listeners are opaque tokens of type L; a
 * fan-out returns the ordered list of listener invocations, which the owner of the tokens
 * carries out in that order.
 */
module Performer {
  import opened Wrappers
  import opened Json
  import opened Decimal
  import opened Parsers

  datatype Method = GET | DELETE | HEAD | OPTIONS | POST | PUT | PATCH

  datatype RequestState = NONE | RUNNING | SUCCESS | FAIL

  /** The entity/Header key-value pair. */
  datatype Header = Header(key: string, value: string)

  /** The ResponseDataEntity that fail listeners receive. */
  datatype ErrorEntity = ErrorEntity(code: string, message: string, data: Json)

  /** The parameters of one `createRequest` call of the transport. */
  datatype Send = Send(url: Option<string>, verb: Method, data: Json, headers: map<string, string>)

  /** One invocation of a registered listener. */
  datatype Notification<L> =
    | SuccessNote(listener: L, data: Json, result: Option<Response>)
    | FailNote(listener: L, error: ErrorEntity)

  /** What `initTask` reads through the getters of its Request. */
  datatype RequestView = RequestView(url: Option<string>, data: Json, verb: Option<Method>,
                                     headers: seq<Header>, frontListener: Option<nat>)

  /** What `initTask` reads through the (defaulting) getters of its RequestConfig. */
  datatype ConfigView = ConfigView(baseUrl: string, timeout: int, headers: seq<Header>,
                                   withCredentials: bool, auto: Option<Header>, dataParsers: seq<Parser>)

  const EmptyUrlMessage: string := "Request URL 不能为空"
  const NoParserMessage: string := "没有数据解析器"

  /** Whether `initTask` returns normally or throws, and with which message. */
  function InitOutcome(rv: RequestView, cv: ConfigView): (r: Outcome<string>)
    ensures r.Pass? <==> rv.url.Some? && rv.url.value != "" && cv.dataParsers != []
    ensures rv.url.None? || rv.url == Some("") ==> r == Fail(EmptyUrlMessage)
  {
    if IsEmpty(UrlValue(rv.url)) then Fail(EmptyUrlMessage)
    else if |cv.dataParsers| == 0 then Fail(NoParserMessage)
    else Pass
  }

  /** The url as a JavaScript value: absent stands for `null` or `undefined`. */
  function UrlValue(url: Option<string>): Json {
    match url
    case None => Undefined
    case Some(s) => Str(s)
  }

  // ---------------------------------------------------------------- headers

  /** The object built by assigning `header[h.key] = h.value` for each header in order. */
  function HeaderMap(hs: seq<Header>): map<string, string> {
    if hs == [] then map[] else HeaderMap(hs[..|hs| - 1])[hs[|hs| - 1].key := hs[|hs| - 1].value]
  }

  /** A key is present iff some header has it, and it maps to the value of its last header. */
  lemma {:induction false} HeaderMapLookup(hs: seq<Header>, k: string)
    ensures k in HeaderMap(hs) <==> exists i :: 0 <= i < |hs| && hs[i].key == k
    ensures forall i :: 0 <= i < |hs| && hs[i].key == k && (forall j :: i < j < |hs| ==> hs[j].key != k)
                        ==> k in HeaderMap(hs) && HeaderMap(hs)[k] == hs[i].value
  {
    if hs != [] {
      var init := hs[..|hs| - 1];
      HeaderMapLookup(init, k);
      assert forall i :: 0 <= i < |init| ==> init[i] == hs[i];
      if k != hs[|hs| - 1].key {
        if exists i :: 0 <= i < |hs| && hs[i].key == k {
          var i :| 0 <= i < |hs| && hs[i].key == k;
          assert init[i].key == k;
        }
      }
    }
  }

  /** Applying two header lists one after the other is applying their concatenation. */
  lemma {:induction false} HeaderMapConcat(a: seq<Header>, b: seq<Header>)
    ensures HeaderMap(a) + HeaderMap(b) == HeaderMap(a + b)
  {
    if b != [] {
      var init := b[..|b| - 1];
      var last := b[|b| - 1];
      HeaderMapConcat(a, init);
      assert (a + b)[..|a + b| - 1] == a + init;
      assert (a + b)[|a + b| - 1] == last;
      assert HeaderMap(a + b) == HeaderMap(a + init)[last.key := last.value];
      assert HeaderMap(b) == HeaderMap(init)[last.key := last.value];
      var A, M := HeaderMap(a), HeaderMap(init);
      assert A + M[last.key := last.value] == (A + M)[last.key := last.value];
    } else {
      assert a + b == a;
    }
  }

  /** On a key collision the global header wins; other keys keep the request's value. */
  lemma GlobalHeaderWins(request: seq<Header>, global: seq<Header>, k: string)
    ensures k in HeaderMap(global) ==> k in HeaderMap(request + global) && HeaderMap(request + global)[k] == HeaderMap(global)[k]
    ensures k !in HeaderMap(global) ==>
              (k in HeaderMap(request + global) <==> k in HeaderMap(request))
              && (k in HeaderMap(request) ==> HeaderMap(request + global)[k] == HeaderMap(request)[k])
  {
    HeaderMapConcat(request, global);
  }

  /** `parseHeaders`: the header list as an object, a later duplicate key overwriting an earlier one. */
  method ParseHeaders(hs: seq<Header>) returns (m: map<string, string>)
    ensures m == HeaderMap(hs)
  {
    m := map[];
    var i := 0;
    while i < |hs|
      invariant 0 <= i <= |hs|
      invariant m == HeaderMap(hs[..i])
    {
      assert hs[..i + 1][..i] == hs[..i];
      m := m[hs[i].key := hs[i].value];
      i := i + 1;
    }
    assert hs[..|hs|] == hs;
  }

  // ---------------------------------------------------------------- request body

  /** The own enumerable properties `for (key in v)` visits: a string yields its characters by index. */
  function OwnEntries(v: Json): map<string, Json> {
    match v
    case Object(m) => m
    case Str(s) => IndexEntries(s)
    case _ => map[]
  }

  /** `{"0": s[0], "1": s[1], ...}`, the enumerable indices of a string. */
  function IndexEntries(s: string): map<string, Json> {
    if s == [] then map[] else IndexEntries(s[..|s| - 1])[NatToString(|s| - 1) := Str([s[|s| - 1]])]
  }

  /** The entry of index `i` is the one-character string at `i`. */
  lemma {:induction false} IndexEntriesAt(s: string, i: nat)
    requires i < |s|
    ensures NatToString(i) in IndexEntries(s) && IndexEntries(s)[NatToString(i)] == Str([s[i]])
  {
    if i < |s| - 1 {
      IndexEntriesAt(s[..|s| - 1], i);
      if NatToString(i) == NatToString(|s| - 1) { NatToStringInjective(i, |s| - 1); }
    }
  }

  /** The indices below `n`, written in decimal. */
  ghost function IndexKeys(n: nat): set<string> {
    set i: nat | i < n :: NatToString(i)
  }

  /** The keys of a string's entries are exactly its indices, written in decimal. */
  lemma {:induction false} IndexEntriesKeys(s: string)
    ensures IndexEntries(s).Keys == IndexKeys(|s|)
  {
    if s != [] {
      var n := |s| - 1;
      IndexEntriesKeys(s[..n]);
      var before, after := IndexKeys(n), IndexKeys(|s|);
      forall k | k in after ensures k in before || k == NatToString(n) {
        var j: nat :| j < |s| && k == NatToString(j);
        if j < n { assert NatToString(j) in before; }
      }
      forall k | k in before ensures k in after {
        var j: nat :| j < n && k == NatToString(j);
        assert NatToString(j) in after;
      }
      assert NatToString(n) in after;
      assert after == before + {NatToString(n)};
    }
  }

  /**
   * The properties `disposeDataIsNull` enumerates: the own enumerable properties of
   * `data || {}`. A number or a boolean has none. An array is returned before the loop, so
   * its entries are never asked for, and the model gives it none.
   */
  function Entries(data: Json): (r: map<string, Json>)
    ensures !Truthy(data) ==> r == map[]
    ensures data.Number? || data.Bool? || data.Array? ==> r == map[]
    ensures data.Object? ==> r == data.fields
    ensures data.Str? ==> r.Keys == IndexKeys(|data.s|)
    ensures data.Str? ==> forall i :: 0 <= i < |data.s| ==> NatToString(i) in r && r[NatToString(i)] == Str([data.s[i]])
  {
    assert data.Str? ==> IndexEntries(data.s).Keys == IndexKeys(|data.s|) by {
      if data.Str? { IndexEntriesKeys(data.s); }
    }
    assert data.Str? ==> forall i :: 0 <= i < |data.s| ==> NatToString(i) in IndexEntries(data.s) && IndexEntries(data.s)[NatToString(i)] == Str([data.s[i]]) by {
      if data.Str? {
        forall i | 0 <= i < |data.s| ensures NatToString(i) in IndexEntries(data.s) && IndexEntries(data.s)[NatToString(i)] == Str([data.s[i]]) {
          IndexEntriesAt(data.s, i);
        }
      }
    }
    OwnEntries(if Truthy(data) then data else Object(map[]))
  }

  /**
   * `r` is what `disposeDataIsNull(data)` returns: an array as it is; otherwise an object
   * holding exactly the entries whose value is neither null nor undefined.
   */
  ghost predicate KeepsDefinedEntries(data: Json, r: Json) {
    && (data.Array? ==> r == data)
    && (!data.Array? ==>
          && r.Object?
          && (forall k :: k in r.fields <==> k in Entries(data) && !LooselyNull(Entries(data)[k]))
          && (forall k :: k in r.fields ==> r.fields[k] == Entries(data)[k]))
  }

  /** `disposeDataIsNull`: drops the null and undefined entries of the request body. */
  method DisposeDataIsNull(data: Json) returns (r: Json)
    ensures KeepsDefinedEntries(data, r)
  {
    var oldData := if Truthy(data) then data else Object(map[]);
    if data.Array? {
      r := oldData;
    } else {
      var entries := OwnEntries(oldData);
      var newData: map<string, Json> := map[];
      var keys := entries.Keys;
      while keys != {}
        invariant keys <= entries.Keys
        invariant forall k :: k in newData <==> k in entries && k !in keys && !LooselyNull(entries[k])
        invariant forall k :: k in newData ==> newData[k] == entries[k]
        decreases keys
      {
        var k :| k in keys;
        if !LooselyNull(entries[k]) {
          newData := newData[k := entries[k]];
        }
        keys := keys - {k};
      }
      r := Object(newData);
    }
  }

  /** An empty string is a defined value and is kept. */
  lemma EmptyStringKept(data: Json, r: Json, k: string)
    requires KeepsDefinedEntries(data, r) && !data.Array?
    requires k in Entries(data) && Entries(data)[k] == Str("")
    ensures k in r.fields && r.fields[k] == Str("")
  {
  }

  // ---------------------------------------------------------------- parser chain

  /**
   * The callback the scan of the parser chain ends with: parsers are tried in order, the scan
   * stops at the first one whose `isParser` is false, and at the first one that invokes a callback.
   */
  function ScanParsers(ps: seq<Parser>, result: Option<Response>, error: Option<TransportError>): Resolution
    decreases |ps|
  {
    if ps == [] || !IsParser(ps[0], result) then NoCallback
    else if Resolve(ps[0], result, error).NoCallback? then ScanParsers(ps[1..], result, error)
    else Resolve(ps[0], result, error)
  }

  /** Every parser before `k` accepts the result and invokes no callback. */
  ghost predicate PassedOver(ps: seq<Parser>, k: nat, result: Option<Response>, error: Option<TransportError>)
    requires k <= |ps|
  {
    forall j :: 0 <= j < k ==> IsParser(ps[j], result) && Resolve(ps[j], result, error).NoCallback?
  }

  /** The callback comes from the first parser that invokes one, if every parser before it accepts the result. */
  lemma {:induction false} ScanParsersOwner(ps: seq<Parser>, k: nat, result: Option<Response>, error: Option<TransportError>)
    requires k < |ps| && PassedOver(ps, k, result, error) && IsParser(ps[k], result)
    requires !Resolve(ps[k], result, error).NoCallback?
    ensures ScanParsers(ps, result, error) == Resolve(ps[k], result, error)
    decreases k
  {
    if k > 0 {
      assert PassedOver(ps[1..], k - 1, result, error) by {
        forall j | 0 <= j < k - 1 ensures IsParser(ps[1..][j], result) && Resolve(ps[1..][j], result, error).NoCallback? {
          assert ps[1..][j] == ps[j + 1];
        }
      }
      ScanParsersOwner(ps[1..], k - 1, result, error);
    }
  }

  /** A parser whose `isParser` is false ends the scan, whatever the parsers after it would do. */
  lemma {:induction false} ScanParsersStops(ps: seq<Parser>, k: nat, result: Option<Response>, error: Option<TransportError>)
    requires k < |ps| && PassedOver(ps, k, result, error) && !IsParser(ps[k], result)
    ensures ScanParsers(ps, result, error) == NoCallback
    decreases k
  {
    if k > 0 {
      assert PassedOver(ps[1..], k - 1, result, error) by {
        forall j | 0 <= j < k - 1 ensures IsParser(ps[1..][j], result) && Resolve(ps[1..][j], result, error).NoCallback? {
          assert ps[1..][j] == ps[j + 1];
        }
      }
      ScanParsersStops(ps[1..], k - 1, result, error);
    }
  }

  /** A callback is invoked only by a parser that every earlier parser let through. */
  lemma {:induction false} ScanParsersFrom(ps: seq<Parser>, result: Option<Response>, error: Option<TransportError>)
    ensures !ScanParsers(ps, result, error).NoCallback? ==>
              exists k :: 0 <= k < |ps| && PassedOver(ps, k, result, error) && IsParser(ps[k], result)
                          && Resolve(ps[k], result, error) == ScanParsers(ps, result, error)
    decreases |ps|
  {
    if ps != [] && IsParser(ps[0], result) && Resolve(ps[0], result, error).NoCallback? {
      ScanParsersFrom(ps[1..], result, error);
      if !ScanParsers(ps, result, error).NoCallback? {
        var k :| 0 <= k < |ps[1..]| && PassedOver(ps[1..], k, result, error) && IsParser(ps[1..][k], result)
                 && Resolve(ps[1..][k], result, error) == ScanParsers(ps[1..], result, error);
        assert ps[1..][k] == ps[k + 1];
        assert PassedOver(ps, k + 1, result, error) by {
          forall j | 0 <= j < k + 1 ensures IsParser(ps[j], result) && Resolve(ps[j], result, error).NoCallback? {
            if j > 0 { assert ps[1..][j - 1] == ps[j]; }
          }
        }
      }
    } else if ps != [] && IsParser(ps[0], result) {
      assert PassedOver(ps, 0, result, error);
    }
  }

  /** With the built-in parsers first in the chain, the first of them owns every response. */
  lemma BuiltInParserOwns(ps: seq<Parser>, result: Option<Response>, error: Option<TransportError>)
    requires |ps| > 0 && !ps[0].CustomParser? && (result.Some? || error.Some?)
    ensures ScanParsers(ps, result, error) == Resolve(ps[0], result, error)
  {
  }

  // ---------------------------------------------------------------- the executor

  /**
   * TaskPerformerImpl. `retry` is the executor's own field: `initTask` never copies the
   * configuration's retry count into it, so it keeps the value it was constructed with.
   */
  class TaskPerformer<L> {
    var state: RequestState
    var isAbort: bool
    var currentRetry: nat
    var retry: nat

    var baseUrl: string
    var timeout: int
    var globalHeaders: seq<Header>
    var withCredentials: bool
    var auto: Option<Header>
    var dataParsers: seq<Parser>

    var url: Option<string>
    var data: Json
    var verb: Method
    var headers: map<string, string>
    /** Stored by `initTask` and never consulted. */
    var frontListener: Option<nat>

    var successListeners: seq<L>
    var failListeners: seq<L>

    /** Every `createRequest` call, in order. */
    ghost var sends: seq<Send>
    /** The number of `runAbort` calls. */
    ghost var cancels: nat
    /** Sends whose completion callback has not run yet. */
    ghost var inFlight: nat

    constructor (retry: nat)
      ensures state == NONE && !isAbort && currentRetry == 0 && this.retry == retry
      ensures url == Some("") && data == Object(map[]) && verb == GET && headers == map[]
      ensures timeout == 1000 && dataParsers == [] && frontListener == None
      ensures successListeners == [] && failListeners == []
      ensures sends == [] && cancels == 0 && inFlight == 0
      ensures Progress() == IdleProgress(retry) && Settings() == DefaultSettings()
    {
      state, isAbort, currentRetry, this.retry := NONE, false, 0, retry;
      baseUrl, timeout, globalHeaders, withCredentials, auto, dataParsers := "", 1000, [], false, None, [];
      url, data, verb, headers, frontListener := Some(""), Object(map[]), GET, map[], None;
      successListeners, failListeners := [], [];
      sends, cancels, inFlight := [], 0, 0;
    }

    /** The parameters the next `createRequest` call passes. */
    function CurrentSend(): Send
      reads this`url, this`verb, this`data, this`headers
    {
      Send(url, verb, data, headers)
    }

    /** The fields `initTask` sets after its url check. */
    function Settings(): (Json, Method, map<string, string>, Option<nat>, string, int, seq<Header>, bool, Option<Header>, seq<Parser>)
      reads this`data, this`verb, this`headers, this`frontListener, this`baseUrl, this`timeout,
            this`globalHeaders, this`withCredentials, this`auto, this`dataParsers
    {
      (data, verb, headers, frontListener, baseUrl, timeout, globalHeaders, withCredentials, auto, dataParsers)
    }

    /** What only `run`, a completion and `abort` change: state, counters and the transport logs. */
    ghost function Progress(): (RequestState, bool, nat, nat, seq<Send>, nat, nat)
      reads this`state, this`isAbort, this`retry, this`currentRetry, this`sends, this`cancels, this`inFlight
    {
      (state, isAbort, retry, currentRetry, sends, cancels, inFlight)
    }

    /** The executor holds what `initTask` derived from the request and the configuration. */
    ghost predicate Configured(rv: RequestView, cv: ConfigView)
      reads this
    {
      url == rv.url && Adopted(rv, cv)
    }

    /** Everything `initTask` derives after its url check. */
    ghost predicate Adopted(rv: RequestView, cv: ConfigView)
      reads this
    {
      && KeepsDefinedEntries(rv.data, data)
      && verb == rv.verb.GetOr(GET)
      && headers == HeaderMap(rv.headers + cv.headers)
      && frontListener == rv.frontListener
      && baseUrl == cv.baseUrl && timeout == cv.timeout && globalHeaders == cv.headers
      && withCredentials == cv.withCredentials && auto == cv.auto
      && dataParsers == cv.dataParsers
    }

    /**
     * `initTask`: throws before any send when the url is empty, and after taking over the
     * whole configuration when the parser list is empty.
     */
    method InitTask(rv: RequestView, cv: ConfigView) returns (res: Outcome<string>)
      modifies this`url, this`data, this`verb, this`headers, this`frontListener, this`baseUrl,
               this`timeout, this`globalHeaders, this`withCredentials, this`auto, this`dataParsers
      ensures url == rv.url && res == InitOutcome(rv, cv)
      ensures state == old(state) && isAbort == old(isAbort) && retry == old(retry) && currentRetry == old(currentRetry)
      ensures sends == old(sends) && cancels == old(cancels) && inFlight == old(inFlight)
      ensures successListeners == old(successListeners) && failListeners == old(failListeners)
      ensures IsEmpty(UrlValue(rv.url)) ==> Settings() == old(Settings())
      ensures !IsEmpty(UrlValue(rv.url)) ==> Configured(rv, cv)
    {
      url := rv.url;
      if IsEmpty(UrlValue(url)) {
        return Fail(EmptyUrlMessage);
      }
      Adopt(rv, cv);
      if |dataParsers| == 0 {
        return Fail(NoParserMessage);
      }
      res := Pass;
    }

    /** The part of `initTask` after the url check: request fields, then the configuration. */
    method Adopt(rv: RequestView, cv: ConfigView)
      modifies this`data, this`verb, this`headers, this`frontListener, this`baseUrl,
               this`timeout, this`globalHeaders, this`withCredentials, this`auto, this`dataParsers
      ensures Adopted(rv, cv)
    {
      data := DisposeDataIsNull(rv.data);
      verb := rv.verb.GetOr(GET);
      headers := ParseHeaders(rv.headers);
      frontListener := rv.frontListener;
      AdoptConfig(cv);
      HeaderMapConcat(rv.headers, cv.headers);
    }

    /** The configuration half of `initTask`: global headers are merged over the request's. */
    method AdoptConfig(cv: ConfigView)
      modifies this`headers, this`baseUrl, this`timeout, this`globalHeaders, this`withCredentials,
               this`auto, this`dataParsers
      ensures headers == old(headers) + HeaderMap(cv.headers)
      ensures baseUrl == cv.baseUrl && timeout == cv.timeout && globalHeaders == cv.headers
      ensures withCredentials == cv.withCredentials && auto == cv.auto && dataParsers == cv.dataParsers
    {
      baseUrl := cv.baseUrl;
      timeout := cv.timeout;
      globalHeaders := cv.headers;
      DisposeHeader(globalHeaders);
      withCredentials := cv.withCredentials;
      auto := cv.auto;
      dataParsers := cv.dataParsers;
    }

    /** `disposeHeader`: each global header overwrites the header object in place. */
    method DisposeHeader(globals: seq<Header>)
      modifies this`headers
      ensures headers == old(headers) + HeaderMap(globals)
    {
      var i := 0;
      while i < |globals|
        invariant 0 <= i <= |globals|
        invariant headers == old(headers) + HeaderMap(globals[..i])
      {
        assert globals[..i + 1][..i] == globals[..i];
        var A, M := old(headers), HeaderMap(globals[..i]);
        assert A + M[globals[i].key := globals[i].value] == (A + M)[globals[i].key := globals[i].value];
        headers := headers[globals[i].key := globals[i].value];
        i := i + 1;
      }
      assert globals[..|globals|] == globals;
    }

    method AddSuccessListener(listener: L)
      modifies this`successListeners
      ensures successListeners == old(successListeners) + [listener]
    {
      successListeners := successListeners + [listener];
    }

    method AddFailListener(listener: L)
      modifies this`failListeners
      ensures failListeners == old(failListeners) + [listener]
    {
      failListeners := failListeners + [listener];
    }

    /** `run` / `requestVerification`: RUNNING, then one send with the stored parameters. */
    method Run()
      modifies this`state, this`sends, this`inFlight
      ensures state == RUNNING
      ensures sends == old(sends) + [CurrentSend()]
      ensures inFlight == old(inFlight) + 1
    {
      state := RUNNING;
      sends := sends + [CurrentSend()];
      inFlight := inFlight + 1;
    }

    /** `abort`: sets the abort flag for good and asks the transport to cancel. */
    method Abort()
      modifies this`isAbort, this`cancels
      ensures isAbort && cancels == old(cancels) + 1
    {
      isAbort := true;
      cancels := cancels + 1;
    }

    /** `isRetry`: another attempt is due while the counter has not reached `retry`. */
    predicate IsRetry()
      reads this`retry, this`currentRetry
      ensures currentRetry <= retry ==> (IsRetry() <==> currentRetry < retry)
    {
      retry != currentRetry
    }

    /** `callSuccessListener`: SUCCESS first, then every success listener once, in order. */
    method CallSuccessListener(result: Json, response: Option<Response>) returns (notes: seq<Notification<L>>)
      modifies this`state
      ensures state == SUCCESS
      ensures |notes| == |successListeners|
      ensures forall i :: 0 <= i < |notes| ==> notes[i] == SuccessNote(successListeners[i], result, response)
    {
      state := SUCCESS;
      notes := [];
      var i := 0;
      while i < |successListeners|
        invariant 0 <= i <= |successListeners|
        invariant |notes| == i
        invariant forall j :: 0 <= j < i ==> notes[j] == SuccessNote(successListeners[j], result, response)
      {
        notes := notes + [SuccessNote(successListeners[i], result, response)];
        i := i + 1;
      }
    }

    /** `callFailListener`: FAIL first, then `{code, message, data}` to every fail listener, in order. */
    method CallFailListener(code: string, message: string, payload: Json) returns (notes: seq<Notification<L>>)
      modifies this`state
      ensures state == FAIL
      ensures |notes| == |failListeners|
      ensures forall i :: 0 <= i < |notes| ==> notes[i] == FailNote(failListeners[i], ErrorEntity(code, message, payload))
    {
      state := FAIL;
      notes := [];
      var i := 0;
      while i < |failListeners|
        invariant 0 <= i <= |failListeners|
        invariant |notes| == i
        invariant forall j :: 0 <= j < i ==> notes[j] == FailNote(failListeners[j], ErrorEntity(code, message, payload))
      {
        notes := notes + [FailNote(failListeners[i], ErrorEntity(code, message, payload))];
        i := i + 1;
      }
    }

    /** `handleFail`: an aborted task fails at once; otherwise retry while due; otherwise fail. */
    method HandleFail(code: string, message: string, payload: Json) returns (notes: seq<Notification<L>>)
      modifies this`state, this`currentRetry, this`sends, this`inFlight
      ensures old(!isAbort && IsRetry()) ==>
                && currentRetry == old(currentRetry) + 1 && state == RUNNING
                && sends == old(sends) + [CurrentSend()] && inFlight == old(inFlight) + 1
                && notes == []
      ensures old(isAbort || !IsRetry()) ==>
                && currentRetry == old(currentRetry) && state == FAIL
                && sends == old(sends) && inFlight == old(inFlight)
                && |notes| == |failListeners|
                && forall i :: 0 <= i < |notes| ==> notes[i] == FailNote(failListeners[i], ErrorEntity(code, message, payload))
    {
      if isAbort {
        notes := CallFailListener(code, message, payload);
        return;
      }
      if IsRetry() {
        currentRetry := currentRetry + 1;
        Run();
        return [];
      }
      notes := CallFailListener(code, message, payload);
    }

    /**
     * The completion callback of a send: scans the parser chain and acts on the first
     * callback (see ScanParsers). With no callback nothing else happens and the state is
     * left as it is.
     */
    method OnTransportResult(result: Option<Response>, error: Option<TransportError>) returns (notes: seq<Notification<L>>)
      requires inFlight > 0
      modifies this`state, this`currentRetry, this`sends, this`inFlight
      ensures old(currentRetry <= retry) ==> currentRetry <= retry
      ensures ScanParsers(dataParsers, result, error).NoCallback? ==>
                && state == old(state) && currentRetry == old(currentRetry) && sends == old(sends)
                && inFlight == old(inFlight) - 1 && notes == []
      ensures ScanParsers(dataParsers, result, error).Succeeded? ==>
                && state == SUCCESS && currentRetry == old(currentRetry) && sends == old(sends)
                && inFlight == old(inFlight) - 1
                && |notes| == |successListeners|
                && forall i :: 0 <= i < |notes| ==>
                     notes[i] == SuccessNote(successListeners[i], ScanParsers(dataParsers, result, error).data, result)
      ensures ScanParsers(dataParsers, result, error).Failed? && old(!isAbort && IsRetry()) ==>
                && state == RUNNING && currentRetry == old(currentRetry) + 1
                && sends == old(sends) + [CurrentSend()] && inFlight == old(inFlight)
                && notes == []
      ensures ScanParsers(dataParsers, result, error).Failed? && old(isAbort || !IsRetry()) ==>
                && state == FAIL && currentRetry == old(currentRetry) && sends == old(sends)
                && inFlight == old(inFlight) - 1
                && |notes| == |failListeners|
                && forall i :: 0 <= i < |notes| ==>
                     var r := ScanParsers(dataParsers, result, error);
                     notes[i] == FailNote(failListeners[i], ErrorEntity(r.code, r.message, r.data))
    {
      inFlight := inFlight - 1;
      notes := [];
      var i := 0;
      while i < |dataParsers|
        invariant 0 <= i <= |dataParsers|
        invariant ScanParsers(dataParsers[i..], result, error) == ScanParsers(dataParsers, result, error)
        invariant state == old(state) && currentRetry == old(currentRetry) && sends == old(sends)
        invariant inFlight == old(inFlight) - 1 && notes == []
      {
        var parser := dataParsers[i];
        assert dataParsers[i..][0] == parser && dataParsers[i..][1..] == dataParsers[i + 1..];
        if !IsParser(parser, result) {
          break;
        }
        match Resolve(parser, result, error)
        case Succeeded(d) =>
          notes := CallSuccessListener(d, result);
          break;
        case Failed(code, message, payload) =>
          notes := HandleFail(code, message, payload);
          break;
        case NoCallback =>
        i := i + 1;
      }
    }
  }

  /** The settings of a new executor, before `initTask`. */
  function DefaultSettings(): (Json, Method, map<string, string>, Option<nat>, string, int, seq<Header>, bool, Option<Header>, seq<Parser>)
  {
    (Object(map[]), GET, map[], None, "", 1000, [], false, None, [])
  }

  /** The run state of a new executor: never run, never aborted. */
  function IdleProgress(retry: nat): (RequestState, bool, nat, nat, seq<Send>, nat, nat)
  {
    (NONE, false, retry, 0, [], 0, 0)
  }

  /** `n` copies of `x`. */
  function Repeat<T>(x: T, n: nat): seq<T> {
    if n == 0 then [] else Repeat(x, n - 1) + [x]
  }

  /** One more copy may go in front as well as at the back. */
  lemma {:induction false} RepeatFront<T>(x: T, n: nat)
    ensures [x] + Repeat(x, n) == Repeat(x, n + 1)
  {
    if n > 0 {
      RepeatFront(x, n - 1);
    }
  }

  /** An executor with one fail listener and the default parser, after its first send. */
  method FirstAttempt(retry: nat) returns (t: TaskPerformer<nat>)
    ensures fresh(t) && t.state == RUNNING && t.retry == retry && t.currentRetry == 0 && !t.isAbort
    ensures t.dataParsers == [DefaultParser] && |t.failListeners| == 1 && t.inFlight == 1
    ensures t.sends == [t.CurrentSend()]
  {
    t := new TaskPerformer<nat>(retry);
    t.AddFailListener(0);
    var cv := ConfigView("", 1000, [], false, None, [DefaultParser]);
    var init := t.InitTask(RequestView(Some("/items"), Object(map[]), Some(GET), [], None), cv);
    t.Run();
  }

  /**
   * With `retry = R` and every attempt failing: executor `t` has made its first send and
   * every completion is the same failure. The first attempt and R retries make R + 1
   * attempts, all sending the same parameters. `notes` collects every
   * listener invocation of the whole run: the fail listeners, each once, in order.
   */
  method AlwaysFailing<L>(t: TaskPerformer<L>, result: Option<Response>, error: Option<TransportError>)
    returns (attempts: nat, notes: seq<Notification<L>>)
    requires t.state == RUNNING && t.inFlight == 1 && !t.isAbort && t.currentRetry == 0
    requires |t.sends| > 0 && t.sends[|t.sends| - 1] == t.CurrentSend()
    requires ScanParsers(t.dataParsers, result, error).Failed?
    modifies t
    ensures attempts == t.retry + 1
    ensures t.sends == old(t.sends) + Repeat(old(t.CurrentSend()), t.retry)
    ensures t.sends[|old(t.sends)| - 1..] == Repeat(old(t.CurrentSend()), t.retry + 1)
    ensures t.state == FAIL && t.inFlight == 0 && t.currentRetry == t.retry == old(t.retry)
    ensures t.dataParsers == old(t.dataParsers) && t.failListeners == old(t.failListeners)
    ensures |notes| == |t.failListeners|
    ensures forall i :: 0 <= i < |notes| ==>
              var r := ScanParsers(t.dataParsers, result, error);
              notes[i] == FailNote(t.failListeners[i], ErrorEntity(r.code, r.message, r.data))
  {
    attempts, notes := 1, [];
    while t.state == RUNNING
      invariant t.state == RUNNING || t.state == FAIL
      invariant t.retry == old(t.retry) && t.currentRetry <= t.retry && !t.isAbort
      invariant t.dataParsers == old(t.dataParsers) && t.failListeners == old(t.failListeners)
      invariant t.CurrentSend() == old(t.CurrentSend())
      invariant t.state == RUNNING ==> t.inFlight == 1 && notes == []
      invariant t.state == FAIL ==> t.inFlight == 0 && t.currentRetry == t.retry
      invariant t.state == FAIL ==> |notes| == |t.failListeners| && forall i :: 0 <= i < |notes| ==>
                  var r := ScanParsers(t.dataParsers, result, error);
                  notes[i] == FailNote(t.failListeners[i], ErrorEntity(r.code, r.message, r.data))
      invariant attempts == t.currentRetry + 1
      invariant t.sends == old(t.sends) + Repeat(old(t.CurrentSend()), t.currentRetry)
      decreases t.retry - t.currentRetry, if t.state == RUNNING then 1 else 0
    {
      var fanOut := t.OnTransportResult(result, error);
      notes := notes + fanOut;
      if t.state == RUNNING {
        attempts := attempts + 1;
      }
    }
    RepeatFront(old(t.CurrentSend()), t.retry);
    assert t.sends[|old(t.sends)| - 1..] == [old(t.CurrentSend())] + Repeat(old(t.CurrentSend()), t.retry);
  }
}
