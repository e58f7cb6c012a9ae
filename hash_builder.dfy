/**
 * The stock-fetching part of HashBuilder: a StockRunner looks the day's DJIA value
 * up in the (stubbed) cache, otherwise fetches it from the peeron server for the
 * effective date. With the null dereference of fetchStock corrected, a failure or
 * an abort ends in ERROR_NOT_POSTED, ERROR_SERVER or ABORTED and is reported by one
 * message to its Handler; a fetched stock leaves the runner BUSY and unreported. As
 * written, only a transport error is reported (ERROR_SERVER); every response leaves
 * the runner BUSY and silent. IDLE is only a new runner's status,
 * and ALL_OKAY comes only from a cache hit, which the stub never gives.
 *
 * The HTTP exchange is abstract: the runner is given the outcome of
 * HttpClient.execute and whether an abort() from another thread landed while that
 * call was blocked. Handler messages are appended to an outbox.
 */
module HashBuilder {
  import opened Optional
  import opened Calendar
  import opened Decimal
  import opened Geo

  // ---------------------------------------------------------------------------
  // Effective date and the stock URL
  // ---------------------------------------------------------------------------

  /** A graticule; for this component only whether it lies under the 30W rule matters. */
  datatype Graticule = Graticule(uses30WRule: bool)

  /**
   * The date whose stock value is fetched: one calendar day earlier under the
   * 30W rule, the adventure date itself otherwise. The runner shifts a clone,
   * so its own date is never changed.
   */
  function EffectiveDate(d: Date, uses30WRule: bool): (e: Date)
    requires Valid(d)
    ensures Valid(e)
    ensures uses30WRule ==> Successor(e) == d && Before(e, d)
    ensures !uses30WRule ==> e == d
  {
    if uses30WRule then Predecessor(d) else d
  }

  const STOCK_BASE: string := "http://irc.peeron.com/xkcd/map/data/"

  /** The URL of the stock value of d: the base, the year, then month and day padded to two digits. */
  function StockUrl(d: Date): (url: string)
    ensures |url| > |STOCK_BASE| && url[..|STOCK_BASE|] == STOCK_BASE
    ensures Valid(d) ==>
      && |url| == |STOCK_BASE| + |IntToString(d.year)| + 6
      && url[|url| - 6] == '/' && url[|url| - 3] == '/'
  {
    STOCK_BASE + IntToString(d.year) + "/" + Pad(d.month) + "/" + Pad(d.day)
  }

  /** The pieces of s between occurrences of sep. */
  function SplitOn(s: string, sep: char): (parts: seq<string>)
    ensures |parts| >= 1
  {
    if s == [] then [[]]
    else
      var rest := SplitOn(s[1..], sep);
      if s[0] == sep then [[]] + rest else [[s[0]] + rest[0]] + rest[1..]
  }

  lemma {:induction false} SplitOnPiece(a: string, sep: char)
    requires sep !in a
    ensures SplitOn(a, sep) == [a]
  {
    if a != [] {
      SplitOnPiece(a[1..], sep);
      assert a[0] != sep;
      assert [a[0]] + a[1..] == a;
    }
  }

  lemma {:induction false} SplitOnFirst(a: string, sep: char, b: string)
    requires sep !in a
    ensures SplitOn(a + [sep] + b, sep) == [a] + SplitOn(b, sep)
  {
    if a == [] {
      assert a + [sep] + b == [sep] + b;
      assert ([sep] + b)[1..] == b;
    } else {
      SplitOnFirst(a[1..], sep, b);
      assert (a + [sep] + b)[1..] == a[1..] + [sep] + b;
      assert [a[0]] + a[1..] == a;
    }
  }

  /** Reads a stock URL back into the date it names, if it has the shape StockUrl gives it. */
  function ParseStockUrl(url: string): Option<Date> {
    if |url| < |STOCK_BASE| || url[..|STOCK_BASE|] != STOCK_BASE then None
    else
      var parts := SplitOn(url[|STOCK_BASE|..], '/');
      if |parts| != 3 then None
      else
        match (ParseInt(parts[0]), ParseNat(parts[1]), ParseNat(parts[2]))
        case (Some(y), Some(m), Some(d)) => Some(Date(y, m, d))
        case _ => None
  }

  /** The URL names its date: splitting the path after the base and parsing the pieces gives d back. */
  lemma StockUrlRoundTrip(d: Date)
    requires Valid(d)
    ensures ParseStockUrl(StockUrl(d)) == Some(d)
  {
    var ys, ms, ds := IntToString(d.year), Pad(d.month), Pad(d.day);
    var suffix := ys + "/" + ms + "/" + ds;
    assert StockUrl(d) == STOCK_BASE + suffix;
    assert (STOCK_BASE + suffix)[..|STOCK_BASE|] == STOCK_BASE;
    assert (STOCK_BASE + suffix)[|STOCK_BASE|..] == suffix;
    assert '/' !in ys;
    assert '/' !in ms && '/' !in ds by {
      assert AllDigits(ms) && AllDigits(ds);
    }
    SplitOnFirst(ys, '/', ms + "/" + ds);
    assert suffix == ys + ['/'] + (ms + "/" + ds);
    SplitOnFirst(ms, '/', ds);
    assert ms + "/" + ds == ms + ['/'] + ds;
    SplitOnPiece(ds, '/');
    assert SplitOn(suffix, '/') == [ys, ms, ds];
    ParseIntToString(d.year);
    PadRoundTrip(d.month);
    PadRoundTrip(d.day);
  }

  /** Different dates are fetched from different URLs. */
  lemma StockUrlInjective(d1: Date, d2: Date)
    requires Valid(d1) && Valid(d2)
    requires StockUrl(d1) == StockUrl(d2)
    ensures d1 == d2
  {
    StockUrlRoundTrip(d1);
    StockUrlRoundTrip(d2);
  }

  /** Under the 30W rule, 1 December 2009 is fetched from the path of 30 November 2009. */
  lemma ThirtyWestExample()
    ensures StockUrl(EffectiveDate(Date(2009, 12, 1), true)) == STOCK_BASE + "2009/11/30"
  {
  }

  // ---------------------------------------------------------------------------
  // Statuses and Handler messages
  // ---------------------------------------------------------------------------

  datatype Status = Busy | Idle | AllOkay | ErrorNotPosted | ErrorServer | Aborted

  /** The integer constants StockRunner publishes for its statuses (BUSY = 0 ... ABORTED = 5). */
  function Code(s: Status): (c: int)
    ensures 0 <= c <= 5
  {
    match s
    case Busy => 0
    case Idle => 1
    case AllOkay => 2
    case ErrorNotPosted => 3
    case ErrorServer => 4
    case Aborted => 5
  }

  /** Distinct statuses have distinct codes, so a Handler can tell them apart by `what`. */
  lemma CodeInjective(a: Status, b: Status)
    requires Code(a) == Code(b)
    ensures a == b
  {
  }

  /** A Handler is known only by its identity. */
  type HandlerId = nat

  /** An android.os.Message: its target Handler, `what`, and the object it carries (null as None). */
  datatype Message = Message(target: HandlerId, what: int, payload: Option<Info>)

  // ---------------------------------------------------------------------------
  // The HTTP exchange
  // ---------------------------------------------------------------------------

  /** An HttpGet: the URI it asks for and whether it has been aborted. */
  class HttpGet {
    const uri: string
    var aborted: bool

    constructor (uri: string)
      ensures this.uri == uri && !aborted
    {
      this.uri := uri;
      aborted := false;
    }

    method Abort()
      modifies this
      ensures aborted
    {
      aborted := true;
    }
  }

  /**
   * An entity body as BufferedReader.read(char[]) delivers it: the chunks read,
   * then either -1 (end of stream) or an IOException.
   */
  datatype Stream = Stream(chunks: seq<string>, failsAtEnd: bool)

  datatype ReadResult = Chunk(data: string) | EndOfStream | ReadFailure

  /** The result of the (i+1)-th call of read on the stream. */
  function Read(s: Stream, i: nat): ReadResult {
    if i < |s.chunks| then Chunk(s.chunks[i])
    else if s.failsAtEnd then ReadFailure
    else EndOfStream
  }

  /** What HttpClient.execute does: throw an IOException, or return a response with a status code and a body. */
  datatype HttpOutcome = TransportError | Response(code: int, body: Stream)

  const HTTP_OK: int := 200
  const HTTP_NOT_FOUND: int := 404

  /** All chunks joined in order. */
  function Concat(chunks: seq<string>): string {
    if chunks == [] then "" else chunks[0] + Concat(chunks[1..])
  }

  lemma {:induction false} ConcatSnoc(chunks: seq<string>, c: string)
    ensures Concat(chunks + [c]) == Concat(chunks) + c
  {
    if chunks == [] {
      assert [] + [c] == [c];
    } else {
      assert (chunks + [c])[1..] == chunks[1..] + [c];
      ConcatSnoc(chunks[1..], c);
    }
  }

  /**
   * getStringFromStream: appends every chunk until read returns -1. An IOException
   * from read propagates (None).
   */
  method GetStringFromStream(stream: Stream) returns (r: Option<string>)
    ensures stream.failsAtEnd ==> r == None
    ensures !stream.failsAtEnd ==> r == Some(Concat(stream.chunks))
  {
    var buffer := "";
    var i := 0;
    var read := Read(stream, i);
    while read.Chunk?
      invariant 0 <= i <= |stream.chunks|
      invariant read == Read(stream, i)
      invariant buffer == Concat(stream.chunks[..i])
      decreases |stream.chunks| - i
    {
      ConcatSnoc(stream.chunks[..i], read.data);
      assert stream.chunks[..i + 1] == stream.chunks[..i] + [read.data];
      buffer := buffer + read.data;
      i := i + 1;
      read := Read(stream, i);
    }
    assert stream.chunks[..i] == stream.chunks;
    if read.ReadFailure? {
      return None;
    }
    return Some(buffer);
  }

  /** How fetchStock ends: it returns the stock text, or throws FileNotFoundException or IOException. */
  datatype FetchResult = Fetched(stock: string) | NotFound | IoFailure

  /**
   * What fetchStock yields, given the response, whether the request had been
   * aborted when execute returned, and Float's parser. An aborted request yields ""
   * without its body being read; 404 is NotFound; any other code but 200 is an
   * IOException, and so is a body that cannot be read or does not parse as a float.
   */
  function FetchSpec(outcome: HttpOutcome, aborted: bool, parsesAsFloat: string -> bool): (r: FetchResult)
    ensures outcome.TransportError? ==> r == IoFailure
    ensures outcome.Response? && aborted ==> r == Fetched("")
    ensures r == NotFound <==> outcome.Response? && !aborted && outcome.code == HTTP_NOT_FOUND
    ensures r.Fetched? && !aborted ==>
      && outcome.Response? && outcome.code == HTTP_OK && !outcome.body.failsAtEnd
      && r.stock == Concat(outcome.body.chunks) && parsesAsFloat(r.stock)
    ensures (outcome.Response? && !aborted && outcome.code == HTTP_OK && !outcome.body.failsAtEnd
      && parsesAsFloat(Concat(outcome.body.chunks))) ==> r.Fetched?
  {
    match outcome
    case TransportError => IoFailure
    case Response(code, body) =>
      if aborted then Fetched("")
      else if code == HTTP_NOT_FOUND then NotFound
      else if code != HTTP_OK then IoFailure
      else if body.failsAtEnd then IoFailure
      else if parsesAsFloat(Concat(body.chunks)) then Fetched(Concat(body.chunks))
      else IoFailure
  }

  /**
   * The status run leaves after a fetch: the two catch clauses, then the abort check;
   * a stock fetched from a request that was not aborted leaves the runner BUSY.
   */
  function StatusAfterFetch(f: FetchResult, aborted: bool): (s: Status)
    ensures s == ErrorNotPosted <==> f == NotFound
    ensures s == ErrorServer <==> f == IoFailure
    ensures s == Aborted <==> f.Fetched? && aborted
    ensures s == Busy <==> f.Fetched? && !aborted
  {
    match f
    case NotFound => ErrorNotPosted
    case IoFailure => ErrorServer
    case Fetched(_) => if aborted then Aborted else Busy
  }

  /** The status run leaves after a network fetch: never IDLE, never ALL_OKAY. */
  function RunStatus(outcome: HttpOutcome, aborted: bool, parsesAsFloat: string -> bool): (s: Status)
    ensures s != Idle && s != AllOkay
  {
    StatusAfterFetch(FetchSpec(outcome, aborted, parsesAsFloat), aborted)
  }

  /** The messages run sends after a fetch: one for a terminal status, with a null payload; none when still BUSY. */
  function Report(h: HandlerId, s: Status): (ms: seq<Message>)
    ensures |ms| <= 1
    ensures ms == [] <==> s == Busy
  {
    if s == Busy then [] else [Message(h, Code(s), None)]
  }

  /** The outcome of a fetch falls in exactly one of the classes run distinguishes. */
  lemma RunStatusClassification(outcome: HttpOutcome, aborted: bool, parsesAsFloat: string -> bool)
    ensures RunStatus(outcome, aborted, parsesAsFloat) in {Busy, ErrorNotPosted, ErrorServer, Aborted}
    ensures RunStatus(outcome, aborted, parsesAsFloat) == ErrorNotPosted
      <==> outcome.Response? && !aborted && outcome.code == HTTP_NOT_FOUND
    ensures RunStatus(outcome, aborted, parsesAsFloat) == Aborted
      <==> outcome.Response? && aborted
    ensures RunStatus(outcome, aborted, parsesAsFloat) == Busy
      <==> outcome.Response? && !aborted && outcome.code == HTTP_OK && !outcome.body.failsAtEnd
           && parsesAsFloat(Concat(outcome.body.chunks))
    ensures RunStatus(outcome, aborted, parsesAsFloat) == ErrorServer
      <==> outcome.TransportError?
           || (!aborted && outcome.code != HTTP_NOT_FOUND
               && (outcome.code != HTTP_OK || outcome.body.failsAtEnd || !parsesAsFloat(Concat(outcome.body.chunks))))
  {
  }

  /** Every failure or abort is reported by exactly one message whose `what` is the status and whose payload is null. */
  lemma ReportOnePerTerminal(h: HandlerId, s: Status)
    requires s in {ErrorNotPosted, ErrorServer, Aborted}
    ensures |Report(h, s)| == 1
    ensures Report(h, s)[0].what == Code(s) && Report(h, s)[0].payload == None && Report(h, s)[0].target == h
  {
  }

  /** A fetched stock is reported to nobody: run falls off its end while BUSY. */
  lemma ReportSilentOnSuccess(h: HandlerId)
    ensures Report(h, Busy) == []
  {
  }

  // ---------------------------------------------------------------------------
  // The stock cache (stubs)
  // ---------------------------------------------------------------------------

  /** hasStockStored: always false until stock caching works. */
  function HasStockStored(c: Date, g: Graticule): (stored: bool)
    ensures !stored
  {
    false
  }

  /** getStoredInfo: always null until stock caching works. */
  function GetStoredInfo(c: Date, g: Graticule): (r: Option<Info>)
    ensures r == None
  {
    None
  }

  /** The two cache queries agree: nothing is reported stored, and nothing can be retrieved. */
  lemma CacheQueriesAgree(c: Date, g: Graticule)
    ensures HasStockStored(c, g) <==> GetStoredInfo(c, g).Some?
  {
  }

  /** storeInfo: does nothing yet. */
  method StoreInfo(c: Date, stockPrice: string) {
  }

  // ---------------------------------------------------------------------------
  // The runner
  // ---------------------------------------------------------------------------

  class StockRunner {
    const cal: Date
    const grat: Graticule
    var handler: HandlerId
    var request: HttpGet?
    var status: Status
    /** The messages sent to Handlers, oldest first. */
    var outbox: seq<Message>
    /** The arguments of every storeInfo call, oldest first. */
    ghost var storeCalls: seq<(Date, string)>

    constructor (c: Date, g: Graticule, h: HandlerId)
      requires Valid(c)
      ensures cal == c && grat == g && handler == h
      ensures status == Idle && request == null
      ensures outbox == [] && storeCalls == []
    {
      cal := c;
      grat := g;
      handler := h;
      status := Idle;
      request := null;
      outbox := [];
      storeCalls := [];
    }

    /** sendMessage: a message to the current Handler carrying the current status. */
    method SendMessage(payload: Option<Info>)
      modifies this`outbox
      ensures outbox == old(outbox) + [Message(handler, Code(status), payload)]
    {
      outbox := outbox + [Message(handler, Code(status), payload)];
    }

    /** changeHandler: later messages go to h. */
    method ChangeHandler(h: HandlerId)
      modifies this`handler
      ensures handler == h
    {
      handler := h;
    }

    method GetStatus() returns (s: int)
      ensures s == Code(status)
      ensures 0 <= s <= 5
    {
      s := Code(status);
    }

    /** abort: aborts the current request if there is one; the status is left alone. */
    method Abort()
      modifies request
      ensures request == old(request) && status == old(status)
      ensures request != null ==> request.aborted
    {
      if request != null {
        request.Abort();
      }
    }

    /**
     * fetchStock, with the abort check placed before the request is dropped:
     * builds the URL of the effective date, issues the request and classifies
     * the response. The request stays referenced so that run can read its abort flag.
     */
    method FetchStock(outcome: HttpOutcome, abortInFlight: bool, parsesAsFloat: string -> bool)
      returns (r: FetchResult)
      requires Valid(cal)
      modifies this`request
      ensures request != null && fresh(request)
      ensures request.uri == StockUrl(EffectiveDate(cal, grat.uses30WRule))
      ensures request.aborted == abortInFlight
      ensures r == FetchSpec(outcome, abortInFlight, parsesAsFloat)
    {
      var sCal := EffectiveDate(cal, grat.uses30WRule);
      var location := StockUrl(sCal);
      var req := new HttpGet(location);
      request := req;
      // execute blocks here; an abort() from another thread may land meanwhile.
      if abortInFlight {
        Abort();
      }
      match outcome
      case TransportError =>
        return IoFailure;
      case Response(code, body) =>
        if req.aborted {
          return Fetched("");
        }
        if code == HTTP_NOT_FOUND {
          return NotFound;
        } else if code != HTTP_OK {
          return IoFailure;
        }
        var result := GetStringFromStream(body);
        if result.None? {
          return IoFailure;
        }
        if !parsesAsFloat(result.value) {
          return IoFailure;
        }
        return Fetched(result.value);
    }

    /**
     * run, as one atomic step: the cache is asked first, and with the stubs as they
     * are it never has the stock, so the runner always goes to the network.
     */
    method Run(outcome: HttpOutcome, abortInFlight: bool, parsesAsFloat: string -> bool)
      requires Valid(cal)
      modifies this
      ensures handler == old(handler)
      ensures request != null && fresh(request)
      ensures request.uri == StockUrl(EffectiveDate(cal, grat.uses30WRule))
      ensures request.aborted == abortInFlight
      ensures status == RunStatus(outcome, abortInFlight, parsesAsFloat)
      ensures outbox == old(outbox) + Report(handler, status)
      ensures storeCalls == old(storeCalls)
        + (if status == Busy then [(cal, FetchSpec(outcome, abortInFlight, parsesAsFloat).stock)] else [])
    {
      var toReturn := GetStoredInfo(cal, grat);
      RunWithLookup(toReturn, outcome, abortInFlight, parsesAsFloat);
    }

    /**
     * The body of run once the cache has answered toReturn. A hit is reported at once
     * as ALL_OKAY with the stored Info, without any request. Otherwise the runner goes
     * BUSY and fetches: a failure or an abort sets its status and sends one message; a
     * fetched stock is handed to storeInfo under the runner's own (unshifted) date,
     * and the runner stays BUSY without sending anything.
     */
    method RunWithLookup(toReturn: Option<Info>, outcome: HttpOutcome, abortInFlight: bool, parsesAsFloat: string -> bool)
      requires Valid(cal)
      modifies this
      ensures handler == old(handler)
      ensures toReturn.Some? ==>
        status == AllOkay && request == old(request) && storeCalls == old(storeCalls)
        && outbox == old(outbox) + [Message(handler, Code(AllOkay), toReturn)]
      ensures toReturn.None? ==>
        && request != null && fresh(request)
        && request.uri == StockUrl(EffectiveDate(cal, grat.uses30WRule))
        && request.aborted == abortInFlight
        && status == RunStatus(outcome, abortInFlight, parsesAsFloat)
        && outbox == old(outbox) + Report(handler, status)
        && storeCalls == old(storeCalls)
             + (if status == Busy then [(cal, FetchSpec(outcome, abortInFlight, parsesAsFloat).stock)] else [])
    {
      if toReturn.Some? {
        status := AllOkay;
        SendMessage(toReturn);
        return;
      }
      status := Busy;
      var stock := FetchStock(outcome, abortInFlight, parsesAsFloat);
      match stock
      case NotFound =>
        status := ErrorNotPosted;
        SendMessage(None);
        return;
      case IoFailure =>
        status := ErrorServer;
        SendMessage(None);
        return;
      case Fetched(s) =>
        if request.aborted {
          status := Aborted;
          SendMessage(None);
          return;
        }
        StoreInfo(cal, s);
        // The stub changes nothing; storeCalls is the trace of its arguments.
        storeCalls := storeCalls + [(cal, s)];
    }
  }

  /** requestStockRunner: a new runner waits IDLE, having fetched nothing and sent nothing. */
  method RequestStockRunner(c: Date, g: Graticule, h: HandlerId) returns (runner: StockRunner)
    requires Valid(c)
    ensures fresh(runner)
    ensures runner.cal == c && runner.grat == g && runner.handler == h
    ensures runner.status == Idle && runner.request == null && runner.outbox == []
  {
    runner := new StockRunner(c, g, h);
  }

  // ---------------------------------------------------------------------------
  // fetchStock as written
  // ---------------------------------------------------------------------------

  /** How fetchStock as written ends: as the corrected one, or with a NullPointerException. */
  datatype AsWrittenResult = Completed(r: FetchResult) | NullPointerThrown

  /**
   * fetchStock as written: once execute has returned a response, the request is
   * set to null and then asked whether it was aborted, so every response ends in a
   * NullPointerException that no catch clause of run handles. Only an exception
   * from execute itself gets through, as an IOException.
   */
  function FetchAsWritten(outcome: HttpOutcome): (r: AsWrittenResult)
    ensures r.NullPointerThrown? <==> outcome.Response?
    ensures r.Completed? ==> r.r == IoFailure
  {
    match outcome
    case TransportError => Completed(IoFailure)
    case Response(_, _) => NullPointerThrown
  }

  /**
   * The status run leaves as written: an IOException from execute is caught as
   * ERROR_SERVER; the NullPointerException ends the thread with the runner BUSY
   * and nothing sent.
   */
  function RunStatusAsWritten(outcome: HttpOutcome): (s: Status)
    ensures s == Busy || s == ErrorServer
    ensures s == ErrorServer <==> outcome.TransportError?
  {
    match FetchAsWritten(outcome)
    case NullPointerThrown => Busy
    case Completed(r) => StatusAfterFetch(r, false)
  }

  /**
   * As written, a 404 is never reported: the request is dereferenced after being
   * set to null and the runner stays BUSY, while the corrected fetch reports
   * ERROR_NOT_POSTED with one message.
   */
  lemma AsWrittenLoses404(body: Stream, h: HandlerId, parsesAsFloat: string -> bool)
    ensures FetchAsWritten(Response(HTTP_NOT_FOUND, body)) == NullPointerThrown
    ensures RunStatusAsWritten(Response(HTTP_NOT_FOUND, body)) == Busy
    ensures Report(h, RunStatusAsWritten(Response(HTTP_NOT_FOUND, body))) == []
    ensures RunStatus(Response(HTTP_NOT_FOUND, body), false, parsesAsFloat) == ErrorNotPosted
    ensures |Report(h, RunStatus(Response(HTTP_NOT_FOUND, body), false, parsesAsFloat))| == 1
  {
  }

  /** As written, no response of any kind gets past line 180: every one leaves the runner BUSY and silent. */
  lemma AsWrittenNeverClassifiesResponses(outcome: HttpOutcome)
    requires outcome.Response?
    ensures RunStatusAsWritten(outcome) == Busy
  {
  }

  /** The two versions agree when execute itself fails. */
  lemma AsWrittenAgreesOnTransportError(aborted: bool, parsesAsFloat: string -> bool)
    ensures FetchAsWritten(TransportError) == Completed(FetchSpec(TransportError, aborted, parsesAsFloat))
  {
  }
}
