/**
 * The pieces of the HTTP handler in `src/server.js` that decide something
 * on their own: header normalisation, reading a JSON request body, the
 * status code of a failed resume, and the pagination arithmetic of the
 * webhook-deliveries listing.
 */
module Server {
  import opened Base
  import opened Json

  // ---------------------------------------------------------------------------
  // Header normalisation
  // ---------------------------------------------------------------------------

  /** A raw header value: text, a list of repeated values, or null/undefined. */
  datatype HeaderValue = HText(text: string) | HList(items: seq<string>) | HAbsent

  /** Whether `normalizeHeaders` keeps the entry: text, or a non-empty list. */
  predicate Usable(v: HeaderValue) {
    v.HText? || (v.HList? && |v.items| > 0)
  }

  /** The value kept for a usable entry: the text, or the first listed value. */
  function Kept(v: HeaderValue): string
    requires Usable(v)
  {
    if v.HText? then v.text else v.items[0]
  }

  /** `normalizeHeaders`: lower-cased names, in entry order, a later entry overwriting an earlier one. */
  function NormalizeHeaders(raw: seq<(string, HeaderValue)>): map<string, string>
    decreases |raw|
  {
    if |raw| == 0 then map[]
    else
      var (name, v) := raw[|raw| - 1];
      var headers := NormalizeHeaders(raw[..|raw| - 1]);
      if Usable(v) then headers[Lower(name) := Kept(v)] else headers
  }

  /** The index of the last usable entry whose lower-cased name is `key`. */
  function LastEntry(raw: seq<(string, HeaderValue)>, key: string): (k: Option<nat>)
    ensures k.Some? ==> (k.value < |raw| && Usable(raw[k.value].1) && Lower(raw[k.value].0) == key &&
      forall j :: k.value < j < |raw| ==> !(Usable(raw[j].1) && Lower(raw[j].0) == key))
    ensures k.None? ==> forall j :: 0 <= j < |raw| ==> !(Usable(raw[j].1) && Lower(raw[j].0) == key)
    decreases |raw|
  {
    if |raw| == 0 then None
    else if Usable(raw[|raw| - 1].1) && Lower(raw[|raw| - 1].0) == key then Some(|raw| - 1)
    else LastEntry(raw[..|raw| - 1], key)
  }

  /**
   * A normalised header is present exactly when some usable entry carries
   * that name in some case, and its value is the one of the last such entry.
   */
  lemma {:induction false} NormalizeHeadersLastWins(raw: seq<(string, HeaderValue)>, key: string)
    ensures key in NormalizeHeaders(raw) <==> LastEntry(raw, key).Some?
    ensures key in NormalizeHeaders(raw) ==> NormalizeHeaders(raw)[key] == Kept(raw[LastEntry(raw, key).value].1)
    decreases |raw|
  {
    if |raw| > 0 {
      NormalizeHeadersLastWins(raw[..|raw| - 1], key);
    }
  }

  /** Every normalised name is lower case. */
  lemma {:induction false} NormalizedNamesLowerCase(raw: seq<(string, HeaderValue)>, key: string)
    requires key in NormalizeHeaders(raw)
    ensures Lower(key) == key
    decreases |raw|
  {
    var init := raw[..|raw| - 1];
    var (name, v) := raw[|raw| - 1];
    if Usable(v) && key == Lower(name) {
      LowerIdempotent(name);
    } else {
      NormalizedNamesLowerCase(init, key);
    }
  }

  lemma {:induction false} LowerIdempotent(s: string)
    ensures Lower(Lower(s)) == Lower(s)
  {
    assert forall i :: 0 <= i < |s| ==> LowerChar(LowerChar(s[i])) == LowerChar(s[i]);
  }

  // ---------------------------------------------------------------------------
  // Request body
  // ---------------------------------------------------------------------------

  /** The size of the received chunks together, one unit per character. */
  function TotalLength(chunks: seq<string>): nat
    decreases |chunks|
  {
    if |chunks| == 0 then 0 else TotalLength(chunks[..|chunks| - 1]) + |chunks[|chunks| - 1]|
  }

  /** The chunks joined in arrival order. */
  function Concat(chunks: seq<string>): (text: string)
    ensures |text| == TotalLength(chunks)
    decreases |chunks|
  {
    if |chunks| == 0 then "" else Concat(chunks[..|chunks| - 1]) + chunks[|chunks| - 1]
  }

  function TooLargeMessage(maxBytes: nat): string {
    "Request body too large. Max bytes: " + NatToString(maxBytes)
  }

  const InvalidJsonMessage := "Invalid JSON payload"

  /**
   * `readJsonBody`: counts the chunks as they arrive and rejects as soon as
   * the running total passes `maxBytes`; at the end, no chunks is the empty
   * object and otherwise the joined text must parse.
   */
  method ReadJsonBody(chunks: seq<string>, maxBytes: nat, codec: JsonCodec) returns (r: Result<Raw>)
    ensures TotalLength(chunks) > maxBytes <==> r == Err(TooLargeMessage(maxBytes))
    ensures TotalLength(chunks) <= maxBytes && chunks == [] ==> r == Ok(EmptyObject)
    ensures TotalLength(chunks) <= maxBytes && chunks != [] ==>
      r == (match codec.parse(Concat(chunks)) case Some(v) => Ok(v) case None => Err(InvalidJsonMessage))
  {
    var total := 0;
    var i := 0;
    while i < |chunks|
      invariant 0 <= i <= |chunks|
      invariant total == TotalLength(chunks[..i]) <= maxBytes
    {
      assert chunks[..i + 1][..i] == chunks[..i];
      total := total + |chunks[i]|;
      if total > maxBytes {
        TotalGrows(chunks, i + 1);
        return Err(TooLargeMessage(maxBytes));
      }
      i := i + 1;
    }
    assert chunks[..i] == chunks;
    if |chunks| == 0 {
      return Ok(EmptyObject);
    }
    match codec.parse(Concat(chunks)) {
      case Some(v) => r := Ok(v);
      case None => r := Err(InvalidJsonMessage);
    }
    TooLargeIsNotInvalid(maxBytes);
  }

  /** The total of a prefix never exceeds the total of the whole. */
  lemma {:induction false} TotalGrows(chunks: seq<string>, n: nat)
    requires n <= |chunks|
    ensures TotalLength(chunks[..n]) <= TotalLength(chunks)
    decreases |chunks| - n
  {
    if n < |chunks| {
      TotalGrows(chunks, n + 1);
      assert chunks[..n + 1][..n] == chunks[..n];
    } else {
      assert chunks[..n] == chunks;
    }
  }

  lemma TooLargeIsNotInvalid(maxBytes: nat)
    ensures TooLargeMessage(maxBytes) != InvalidJsonMessage
  {
    assert TooLargeMessage(maxBytes)[0] == 'R';
  }

  // ---------------------------------------------------------------------------
  // Resume errors
  // ---------------------------------------------------------------------------

  /** What a failed resume threw: a payload validation error, an `Error`, or something else. */
  datatype ResumeFailure = ValidationFailed | Thrown(message: string) | NotAnError

  /** The status a failed resume answers with. */
  function ResumeStatus(f: ResumeFailure): (status: nat)
    ensures status == 400 <==> f.ValidationFailed?
    ensures status == 404 <==> f.Thrown? && Contains(f.message, "not found")
    ensures status in {400, 404, 500}
  {
    match f
    case ValidationFailed => 400
    case Thrown(message) => if Contains(message, "not found") then 404 else 500
    case NotAnError => 500
  }

  /** A missing run (`Workflow run not found: <id>`) answers 404. */
  lemma MissingRunIsNotFound(runId: string)
    ensures ResumeStatus(Thrown("Workflow run not found: " + runId)) == 404
  {
    ContainsInside("Workflow run ", "not found", ": " + runId);
    assert "Workflow run " + "not found" + (": " + runId) == "Workflow run not found: " + runId;
  }

  // ---------------------------------------------------------------------------
  // Deliveries pagination
  // ---------------------------------------------------------------------------

  /** `Math.ceil`. */
  function Ceil(x: real): (c: int)
    ensures c as real >= x && (c - 1) as real < x
  {
    -((-x).Floor)
  }

  /** The requested page size (`None` when it is not a finite number): 25 by default, within 1..500. */
  function PageLimit(requested: Option<real>): (limit: real)
    ensures 1.0 <= limit <= 500.0
    ensures requested.None? ==> limit == 25.0
    ensures requested.Some? && 1.0 <= requested.value <= 500.0 ==> limit == requested.value
    ensures requested.Some? && requested.value < 1.0 ==> limit == 1.0
    ensures requested.Some? && requested.value > 500.0 ==> limit == 500.0
  {
    var x := requested.GetOr(25.0);
    if x < 1.0 then 1.0 else if x > 500.0 then 500.0 else x
  }

  /** The requested page: 1 by default, never below 1. */
  function PageNumber(requested: Option<real>): (page: real)
    ensures page >= 1.0
    ensures requested.None? ==> page == 1.0
    ensures requested.Some? && requested.value >= 1.0 ==> page == requested.value
    ensures requested.Some? && requested.value < 1.0 ==> page == 1.0
  {
    var x := requested.GetOr(1.0);
    if x < 1.0 then 1.0 else x
  }

  datatype Pagination = Pagination(page: real, limit: real, offset: real, total: nat, totalPages: int)

  /** The window the deliveries query reads and the pagination block of the reply. */
  function Paginate(requestedLimit: Option<real>, requestedPage: Option<real>, total: nat): (p: Pagination)
    ensures p.limit == PageLimit(requestedLimit) && p.page == PageNumber(requestedPage) && p.total == total
    ensures p.offset == (p.page - 1.0) * p.limit
    ensures p.totalPages >= 1
    ensures total == 0 ==> p.totalPages == 1
    ensures total > 0 ==> (p.totalPages - 1) as real * p.limit < total as real <= p.totalPages as real * p.limit
  {
    var limit := PageLimit(requestedLimit);
    var page := PageNumber(requestedPage);
    var offset := if (page - 1.0) * limit < 0.0 then 0.0 else (page - 1.0) * limit;
    var pages := Ceil(total as real / (if limit < 1.0 then 1.0 else limit));
    CeilBounds(total as real, limit);
    Pagination(if page < 1.0 then 1.0 else page, limit, offset, total, if pages < 1 then 1 else pages)
  }

  lemma CeilBounds(total: real, limit: real)
    requires limit >= 1.0 && total >= 0.0
    ensures var c := Ceil(total / limit);
      (c - 1) as real * limit < total <= c as real * limit && (total == 0.0 ==> c == 0) && (total > 0.0 ==> c >= 1)
  {
    var q := total / limit;
    var c := Ceil(q);
    assert q * limit == total;
    assert c as real * limit >= q * limit;
    assert (c - 1) as real * limit < q * limit;
  }

  /** Every delivery position falls on a page (counted from 1) no later than `totalPages`. */
  lemma EveryDeliveryOnSomePage(requestedLimit: Option<real>, requestedPage: Option<real>, total: nat, k: nat)
    requires k < total
    ensures var p := Paginate(requestedLimit, requestedPage, total);
      1 <= (k as real / p.limit).Floor + 1 <= p.totalPages
  {
    var p := Paginate(requestedLimit, requestedPage, total);
    PositionOnPage(p.limit, p.totalPages, total, k);
  }

  lemma PositionOnPage(limit: real, pages: int, total: nat, k: nat)
    requires limit >= 1.0 && k < total && total as real <= pages as real * limit
    ensures 1 <= (k as real / limit).Floor + 1 <= pages
  {
    var x := k as real / limit;
    assert x * limit == k as real;
    assert x >= 0.0;
    if x >= pages as real {
      assert x * limit >= pages as real * limit;
    }
  }
}
