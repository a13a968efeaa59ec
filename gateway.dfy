/**
 * The BTZPay QRIS client (bot/helper/ext_utils/btzpay_client.py): how a
 * client normalises its base URL, the request each operation sends, and how
 * a response is classified into a decoded body, a `BTZPayError`, or an
 * escaping `AttributeError` (a body that is not an object) or
 * `KeyError("data")` (an accepted body without `data`).
 *
 * The HTTP exchange itself is abstract: each operation is modelled as the
 * request it sends together with the outcome it returns for the `Response`
 * the gateway gives back.
 */
module Gateway {
  import opened Wrappers
  import opened Json
  import PyStr

  const CreatePath := "/api/qris/create"
  const TransactionPrefix := "/api/qris/transaction/"
  const KeyQuery := "?key="
  const CancelPrefix := "/api/qris/cancel/"
  /** Error messages quote at most this many characters of the body. */
  const SnippetLength := 300

  /** A configured client; its fields are set once, by `NewClient`. */
  datatype Client = Client(baseUrl: string, apikey: string, timeoutS: int)

  /** What the gateway gave back: no response at all, or a status line, a body text and the body's JSON decoding (None when it does not parse). */
  datatype Response =
    | TransportFailure
    | HttpReply(statusCode: int, text: string, body: Option<Json>)

  datatype Request =
    | HttpPost(url: string, payload: map<string, Json>, timeoutS: int)
    | HttpGet(url: string, timeoutS: int)

  /** What a `BTZPayError` reports, one alternative per `raise` in `_post` and `_get`. */
  datatype Detail =
    | TransportFailed
    | HttpStatus(code: int, snippet: string)
    | InvalidJson(snippet: string)
      /** the body's truthy `message`; None stands for `str(data)` */
    | Unsuccessful(message: Option<Json>)

  /** The exceptions a client call can raise: its own `BTZPayError`, and the
      Python errors that escape it when a field is missing or the body is not an object. */
  datatype Exception =
    | BTZPayError(detail: Detail)
    | KeyError(key: string)
    | AttributeError

  datatype Outcome<+T> = Ok(value: T) | Raised(exc: Exception)

  /** A client call: the request it sent, and what it returned for the response. */
  datatype Call = Call(request: Request, outcome: Outcome<Json>)

  function NewClient(baseUrl: string, apikey: string, timeoutS: int): (c: Client)
    ensures c.baseUrl <= baseUrl
    ensures c.baseUrl == [] || c.baseUrl[|c.baseUrl| - 1] != '/'
    ensures forall i :: |c.baseUrl| <= i < |baseUrl| ==> baseUrl[i] == '/'
    ensures c.apikey == apikey && c.timeoutS == timeoutS
  {
    Client(PyStr.RStrip(baseUrl, '/'), apikey, timeoutS)
  }

  /** Whether a response gets through `_post`/`_get`: a reply below 400 whose body is a JSON object with a truthy `success`. */
  predicate Accepted(resp: Response) {
    && resp.HttpReply?
    && resp.statusCode < 400
    && resp.body.Some?
    && resp.body.value.JDict?
    && Truthy(Get(resp.body.value.fields, "success"))
  }

  /** The checks `_post` and `_get` apply to a response, in their order. */
  function Classify(resp: Response): (r: Outcome<map<string, Json>>)
    ensures r.Ok? <==> Accepted(resp)
    ensures r.Ok? ==> resp.body == Some(JDict(r.value))
    ensures resp.TransportFailure? ==> r == Raised(BTZPayError(TransportFailed))
    ensures resp.HttpReply? && resp.statusCode >= 400 ==>
              r == Raised(BTZPayError(HttpStatus(resp.statusCode, PyStr.Take(resp.text, SnippetLength))))
    ensures resp.HttpReply? && resp.statusCode < 400 && resp.body.None? ==>
              r == Raised(BTZPayError(InvalidJson(PyStr.Take(resp.text, SnippetLength))))
    ensures r == Raised(AttributeError) <==>
              resp.HttpReply? && resp.statusCode < 400 && resp.body.Some? && !resp.body.value.JDict?
    ensures r.Raised? && r.exc.BTZPayError? && r.exc.detail.Unsuccessful? ==>
              && resp.HttpReply? && resp.body.Some? && resp.body.value.JDict?
              && var m := Get(resp.body.value.fields, "message");
                 r.exc.detail.message == if Truthy(m) then Some(m) else None
    ensures resp.HttpReply? && resp.statusCode < 400 && resp.body.Some? && resp.body.value.JDict?
            && !Truthy(Get(resp.body.value.fields, "success")) ==>
              var m := Get(resp.body.value.fields, "message");
              r == Raised(BTZPayError(Unsuccessful(if Truthy(m) then Some(m) else None)))
  {
    match resp
    case TransportFailure => Raised(BTZPayError(TransportFailed))
    case HttpReply(code, text, body) =>
      if code >= 400 then Raised(BTZPayError(HttpStatus(code, PyStr.Take(text, SnippetLength))))
      else if body.None? then Raised(BTZPayError(InvalidJson(PyStr.Take(text, SnippetLength))))
      else if !body.value.JDict? then Raised(AttributeError)
      else
        var data := body.value.fields;
        if !Truthy(Get(data, "success")) then
          var m := Get(data, "message");
          Raised(BTZPayError(Unsuccessful(if Truthy(m) then Some(m) else None)))
        else Ok(data)
  }

  /** An accepted envelope: a reply below 400 carrying an object whose
      `success` is truthy comes back as that very object. */
  lemma ClassifyAcceptsEnvelope(code: int, text: string, data: map<string, Json>)
    requires code < 400 && Truthy(Get(data, "success"))
    ensures Classify(HttpReply(code, text, Some(JDict(data)))) == Ok(data)
  {
  }

  /** `data["data"]` of an accepted response, as `create_qris` and `get_transaction` return it. */
  function DataField(resp: Response): (r: Outcome<Json>)
    ensures r.Ok? <==> Accepted(resp) && "data" in Classify(resp).value
    ensures r.Ok? ==> r.value == Classify(resp).value["data"]
    ensures Classify(resp).Raised? ==> r == Raised(Classify(resp).exc)
    ensures Accepted(resp) && "data" !in Classify(resp).value ==> r == Raised(KeyError("data"))
  {
    match Classify(resp)
    case Raised(e) => Raised(e)
    case Ok(data) => if "data" in data then Ok(data["data"]) else Raised(KeyError("data"))
  }

  /** `data.get("data") or {}` of an accepted response, as `cancel_transaction` returns it. */
  function CancelData(resp: Response): (r: Outcome<Json>)
    ensures r.Ok? <==> Accepted(resp)
    ensures Classify(resp).Raised? ==> r == Raised(Classify(resp).exc)
    ensures r.Ok? ==> Truthy(r.value)
                      || r.value == JDict(map[])
    ensures r.Ok? && Truthy(Get(Classify(resp).value, "data")) ==> r.value == Classify(resp).value["data"]
    ensures r.Ok? && !Truthy(Get(Classify(resp).value, "data")) ==> r.value == JDict(map[])
  {
    match Classify(resp)
    case Raised(e) => Raised(e)
    case Ok(data) => var d := Get(data, "data"); Ok(if Truthy(d) then d else JDict(map[]))
  }

  /** The body `create_qris` posts. */
  function CreatePayload(c: Client, amount: int, timeoutMs: int, notes: string,
                         metadata: Option<map<string, Json>>, callbackUrl: string): (p: map<string, Json>)
    ensures "apikey" in p && p["apikey"] == JStr(c.apikey)
    ensures "amount" in p && p["amount"] == JInt(amount)
    ensures "timeout" in p && p["timeout"] == JInt(timeoutMs)
    ensures "callback_url" in p <==> callbackUrl != ""
    ensures "callback_url" in p ==> p["callback_url"] == JStr(callbackUrl)
    ensures "notes" in p <==> notes != ""
    ensures "notes" in p ==> p["notes"] == JStr(notes)
    ensures "metadata" in p <==> metadata.Some?
    ensures "metadata" in p ==> p["metadata"] == JDict(metadata.value)
    ensures p.Keys <= {"apikey", "amount", "timeout", "callback_url", "notes", "metadata"}
  {
    var p0 := map["apikey" := JStr(c.apikey), "amount" := JInt(amount), "timeout" := JInt(timeoutMs)];
    var p1 := if callbackUrl != "" then p0["callback_url" := JStr(callbackUrl)] else p0;
    var p2 := if notes != "" then p1["notes" := JStr(notes)] else p1;
    if metadata.Some? then p2["metadata" := JDict(metadata.value)] else p2
  }

  /** `create_qris`: posts the payload to the create endpoint and returns `data["data"]`. */
  function CreateQris(c: Client, amount: int, timeoutMs: int, notes: string,
                      metadata: Option<map<string, Json>>, callbackUrl: string, resp: Response): (call: Call)
    ensures call.request.HttpPost?
    ensures call.request.url == c.baseUrl + CreatePath
    ensures call.request.payload == CreatePayload(c, amount, timeoutMs, notes, metadata, callbackUrl)
    ensures call.request.timeoutS == c.timeoutS
    ensures call.outcome == DataField(resp)
  {
    Call(HttpPost(c.baseUrl + CreatePath, CreatePayload(c, amount, timeoutMs, notes, metadata, callbackUrl), c.timeoutS),
         DataField(resp))
  }

  /** The path `get_transaction` requests; the id and key are inserted verbatim. */
  function TransactionPath(transactionId: string, accessKey: string): string {
    TransactionPrefix + transactionId + KeyQuery + accessKey
  }

  /** `s` cut at its first `c`: the part before it, and the part after it (or `s` and "" when `c` does not occur). */
  function CutAt(s: string, c: char): (string, string) {
    if s == [] then ("", "")
    else if s[0] == c then ("", s[1..])
    else var (a, b) := CutAt(s[1..], c); ([s[0]] + a, b)
  }

  lemma {:induction false} CutAtJoin(a: string, c: char, b: string)
    requires c !in a
    ensures CutAt(a + [c] + b, c) == (a, b)
  {
    if a == [] {
      assert a + [c] + b == [c] + b;
    } else {
      assert (a + [c] + b)[0] == a[0] != c;
      assert (a + [c] + b)[1..] == a[1..] + [c] + b;
      CutAtJoin(a[1..], c, b);
      assert a == [a[0]] + a[1..];
    }
  }

  /** A transaction id without '?' can be read back from the path, and so can the key after it: distinct (id, key) pairs request distinct paths. */
  lemma TransactionPathInjective(id1: string, key1: string, id2: string, key2: string)
    requires '?' !in id1 && '?' !in id2
    requires TransactionPath(id1, key1) == TransactionPath(id2, key2)
    ensures id1 == id2 && key1 == key2
  {
    var p := TransactionPath(id1, key1);
    var n := |TransactionPrefix|;
    assert p == TransactionPrefix + (id1 + "?" + ("key=" + key1));
    assert p == TransactionPrefix + (id2 + "?" + ("key=" + key2));
    var rest1 := p[n..];
    assert rest1 == id1 + "?" + ("key=" + key1);
    assert rest1 == id2 + "?" + ("key=" + key2);
    CutAtJoin(id1, '?', "key=" + key1);
    CutAtJoin(id2, '?', "key=" + key2);
    assert "key=" + key1 == "key=" + key2;
    assert key1 == ("key=" + key1)[4..];
    assert key2 == ("key=" + key2)[4..];
  }

  /** `get_transaction`: a GET of the transaction path, returning `data["data"]`. */
  function GetTransaction(c: Client, transactionId: string, accessKey: string, resp: Response): (call: Call)
    ensures call.request == HttpGet(c.baseUrl + TransactionPrefix + transactionId + "?key=" + accessKey, c.timeoutS)
    ensures call.outcome == DataField(resp)
  {
    var url := c.baseUrl + TransactionPath(transactionId, accessKey);
    assert url == c.baseUrl + TransactionPrefix + transactionId + "?key=" + accessKey;
    Call(HttpGet(url, c.timeoutS), DataField(resp))
  }

  /** `cancel_transaction`: posts `{apikey, reason}` to the cancel path of the id, returning `data.get("data") or {}`. */
  function CancelTransaction(c: Client, transactionId: string, reason: string, resp: Response): (call: Call)
    ensures call.request.HttpPost?
    ensures call.request.url == c.baseUrl + "/api/qris/cancel/" + transactionId
    ensures call.request.payload.Keys == {"apikey", "reason"}
    ensures call.request.payload["apikey"] == JStr(c.apikey) && call.request.payload["reason"] == JStr(reason)
    ensures call.outcome == CancelData(resp)
  {
    Call(HttpPost(c.baseUrl + CancelPrefix + transactionId,
                  map["apikey" := JStr(c.apikey), "reason" := JStr(reason)], c.timeoutS),
         CancelData(resp))
  }
}
