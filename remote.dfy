/**
  The remote data client (core.py `get_data`): how a request is assembled
  and how a response is classified. The HTTP exchange itself is an input:
  a `Response` is what the service answered.
 */
module Remote {

  import opened Errors

  /** HTTP status and application result code meaning success. */
  const Ok200 := 200
  /** Application result code for "list does not exist or is not accessible". */
  const ListInaccessible := 100000006

  /** A service answer: transport status, `result.code`, the URL and raw text for messages, and the decoded envelope. */
  datatype Response<P> = Response(status: int, code: int, url: string, text: string, payload: P)

  /** What is posted: the merged header set and the merged JSON body. */
  datatype Request<V> = Request(url: string, headers: map<string, string>, body: map<string, V>)

  /** `{**base, **top}`: every key of either map, the value of `top` winning on shared keys. */
  function Overlay<K, V>(base: map<K, V>, top: map<K, V>): (m: map<K, V>)
    ensures m.Keys == base.Keys + top.Keys
    ensures forall k :: k in top ==> m[k] == top[k]
    ensures forall k :: k in base && k !in top ==> m[k] == base[k]
  {
    base + top
  }

  /**
    The request `get_data` posts: the fixed headers overlaid with the extra
    headers (none when absent), and the body overlaid with the credentials.
   */
  function MakeRequest<V>(url: string, body: map<string, V>, extraHeaders: Option<map<string, string>>,
                          headers: map<string, string>, auth: map<string, V>): (q: Request<V>)
    ensures q.url == url
    ensures q.headers.Keys == headers.Keys + (if extraHeaders.Some? then extraHeaders.value.Keys else {})
    ensures q.body.Keys == body.Keys + auth.Keys
    ensures forall k :: k in auth ==> q.body[k] == auth[k]
    ensures forall k :: k in body && k !in auth ==> q.body[k] == body[k]
    ensures extraHeaders.Some? ==> forall k :: k in extraHeaders.value ==> q.headers[k] == extraHeaders.value[k]
    ensures forall k :: k in headers && (extraHeaders.None? || k !in extraHeaders.value) ==> q.headers[k] == headers[k]
  {
    var extra := if extraHeaders.Some? then extraHeaders.value else map[];
    Request(url, Overlay(headers, extra), Overlay(body, auth))
  }

  /**
    `get_data`'s verdict on a response: the payload only for status 200 with
    code 200; a non-200 status is a network error whatever the code; code
    100000006 is the unauthorized error; any other code a data error.
   */
  function GetData<P>(r: Response<P>): (res: Result<P>)
    ensures res.Ok? <==> r.status == Ok200 && r.code == Ok200
    ensures res.Ok? ==> res.value == r.payload
    ensures res.Err? && res.error.NetworkError? <==> r.status != Ok200
    ensures res.Err? && res.error.UnauthorizedError? <==> r.status == Ok200 && r.code == ListInaccessible
    ensures res.Err? && res.error.DataError? <==> r.status == Ok200 && r.code != Ok200 && r.code != ListInaccessible
    ensures res.Err? ==> res.error.NetworkError? || res.error.UnauthorizedError? || res.error.DataError?
  {
    if r.status != Ok200 then Err(NetworkError("网络异常\nURL:" + r.url + "\n" + r.text))
    else if r.code == ListInaccessible then Err(UnauthorizedError("词单不存在或无权访问\nURL:" + r.url))
    else if r.code == Ok200 then Ok(r.payload)
    else Err(DataError("数据无效\nURL:" + r.url + "\n" + r.text))
  }
}
