/** The JSON GET helper shared by every remote lookup. */
module Requests {
  import opened Wire
  import opened Sessions

  /** The header sent with a session's access token. */
  function GetCriteoHeader(accessToken: string): (h: Header)
    ensures h.CriteoHeader? && h.accept == "application/json" && h.authorization == "Bearer " + accessToken
  {
    CriteoHeader("application/json", "Bearer " + accessToken)
  }

  /** requestJSON: a session, when one is given, must carry an access token; the bearer
      header is attached exactly when a session is given; at most one request is sent. */
  function RequestJSON<T>(s: Session?, url: Url, remote: Request -> Reply<T>): (c: Call<T>)
    reads s
    ensures c.sent == [] <==> s != null && s.accessToken == ""
    ensures c.sent == [] ==> c.result == Err(MissingAccessToken)
    ensures c.sent != [] ==> |c.sent| == 1 && c.sent[0].url == url && c.result == Lift(remote(c.sent[0]))
    ensures forall q :: q in c.sent ==> (q.header.CriteoHeader? <==> s != null)
    ensures forall q :: q in c.sent && s != null ==>
              s.accessToken != "" && q.header == GetCriteoHeader(s.accessToken)
  {
    if s != null && s.accessToken == "" then
      Call(Err(MissingAccessToken), [])
    else
      var request := Get(url, if s != null then GetCriteoHeader(s.accessToken) else NoHeader);
      Call(Lift(remote(request)), [request])
  }
}
