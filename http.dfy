/**
  The parts of Go's net/http that the handlers touch: form values and cookies of
  the request, and a response that collects the body, the Set-Cookie headers and
  a redirect. Times are nanoseconds, Go's time.Duration unit.
 */
module Http {
  import opened Wrappers

  const Minute: int := 60_000_000_000

  const StatusTemporaryRedirect: int := 307

  datatype Cookie = Cookie(name: string, value: string, expires: int)

  /** An incoming request: its form values (query and body) and the cookies the browser sent. */
  datatype Request = Request(form: map<string, string>, cookies: seq<Cookie>)

  /** `r.FormValue(key)`: the value, or the empty string when the key is absent. */
  function FormValue(r: Request, key: string): (v: string)
    ensures key in r.form ==> v == r.form[key]
    ensures key !in r.form ==> v == ""
  {
    if key in r.form then r.form[key] else ""
  }

  /** `r.Cookie(name)`: the first cookie with that name, or None (http.ErrNoCookie). */
  function FindCookie(cookies: seq<Cookie>, name: string): (r: Option<Cookie>)
    ensures r.None? <==> forall i :: 0 <= i < |cookies| ==> cookies[i].name != name
    ensures r.Some? ==> exists i :: 0 <= i < |cookies| && cookies[i] == r.value && r.value.name == name
                                    && forall j :: 0 <= j < i ==> cookies[j].name != name
  {
    if |cookies| == 0 then None
    else if cookies[0].name == name then Some(cookies[0])
    else
      var r := FindCookie(cookies[1..], name);
      if r.Some? then
        ghost var i :| 0 <= i < |cookies[1..]| && cookies[1..][i] == r.value
                     && forall j :: 0 <= j < i ==> cookies[1..][j].name != name;
        assert cookies[i + 1] == r.value;
        r
      else r
  }

  /** The cookies a browser still sends at time `now`: those whose expiry is later. */
  function Unexpired(jar: seq<Cookie>, now: int): (sent: seq<Cookie>)
    ensures forall c :: c in sent <==> c in jar && now < c.expires
  {
    if |jar| == 0 then []
    else (if now < jar[0].expires then [jar[0]] else []) + Unexpired(jar[1..], now)
  }

  datatype Redirect = Redirect(location: string, code: int)

  /** What a handler has written to its `http.ResponseWriter`. */
  class Response {
    var body: string
    var cookies: seq<Cookie>
    var redirect: Option<Redirect>

    constructor ()
      ensures body == "" && cookies == [] && redirect == None
    {
      body, cookies, redirect := "", [], None;
    }

    /** `fmt.Fprintf(w, ...)`: appends to the body. */
    method Write(text: string)
      modifies this
      ensures body == old(body) + text
      ensures cookies == old(cookies) && redirect == old(redirect)
    {
      body := body + text;
    }

    /** `http.SetCookie(w, &c)`: adds a Set-Cookie header. */
    method SetCookie(c: Cookie)
      modifies this
      ensures cookies == old(cookies) + [c]
      ensures body == old(body) && redirect == old(redirect)
    {
      cookies := cookies + [c];
    }

    /** `http.Redirect(w, r, url, code)`: sets the Location header and the status. */
    method SendRedirect(url: string, code: int)
      modifies this
      ensures redirect == Some(Redirect(url, code))
      ensures body == old(body) && cookies == old(cookies)
    {
      redirect := Some(Redirect(url, code));
    }
  }
}
