/**
 * The server bootstrap (server/index.js), as far as it decides anything: the
 * check of the required environment variables before connecting, the CORS
 * origin allowlist, and the 404 reply for a request no route matched. The
 * environment is a map from names to values; a name it lacks reads as
 * `undefined`.
 */
module Server {
  import opened Wrappers
  import opened Text
  import opened ErrorHandler

  type Env = map<string, string>

  /** `process.env[name]`. */
  function EnvVar(env: Env, name: string): Field {
    if name in env then Some(env[name]) else None
  }

  // ---------------------------------------------------------------- required variables

  const RequiredVars: seq<string> := ["MONGO_URI", "GEMINI_API_KEY"]

  /** `names.filter(v => !process.env[v])`: the names whose value is absent or empty, in order. */
  function Unset(names: seq<string>, env: Env): (missing: seq<string>)
    ensures forall v :: v in missing <==> v in names && !Truthy(EnvVar(env, v))
    ensures |missing| <= |names|
  {
    if names == [] then []
    else (if Truthy(EnvVar(env, names[0])) then [] else [names[0]]) + Unset(names[1..], env)
  }

  function MissingVars(env: Env): seq<string> {
    Unset(RequiredVars, env)
  }

  /** The missing list, written out: the database address first, then the key, each only when unset. */
  lemma MissingVarsInOrder(env: Env)
    ensures MissingVars(env)
      == (if Truthy(EnvVar(env, "MONGO_URI")) then [] else ["MONGO_URI"])
       + (if Truthy(EnvVar(env, "GEMINI_API_KEY")) then [] else ["GEMINI_API_KEY"])
  {
    var rest := RequiredVars[1..];
    assert rest == ["GEMINI_API_KEY"] && rest[1..] == [];
    assert Unset(rest, env) == (if Truthy(EnvVar(env, "GEMINI_API_KEY")) then [] else ["GEMINI_API_KEY"]) + Unset([], env);
  }

  /** How start-up ends: the process exits with the missing names reported, or it goes on to connect. */
  datatype Boot = Exit(code: int, missing: seq<string>) | Connect

  function Startup(env: Env): Boot {
    var missing := MissingVars(env);
    if |missing| > 0 then Exit(1, missing) else Connect
  }

  /**
   * The server connects exactly when both variables are set to non-empty
   * values; otherwise it exits with code 1 before connecting, naming what is
   * missing.
   */
  lemma StartupNeedsBothVars(env: Env)
    ensures Startup(env) == Connect <==> Truthy(EnvVar(env, "MONGO_URI")) && Truthy(EnvVar(env, "GEMINI_API_KEY"))
    ensures Startup(env).Exit? ==> Startup(env).code == 1 && Startup(env).missing == MissingVars(env) != []
  {
    MissingVarsInOrder(env);
  }

  // ---------------------------------------------------------------- CORS

  const DevOrigins: seq<string> := ["http://localhost:5173", "http://localhost:3000"]
  const PreviewSuffix := ".vercel.app"

  /**
   * `.filter(Boolean)` on a list of optional strings: every present,
   * non-empty value, as often as it occurs, in order (`PresentOne` and
   * `PresentAppend` together fix the result for every list).
   */
  function Present(fs: seq<Field>): (r: seq<string>)
    ensures |r| <= |fs|
  {
    if fs == [] then []
    else (if Truthy(fs[0]) then [fs[0].value] else []) + Present(fs[1..])
  }

  /** One step of the filter: the first field is kept when it is truthy. */
  lemma PresentCons(fs: seq<Field>)
    requires fs != []
    ensures Present(fs) == (if Truthy(fs[0]) then [fs[0].value] else []) + Present(fs[1..])
  {
  }

  /** Filtering a concatenation filters each part: the kept values keep their order. */
  lemma {:induction false} PresentAppend(a: seq<Field>, b: seq<Field>)
    ensures Present(a + b) == Present(a) + Present(b)
  {
    if a == [] {
      assert a + b == b;
    } else {
      var head := if Truthy(a[0]) then [a[0].value] else [];
      assert (a + b)[0] == a[0] && (a + b)[1..] == a[1..] + b;
      calc {
        Present(a + b);
        { PresentCons(a + b); }
        head + Present(a[1..] + b);
        { PresentAppend(a[1..], b); }
        head + (Present(a[1..]) + Present(b));
        (head + Present(a[1..])) + Present(b);
        { PresentCons(a); }
        Present(a) + Present(b);
      }
    }
  }

  /** The two development origins and `CLIENT_URL`, without an unset one. */
  function AllowedOrigins(env: Env): seq<string> {
    Present([Some(DevOrigins[0]), Some(DevOrigins[1]), EnvVar(env, "CLIENT_URL")])
  }

  /** The allowlist is the two development origins, then the client address when it is set and non-empty. */
  lemma AllowedOriginsDropUnset(env: Env)
    ensures AllowedOrigins(env)
      == DevOrigins + (if Truthy(EnvVar(env, "CLIENT_URL")) then [EnvVar(env, "CLIENT_URL").value] else [])
  {
    var dev0, dev1, client := Some(DevOrigins[0]), Some(DevOrigins[1]), EnvVar(env, "CLIENT_URL");
    assert [dev0, dev1, client] == [dev0] + [dev1] + [client];
    PresentAppend([dev0] + [dev1], [client]);
    PresentAppend([dev0], [dev1]);
    PresentOne(dev0);
    PresentOne(dev1);
    PresentOne(client);
    assert DevOrigins == [DevOrigins[0], DevOrigins[1]];
  }

  /** One field is kept exactly when it is present and non-empty. */
  lemma PresentOne(f: Field)
    ensures Present([f]) == if Truthy(f) then [f.value] else []
  {
    PresentCons([f]);
    assert [f][1..] == [];
  }

  /** What the origin callback does: let the request through, or fail it with an error. */
  datatype CorsDecision = Pass | Reject(error: JsError)

  const CorsText := "Not allowed by CORS"

  /** The `origin` callback. */
  function CheckOrigin(allowed: seq<string>, origin: Field): CorsDecision {
    if !Truthy(origin) then Pass
    else if origin.value in allowed || EndsWith(origin.value, PreviewSuffix) then Pass
    else Reject(PlainError(CorsText))
  }

  /**
   * A request without an origin passes; one with an origin passes exactly
   * when the origin is a development origin, the configured client address,
   * or any address ending in ".vercel.app".
   */
  lemma OriginRule(env: Env, origin: Field)
    ensures var client := EnvVar(env, "CLIENT_URL");
      CheckOrigin(AllowedOrigins(env), origin) == Pass
      <==> || !Truthy(origin)
           || origin.value == "http://localhost:5173" || origin.value == "http://localhost:3000"
           || (Truthy(client) && origin.value == client.value)
           || EndsWith(origin.value, PreviewSuffix)
  {
    AllowedOriginsDropUnset(env);
  }

  /** Every preview deployment passes, whatever the allowlist holds. */
  lemma PreviewOriginsPass(allowed: seq<string>, host: string)
    ensures CheckOrigin(allowed, Some(host + PreviewSuffix)) == Pass
  {
    assert (host + PreviewSuffix)[|host|..] == PreviewSuffix;
  }

  /** Characters the markers below hold do not occur in the rejection's message. */
  lemma CorsTextChars()
    ensures '4' !in CorsText && 'q' !in CorsText && 'T' !in CorsText
  {
  }

  lemma CorsTextMoreChars()
    ensures '_' !in CorsText && 'f' !in CorsText
  {
  }

  /** The rejection's message names no rate limit, no key or access status, and no missing model. */
  lemma CorsTextNoRateLimit()
    ensures !MentionsRateLimit(PlainError(CorsText))
  {
    CorsTextChars();
    NotContainsByChar(CorsText, "429", '4');
    NotContainsByChar(CorsText, "quota", 'q');
    NotContainsByChar(CorsText, "Too Many Requests", 'T');
  }

  lemma CorsTextNoBadKey()
    ensures !MentionsBadKey(PlainError(CorsText))
  {
    CorsTextChars();
    CorsTextMoreChars();
    NotContainsByChar(CorsText, "401", '4');
    NotContainsByChar(CorsText, "403", '4');
    NotContainsByChar(CorsText, "API_KEY", '_');
  }

  lemma CorsTextNoMissingModel()
    ensures !MentionsMissingModel(PlainError(CorsText))
  {
    CorsTextChars();
    CorsTextMoreChars();
    NotContainsByChar(CorsText, "404", '4');
    NotContainsByChar(CorsText, "not found", 'f');
  }

  /**
   * The `cors` middleware hands a rejection to the error handler, which
   * answers 500 and forwards the short message unchanged.
   */
  lemma CorsRejectionIsServerError()
    ensures Handle(PlainError(CorsText)) == ErrorResponse(500, false, CorsText)
  {
    CorsTextNoRateLimit();
    CorsTextNoBadKey();
    CorsTextNoMissingModel();
  }

  // ---------------------------------------------------------------- unmatched routes

  /** The catch-all handler after the five routers. */
  function NotFound(url: string): ErrorResponse {
    ErrorResponse(404, false, "Route " + url + " not found")
  }

  /** The unmatched-route reply is a 404 whose message names the requested URL, which can be read back from it. */
  lemma NotFoundNamesUrl(url: string)
    ensures var r := NotFound(url);
      && r.status == 404 && !r.success
      && StartsWith(r.error, "Route ") && EndsWith(r.error, " not found")
      && r.error[6..|r.error| - 10] == url
  {
  }
}
