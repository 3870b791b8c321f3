/**
 * The bearer-token authorization gate: header parsing, JWKS key selection,
 * the mapping of decode outcomes to errors, the permission check and the
 * route guard that chains them.
 *
 * The JWKS document arrives as its `keys` list; python-jose's
 * `get_unverified_header` and `decode` are oracles carried by `Provider`.
 */
module Auth {
  import opened PyValues

  /** `AuthError(error, status_code)` with `error == {code, description}`. */
  datatype AuthError = AuthError(code: string, description: string, statusCode: int)

  /** The exceptions that can leave a guarded request handler. */
  datatype Exception =
    | AuthErr(error: AuthError)  // auth.AuthError
    | Abort(status: int)          // flask.abort(status)
    | KeyError(key: string)       // a dict indexed at a missing key
    | TypeError                   // e.g. str + int, or `in` on a number
    | JoseError                   // python-jose rejecting an unparsable token header

  /** A computation that returns a value or raises. */
  datatype Result<+T> = Ok(value: T) | Raise(exc: Exception) {
    predicate IsFailure() { Raise? }
    function PropagateFailure<U>(): Result<U> requires Raise? { Raise(exc) }
    function Extract(): T requires Ok? { value }
  }

  const HeaderMissing := AuthError("authorization_header_missing", "Authorization header is expected.", 401)
  const NotBearer := AuthError("invalid_header", "Authorization header must start with \"Bearer\".", 401)
  const TokenNotFound := AuthError("invalid_header", "Token not found.", 401)
  const NotBearerToken := AuthError("invalid_header", "Authorization header must be bearer token.", 401)
  const PermissionsMissing := AuthError("invalid_claims", "Permissions not included in JWT.", 400)
  const PermissionNotFound := AuthError("unauthorized", "Permission not found.", 403)
  const HeaderMalformed := AuthError("invalid_header", "Authorization malformed.", 401)
  const TokenExpired := AuthError("token_expired", "Token expired.", 401)
  const IncorrectClaims := AuthError("invalid_claims", "Incorrect claims. Please, check the audience and issuer.", 401)
  const UnparsableToken := AuthError("invalid_header", "Unable to parse authentication token.", 400)
  const KeyNotFound := AuthError("invalid_header", "Unable to find the appropriate key.", 400)

  /** `requires_auth()` with no argument requires the empty permission. */
  const DefaultPermission: string := ""

  // ---------------------------------------------------------------------
  // Header parsing
  // ---------------------------------------------------------------------

  /**
   * `get_token_auth_header`. `authorization` is the value of the request's
   * Authorization header, None when the request has none.
   */
  function GetTokenAuthHeader(authorization: Option<string>): (r: Result<string>)
    ensures authorization.None? ==> r == Raise(AuthErr(HeaderMissing))
    ensures r.Raise? ==> r.exc.AuthErr? && r.exc.error.statusCode == 401
    ensures r.Ok? ==> ' ' !in r.value
  {
    match authorization
    case None => Raise(AuthErr(HeaderMissing))
    case Some(header) =>
      var parts := Split(header, ' ');
      SplitPiecesSepFree(header, ' ');
      if Lower(parts[0]) != "bearer" then Raise(AuthErr(NotBearer))
      else if |parts| == 1 then Raise(AuthErr(TokenNotFound))
      else if |parts| > 2 then Raise(AuthErr(NotBearerToken))
      else Ok(parts[1])
  }

  /** A header made of a casing of "Bearer", one space and a space-free token. */
  predicate IsBearerHeader(header: string, token: string) {
    && |header| >= 7
    && Lower(header[..6]) == "bearer"
    && header[6] == ' '
    && header[7..] == token
    && ' ' !in token
  }

  /** The parser accepts exactly the single-space bearer headers, and returns their token. */
  lemma BearerHeaderExactly(header: string, token: string)
    ensures GetTokenAuthHeader(Some(header)) == Ok(token) <==> IsBearerHeader(header, token)
  {
    var parts := Split(header, ' ');
    if GetTokenAuthHeader(Some(header)) == Ok(token) {
      SplitJoin(header, ' ');
      SplitPiecesSepFree(header, ' ');
      assert |parts| == 2 && parts[1] == token && Lower(parts[0]) == "bearer";
      assert parts[1..] == [token];
      assert header == parts[0] + [' '] + token;
      LowerSpaces(parts[0]);
      assert header[..6] == parts[0];
    }
    if IsBearerHeader(header, token) {
      var scheme := header[..6];
      LowerSpaces(scheme);
      assert header == scheme + [' '] + token;
      RoundTrip(scheme, token);
    }
  }

  /** Any casing of the scheme, one space and a space-free token parse back to that token. */
  lemma RoundTrip(scheme: string, token: string)
    requires Lower(scheme) == "bearer"
    requires ' ' !in token
    ensures GetTokenAuthHeader(Some(scheme + " " + token)) == Ok(token)
  {
    LowerSpaces(scheme);
    SplitAfter(scheme, ' ', token);
    SplitNoSep(token, ' ');
    SplitNoSep(scheme, ' ');
    assert Split(scheme + " " + token, ' ') == [scheme, token];
  }

  /**
   * Once the first piece is a casing of "Bearer", the number of spaces
   * decides: none means no token, one gives the token, two or more
   * (extra words or a doubled space) are rejected.
   */
  lemma OutcomeBySpaceCount(header: string)
    requires Lower(Split(header, ' ')[0]) == "bearer"
    ensures |Split(header, ' ')| == multiset(header)[' '] + 1
    ensures multiset(header)[' '] == 0 ==> GetTokenAuthHeader(Some(header)) == Raise(AuthErr(TokenNotFound))
    ensures multiset(header)[' '] == 1 ==> GetTokenAuthHeader(Some(header)) == Ok(Split(header, ' ')[1])
    ensures multiset(header)[' '] >= 2 ==> GetTokenAuthHeader(Some(header)) == Raise(AuthErr(NotBearerToken))
  {
    SplitCount(header, ' ');
  }

  /** The scheme is checked before any length check, so even an empty header fails that way. */
  lemma SchemeCheckedFirst(header: string)
    requires Lower(Split(header, ' ')[0]) != "bearer"
    ensures GetTokenAuthHeader(Some(header)) == Raise(AuthErr(NotBearer))
  {
  }

  lemma EmptyHeaderIsNotBearer()
    ensures GetTokenAuthHeader(Some("")) == Raise(AuthErr(NotBearer))
  {
    SchemeCheckedFirst("");
  }

  /** A header that is only a casing of "Bearer" has no token. */
  lemma SchemeOnlyHasNoToken(header: string)
    requires Lower(header) == "bearer"
    ensures GetTokenAuthHeader(Some(header)) == Raise(AuthErr(TokenNotFound))
  {
    LowerSpaces(header);
    SplitNoSep(header, ' ');
  }

  /** "Bearer " (trailing space, nothing after it) yields the empty token. */
  lemma TrailingSpaceGivesEmptyToken(scheme: string)
    requires Lower(scheme) == "bearer"
    ensures GetTokenAuthHeader(Some(scheme + " ")) == Ok("")
  {
    assert scheme + " " == scheme + " " + "";
    RoundTrip(scheme, "");
  }

  /** "Bearer a b" and "Bearer  t" (a doubled space) are both rejected as malformed. */
  lemma TwoSpacesRejected(scheme: string, a: string, b: string)
    requires Lower(scheme) == "bearer"
    ensures GetTokenAuthHeader(Some(scheme + " " + a + " " + b)) == Raise(AuthErr(NotBearerToken))
  {
    var header := scheme + " " + a + " " + b;
    LowerSpaces(scheme);
    SplitAfter(scheme, ' ', a + " " + b);
    assert header == scheme + [' '] + (a + " " + b);
    SplitCount(a + " " + b, ' ');
    assert a + " " + b == a + [' '] + b;
    assert multiset(a + " " + b)[' '] >= 1;
  }

  // ---------------------------------------------------------------------
  // Permission check
  // ---------------------------------------------------------------------

  /** `check_permissions(permission, payload)`. */
  function CheckPermissions(permission: string, payload: map<string, Value>): (r: Result<bool>)
    ensures "permissions" !in payload ==> r == Raise(AuthErr(PermissionsMissing))
    ensures r.Ok? ==> r.value
    ensures r.Ok? <==>
      "permissions" in payload && Contains(payload["permissions"], permission) == Some(true)
    ensures "permissions" in payload && payload["permissions"].Arr? ==>
      (r == Ok(true) <==> Str(permission) in payload["permissions"].items) &&
      (r != Ok(true) ==> r == Raise(AuthErr(PermissionNotFound)))
  {
    if "permissions" !in payload then Raise(AuthErr(PermissionsMissing))
    else
      match Contains(payload["permissions"], permission)
      case None => Raise(TypeError)
      case Some(found) => if found then Ok(true) else Raise(AuthErr(PermissionNotFound))
  }

  /**
   * The default permission still requires the claim; against a list claim
   * it is granted exactly when the list holds the empty string, and against
   * a string claim it is always granted, since `'' in s` holds for every `s`.
   */
  lemma DefaultPermissionNeedsClaim(payload: map<string, Value>)
    ensures "permissions" !in payload ==>
      CheckPermissions(DefaultPermission, payload) == Raise(AuthErr(PermissionsMissing))
    ensures "permissions" in payload && payload["permissions"].Arr? && Str("") !in payload["permissions"].items ==>
      CheckPermissions(DefaultPermission, payload) == Raise(AuthErr(PermissionNotFound))
    ensures "permissions" in payload && payload["permissions"].Str? ==>
      CheckPermissions(DefaultPermission, payload) == Ok(true)
  {
    if "permissions" in payload && payload["permissions"].Str? {
      assert OccursAt("", payload["permissions"].s, 0);
    }
  }

  // ---------------------------------------------------------------------
  // Key selection
  // ---------------------------------------------------------------------

  const JwkFields: set<string> := {"kty", "kid", "use", "n", "e"}

  /** The RSA key that the scan builds from a matching JWKS entry. */
  function JwkOf(key: map<string, Value>): map<string, Value> {
    map f | f in JwkFields && f in key :: key[f]
  }

  /** The dict literal at the match: `{'kty': key['kty'], ..., 'e': key['e']}`. */
  function Project(key: map<string, Value>): (r: Result<map<string, Value>>)
    ensures r.Ok? <==> JwkFields <= key.Keys
    ensures r.Ok? ==> r.value == JwkOf(key) && r.value.Keys == JwkFields
    ensures r.Raise? ==> r.exc.KeyError? && r.exc.key in JwkFields && r.exc.key !in key
  {
    if "kty" !in key then Raise(KeyError("kty"))
    else if "kid" !in key then Raise(KeyError("kid"))
    else if "use" !in key then Raise(KeyError("use"))
    else if "n" !in key then Raise(KeyError("n"))
    else if "e" !in key then Raise(KeyError("e"))
    else
      var jwk := map["kty" := key["kty"], "kid" := key["kid"], "use" := key["use"], "n" := key["n"], "e" := key["e"]];
      assert jwk == JwkOf(key);
      Ok(jwk)
  }

  /** `key['kid'] == unverified_header['kid']`. */
  predicate Matches(key: map<string, Value>, kid: Value) {
    "kid" in key && PyEq(key["kid"], kid)
  }

  /** The scan raises nothing on this entry. */
  predicate Sound(key: map<string, Value>, kid: Value) {
    "kid" in key && (PyEq(key["kid"], kid) ==> JwkFields <= key.Keys)
  }

  /** One iteration of the `for key in jwks['keys']` loop, `acc` being `rsa_key` before it. */
  function ScanStep(key: map<string, Value>, kid: Value, acc: map<string, Value>): Result<map<string, Value>> {
    if "kid" !in key then Raise(KeyError("kid"))
    else if PyEq(key["kid"], kid) then Project(key)
    else Ok(acc)
  }

  /** The value of `rsa_key` after scanning `keys`, or the KeyError that stopped the scan. */
  function SelectedKey(keys: seq<map<string, Value>>, kid: Value): (r: Result<map<string, Value>>)
    ensures r.Raise? ==> r.exc.KeyError? && r.exc.key in JwkFields
    ensures r.Ok? && r.value != map[] ==> r.value.Keys == JwkFields
    decreases |keys|
  {
    if keys == [] then Ok(map[])
    else
      var acc :- SelectedKey(keys[..|keys| - 1], kid);
      ScanStep(keys[|keys| - 1], kid, acc)
  }

  /** The scan succeeds exactly when no entry makes it raise. */
  lemma {:induction false} SelectedKeyOk(keys: seq<map<string, Value>>, kid: Value)
    ensures SelectedKey(keys, kid).Ok? <==> forall i :: 0 <= i < |keys| ==> Sound(keys[i], kid)
    decreases |keys|
  {
    if keys != [] {
      var init := keys[..|keys| - 1];
      SelectedKeyOk(init, kid);
      assert forall i :: 0 <= i < |init| ==> init[i] == keys[i];
    }
  }

  /** When nothing raises, `rsa_key` stays empty exactly when no entry has the token's `kid`. */
  lemma {:induction false} SelectedKeyEmpty(keys: seq<map<string, Value>>, kid: Value)
    requires forall i :: 0 <= i < |keys| ==> Sound(keys[i], kid)
    ensures SelectedKey(keys, kid).Ok?
    ensures SelectedKey(keys, kid).value == map[] <==> forall i :: 0 <= i < |keys| ==> !Matches(keys[i], kid)
    decreases |keys|
  {
    SelectedKeyOk(keys, kid);
    if keys != [] {
      var init := keys[..|keys| - 1];
      assert forall i :: 0 <= i < |init| ==> init[i] == keys[i];
      SelectedKeyEmpty(init, kid);
      var last := keys[|keys| - 1];
      if Matches(last, kid) {
        assert "kid" in SelectedKey(keys, kid).value;
      }
    }
  }

  /** The last matching entry wins, projected onto the five JWK fields. */
  lemma {:induction false} SelectedKeyLastMatch(keys: seq<map<string, Value>>, kid: Value, i: nat)
    requires forall j :: 0 <= j < |keys| ==> Sound(keys[j], kid)
    requires i < |keys| && Matches(keys[i], kid)
    requires forall j :: i < j < |keys| ==> !Matches(keys[j], kid)
    ensures SelectedKey(keys, kid) == Ok(JwkOf(keys[i]))
    decreases |keys|
  {
    SelectedKeyOk(keys, kid);
    var init := keys[..|keys| - 1];
    assert forall j :: 0 <= j < |init| ==> init[j] == keys[j];
    if i < |keys| - 1 {
      SelectedKeyLastMatch(init, kid, i);
    }
  }

  /** Once the scan has raised on a prefix, the rest of the list does not matter. */
  lemma {:induction false} SelectedKeyFailureStays(keys: seq<map<string, Value>>, kid: Value, n: nat)
    requires n <= |keys|
    requires SelectedKey(keys[..n], kid).Raise?
    ensures SelectedKey(keys, kid) == SelectedKey(keys[..n], kid)
    decreases |keys|
  {
    if n < |keys| {
      var init := keys[..|keys| - 1];
      assert init[..n] == keys[..n];
      SelectedKeyFailureStays(init, kid, n);
    } else {
      assert keys[..n] == keys;
    }
  }

  /** The first entry that makes the scan raise decides the exception. */
  lemma SelectedKeyFirstFault(keys: seq<map<string, Value>>, kid: Value, i: nat)
    requires i < |keys| && !Sound(keys[i], kid)
    requires forall j :: 0 <= j < i ==> Sound(keys[j], kid)
    ensures SelectedKey(keys, kid).Raise?
    ensures SelectedKey(keys, kid).exc.KeyError?
    ensures SelectedKey(keys, kid) == ScanStep(keys[i], kid, map[])
  {
    var prefix := keys[..i];
    assert forall j :: 0 <= j < |prefix| ==> prefix[j] == keys[j];
    SelectedKeyOk(prefix, kid);
    assert keys[..i + 1][..i] == prefix;
    assert keys[..i + 1][i] == keys[i];
    SelectedKeyFailureStays(keys, kid, i + 1);
  }

  /** The `for` loop over the JWKS entries, reassigning `rsa_key` at every match. */
  method ScanKeys(keys: seq<map<string, Value>>, kid: Value) returns (r: Result<map<string, Value>>)
    ensures r == SelectedKey(keys, kid)
  {
    var rsaKey: map<string, Value> := map[];
    for i := 0 to |keys|
      invariant SelectedKey(keys[..i], kid) == Ok(rsaKey)
    {
      var key := keys[i];
      assert keys[..i + 1][..i] == keys[..i];
      if "kid" !in key {
        r := Raise(KeyError("kid"));
        SelectedKeyFailureStays(keys, kid, i + 1);
        return;
      }
      if PyEq(key["kid"], kid) {
        var projected := Project(key);
        if projected.Raise? {
          r := projected;
          SelectedKeyFailureStays(keys, kid, i + 1);
          return;
        }
        rsaKey := projected.value;
      }
    }
    assert keys[..|keys|] == keys;
    r := Ok(rsaKey);
  }

  // ---------------------------------------------------------------------
  // Verification
  // ---------------------------------------------------------------------

  /** What `jwt.decode` does with the token and the selected key. */
  datatype DecodeOutcome =
    | Decoded(payload: map<string, Value>)
    | Expired      // jwt.ExpiredSignatureError
    | ClaimsError  // jwt.JWTClaimsError (audience or issuer)
    | OtherError   // any other exception

  /**
   * The identity provider as one request sees it: the `keys` list of its
   * JWKS document, python-jose's `get_unverified_header` (None when it raises)
   * and `jwt.decode` with the configured algorithms, audience and issuer.
   */
  datatype Provider = Provider(
    keys: seq<map<string, Value>>,
    unverifiedHeader: string -> Option<map<string, Value>>,
    decode: (string, map<string, Value>) -> DecodeOutcome)

  /** The `try`/`except` around `jwt.decode`. */
  function DecodeResult(outcome: DecodeOutcome): (r: Result<map<string, Value>>)
    ensures outcome.Decoded? <==> r.Ok?
    ensures r.Ok? ==> r.value == outcome.payload
    ensures r.Raise? ==> r.exc.AuthErr?
  {
    match outcome
    case Decoded(payload) => Ok(payload)
    case Expired => Raise(AuthErr(TokenExpired))
    case ClaimsError => Raise(AuthErr(IncorrectClaims))
    case OtherError => Raise(AuthErr(UnparsableToken))
  }

  /** `verify_decode_jwt(token)`. */
  function VerifyDecodeJwt(token: string, idp: Provider): (r: Result<map<string, Value>>)
    ensures idp.unverifiedHeader(token).None? <==> r == Raise(JoseError)
    ensures r.Raise? && r.exc.AuthErr? ==> r.exc.error.statusCode in {400, 401}
    ensures r.Raise? ==> r.exc.AuthErr? || r.exc.KeyError? || r.exc == JoseError
  {
    match idp.unverifiedHeader(token)
    case None => Raise(JoseError)
    case Some(header) =>
      if "kid" !in header then Raise(AuthErr(HeaderMalformed))
      else
        var rsaKey :- SelectedKey(idp.keys, header["kid"]);
        if rsaKey == map[] then Raise(AuthErr(KeyNotFound))
        else DecodeResult(idp.decode(token, rsaKey))
  }

  lemma VerifyNeedsKid(token: string, idp: Provider)
    requires idp.unverifiedHeader(token).Some?
    requires "kid" !in idp.unverifiedHeader(token).value
    ensures VerifyDecodeJwt(token, idp) == Raise(AuthErr(HeaderMalformed))
  {
  }

  /** No entry with the token's `kid`: 400 "Unable to find the appropriate key." */
  lemma VerifyUnknownKid(token: string, idp: Provider)
    requires idp.unverifiedHeader(token).Some?
    requires "kid" in idp.unverifiedHeader(token).value
    requires forall i :: 0 <= i < |idp.keys| ==>
      "kid" in idp.keys[i] && !Matches(idp.keys[i], idp.unverifiedHeader(token).value["kid"])
    ensures VerifyDecodeJwt(token, idp) == Raise(AuthErr(KeyNotFound))
  {
    SelectedKeyEmpty(idp.keys, idp.unverifiedHeader(token).value["kid"]);
  }

  /**
   * With a matching entry the token is decoded with the last match's key,
   * and the decode outcome is mapped to the payload or to its error.
   */
  lemma VerifyDecodesWithLastMatch(token: string, idp: Provider, i: nat)
    requires idp.unverifiedHeader(token).Some?
    requires "kid" in idp.unverifiedHeader(token).value
    requires forall j :: 0 <= j < |idp.keys| ==> Sound(idp.keys[j], idp.unverifiedHeader(token).value["kid"])
    requires i < |idp.keys| && Matches(idp.keys[i], idp.unverifiedHeader(token).value["kid"])
    requires forall j :: i < j < |idp.keys| ==> !Matches(idp.keys[j], idp.unverifiedHeader(token).value["kid"])
    ensures VerifyDecodeJwt(token, idp) == DecodeResult(idp.decode(token, JwkOf(idp.keys[i])))
    ensures idp.decode(token, JwkOf(idp.keys[i])) == Expired ==>
      VerifyDecodeJwt(token, idp) == Raise(AuthErr(TokenExpired))
    ensures idp.decode(token, JwkOf(idp.keys[i])) == ClaimsError ==>
      VerifyDecodeJwt(token, idp) == Raise(AuthErr(IncorrectClaims))
    ensures idp.decode(token, JwkOf(idp.keys[i])) == OtherError ==>
      VerifyDecodeJwt(token, idp) == Raise(AuthErr(UnparsableToken))
  {
    var kid := idp.unverifiedHeader(token).value["kid"];
    SelectedKeyLastMatch(idp.keys, kid, i);
    assert "kid" in JwkOf(idp.keys[i]);
  }

  /**
   * A payload is only ever what the decoder returned for the token under
   * a key taken from the provider's JWKS with the token's `kid`.
   */
  lemma VerifiedPayloadComesFromProviderKey(token: string, idp: Provider, payload: map<string, Value>)
    requires VerifyDecodeJwt(token, idp) == Ok(payload)
    ensures idp.unverifiedHeader(token).Some? && "kid" in idp.unverifiedHeader(token).value
    ensures exists i :: (0 <= i < |idp.keys| && Matches(idp.keys[i], idp.unverifiedHeader(token).value["kid"]) &&
                         idp.decode(token, JwkOf(idp.keys[i])) == Decoded(payload))
  {
    var kid := idp.unverifiedHeader(token).value["kid"];
    SelectedKeyOk(idp.keys, kid);
    SelectedKeyEmpty(idp.keys, kid);
    var i :| 0 <= i < |idp.keys| && Matches(idp.keys[i], kid);
    while exists j :: i < j < |idp.keys| && Matches(idp.keys[j], kid)
      invariant 0 <= i < |idp.keys| && Matches(idp.keys[i], kid)
      decreases |idp.keys| - i
    {
      var later :| i < later < |idp.keys| && Matches(idp.keys[later], kid);
      i := later;
    }
    SelectedKeyLastMatch(idp.keys, kid, i);
  }

  // ---------------------------------------------------------------------
  // The guard
  // ---------------------------------------------------------------------

  /** The three stages of `requires_auth`'s wrapper: extract, verify, check. */
  function Authorize(permission: string, authorization: Option<string>, idp: Provider): (r: Result<map<string, Value>>)
    ensures GetTokenAuthHeader(authorization).Raise? ==> r == Raise(GetTokenAuthHeader(authorization).exc)
    ensures GetTokenAuthHeader(authorization).Ok? && VerifyDecodeJwt(GetTokenAuthHeader(authorization).value, idp).Raise? ==>
      r == Raise(VerifyDecodeJwt(GetTokenAuthHeader(authorization).value, idp).exc)
    ensures GetTokenAuthHeader(authorization).Ok? && VerifyDecodeJwt(GetTokenAuthHeader(authorization).value, idp).Ok? &&
            CheckPermissions(permission, VerifyDecodeJwt(GetTokenAuthHeader(authorization).value, idp).value).Raise? ==>
      r == Raise(CheckPermissions(permission, VerifyDecodeJwt(GetTokenAuthHeader(authorization).value, idp).value).exc)
    ensures r.Ok? <==>
      && GetTokenAuthHeader(authorization).Ok?
      && VerifyDecodeJwt(GetTokenAuthHeader(authorization).value, idp).Ok?
      && CheckPermissions(permission, VerifyDecodeJwt(GetTokenAuthHeader(authorization).value, idp).value) == Ok(true)
    ensures r.Ok? ==> r == VerifyDecodeJwt(GetTokenAuthHeader(authorization).value, idp)
  {
    var token :- GetTokenAuthHeader(authorization);
    var payload :- VerifyDecodeJwt(token, idp);
    var granted :- CheckPermissions(permission, payload);
    Ok(payload)
  }

  /** `requires_auth(permission)(handler)` applied to one request. */
  function RequiresAuth<R>(permission: string, handler: map<string, Value> -> Result<R>,
                           authorization: Option<string>, idp: Provider): (r: Result<R>)
    ensures Authorize(permission, authorization, idp).Raise? ==>
      r == Raise(Authorize(permission, authorization, idp).exc)
    ensures Authorize(permission, authorization, idp).Ok? ==>
      r == handler(Authorize(permission, authorization, idp).value)
  {
    var payload :- Authorize(permission, authorization, idp);
    handler(payload)
  }

  /** A request without an Authorization header never reaches the handler. */
  lemma GuardWithoutHeader<R>(permission: string, handler: map<string, Value> -> Result<R>, idp: Provider)
    ensures RequiresAuth(permission, handler, None, idp) == Raise(AuthErr(HeaderMissing))
  {
  }

  /**
   * A well-formed bearer request whose token decodes, under the last JWKS
   * entry with its `kid`, to a payload granting the permission runs the
   * handler on exactly that payload.
   */
  lemma GuardRunsHandlerOnPayload<R>(
    permission: string, handler: map<string, Value> -> Result<R>, idp: Provider,
    scheme: string, token: string, i: nat, payload: map<string, Value>)
    requires Lower(scheme) == "bearer" && ' ' !in token
    requires idp.unverifiedHeader(token).Some? && "kid" in idp.unverifiedHeader(token).value
    requires forall j :: 0 <= j < |idp.keys| ==> Sound(idp.keys[j], idp.unverifiedHeader(token).value["kid"])
    requires i < |idp.keys| && Matches(idp.keys[i], idp.unverifiedHeader(token).value["kid"])
    requires forall j :: i < j < |idp.keys| ==> !Matches(idp.keys[j], idp.unverifiedHeader(token).value["kid"])
    requires idp.decode(token, JwkOf(idp.keys[i])) == Decoded(payload)
    requires "permissions" in payload && payload["permissions"].Arr?
    requires Str(permission) in payload["permissions"].items
    ensures RequiresAuth(permission, handler, Some(scheme + " " + token), idp) == handler(payload)
  {
    RoundTrip(scheme, token);
    VerifyDecodesWithLastMatch(token, idp, i);
  }

  /** A verified token whose list claim lacks the permission is refused with 403. */
  lemma GuardRefusesMissingPermission<R>(
    permission: string, handler: map<string, Value> -> Result<R>,
    authorization: Option<string>, idp: Provider, payload: map<string, Value>)
    requires GetTokenAuthHeader(authorization).Ok?
    requires VerifyDecodeJwt(GetTokenAuthHeader(authorization).value, idp) == Ok(payload)
    requires "permissions" in payload && payload["permissions"].Arr?
    requires Str(permission) !in payload["permissions"].items
    ensures RequiresAuth(permission, handler, authorization, idp) == Raise(AuthErr(PermissionNotFound))
  {
  }
}
