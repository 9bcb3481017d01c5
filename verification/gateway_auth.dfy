/** Admission of gateway connections. A handshake token is accepted when its
    UTF-8 bytes equal the internal API key's, or when it is a compact JWS
    (section 7.1 of RFC 7515) signed with HMAC-SHA256 (section 3.2 of
    RFC 7518) under the auth secret whose `exp` claim (section 4.1.4 of
    RFC 7519), when present and non-zero, is not before the current second.
    The cryptographic and encoding primitives are parameters: the model says
    how they are combined, not how they compute. */
module GatewayAuth {
  import opened Common

  /** The separator of the three parts of a compact JWS. */
  const Dot: char := '.'

  /** The `userId` claim as a truthiness test sees it: a falsy value (absent,
      null, 0, false), a string, or a truthy value of another type. The
      empty string is falsy. */
  datatype UserClaim = Falsy | Text(s: string) | TruthyOther
  {
    /** `payload.userId && payload.userId !== userId`: a truthy claim other
        than the very string `userId`. */
    predicate ConflictsWith(userId: string) {
      match this
      case Falsy => false
      case Text(claimed) => claimed != "" && claimed != userId
      case TruthyOther => true
    }
  }

  /** The claims a token's payload carries, as far as the gateway reads them;
      `exp` is in seconds since the Unix epoch. */
  datatype Claims = Claims(exp: Option<int>, userId: UserClaim)

  /** The two secrets of the gateway's configuration. */
  datatype Secrets = Secrets(internalApiKey: string, authSecret: string)

  /** The primitives the gateway calls: UTF-8 encoding, the base64url
      HMAC-SHA256 of a message under a key, and the base64url-then-JSON
      decoding of a payload part. That decoding is `None` when decoding or
      parsing throws, or when the payload is `null`, whose `exp` cannot be
      read. Any other JSON value, object or not, yields its claims; a
      number, a string or an array has no `exp`. */
  datatype Crypto = Crypto(
    utf8: string -> seq<bv8>,
    hmac: (string, string) -> string,
    decodeClaims: string -> Option<Claims>)

  // ---------------------------------------------------------------------
  // `token.split(".")` and its inverse
  // ---------------------------------------------------------------------

  /** The parts joined back with the separator between consecutive ones. */
  function Join(parts: seq<string>, sep: char): string
    requires |parts| > 0
  {
    if |parts| == 1 then parts[0] else parts[0] + [sep] + Join(parts[1..], sep)
  }

  /** `s.split(sep)`: the maximal separator-free pieces between the
      separators, at least one (an empty string splits into `[""]`). */
  function Split(s: string, sep: char): (parts: seq<string>)
    ensures |parts| > 0
    ensures Join(parts, sep) == s
    ensures forall i :: 0 <= i < |parts| ==> sep !in parts[i]
  {
    if |s| == 0 then [""]
    else
      var rest := Split(s[1..], sep);
      if s[0] == sep then
        assert s == [sep] + s[1..];
        [""] + rest
      else
        var parts := [[s[0]] + rest[0]] + rest[1..];
        assert parts[1..] == rest[1..];
        assert s == [s[0]] + s[1..];
        parts
  }

  /** A separator-free string splits into itself alone. */
  lemma {:induction false} SplitWithoutSeparator(p: string, sep: char)
    requires sep !in p
    ensures Split(p, sep) == [p]
    decreases |p|
  {
    if |p| > 0 {
      SplitWithoutSeparator(p[1..], sep);
      assert [p[0]] + p[1..] == p;
    }
  }

  /** A separator-free first piece is split off whole. */
  lemma {:induction false} SplitFirstPiece(p: string, sep: char, rest: string)
    requires sep !in p
    ensures Split(p + [sep] + rest, sep) == [p] + Split(rest, sep)
    decreases |p|
  {
    var s := p + [sep] + rest;
    if |p| == 0 {
      assert s[0] == sep && s[1..] == rest;
    } else {
      assert s[0] == p[0] && s[1..] == p[1..] + [sep] + rest;
      SplitFirstPiece(p[1..], sep, rest);
      assert [p[0]] + p[1..] == p;
    }
  }

  /** Splitting undoes joining separator-free parts. */
  lemma {:induction false} SplitJoin(parts: seq<string>, sep: char)
    requires |parts| > 0
    requires forall i :: 0 <= i < |parts| ==> sep !in parts[i]
    ensures Split(Join(parts, sep), sep) == parts
    decreases |parts|
  {
    if |parts| == 1 {
      SplitWithoutSeparator(parts[0], sep);
    } else {
      SplitJoin(parts[1..], sep);
      SplitFirstPiece(parts[0], sep, Join(parts[1..], sep));
      assert [parts[0]] + parts[1..] == parts;
    }
  }

  // ---------------------------------------------------------------------
  // `verifyToken`
  // ---------------------------------------------------------------------

  /** The signing input of a compact JWS: header and payload parts. */
  function SigningInput(header: string, payload: string): string {
    header + [Dot] + payload
  }

  /** A token in compact serialization: three parts, two dots. */
  function Compact(header: string, payload: string, signature: string): string {
    SigningInput(header, payload) + [Dot] + signature
  }

  /** `payload.exp && payload.exp < Math.floor(now / 1000)`: a zero `exp` is
      falsy and never expires; `exp` equal to the current second is still
      valid. */
  predicate Expired(claims: Claims, nowMs: int) {
    claims.exp.Some? && claims.exp.value != 0 && claims.exp.value < nowMs / 1000
  }

  /** Byte equality with the internal API key (a length check, then a
      constant-time compare). */
  predicate IsInternalKey(secrets: Secrets, crypto: Crypto, token: string) {
    crypto.utf8(token) == crypto.utf8(secrets.internalApiKey)
  }

  /** Joining three parts is the compact serialization. */
  lemma JoinThree(header: string, payload: string, signature: string)
    ensures Join([header, payload, signature], Dot) == Compact(header, payload, signature)
  {
    var parts := [header, payload, signature];
    assert parts[1..] == [payload, signature];
    assert parts[1..][1..] == [signature];
    assert Join([signature], Dot) == signature;
    assert Join([payload, signature], Dot) == payload + [Dot] + signature;
    assert Join(parts, Dot) == header + [Dot] + (payload + [Dot] + signature);
  }

  /** `verifyToken`. */
  function VerifyToken(secrets: Secrets, crypto: Crypto, token: string, nowMs: int): (ok: bool)
    ensures IsInternalKey(secrets, crypto, token) ==> ok
    // a token other than the key needs exactly two dots, a matching
    // signature over the first two parts and unexpired, readable claims
    ensures ok && !IsInternalKey(secrets, crypto, token) ==>
      var parts := Split(token, Dot);
      && |parts| == 3
      && token == Compact(parts[0], parts[1], parts[2])
      && parts[2] == crypto.hmac(secrets.authSecret, SigningInput(parts[0], parts[1]))
      && crypto.decodeClaims(parts[1]).Some?
      && !Expired(crypto.decodeClaims(parts[1]).value, nowMs)
  {
    if IsInternalKey(secrets, crypto, token) then true
    else
      var parts := Split(token, Dot);
      if |parts| != 3 then false
      else if crypto.hmac(secrets.authSecret, SigningInput(parts[0], parts[1])) != parts[2] then false
      else
        JoinThree(parts[0], parts[1], parts[2]);
        assert parts == [parts[0], parts[1], parts[2]];
        match crypto.decodeClaims(parts[1])
        case None => false
        case Some(claims) => !Expired(claims, nowMs)
  }

  /** Signing then verifying: a token whose signature is the HMAC of its
      first two parts is accepted exactly when its claims decode and have not
      expired. */
  lemma SignedTokenAccepted(secrets: Secrets, crypto: Crypto, header: string, payload: string, nowMs: int)
    requires Dot !in header && Dot !in payload
    requires Dot !in crypto.hmac(secrets.authSecret, SigningInput(header, payload))
    requires !IsInternalKey(secrets, crypto, Compact(header, payload, crypto.hmac(secrets.authSecret, SigningInput(header, payload))))
    ensures var token := Compact(header, payload, crypto.hmac(secrets.authSecret, SigningInput(header, payload)));
            VerifyToken(secrets, crypto, token, nowMs) <==>
              crypto.decodeClaims(payload).Some? && !Expired(crypto.decodeClaims(payload).value, nowMs)
  {
    var sig := crypto.hmac(secrets.authSecret, SigningInput(header, payload));
    var parts := [header, payload, sig];
    JoinThree(header, payload, sig);
    SplitJoin(parts, Dot);
  }

  /** A token whose third part is not the HMAC of its first two is refused,
      unless it is the internal key itself. */
  lemma ForgedSignatureRejected(secrets: Secrets, crypto: Crypto, header: string, payload: string,
                                signature: string, nowMs: int)
    requires Dot !in header && Dot !in payload && Dot !in signature
    requires signature != crypto.hmac(secrets.authSecret, SigningInput(header, payload))
    requires !IsInternalKey(secrets, crypto, Compact(header, payload, signature))
    ensures !VerifyToken(secrets, crypto, Compact(header, payload, signature), nowMs)
  {
    var parts := [header, payload, signature];
    JoinThree(header, payload, signature);
    SplitJoin(parts, Dot);
  }

  /** A token with no dot at all is accepted only as the internal key. */
  lemma DotlessTokenNeedsInternalKey(secrets: Secrets, crypto: Crypto, token: string, nowMs: int)
    requires Dot !in token
    ensures VerifyToken(secrets, crypto, token, nowMs) <==> IsInternalKey(secrets, crypto, token)
  {
    SplitWithoutSeparator(token, Dot);
  }

  // ---------------------------------------------------------------------
  // The handshake middleware
  // ---------------------------------------------------------------------

  /** `auth?.token ?? query?.token`: the query token is consulted only when
      the auth token is absent (undefined or null). */
  function HandshakeToken(auth: Option<JsValue>, query: Option<JsValue>): (r: Option<JsValue>)
    ensures auth.Some? ==> r == auth
    ensures auth.None? ==> r == query
  {
    if auth.Some? then auth else query
  }

  /** The middleware: a non-empty string token that verifies. */
  function Admits(secrets: Secrets, crypto: Crypto, auth: Option<JsValue>, query: Option<JsValue>, nowMs: int): (ok: bool)
    ensures ok <==> && HandshakeToken(auth, query).Some?
                    && HandshakeToken(auth, query).value.IsNonEmptyString()
                    && VerifyToken(secrets, crypto, HandshakeToken(auth, query).value.s, nowMs)
  {
    match HandshakeToken(auth, query)
    case None => false
    case Some(token) => token.IsNonEmptyString() && VerifyToken(secrets, crypto, token.s, nowMs)
  }

  /** An auth token that is present decides alone: a valid query token does
      not rescue a non-string or empty auth token. */
  lemma AuthTokenShadowsQuery(secrets: Secrets, crypto: Crypto, auth: JsValue, query: Option<JsValue>, nowMs: int)
    ensures Admits(secrets, crypto, Some(auth), query, nowMs) ==
            Admits(secrets, crypto, Some(auth), None, nowMs)
    ensures !auth.IsNonEmptyString() ==> !Admits(secrets, crypto, Some(auth), query, nowMs)
  {
  }

  /** The internal key is admitted by either route. */
  lemma InternalKeyAdmitted(secrets: Secrets, crypto: Crypto, query: Option<JsValue>, nowMs: int)
    requires secrets.internalApiKey != ""
    ensures Admits(secrets, crypto, Some(JsString(secrets.internalApiKey)), query, nowMs)
    ensures Admits(secrets, crypto, None, Some(JsString(secrets.internalApiKey)), nowMs)
  {
  }
}
