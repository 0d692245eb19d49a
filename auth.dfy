/** The three request guards (src/auth): HTTP Basic credentials on the
    CRM webhooks, a query-string secret on the field-service webhooks and a
    header secret on the sales-system webhooks. Configuration values are
    parameters and may be unset (`None`); base64 decoding is a parameter. */
module Guards {
  import opened Wrappers
  import opened Strings

  /** A guard lets the request through, refuses it by returning false, or
      throws `UnauthorizedException` with a message. */
  datatype GuardResult = Allow | Deny | Unauthorized(message: string)

  const BASIC_PREFIX := "Basic "
  const MISSING_HEADER := "Missing or invalid authorization header"
  const ZOHO_FAILED := "Custom Zoho authentication failed."

  // ---------------------------------------------------------------------
  // basic-auth.guard.ts

  /** The decoded credentials split at every ':': the user name is the
      first piece, the password the second (`None` without a ':'). */
  function Credentials(decoded: string): (r: (string, Option<string>))
    ensures ':' !in r.0
    ensures r.1.Some? ==> ':' !in r.1.value
  {
    var parts := Split(decoded, ':');
    (parts[0], At(parts, 1))
  }

  /** The password is missing exactly when the credentials hold no ':'. */
  lemma {:induction false} CredentialsWithoutColon(decoded: string)
    ensures Credentials(decoded).1.None? <==> ':' !in decoded
    ensures ':' !in decoded ==> Credentials(decoded) == (decoded, None)
  {
    if ':' in decoded {
      SplitCount(decoded, ':');
    } else {
      SplitNoSeparator(decoded, ':');
    }
  }

  /** `split` yields a second piece exactly when the separator occurs. */
  lemma {:induction false} SplitCount(s: string, c: char)
    requires c in s
    ensures |Split(s, c)| >= 2
  {
    var i := CharIndex(s, c);
    assert s == s[..i] + [c] + s[i + 1..];
    SplitAfterPrefix(s[..i], s[i + 1..], c);
  }

  /** The guard. `decode` is base64 decoding to ASCII text; the configured
      user name and password are compared with `==`, under which an unset
      password equals a missing one. */
  function BasicAuth(header: Option<string>, decode: string -> string,
                     user: Option<string>, password: Option<string>): (r: GuardResult)
    ensures r.Unauthorized? ==> r.message == MISSING_HEADER
    ensures r == Allow ==> && user.Some? && ':' !in user.value
                           && (password.Some? ==> ':' !in password.value)
  {
    if !Truthy(header) || !StartsWith(header.value, BASIC_PREFIX) then Unauthorized(MISSING_HEADER)
    else
      var parts := Split(header.value, ' ');
      BasicHeaderSplit(header.value);
      var creds := Credentials(decode(parts[1]));
      if user == Some(creds.0) && password == creds.1 then Allow else Deny
  }

  /** A header "Basic <token> ..." splits with the token second. */
  lemma {:induction false} BasicHeaderSplit(h: string)
    requires StartsWith(h, BASIC_PREFIX)
    ensures |Split(h, ' ')| >= 2 && Split(h, ' ')[0] == "Basic"
  {
    assert h == "Basic" + [' '] + h[|BASIC_PREFIX|..];
    SplitAfterPrefix("Basic", h[|BASIC_PREFIX|..], ' ');
  }

  /** A missing header, or one not starting with "Basic ", throws; any
      other header is decided by the credentials, and wrong ones return
      false rather than throwing. */
  lemma BasicAuthUnauthorized(header: Option<string>, decode: string -> string,
                              user: Option<string>, password: Option<string>)
    ensures BasicAuth(header, decode, user, password).Unauthorized? <==>
              header.None? || !StartsWith(header.value, BASIC_PREFIX)
  {
  }

  /** With a header "Basic <token>", the decoded token of the form
      "<name>:<secret>" is accepted exactly when both equal the configured
      values. */
  lemma {:induction false} BasicAuthAccepts(token: string, decode: string -> string, name: string, secret: string,
                                            user: Option<string>, password: Option<string>)
    requires ' ' !in token
    requires ':' !in name && ':' !in secret
    requires decode(token) == name + ":" + secret
    ensures BasicAuth(Some(BASIC_PREFIX + token), decode, user, password) == Allow <==>
              user == Some(name) && password == Some(secret)
    ensures BasicAuth(Some(BASIC_PREFIX + token), decode, user, password) != Allow ==>
              BasicAuth(Some(BASIC_PREFIX + token), decode, user, password) == Deny
  {
    var h := BASIC_PREFIX + token;
    assert StartsWith(h, BASIC_PREFIX) by {
      assert h[..|BASIC_PREFIX|] == BASIC_PREFIX;
    }
    assert h == "Basic" + [' '] + token;
    SplitAfterPrefix("Basic", token, ' ');
    SplitNoSeparator(token, ' ');
    assert Split(h, ' ')[1] == token;
    CredentialsOf(name, secret, "");
    assert name + ":" + secret + "" == decode(token);
  }

  /** The credentials "<name>:<secret><rest>" give the name and the
      secret, whatever `rest` holds after a further ':'. */
  lemma {:induction false} CredentialsOf(name: string, secret: string, rest: string)
    requires ':' !in name && ':' !in secret
    requires rest == "" || rest[0] == ':'
    ensures Credentials(name + ":" + secret + rest) == (name, Some(secret))
  {
    var d := name + ":" + secret + rest;
    assert d == name + [':'] + (secret + rest);
    SplitAfterPrefix(name, secret + rest, ':');
    if rest == "" {
      assert secret + rest == secret;
      SplitNoSeparator(secret, ':');
    } else {
      assert secret + rest == secret + [':'] + rest[1..];
      SplitAfterPrefix(secret, rest[1..], ':');
    }
  }

  /** As written, a password holding ':' is cut at it: "alice:pa:ss" reads
      as the password "pa", so a configured password "pa:ss" never
      matches. */
  lemma {:induction false} PasswordWithColonTruncated(name: string, left: string, right: string)
    requires ':' !in name && ':' !in left
    ensures Credentials(name + ":" + left + ":" + right) == (name, Some(left))
    ensures Credentials(name + ":" + left + ":" + right).1 != Some(left + ":" + right)
  {
    assert name + ":" + left + ":" + right == name + ":" + left + (":" + right);
    CredentialsOf(name, left, ":" + right);
    assert |left + ":" + right| > |left|;
  }

  /** A configured password holding ':' admits no request at all. */
  lemma ColonPasswordNeverAllows(header: Option<string>, decode: string -> string, user: Option<string>, secret: string)
    requires ':' in secret
    ensures BasicAuth(header, decode, user, Some(secret)) != Allow
  {
  }

  /** Credentials split at the first ':' only, as section 2 of RFC 7617
      prescribes: the user-id holds no ':', the password may. */
  function CredentialsRfc7617(decoded: string): (r: (string, Option<string>))
  {
    if ':' in decoded then
      var i := CharIndex(decoded, ':');
      (decoded[..i], Some(decoded[i + 1..]))
    else (decoded, None)
  }

  /** Every user-id and password pair comes back whole. */
  lemma CredentialsRfc7617RoundTrip(name: string, secret: string)
    requires ':' !in name
    ensures CredentialsRfc7617(name + ":" + secret) == (name, Some(secret))
  {
    var d := name + ":" + secret;
    assert d[|name|] == ':';
    var i := CharIndex(d, ':');
    assert d[..|name|] == name;
    assert i == |name|;
    assert d[i + 1..] == secret;
  }

  /** The guard with the corrected split. */
  function BasicAuthRfc7617(header: Option<string>, decode: string -> string,
                            user: Option<string>, password: Option<string>): (r: GuardResult)
  {
    if !Truthy(header) || !StartsWith(header.value, BASIC_PREFIX) then Unauthorized(MISSING_HEADER)
    else
      var parts := Split(header.value, ' ');
      BasicHeaderSplit(header.value);
      var creds := CredentialsRfc7617(decode(parts[1]));
      if user == Some(creds.0) && password == creds.1 then Allow else Deny
  }

  /** With the corrected split, the configured credentials are accepted
      whatever the password holds. */
  lemma {:induction false} BasicAuthRfc7617Accepts(token: string, decode: string -> string, name: string, secret: string)
    requires ' ' !in token && ':' !in name
    requires decode(token) == name + ":" + secret
    ensures BasicAuthRfc7617(Some(BASIC_PREFIX + token), decode, Some(name), Some(secret)) == Allow
  {
    var h := BASIC_PREFIX + token;
    assert StartsWith(h, BASIC_PREFIX) by {
      assert h[..|BASIC_PREFIX|] == BASIC_PREFIX;
    }
    assert h == "Basic" + [' '] + token;
    SplitAfterPrefix("Basic", token, ' ');
    SplitNoSeparator(token, ' ');
    assert Split(h, ' ')[1] == token;
    CredentialsRfc7617RoundTrip(name, secret);
  }

  // ---------------------------------------------------------------------
  // pestroutes.guard.ts

  /** The `x-atlaspest-auth` query parameter must be present, non-empty
      and identical to the configured secret. */
  function PestRoutesGuard(param: Option<string>, secret: Option<string>): (r: GuardResult)
    ensures r != Deny
    ensures r == Allow <==> param.Some? && param.value != "" && param == secret
    ensures r != Allow ==> r == Unauthorized(MISSING_HEADER)
  {
    if !Truthy(param) || param != secret then Unauthorized(MISSING_HEADER) else Allow
  }

  // ---------------------------------------------------------------------
  // zoho.guard.ts

  /** The `x-atlaspest-auth` header must be identical to the configured
      key; when both are absent they are identical. */
  function ZohoGuard(header: Option<string>, key: Option<string>): (r: GuardResult)
    ensures r != Deny
    ensures r == Allow <==> header == key
    ensures key.None? && header.None? ==> r == Allow
    ensures r != Allow ==> r == Unauthorized(ZOHO_FAILED)
  {
    if header != key then Unauthorized(ZOHO_FAILED) else Allow
  }
}
