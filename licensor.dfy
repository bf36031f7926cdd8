/**
 * The license issuer and checker: a self-hosted licensor can only check licenses,
 * Bencher Cloud can also issue them. A license is a JSON Web Token (RFC 7519)
 * carrying the registered claims of section 4.1 of RFC 7519, signed with ES256
 * (section 3.4 of RFC 7518).
 *
 * Signing is modelled symbolically: a key belongs to a numbered key pair, a
 * signature records the pair, the header and the claims it covers, and a
 * decoding key accepts exactly the signatures of its own pair.
 */
module License {
  import opened Wrappers

  type OrganizationUuid = string

  /** The audience and issuer name of Bencher's licenses. */
  const BENCHER_DEV: string := "bencher.dev"

  datatype Audience = Bencher

  /** The name an audience is written as in a token's `aud` claim. */
  function AudienceName(audience: Audience): string
  {
    match audience
    case Bencher => BENCHER_DEV
  }

  datatype BillingCycle = Monthly | Annual

  /** How many seconds each billing cycle lasts. */
  datatype CycleLengths = CycleLengths(monthly: nat, annual: nat)

  function CycleSeconds(cycle: BillingCycle, lengths: CycleLengths): nat
  {
    match cycle
    case Monthly => lengths.monthly
    case Annual => lengths.annual
  }

  /** The claims of a license: audience, expiry, issue time, issuer, subject organization and entitlements. */
  datatype Claims = Claims(aud: string, exp: nat, iat: nat, iss: string, sub: OrganizationUuid, ent: nat)

  datatype Algorithm = ES256 | OtherAlgorithm(name: string)

  datatype Header = Header(alg: Algorithm)

  /** Every license is issued under an ES256 header. */
  const HEADER: Header := Header(ES256)

  /** A PEM file: the private or public half of an EC key pair, or anything else. */
  datatype Pem = PrivateEcPem(pair: nat) | PublicEcPem(pair: nat) | OtherPem(text: string)

  datatype EncodingKey = EncodingKey(pair: nat)
  datatype DecodingKey = DecodingKey(pair: nat)

  /** What the signature over a header and claims records. */
  datatype Signature = Signature(pair: nat, header: Header, claims: Claims)

  /** A license token: a signed header and claims, or text that is not a token. */
  datatype Jwt = Token(header: Header, claims: Claims, signature: Signature) | Malformed(text: string)

  datatype TokenData = TokenData(header: Header, claims: Claims)

  /** The checks `decode` makes beyond the signature. */
  datatype Validation = Validation(algorithms: seq<Algorithm>, audience: seq<string>, issuer: seq<string>)

  datatype JwtErrorKind = InvalidToken | InvalidAlgorithm | InvalidSignature | InvalidAudience | InvalidIssuer | ExpiredSignature

  datatype LicenseError =
    | SelfHosted
    | Subject(provided: OrganizationUuid, license: OrganizationUuid)
    | Entitlements(usage: nat, entitlements: nat)
    | PrivatePem
    | PublicPem
    | Timestamp(seconds: int)
    | JwtError(kind: JwtErrorKind)

  datatype Licensor =
    | SelfHostedLicensor(decoding: DecodingKey)
    | BencherCloud(encoding: EncodingKey, decoding: DecodingKey)

  // ---------------------------------------------------------------------------
  // Keys and licensors

  function EncodingKeyOf(pem: Pem): (r: Result<EncodingKey, LicenseError>)
    ensures r.Ok? <==> pem.PrivateEcPem?
    ensures r.Ok? ==> r.value.pair == pem.pair
    ensures r.Err? ==> r.error == PrivatePem
  {
    match pem
    case PrivateEcPem(pair) => Ok(EncodingKey(pair))
    case _ => Err(PrivatePem)
  }

  function DecodingKeyOf(pem: Pem): (r: Result<DecodingKey, LicenseError>)
    ensures r.Ok? <==> pem.PublicEcPem?
    ensures r.Ok? ==> r.value.pair == pem.pair
    ensures r.Err? ==> r.error == PublicPem
  {
    match pem
    case PublicEcPem(pair) => Ok(DecodingKey(pair))
    case _ => Err(PublicPem)
  }

  /** `Licensor::self_hosted`, given the bundled public key file. */
  function NewSelfHosted(publicPem: Pem): (r: Result<Licensor, LicenseError>)
    ensures r.Ok? <==> publicPem.PublicEcPem?
    ensures r.Ok? ==> r.value == SelfHostedLicensor(DecodingKey(publicPem.pair))
  {
    var decoding :- DecodingKeyOf(publicPem);
    Ok(SelfHostedLicensor(decoding))
  }

  /** `Licensor::bencher_cloud`: the private key is parsed first, so its error wins. */
  function NewBencherCloud(privatePem: Pem, publicPem: Pem): (r: Result<Licensor, LicenseError>)
    ensures r.Ok? <==> privatePem.PrivateEcPem? && publicPem.PublicEcPem?
    ensures r.Ok? ==> r.value == BencherCloud(EncodingKey(privatePem.pair), DecodingKey(publicPem.pair))
    ensures !privatePem.PrivateEcPem? ==> r == Err(PrivatePem)
  {
    var encoding :- EncodingKeyOf(privatePem);
    var decoding :- DecodingKeyOf(publicPem);
    Ok(BencherCloud(encoding, decoding))
  }

  /** Only Bencher Cloud holds a signing key. */
  function Encoding(licensor: Licensor): (r: Result<EncodingKey, LicenseError>)
    ensures r.Err? <==> licensor.SelfHostedLicensor?
    ensures r.Err? ==> r.error == SelfHosted
    ensures r.Ok? ==> r.value == licensor.encoding
  {
    match licensor
    case SelfHostedLicensor(_) => Err(SelfHosted)
    case BencherCloud(encoding, _) => Ok(encoding)
  }

  /** Both kinds of licensor hold the checking key. */
  function Decoding(licensor: Licensor): (r: DecodingKey)
    ensures r == licensor.decoding
  {
    match licensor
    case SelfHostedLicensor(decoding) => decoding
    case BencherCloud(_, decoding) => decoding
  }

  // ---------------------------------------------------------------------------
  // Clock, claims, tokens

  /** `now()`: the clock's timestamp as an unsigned number of seconds; a time before 1970 is an error. */
  function Now(timestamp: int): (r: Result<nat, LicenseError>)
    ensures r.Ok? <==> timestamp >= 0
    ensures r.Ok? ==> r.value == timestamp
  {
    if timestamp < 0 then Err(Timestamp(timestamp)) else Ok(timestamp)
  }

  /**
   * The claims of a new license: issued now, expiring one billing cycle later, audience and
   * issuer Bencher. Only the clock can make it fail.
   */
  function NewClaims(audience: Audience, cycle: BillingCycle, organization: OrganizationUuid, entitlements: nat,
                     timestamp: int, lengths: CycleLengths): (r: Result<Claims, LicenseError>)
    ensures r.Ok? <==> timestamp >= 0
    ensures r.Err? ==> r.error == Timestamp(timestamp)
    ensures r.Ok? ==> && r.value.iat == timestamp && r.value.exp - r.value.iat == CycleSeconds(cycle, lengths)
                      && r.value.aud == BENCHER_DEV && r.value.iss == BENCHER_DEV
                      && r.value.sub == organization && r.value.ent == entitlements
  {
    var now :- Now(timestamp);
    Ok(Claims(AudienceName(audience), now + CycleSeconds(cycle, lengths), now, BENCHER_DEV, organization, entitlements))
  }

  function Sign(key: EncodingKey, header: Header, claims: Claims): Signature
  {
    Signature(key.pair, header, claims)
  }

  /** `encode`: the header and claims with their signature. */
  function Encode(header: Header, claims: Claims, key: EncodingKey): Jwt
  {
    Token(header, claims, Sign(key, header, claims))
  }

  /** The validation every license check uses: ES256 only, audience and issuer Bencher. */
  const LICENSE_VALIDATION: Validation := Validation([ES256], [AudienceName(Bencher)], [BENCHER_DEV])

  /** `decode`: algorithm, then signature, then audience, then issuer. */
  function Decode(jwt: Jwt, key: DecodingKey, validation: Validation): (r: Result<TokenData, LicenseError>)
    ensures r.Ok? ==> jwt.Token? && r.value == TokenData(jwt.header, jwt.claims)
    ensures r.Ok? ==> jwt.signature == Signature(key.pair, jwt.header, jwt.claims)
    ensures r.Ok? ==> jwt.header.alg in validation.algorithms
    ensures r.Ok? ==> jwt.claims.aud in validation.audience && jwt.claims.iss in validation.issuer
  {
    match jwt
    case Malformed(_) => Err(JwtError(InvalidToken))
    case Token(header, claims, signature) =>
      if header.alg !in validation.algorithms then Err(JwtError(InvalidAlgorithm))
      else if signature != Signature(key.pair, header, claims) then Err(JwtError(InvalidSignature))
      else if claims.aud !in validation.audience then Err(JwtError(InvalidAudience))
      else if claims.iss !in validation.issuer then Err(JwtError(InvalidIssuer))
      else Ok(TokenData(header, claims))
  }

  // ---------------------------------------------------------------------------
  // The licensor's operations

  /** `new_license`: the claims are built before the signing key is asked for. */
  function NewLicense(licensor: Licensor, audience: Audience, cycle: BillingCycle, organization: OrganizationUuid,
                      entitlements: nat, timestamp: int, lengths: CycleLengths): (r: Result<Jwt, LicenseError>)
    ensures r.Ok? <==> timestamp >= 0 && licensor.BencherCloud?
    ensures timestamp < 0 ==> r == Err(Timestamp(timestamp))
    ensures timestamp >= 0 && licensor.SelfHostedLicensor? ==> r == Err(SelfHosted)
    ensures r.Ok? ==> && r.value.Token? && r.value.header == HEADER
                      && r.value.signature == Signature(licensor.encoding.pair, HEADER, r.value.claims)
                      && r.value.claims == NewClaims(audience, cycle, organization, entitlements, timestamp, lengths).value
  {
    var claims :- NewClaims(audience, cycle, organization, entitlements, timestamp, lengths);
    var encoding :- Encoding(licensor);
    Ok(Encode(HEADER, claims, encoding))
  }

  /** `new_monthly_license`: a license for audience Bencher that lasts one month. */
  function NewMonthlyLicense(licensor: Licensor, organization: OrganizationUuid, entitlements: nat,
                             timestamp: int, lengths: CycleLengths): (r: Result<Jwt, LicenseError>)
    ensures r.Ok? <==> timestamp >= 0 && licensor.BencherCloud?
    ensures r.Ok? ==> && r.value.Token? && r.value.claims.aud == BENCHER_DEV
                      && r.value.claims.iat == timestamp && r.value.claims.exp == timestamp + lengths.monthly
  {
    NewLicense(licensor, Bencher, Monthly, organization, entitlements, timestamp, lengths)
  }

  /** `new_annual_license`: a license for audience Bencher that lasts one year. */
  function NewAnnualLicense(licensor: Licensor, organization: OrganizationUuid, entitlements: nat,
                            timestamp: int, lengths: CycleLengths): (r: Result<Jwt, LicenseError>)
    ensures r.Ok? <==> timestamp >= 0 && licensor.BencherCloud?
    ensures r.Ok? ==> && r.value.Token? && r.value.claims.aud == BENCHER_DEV
                      && r.value.claims.iat == timestamp && r.value.claims.exp == timestamp + lengths.annual
  {
    NewLicense(licensor, Bencher, Annual, organization, entitlements, timestamp, lengths)
  }

  /** `check_expiration`: a license expires strictly after its `exp` second. */
  function CheckExpiration(exp: nat, timestamp: int): (r: Result<(), LicenseError>)
    ensures r.Ok? <==> 0 <= timestamp <= exp
    ensures 0 <= timestamp && exp < timestamp ==> r == Err(JwtError(ExpiredSignature))
  {
    var now :- Now(timestamp);
    if exp < now then Err(JwtError(ExpiredSignature)) else Ok(())
  }

  /** `validate`: decode with the licensor's key, then check the expiry against the clock. */
  function Validate(licensor: Licensor, license: Jwt, timestamp: int): (r: Result<TokenData, LicenseError>)
    ensures r.Ok? <==> Decode(license, Decoding(licensor), LICENSE_VALIDATION).Ok? && 0 <= timestamp <= license.claims.exp
    ensures r.Ok? ==> r == Decode(license, Decoding(licensor), LICENSE_VALIDATION)
    ensures r.Ok? ==> r.value.claims.aud == BENCHER_DEV && r.value.claims.iss == BENCHER_DEV && r.value.header.alg == ES256
  {
    var tokenData :- Decode(license, Decoding(licensor), LICENSE_VALIDATION);
    var _ :- CheckExpiration(tokenData.claims.exp, timestamp);
    Ok(tokenData)
  }

  /** `validate_organization`: a valid license whose subject is the given organization. */
  function ValidateOrganization(licensor: Licensor, license: Jwt, organization: OrganizationUuid, timestamp: int)
    : (r: Result<TokenData, LicenseError>)
    ensures r.Ok? <==> Validate(licensor, license, timestamp).Ok? && Validate(licensor, license, timestamp).value.claims.sub == organization
    ensures r.Ok? ==> r == Validate(licensor, license, timestamp)
    ensures Validate(licensor, license, timestamp).Ok? && r.Err? ==>
      r.error == Subject(organization, Validate(licensor, license, timestamp).value.claims.sub)
    ensures Validate(licensor, license, timestamp).Err? ==> r == Validate(licensor, license, timestamp)
  {
    var tokenData :- Validate(licensor, license, timestamp);
    if tokenData.claims.sub == organization then Ok(tokenData)
    else Err(Subject(organization, tokenData.claims.sub))
  }

  /** `validate_usage`: the licensor itself plays no part. */
  function ValidateUsage(licensor: Licensor, claims: Claims, usage: nat): (r: Result<nat, LicenseError>)
    ensures r.Ok? <==> usage <= claims.ent
    ensures r.Ok? ==> r.value == claims.ent
    ensures r.Err? ==> r.error == Entitlements(usage, claims.ent)
  {
    var entitlements := claims.ent;
    if usage > entitlements then Err(Entitlements(usage, entitlements)) else Ok(entitlements)
  }

  // ---------------------------------------------------------------------------
  // Properties

  /** Decoding with the matching key gives back the claims that were encoded, when they name Bencher. */
  lemma DecodeEncode(claims: Claims, pair: nat)
    requires claims.aud == BENCHER_DEV && claims.iss == BENCHER_DEV
    ensures Decode(Encode(HEADER, claims, EncodingKey(pair)), DecodingKey(pair), LICENSE_VALIDATION) == Ok(TokenData(HEADER, claims))
  {
  }

  /** A token signed with one key pair is refused by the key of another. */
  lemma DecodeRefusesOtherPair(claims: Claims, pair: nat, other: nat)
    requires pair != other
    ensures Decode(Encode(HEADER, claims, EncodingKey(pair)), DecodingKey(other), LICENSE_VALIDATION) == Err(JwtError(InvalidSignature))
  {
  }

  /** A self-hosted licensor can never issue a license, monthly or annual. */
  lemma SelfHostedCannotIssue(decoding: DecodingKey, organization: OrganizationUuid, entitlements: nat,
                              timestamp: int, lengths: CycleLengths)
    ensures NewMonthlyLicense(SelfHostedLicensor(decoding), organization, entitlements, timestamp, lengths).Err?
    ensures NewAnnualLicense(SelfHostedLicensor(decoding), organization, entitlements, timestamp, lengths).Err?
    ensures timestamp >= 0 ==>
      && NewMonthlyLicense(SelfHostedLicensor(decoding), organization, entitlements, timestamp, lengths) == Err(SelfHosted)
      && NewAnnualLicense(SelfHostedLicensor(decoding), organization, entitlements, timestamp, lengths) == Err(SelfHosted)
  {
  }

  /** Monthly and annual licenses differ only in their billing cycle: both are issued for audience Bencher. */
  lemma IssuedClaims(licensor: Licensor, cycle: BillingCycle, organization: OrganizationUuid, entitlements: nat,
                     timestamp: int, lengths: CycleLengths)
    requires licensor.BencherCloud? && timestamp >= 0
    ensures var jwt := NewLicense(licensor, Bencher, cycle, organization, entitlements, timestamp, lengths);
      && jwt.Ok? && jwt.value.Token?
      && jwt.value.header == HEADER
      && jwt.value.claims == Claims(BENCHER_DEV, timestamp + CycleSeconds(cycle, lengths), timestamp, BENCHER_DEV, organization, entitlements)
      && jwt.value.signature == Signature(licensor.encoding.pair, HEADER, jwt.value.claims)
    ensures NewMonthlyLicense(licensor, organization, entitlements, timestamp, lengths)
         == NewLicense(licensor, Bencher, Monthly, organization, entitlements, timestamp, lengths)
    ensures NewAnnualLicense(licensor, organization, entitlements, timestamp, lengths)
         == NewLicense(licensor, Bencher, Annual, organization, entitlements, timestamp, lengths)
  {
  }

  /**
   * The round trip: Bencher Cloud, holding both halves of one key pair, issues a license that it
   * accepts at any time from issue until expiry, with the organization as subject, the entitlements
   * as `ent`, Bencher as audience and issuer, and an issue time one billing cycle before expiry.
   */
  lemma IssuedLicenseValidates(pair: nat, cycle: BillingCycle, organization: OrganizationUuid, entitlements: nat,
                               issuedAt: int, checkedAt: int, lengths: CycleLengths)
    requires 0 <= issuedAt <= checkedAt <= issuedAt + CycleSeconds(cycle, lengths)
    ensures var licensor := BencherCloud(EncodingKey(pair), DecodingKey(pair));
      var jwt := NewLicense(licensor, Bencher, cycle, organization, entitlements, issuedAt, lengths);
      && jwt.Ok?
      && Validate(licensor, jwt.value, checkedAt).Ok?
      && var claims := Validate(licensor, jwt.value, checkedAt).value.claims;
      && claims.sub == organization && claims.ent == entitlements
      && claims.aud == BENCHER_DEV && claims.iss == BENCHER_DEV
      && claims.iat == claims.exp - CycleSeconds(cycle, lengths)
      && ValidateOrganization(licensor, jwt.value, organization, checkedAt).Ok?
  {
    var licensor := BencherCloud(EncodingKey(pair), DecodingKey(pair));
    var claims := NewClaims(Bencher, cycle, organization, entitlements, issuedAt, lengths).value;
    DecodeEncode(claims, pair);
  }

  /** The same license is refused once its billing cycle has passed. */
  lemma IssuedLicenseExpires(pair: nat, cycle: BillingCycle, organization: OrganizationUuid, entitlements: nat,
                             issuedAt: int, checkedAt: int, lengths: CycleLengths)
    requires 0 <= issuedAt && issuedAt + CycleSeconds(cycle, lengths) < checkedAt
    ensures var licensor := BencherCloud(EncodingKey(pair), DecodingKey(pair));
      var jwt := NewLicense(licensor, Bencher, cycle, organization, entitlements, issuedAt, lengths);
      jwt.Ok? && Validate(licensor, jwt.value, checkedAt) == Err(JwtError(ExpiredSignature))
  {
    var claims := NewClaims(Bencher, cycle, organization, entitlements, issuedAt, lengths).value;
    DecodeEncode(claims, pair);
  }

  /** Checking needs only the decoding key: a self-hosted licensor accepts exactly what Bencher Cloud with the same key accepts. */
  lemma ValidateNeedsOnlyDecodingKey(encoding: EncodingKey, decoding: DecodingKey, license: Jwt, timestamp: int)
    ensures Validate(SelfHostedLicensor(decoding), license, timestamp) == Validate(BencherCloud(encoding, decoding), license, timestamp)
  {
  }
}
