/** The signing-key service: which key signs, which keys verify, and how reloading changes that. */
module SigningKeys {
  import opened Tables
  import opened Text
  import opened Jwt

  datatype KeyStatus = Active | Previous | Disabled

  datatype SigningKey = SigningKey(keyId: string, publicKeyPem: string, privateKeyPem: string, status: KeyStatus)

  /** The keys last read, and those of them the current key state was built from. */
  datatype KeyService = KeyService(keys: seq<SigningKey>, usable: seq<SigningKey>)

  predicate NotDisabled(key: SigningKey) { !key.status.Disabled? }

  predicate IsActive(key: SigningKey) { key.status.Active? }

  /** The key that signs: the first active usable key, else the first usable one. */
  function ActiveKey(usable: seq<SigningKey>): (key: SigningKey)
    requires usable != []
    ensures key in usable
  {
    var active := Find(usable, IsActive);
    if active.Some? then active.value else usable[0]
  }

  /** `signers.get(kid)`: of several keys with one id the last one wins. */
  function SignerFor(usable: seq<SigningKey>, kid: string): (key: Option<SigningKey>)
    ensures key.Some? ==> key.value in usable && key.value.keyId == kid
    ensures key.None? ==> forall k :: k in usable ==> k.keyId != kid
  {
    if usable == [] then None
    else
      var n := |usable| - 1;
      if usable[n].keyId == kid then Some(usable[n])
      else
        var key := SignerFor(usable[..n], kid);
        assert usable == usable[..n] + [usable[n]];
        key
  }

  /** `buildKeyState`; `None` where it throws `signing_key_not_found`. */
  function BuildKeyState(keys: seq<SigningKey>): Option<seq<SigningKey>> {
    var usable := Filter(keys, NotDisabled);
    if usable == [] then None else Some(usable)
  }

  /** `reload`: an empty listing falls back on the old keys; a failing build changes nothing. */
  function Reloaded(service: KeyService, listed: seq<SigningKey>): KeyService {
    var keys := if listed != [] then listed else service.keys;
    var usable := BuildKeyState(keys);
    if usable.None? then service else KeyService(keys, usable.value)
  }

  function ReloadedAll(service: KeyService, listings: seq<seq<SigningKey>>): KeyService
    decreases |listings|
  {
    if listings == [] then service else ReloadedAll(Reloaded(service, listings[0]), listings[1..])
  }

  function ServiceSign(p: Platform, service: KeyService, issuer: string, options: SignOptions, now: int): string
    requires service.usable != []
  {
    var key := ActiveKey(service.usable);
    Sign(p, RsaJwtSigner(key.keyId, issuer, key.privateKeyPem, key.publicKeyPem), options, now)
  }

  /** The service's `verify`: pick the key by the header's `kid`, then verify with it. */
  function ServiceVerify(p: Platform, service: KeyService, token: string, options: VerifyOptions,
                         now: int): Result<VerifiedJwt> {
    var part := Split(token, '.')[0];
    var header := if part == "" then Err("invalid_token_format") else ParsePart(p, part);
    if header.Err? then Err(header.error)
    else if Claim(header.value, "alg") != Some(JString("RS256")) then Err("invalid_token_algorithm")
    else if Claim(header.value, "typ") != Some(JString("JWT")) then Err("invalid_token_type")
    else
      match Claim(header.value, "kid")
      case Some(JString(kid)) =>
        var key := SignerFor(service.usable, kid);
        if key.None? then Err("invalid_token_key") else Verify(p, kid, key.value.publicKeyPem, token, options, now)
      case _ => Err("invalid_token_key")
  }

  /** `keys` holds a usable key with this id, and every usable key with this id has this public key. */
  ghost predicate Lists(keys: seq<SigningKey>, kid: string, publicKey: string) {
    && (exists k :: k in keys && k.keyId == kid && NotDisabled(k))
    && (forall k :: k in keys && k.keyId == kid && NotDisabled(k) ==> k.publicKeyPem == publicKey)
  }

  ghost predicate Trusts(service: KeyService, kid: string, publicKey: string) {
    Lists(service.keys, kid, publicKey) && BuildKeyState(service.keys) == Some(service.usable)
  }

  lemma ReloadKeepsTrust(service: KeyService, listed: seq<SigningKey>, kid: string, publicKey: string)
    requires Trusts(service, kid, publicKey)
    requires listed == [] || Lists(listed, kid, publicKey)
    ensures Trusts(Reloaded(service, listed), kid, publicKey)
  {
  }

  /** A key that no listing disables or drops stays trusted across any number of reloads. */
  lemma {:induction false} ReloadsKeepTrust(service: KeyService, listings: seq<seq<SigningKey>>, kid: string,
                                            publicKey: string)
    requires Trusts(service, kid, publicKey)
    requires forall i :: 0 <= i < |listings| ==> listings[i] == [] || Lists(listings[i], kid, publicKey)
    ensures Trusts(ReloadedAll(service, listings), kid, publicKey)
    decreases |listings|
  {
    if listings != [] {
      ReloadKeepsTrust(service, listings[0], kid, publicKey);
      ReloadsKeepTrust(Reloaded(service, listings[0]), listings[1..], kid, publicKey);
    }
  }

  /** A service that trusts the signer's key recovers the signed payload, unless a claim check fails. */
  lemma TrustedTokenVerifies(p: Platform, service: KeyService, signer: RsaJwtSigner, payload: Claims,
                             options: VerifyOptions, now: int)
    requires Sound(p) && p.isKeyPair(signer.privateKey, signer.publicKey)
    requires Trusts(service, signer.keyId, signer.publicKey)
    ensures ServiceVerify(p, service, SignPayload(p, signer, payload), options, now)
            == match ValidatePayload(payload, options, now)
               case Some(failure) => Err(failure)
               case None => Ok(VerifiedJwt(Header(signer.keyId), payload))
  {
    SignedParts(p, signer, payload);
    PartParses(p, Header(signer.keyId));
    VerifyRecovers(p, signer, payload, signer.publicKey, options, now);
    var key := SignerFor(service.usable, signer.keyId);
    assert key.Some? by {
      var k :| k in service.keys && k.keyId == signer.keyId && NotDisabled(k);
      assert k in service.usable;
    }
  }

  /** The service object: `reload` reassigns both fields or, when it throws, neither. */
  class SigningKeyService {
    const issuer: string
    var keys: seq<SigningKey>
    var signerState: seq<SigningKey>

    ghost function View(): KeyService
      reads this
    {
      KeyService(keys, signerState)
    }

    constructor (keys: seq<SigningKey>, issuer: string)
      requires BuildKeyState(keys).Some?
      ensures this.issuer == issuer && View() == KeyService(keys, Filter(keys, NotDisabled))
    {
      this.issuer := issuer;
      this.keys := keys;
      signerState := Filter(keys, NotDisabled);
    }

    method Reload(refreshed: seq<SigningKey>) returns (ok: bool)
      modifies this
      ensures View() == Reloaded(old(View()), refreshed)
      ensures ok <==> BuildKeyState(if refreshed != [] then refreshed else old(keys)).Some?
    {
      var next := if |refreshed| > 0 then refreshed else keys;
      var usable := Filter(next, NotDisabled);
      if usable == [] {
        return false;
      }
      signerState := usable;
      keys := next;
      return true;
    }
  }

  /**
   * `createSigningKeyService`: without stored keys a generated active key is saved and used; with
   * only disabled ones creation throws.
   */
  method CreateSigningKeyService(listed: seq<SigningKey>, generated: SigningKey, issuer: string)
    returns (service: Option<SigningKeyService>, saved: Option<SigningKey>)
    requires generated.status.Active?
    ensures service.None? <==> listed != [] && forall k :: k in listed ==> k.status.Disabled?
    ensures saved == if listed == [] then Some(generated) else None
    ensures service.Some? ==> service.value.View().keys == if listed == [] then [generated] else listed
    ensures service.Some? ==> BuildKeyState(service.value.keys) == Some(service.value.signerState)
  {
    var keys := listed;
    saved := None;
    if |keys| == 0 {
      saved := Some(generated);
      keys := [generated];
    }
    if BuildKeyState(keys).None? {
      service := None;
      forall k | k in listed
        ensures k.status.Disabled?
      {
        assert k !in Filter(keys, NotDisabled);
      }
      return;
    }
    assert Filter(keys, NotDisabled)[0] in keys;
    var created := new SigningKeyService(keys, issuer);
    service := Some(created);
  }
}
