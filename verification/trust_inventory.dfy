/** The pinned signing keys of the Reserve issuer: one run of the provisioning script enrols one
    key and may revoke others. */
module TrustInventory {
  import opened Common

  datatype Status = Active | Revoked

  datatype Pin = Pin(sha256: string, status: Status)

  /** An address, split into its parts. */
  datatype Uri = Uri(scheme: string, hostname: string, username: string, password: string, query: string,
                     fragment: string, path: string)

  datatype Policy = Policy(version: int, issuer: string, audience: string, jwksUri: Uri, issuedAt: int, expiresAt: int,
                           keys: map<string, Pin>)

  const ISSUER := "razorsharp-reserve-provider-simulator"
  const AUDIENCE := "razorsharp-reserve"
  const JWKS_PATH := "/.well-known/reserve/jwks"
  const MAX_TRUST_LIFETIME := 86400
  const MAX_KEYS := 32

  datatype Key = Key(kid: Option<string>, isPrivate: bool, kty: string, crv: string, material: nat)

  /** The arguments of a run, its two readings of the clock, and what the file system does. */
  datatype Args = Args(key: Key, expectedSha256: string, jwksUri: Uri, validForSeconds: int, revokeKids: seq<string>,
                       now: int, validatedAt: int, writes: bool)

  type Pins = map<string, Pin>

  predicate UriOk(uri: Uri) {
    && uri.scheme == "https" && uri.hostname != "" && uri.username == "" && uri.password == "" && uri.query == ""
    && uri.fragment == "" && uri.path == JWKS_PATH
  }

  predicate PinOk(kid: string, pin: Pin) { 1 <= |kid| <= 128 && |pin.sha256| == 43 }

  /** `validate_policy` at the given time. */
  predicate PolicyOk(p: Policy, at: int) {
    && p.version == 1 && p.issuer == ISSUER && p.audience == AUDIENCE
    && p.issuedAt <= at < p.expiresAt && 0 < p.expiresAt - p.issuedAt <= MAX_TRUST_LIFETIME
    && UriOk(p.jwksUri) && 1 <= |p.keys| <= MAX_KEYS && forall kid <- p.keys :: PinOk(kid, p.keys[kid])
  }

  // ---------------------------------------------------------------- one run

  /** The key may be enrolled over these pins. */
  predicate MayEnrol(pins: Pins, kid: string, sha256: string) {
    kid in pins ==> pins[kid].status.Active? && pins[kid].sha256 == sha256
  }

  /** The pins with every listed kid revoked. */
  function RevokedIn(pins: Pins, kids: seq<string>): Pins {
    map kid | kid in pins :: if kid in kids then pins[kid].(status := Revoked) else pins[kid]
  }

  function OldPins(stored: Option<Policy>): Pins { if stored.None? then map[] else stored.value.keys }

  /** The stored policy is of this issuer and endpoint. */
  predicate SameEndpoint(stored: Option<Policy>, uri: Uri) {
    stored.Some? ==> stored.value.issuer == ISSUER && stored.value.audience == AUDIENCE && stored.value.jwksUri == uri
  }

  /** The policy a run writes, if it gets that far; `thumbprint` is that of the key. */
  function Provisioned(stored: Option<Policy>, args: Args, thumbprint: Key -> string): Option<Policy> {
    var pins := OldPins(stored);
    if args.key.isPrivate || args.key.kty != "EC" || args.key.crv != "P-256" then None
    else if thumbprint(args.key) != args.expectedSha256 || !SameEndpoint(stored, args.jwksUri) then None
    else if args.key.kid.None? || !MayEnrol(pins, args.key.kid.value, args.expectedSha256) then None
    else
      var enrolled := pins[args.key.kid.value := Pin(args.expectedSha256, Active)];
      var policy := Policy(1, ISSUER, AUDIENCE, args.jwksUri, args.now, args.now + args.validForSeconds,
                           RevokedIn(enrolled, args.revokeKids));
      if (forall kid <- args.revokeKids :: kid in enrolled) && PolicyOk(policy, args.validatedAt) && args.writes
      then Some(policy) else None
  }

  /** A run replaces the whole file or leaves it alone. */
  function Next(stored: Option<Policy>, args: Args, thumbprint: Key -> string): Option<Policy> {
    var made := Provisioned(stored, args, thumbprint);
    if made.Some? then made else stored
  }

  function RunAll(stored: Option<Policy>, runs: seq<Args>, thumbprint: Key -> string): Option<Policy> {
    if runs == [] then stored
    else Next(RunAll(stored, runs[..|runs| - 1], thumbprint), runs[|runs| - 1], thumbprint)
  }

  // ---------------------------------------------------------------- the script

  /** The security operator's copy of the policy file. */
  class PolicyFile {
    var stored: Option<Policy>

    constructor ()
      ensures stored == None
    {
      stored := None;
    }

    /** `main`. */
    method Provision(args: Args, thumbprint: Key -> string) returns (done: bool)
      modifies this
      ensures done <==> Provisioned(old(stored), args, thumbprint).Some?
      ensures stored == Next(old(stored), args, thumbprint) && (!done ==> stored == old(stored))
    {
      done := false;
      if args.key.isPrivate || args.key.kty != "EC" || args.key.crv != "P-256" {
        return;
      }
      var fingerprint := thumbprint(args.key);
      if fingerprint != args.expectedSha256 {
        return;
      }
      var pins := map[];
      if stored.Some? {
        if stored.value.issuer != ISSUER || stored.value.audience != AUDIENCE || stored.value.jwksUri != args.jwksUri {
          return;
        }
        pins := stored.value.keys;
      }
      if args.key.kid.None? {
        return;
      }
      var kid := args.key.kid.value;
      if kid in pins && (pins[kid].status.Revoked? || pins[kid].sha256 != fingerprint) {
        return;
      }
      pins := pins[kid := Pin(fingerprint, Active)];
      ghost var enrolled := pins;
      assert RevokedIn(enrolled, []) == enrolled;
      for i := 0 to |args.revokeKids|
        invariant pins == RevokedIn(enrolled, args.revokeKids[..i])
        invariant forall k <- args.revokeKids[..i] :: k in enrolled
      {
        var revoked := args.revokeKids[i];
        assert args.revokeKids[..i + 1] == args.revokeKids[..i] + [revoked];
        if revoked !in pins {
          assert revoked in args.revokeKids;
          return;
        }
        pins := pins[revoked := pins[revoked].(status := Revoked)];
      }
      assert args.revokeKids[..|args.revokeKids|] == args.revokeKids;
      var policy := Policy(1, ISSUER, AUDIENCE, args.jwksUri, args.now, args.now + args.validForSeconds, pins);
      if !PolicyOk(policy, args.validatedAt) || !args.writes {
        return;
      }
      stored := Some(policy);
      done := true;
    }
  }

  // ---------------------------------------------------------------- the inventory's history

  /** What no later policy may take back. */
  ghost predicate Extends(before: Option<Policy>, after: Option<Policy>) {
    before.Some? ==>
      && after.Some?
      && after.value.issuer == before.value.issuer && after.value.audience == before.value.audience
      && after.value.jwksUri == before.value.jwksUri
      && forall kid <- before.value.keys ::
           && kid in after.value.keys && after.value.keys[kid].sha256 == before.value.keys[kid].sha256
           && (before.value.keys[kid].status.Revoked? ==> after.value.keys[kid].status.Revoked?)
  }

  lemma {:induction false} NextExtends(stored: Option<Policy>, args: Args, thumbprint: Key -> string)
    ensures Extends(stored, Next(stored, args, thumbprint))
  {
  }

  /** Over any sequence of runs, successful or failed: no kid disappears, its fingerprint never
      changes, a revoked kid is never active again, and the issuer, audience and endpoint stay. */
  lemma {:induction false} InventoryOnlyGrows(stored: Option<Policy>, runs: seq<Args>, more: seq<Args>,
                                              thumbprint: Key -> string)
    ensures Extends(RunAll(stored, runs, thumbprint), RunAll(stored, runs + more, thumbprint))
    decreases |more|
  {
    if more == [] {
      assert runs + more == runs;
    } else {
      var before := more[..|more| - 1];
      InventoryOnlyGrows(stored, runs, before, thumbprint);
      assert (runs + more)[..|runs + more| - 1] == runs + before;
      NextExtends(RunAll(stored, runs + before, thumbprint), more[|more| - 1], thumbprint);
    }
  }

  /** What a run that succeeds pinned: a public P-256 key under its kid, with the fingerprint the
      operator supplied; nothing else is added, and nothing but the listed kids is revoked. */
  lemma {:induction false} SuccessIsExact(stored: Option<Policy>, args: Args, thumbprint: Key -> string)
    requires Provisioned(stored, args, thumbprint).Some?
    ensures var after := Provisioned(stored, args, thumbprint).value;
            && args.key.kid.Some? && !args.key.isPrivate && thumbprint(args.key) == args.expectedSha256
            && after.keys.Keys == OldPins(stored).Keys + {args.key.kid.value}
            && after.keys[args.key.kid.value].sha256 == args.expectedSha256
            && (forall kid <- after.keys :: after.keys[kid].status.Revoked? <==>
                  kid in args.revokeKids || (kid in OldPins(stored) && OldPins(stored)[kid].status.Revoked?))
            && (forall kid <- OldPins(stored) ::
                  kid != args.key.kid.value ==> after.keys[kid].sha256 == OldPins(stored)[kid].sha256)
            && PolicyOk(after, args.validatedAt)
            && after == Policy(1, "razorsharp-reserve-provider-simulator", "razorsharp-reserve", args.jwksUri, args.now,
                               args.now + args.validForSeconds, after.keys)
  {
  }

  /** What `validate_policy` demands of the parts that vary from run to run. */
  ghost predicate Usable(args: Args, keys: Pins) {
    && args.now <= args.validatedAt < args.now + args.validForSeconds && args.validForSeconds <= 86400
    && args.jwksUri == Uri("https", args.jwksUri.hostname, "", "", "", "", "/.well-known/reserve/jwks")
    && args.jwksUri.hostname != "" && |keys| <= 32
    && forall kid <- keys :: 1 <= |kid| <= 128 && |keys[kid].sha256| == 43
  }

  /** A run succeeds if and only if the key is a public P-256 key with the supplied fingerprint and a
      kid that is new or active under that fingerprint, the stored policy is of this issuer and
      endpoint, every kid to revoke is there, and the policy it makes is usable and can be written. */
  lemma {:induction false} SucceedsIff(stored: Option<Policy>, args: Args, thumbprint: Key -> string)
    ensures Provisioned(stored, args, thumbprint).Some? <==>
              && !args.key.isPrivate && args.key.kty == "EC" && args.key.crv == "P-256"
              && thumbprint(args.key) == args.expectedSha256 && args.key.kid.Some?
              && (stored.Some? ==> stored.value.issuer == "razorsharp-reserve-provider-simulator"
                                   && stored.value.audience == "razorsharp-reserve"
                                   && stored.value.jwksUri == args.jwksUri)
              && (stored.Some? && args.key.kid.value in stored.value.keys ==>
                    stored.value.keys[args.key.kid.value] == Pin(args.expectedSha256, Active))
              && (forall kid <- args.revokeKids ::
                    kid == args.key.kid.value || (stored.Some? && kid in stored.value.keys))
              && args.writes
              && Usable(args, (if stored.Some? then stored.value.keys else map[])
                              [args.key.kid.value := Pin(args.expectedSha256, Active)])
  {
    if args.key.kid.Some? {
      var enrolled := OldPins(stored)[args.key.kid.value := Pin(args.expectedSha256, Active)];
      RevokingKeeps(enrolled, args.revokeKids);
      assert args.key.kid.value in enrolled;
    }
  }

  lemma {:induction false} RevokingKeeps(pins: Pins, kids: seq<string>)
    ensures RevokedIn(pins, kids).Keys == pins.Keys && |RevokedIn(pins, kids)| == |pins|
    ensures forall kid <- pins :: RevokedIn(pins, kids)[kid].sha256 == pins[kid].sha256
  {
    assert RevokedIn(pins, kids).Keys == pins.Keys;
    assert |RevokedIn(pins, kids)| == |RevokedIn(pins, kids).Keys| && |pins| == |pins.Keys|;
  }

  /** A revoked kid, or one under another fingerprint, can never be enrolled again. */
  lemma {:induction false} ReuseIsRefused(stored: Option<Policy>, runs: seq<Args>, args: Args, kid: string,
                                          thumbprint: Key -> string)
    requires stored.Some? && kid in stored.value.keys && args.key.kid == Some(kid)
    requires stored.value.keys[kid].status.Revoked? || stored.value.keys[kid].sha256 != args.expectedSha256
    ensures Provisioned(RunAll(stored, runs, thumbprint), args, thumbprint).None?
  {
    InventoryOnlyGrows(stored, [], runs, thumbprint);
    assert [] + runs == runs;
  }

  // ---------------------------------------------------------------- where a pin comes from

  /** One of the runs enrolled this kid with this fingerprint, and it was the key's own. */
  ghost predicate Enrolled(runs: seq<Args>, kid: string, sha256: string, thumbprint: Key -> string) {
    exists i :: 0 <= i < |runs| && runs[i].key.kid == Some(kid) && runs[i].expectedSha256 == sha256
                && thumbprint(runs[i].key) == sha256 && !runs[i].key.isPrivate
                && Provisioned(RunAll(None, runs[..i], thumbprint), runs[i], thumbprint).Some?
  }

  lemma {:induction false} EnrolledStays(runs: seq<Args>, last: Args, kid: string, sha256: string,
                                         thumbprint: Key -> string)
    requires Enrolled(runs, kid, sha256, thumbprint)
    ensures Enrolled(runs + [last], kid, sha256, thumbprint)
  {
    var i :| 0 <= i < |runs| && runs[i].key.kid == Some(kid) && runs[i].expectedSha256 == sha256
             && thumbprint(runs[i].key) == sha256 && !runs[i].key.isPrivate
             && Provisioned(RunAll(None, runs[..i], thumbprint), runs[i], thumbprint).Some?;
    assert (runs + [last])[i] == runs[i] && (runs + [last])[..i] == runs[..i];
  }

  /** Every pin in the inventory was enrolled by a run that was given its fingerprint by the
      operator and computed the same from the key; and every policy written was valid then. */
  lemma {:induction false} PinsAreAuthenticated(runs: seq<Args>, thumbprint: Key -> string)
    ensures var stored := RunAll(None, runs, thumbprint);
            stored.Some? ==>
              && (forall kid <- stored.value.keys :: Enrolled(runs, kid, stored.value.keys[kid].sha256, thumbprint))
              && |stored.value.keys| <= MAX_KEYS && stored.value.expiresAt - stored.value.issuedAt <= MAX_TRUST_LIFETIME
              && stored.value.issuer == ISSUER && stored.value.audience == AUDIENCE && UriOk(stored.value.jwksUri)
    decreases |runs|
  {
    if runs != [] {
      var before, last := runs[..|runs| - 1], runs[|runs| - 1];
      PinsAreAuthenticated(before, thumbprint);
      var was, stored := RunAll(None, before, thumbprint), RunAll(None, runs, thumbprint);
      assert runs == before + [last];
      if stored.Some? {
        forall kid | kid in stored.value.keys ensures Enrolled(runs, kid, stored.value.keys[kid].sha256, thumbprint) {
          if Provisioned(was, last, thumbprint).Some? && last.key.kid == Some(kid) {
            assert runs[|runs| - 1] == last;
          } else {
            EnrolledStays(before, last, kid, stored.value.keys[kid].sha256, thumbprint);
          }
        }
      }
    }
  }
}
