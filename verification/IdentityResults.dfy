/** What reconciling with a roster guarantees, whoever served it and in whatever order. */
module IdentityResults {
  import opened Basics
  import opened Statements
  import opened Identity

  // ---------------------------------------------------------------------
  // One result
  // ---------------------------------------------------------------------

  lemma ChainOf(known: Identities, roster: Roster, group: string, id: string, base: string) returns (path: seq<string>)
    requires ChainsTo(known, roster, group, id, base)
    ensures Chain(known, roster, group, path) && path[0] == id && path[|path| - 1] == base
  {
    path :| Chain(known, roster, group, path) && |path| > 1 && path[0] == id && path[|path| - 1] == base;
  }

  lemma BaseUnique(known: Identities, roster: Roster, group: string, id: string, a: string, b: string)
    requires Named(roster) && ChainsTo(known, roster, group, id, a) && ChainsTo(known, roster, group, id, b)
    ensures a == b && Base(known, a)
  {
    var p := ChainOf(known, roster, group, id, a);
    var q := ChainOf(known, roster, group, id, b);
    ChainUnique(known, roster, group, p, q);
    ChainEnds(known, roster, group, p);
  }

  lemma SettledUnique(known: Identities, roster: Roster, group: string, id: string, a: Known, b: Known)
    requires Named(roster) && id in roster && Settled(known, roster, group, id, a)
    requires Settled(known, roster, group, id, b)
    ensures a == b
  {
    if Open(known, roster[id]) && Chained(known, roster, group, id) {
      var x :| ChainsTo(known, roster, group, id, x) && Base(known, x)
        && a == Known(roster[id].publicKey, roster[id].signing, FromSigner(known[x].trust));
      var y :| ChainsTo(known, roster, group, id, y) && Base(known, y)
        && b == Known(roster[id].publicKey, roster[id].signing, FromSigner(known[y].trust));
      BaseUnique(known, roster, group, id, x, y);
    }
  }

  lemma ReconciledUnique(known: Identities, roster: Roster, group: string, a: Identities, b: Identities)
    requires Named(roster) && Reconciled(known, roster, group, a) && Reconciled(known, roster, group, b)
    ensures a == b
  {
    forall id | id in roster ensures a[id] == b[id] {
      SettledUnique(known, roster, group, id, a[id], b[id]);
    }
  }

  lemma SameRoster(a: seq<RosterDevice>, b: seq<RosterDevice>)
    requires Distinct(a) && Distinct(b) && forall d :: d in a <==> d in b
    ensures Listed(a) == Listed(b)
  {
    ListedExact(a);
    ListedExact(b);
    forall id ensures id in Listed(a) <==> id in Listed(b) {
      if id in Listed(a) {
        assert Listed(a)[id] in b;
        var i :| 0 <= i < |b| && b[i] == Listed(a)[id];
      }
      if id in Listed(b) {
        assert Listed(b)[id] in a;
        var i :| 0 <= i < |a| && a[i] == Listed(b)[id];
      }
    }
    forall id | id in Listed(a) ensures Listed(a)[id] == Listed(b)[id] {
      assert Listed(a)[id] in b;
      var i :| 0 <= i < |b| && b[i] == Listed(a)[id];
      ListedAt(b, i);
    }
  }

  lemma {:induction false} ChangedExact(known: Identities, devices: seq<RosterDevice>)
    ensures forall id :: id in Changed(known, devices) <==>
        exists d :: d in devices && d.id == id && Contradicts(known, d)
  {
    if devices != [] {
      var init, last := devices[..|devices| - 1], devices[|devices| - 1];
      ChangedExact(known, init);
      assert devices == init + [last];
      forall id
        ensures id in Changed(known, devices) <==> exists d :: d in devices && d.id == id && Contradicts(known, d)
      {
        if id in Changed(known, init) {
          var d :| d in init && d.id == id && Contradicts(known, d);
          assert d in devices;
        } else if id in Changed(known, devices) {
          assert last in devices && last.id == id;
        }
        if d :| d in devices && d.id == id && Contradicts(known, d) {
          assert d in init || d == last;
        }
      }
    }
  }

  /** The order of the roster changes neither what is believed nor what is reported. */
  lemma OrderIrrelevant(known: Identities, a: seq<RosterDevice>, b: seq<RosterDevice>, group: string, x: Identities,
                        y: Identities)
    requires Distinct(a) && Distinct(b) && forall d :: d in a <==> d in b
    requires Named(Listed(a)) && Reconciled(known, Listed(a), group, x)
    requires Named(Listed(b)) && Reconciled(known, Listed(b), group, y)
    ensures x == y
    ensures forall id :: id in Changed(known, a) <==> id in Changed(known, b)
  {
    SameRoster(a, b);
    ReconciledUnique(known, Listed(a), group, x, y);
    ChangedExact(known, a);
    ChangedExact(known, b);
  }

  // ---------------------------------------------------------------------
  // What earns trust
  // ---------------------------------------------------------------------

  /**
   * A device never seen before is attested exactly when its chain starts from a held signing key that was
   * not itself taken on first sight.
   */
  lemma AttestedExactly(known: Identities, roster: Roster, group: string, next: Identities, id: string)
    requires Named(roster) && Reconciled(known, roster, group, next) && id in roster && id !in known
    ensures next[id].trust == Attested <==>
            exists base :: ChainsTo(known, roster, group, id, base) && Base(known, base) && known[base].trust != Tofu
    ensures next[id].trust == Attested || next[id].trust == Tofu
    ensures next[id].publicKey == roster[id].publicKey && next[id].signing == roster[id].signing
  {
    assert Settled(known, roster, group, id, next[id]);
    if base :| ChainsTo(known, roster, group, id, base) && Base(known, base) && known[base].trust != Tofu {
      assert Chained(known, roster, group, id);
      var b :| ChainsTo(known, roster, group, id, b) && Base(known, b)
        && next[id] == Known(roster[id].publicKey, roster[id].signing, FromSigner(known[b].trust));
      BaseUnique(known, roster, group, id, base, b);
    }
  }

  /** A walk along attestations, wherever it leads. */
  ghost predicate Walk(known: Identities, roster: Roster, group: string, path: seq<string>)
    decreases |path|
  {
    && path != []
    && (|path| > 1 ==> Link(known, roster, group, path[0], path[1]) && Walk(known, roster, group, path[1..]))
  }

  lemma {:induction false} WalkInChain(known: Identities, roster: Roster, group: string, walk: seq<string>,
                                       chain: seq<string>)
    requires Named(roster) && Walk(known, roster, group, walk) && Chain(known, roster, group, chain)
    requires walk[0] == chain[0]
    ensures |walk| <= |chain| && chain[|walk| - 1] == walk[|walk| - 1]
    ensures Chain(known, roster, group, chain[|walk| - 1..])
    decreases |walk|
  {
    if |walk| > 1 {
      if |chain| == 1 {
        BaseIsClosed(known, roster, chain[0]);
        assert false;
      }
      WalkInChain(known, roster, group, walk[1..], chain[1..]);
      assert chain[1..][|walk| - 2..] == chain[|walk| - 1..];
    } else {
      assert chain[0..] == chain;
    }
  }

  /** Devices that vouch for each other in a circle, or one for itself, earn nothing by it. */
  lemma CircleEarnsNothing(known: Identities, roster: Roster, group: string, circle: seq<string>)
    requires Named(roster) && Walk(known, roster, group, circle) && |circle| > 1 && circle[0] == circle[|circle| - 1]
    ensures !Chained(known, roster, group, circle[0])
  {
    forall base | ChainsTo(known, roster, group, circle[0], base) ensures false {
      var chain :| Chain(known, roster, group, chain) && |chain| > 1 && chain[0] == circle[0]
          && chain[|chain| - 1] == base;
      WalkInChain(known, roster, group, circle, chain);
      ChainUnique(known, roster, group, chain, chain[|circle| - 1..]);
    }
  }

  /** A signature vouches for one device with one pair of keys, by one signer, in one group. */
  lemma OneSignatureOneEntry(a: Attestation, b: Attestation, d: RosterDevice, e: RosterDevice, k: Key, l: Key)
    requires a.signature == b.signature && AttestationHolds(a, d, k) && AttestationHolds(b, e, l)
    requires PlainIds(Statement.Attestation(a.fields)) && PlainIds(Statement.Attestation(b.fields))
    ensures a == b && k == l && d.id == e.id && d.publicKey == e.publicKey && d.signing == e.signing
  {
    AttestationInjective(a.fields, b.fields);
  }

  // ---------------------------------------------------------------------
  // What an attestation has to be
  // ---------------------------------------------------------------------

  /** An attestation made for another group earns nothing: the entry is the one held, or the first-sight one. */
  lemma ForeignAttestationEarnsNothing(known: Identities, roster: Roster, group: string, next: Identities, id: string)
    requires Named(roster) && Reconciled(known, roster, group, next) && id in roster
    requires roster[id].attestation.Some? ==> roster[id].attestation.value.fields.groupId != group
    ensures id in next
    ensures || (id in known && next[id] == known[id])
            || next[id] == Known(roster[id].publicKey, roster[id].signing,
                                 if id in known then known[id].trust else Tofu)
  {
    assert Settled(known, roster, group, id, next[id]);
    forall base | ChainsTo(known, roster, group, id, base) ensures false {
      var signer := FirstLink(known, roster, group, id, base);
    }
  }

  lemma FirstLink(known: Identities, roster: Roster, group: string, id: string, base: string) returns (signer: string)
    requires ChainsTo(known, roster, group, id, base)
    ensures Link(known, roster, group, id, signer)
  {
    var path :| Chain(known, roster, group, path) && |path| > 1 && path[0] == id && path[|path| - 1] == base;
    signer := path[1];
  }

  /** The signing key a signature by `signer` is checked against: the one held, or else the one its own entry names. */
  function SigningKeyOf(known: Identities, roster: Roster, signer: string): Option<Key> {
    if signer in known && known[signer].signing.Some? then known[signer].signing
    else if signer in roster then roster[signer].signing else None
  }

  /** An attestation for this group, of this id and both of these keys, signed by the key of the device it names. */
  predicate Covered(known: Identities, roster: Roster, group: string, id: string)
    requires id in roster
  {
    && roster[id].attestation.Some?
    && var a := roster[id].attestation.value;
       && a.fields.groupId == group && a.fields.deviceId == id
       && a.fields.publicKey == roster[id].publicKey && Some(a.fields.signingPublicKey) == roster[id].signing
       && SigningKeyOf(known, roster, a.fields.signerDeviceId).Some?
       && a.signature == Signed(SigningKeyOf(known, roster, a.fields.signerDeviceId).value,
                                AttestationStatement(a.fields))
  }

  /**
   * Whoever becomes attested carries an attestation for this very group, of this id and both of these keys,
   * signed by the key of the device it names as its signer.
   */
  lemma AttestedIsCovered(known: Identities, roster: Roster, group: string, next: Identities, id: string)
    requires Named(roster) && Reconciled(known, roster, group, next) && id in roster && id in next
    requires next[id].trust.Attested? && (id in known ==> !known[id].trust.Attested?)
    ensures Covered(known, roster, group, id)
    ensures next[id].publicKey == roster[id].publicKey && next[id].signing == roster[id].signing
  {
    assert Settled(known, roster, group, id, next[id]);
    var base :| ChainsTo(known, roster, group, id, base) && Base(known, base)
      && next[id] == Known(roster[id].publicKey, roster[id].signing, FromSigner(known[base].trust));
    var signer := FirstLink(known, roster, group, id, base);
  }

  /**
   * And such an attestation is worth what its signer is worth: attested from a held key that was not taken on first
   * sight, and from a new device exactly what that device itself has earned.
   */
  lemma CoveredEarns(known: Identities, roster: Roster, group: string, next: Identities, id: string)
    requires Named(roster) && Reconciled(known, roster, group, next) && id in roster && id !in known
    requires Covered(known, roster, group, id)
    ensures var signer := roster[id].attestation.value.fields.signerDeviceId;
            && (signer in known && known[signer].signing.Some? ==>
                  next[id].trust == if known[signer].trust.Tofu? then Tofu else Attested)
            && (signer !in known ==> signer in next && next[id].trust == next[signer].trust)
  {
    var signer := roster[id].attestation.value.fields.signerDeviceId;
    assert Link(known, roster, group, id, signer);
    if signer in known && known[signer].signing.Some? {
      ShortChain(known, roster, group, id, signer);
      EarnedFrom(known, roster, group, next, id, signer);
    } else if signer !in known {
      EarnedThrough(known, roster, group, next, id, signer);
    }
  }

  lemma EarnedThrough(known: Identities, roster: Roster, group: string, next: Identities, id: string, signer: string)
    requires Named(roster) && Reconciled(known, roster, group, next) && id in roster && id !in known
    requires Link(known, roster, group, id, signer) && signer !in known
    ensures signer in next && next[id].trust == next[signer].trust
  {
    assert signer in roster;
    if base :| ChainsTo(known, roster, group, signer, base) {
      LongerChain(known, roster, group, id, signer, base);
      EarnedFrom(known, roster, group, next, id, base);
      EarnedFrom(known, roster, group, next, signer, base);
    } else {
      assert !Chained(known, roster, group, id) by {
        if base :| ChainsTo(known, roster, group, id, base) {
          ChainsThrough(known, roster, group, id, signer, base);
        }
      }
      assert Settled(known, roster, group, id, next[id]) && Settled(known, roster, group, signer, next[signer]);
    }
  }

  lemma ChainsThrough(known: Identities, roster: Roster, group: string, id: string, signer: string, base: string)
    requires Link(known, roster, group, id, signer) && ChainsTo(known, roster, group, id, base) && signer !in known
    ensures ChainsTo(known, roster, group, signer, base)
  {
    var path :| Chain(known, roster, group, path) && |path| > 1 && path[0] == id && path[|path| - 1] == base;
    assert Chain(known, roster, group, path[1..]) && path[1..][0] == signer;
  }

  lemma EarnedFrom(known: Identities, roster: Roster, group: string, next: Identities, id: string, base: string)
    requires Named(roster) && Reconciled(known, roster, group, next) && id in roster && Open(known, roster[id])
    requires ChainsTo(known, roster, group, id, base)
    ensures Base(known, base) && next[id].trust == FromSigner(known[base].trust)
  {
    assert Settled(known, roster, group, id, next[id]);
    var b :| ChainsTo(known, roster, group, id, b) && Base(known, b)
      && next[id] == Known(roster[id].publicKey, roster[id].signing, FromSigner(known[b].trust));
    BaseUnique(known, roster, group, id, base, b);
  }

  /**
   * The entry of each listed device, whatever was attested: new devices and first signing keys are taken from
   * the roster, everything held is kept, and only trust depends on the chain.
   */
  lemma EntryExact(known: Identities, roster: Roster, group: string, next: Identities, id: string)
    requires Named(roster) && Reconciled(known, roster, group, next) && id in roster
    ensures id in next
    ensures id !in known ==>
              && (next[id].publicKey, next[id].signing) == (roster[id].publicKey, roster[id].signing)
              && (next[id].trust.Attested? || next[id].trust.Tofu?)
    ensures id in known ==>
              known[id].publicKey != roster[id].publicKey || known[id].signing.Some? || roster[id].signing.None? ==>
              next[id] == known[id]
    ensures id in known && known[id].publicKey == roster[id].publicKey && known[id].signing.None? ==>
              next[id].publicKey == known[id].publicKey && next[id].signing == roster[id].signing
  {
    assert Settled(known, roster, group, id, next[id]);
  }

  /** A contradiction is another public key than the one held, or another signing key than the one held. */
  lemma ReportedExactly(known: Identities, devices: seq<RosterDevice>, id: string)
    ensures id in Changed(known, devices) <==>
              && id in known
              && exists d :: d in devices && d.id == id
                   && (known[id].publicKey != d.publicKey
                       || (known[id].signing.Some? && d.signing.Some? && known[id].signing != d.signing))
  {
    ChangedExact(known, devices);
    if id in Changed(known, devices) {
      var d :| d in devices && d.id == id && Contradicts(known, d);
    }
    forall d | d in devices && d.id == id && id in known
        && (known[id].publicKey != d.publicKey
            || (known[id].signing.Some? && d.signing.Some? && known[id].signing != d.signing))
      ensures id in Changed(known, devices)
    {
      assert Contradicts(known, d);
    }
  }

  // ---------------------------------------------------------------------
  // What stays
  // ---------------------------------------------------------------------

  /** No key held for a listed device is ever replaced, and one held in full keeps its trust too. */
  lemma HeldKeysStay(known: Identities, roster: Roster, group: string, next: Identities, id: string)
    requires Named(roster) && Reconciled(known, roster, group, next) && id in roster && id in known
    ensures next[id].publicKey == known[id].publicKey
    ensures known[id].signing.Some? ==> next[id] == known[id]
  {
    assert Settled(known, roster, group, id, next[id]);
  }

  /** Exactly the listed devices are kept. */
  lemma OnlyListedDevicesStay(known: Identities, roster: Roster, group: string, next: Identities)
    requires Named(roster) && Reconciled(known, roster, group, next)
    ensures next.Keys == roster.Keys
    ensures forall id :: id in roster ==> !Open(next, roster[id])
    ensures forall id :: id in roster ==> (Contradicts(next, roster[id]) <==> Contradicts(known, roster[id]))
  {
    forall id | id in roster
      ensures !Open(next, roster[id]) && (Contradicts(next, roster[id]) <==> Contradicts(known, roster[id]))
    {
      assert Settled(known, roster, group, id, next[id]);
    }
  }

  lemma {:induction false} SameChanges(known: Identities, next: Identities, devices: seq<RosterDevice>)
    requires forall i :: 0 <= i < |devices| ==> (Contradicts(next, devices[i]) <==> Contradicts(known, devices[i]))
    ensures Changed(next, devices) == Changed(known, devices)
  {
    if devices != [] {
      SameChanges(known, next, devices[..|devices| - 1]);
    }
  }

  /** The same roster again changes nothing and reports the same. */
  lemma ReconcilingTwice(known: Identities, devices: seq<RosterDevice>, group: string, once: Identities,
                         twice: Identities)
    requires Distinct(devices) && Named(Listed(devices))
    requires Reconciled(known, Listed(devices), group, once) && Reconciled(once, Listed(devices), group, twice)
    ensures twice == once && Changed(once, devices) == Changed(known, devices)
  {
    var roster := Listed(devices);
    OnlyListedDevicesStay(known, roster, group, once);
    forall id | id in roster ensures twice[id] == once[id] {
      assert Settled(once, roster, group, id, twice[id]);
    }
    forall i | 0 <= i < |devices| ensures Contradicts(once, devices[i]) <==> Contradicts(known, devices[i]) {
      ListedAt(devices, i);
    }
    SameChanges(known, once, devices);
  }

  // ---------------------------------------------------------------------
  // Reading signatures
  // ---------------------------------------------------------------------

  datatype Verdict = Verified | Unverified | Invalid

  function VerifyDeviceSignature(known: Identities, id: string, text: string, signature: Option<Signature>): Verdict {
    if id !in known || known[id].signing.None? then Unverified
    else if signature.None? then Invalid
    else if VerifyStatement(known[id].signing.value, text, signature.value) then Verified
    else Invalid
  }

  /**
   * `Verified` is this device's own signature under the key held, `Unverified` that no key is held, and
   * `Invalid` everything else: a missing signature, another key, or another text.
   */
  lemma VerdictExact(known: Identities, id: string, text: string, signature: Option<Signature>)
    ensures var verdict := VerifyDeviceSignature(known, id, text, signature);
            var held := id in known && known[id].signing.Some?;
            && (verdict == Unverified <==> !held)
            && (verdict == Verified <==> held && signature == Some(Signed(known[id].signing.value, text)))
            && (verdict == Invalid <==> held && signature != Some(Signed(known[id].signing.value, text)))
  {
  }

  /**
   * No roster can turn a device whose signatures are checked into one whose signatures are not, or change a
   * verdict.
   */
  lemma VerdictsSurviveTheRoster(known: Identities, roster: Roster, group: string, next: Identities, id: string,
                                 text: string, signature: Option<Signature>)
    requires Named(roster) && Reconciled(known, roster, group, next) && id in roster
    requires VerifyDeviceSignature(known, id, text, signature) != Unverified
    ensures VerifyDeviceSignature(next, id, text, signature) == VerifyDeviceSignature(known, id, text, signature)
  {
    HeldKeysStay(known, roster, group, next, id);
  }

  /** What this device scanned itself survives any introduction, and nothing else arrives as scanned. */
  lemma {:induction false} SeedingKeepsScanned(known: Identities, bundles: seq<Bundle>)
    ensures var seeded := Seeded(known, bundles);
            && (forall id :: id in known && known[id].trust.Scanned? ==> id in seeded && seeded[id] == known[id])
            && (forall id :: id in seeded && seeded[id].trust.Scanned? ==> id in known && known[id] == seeded[id])
            && (forall i :: 0 <= i < |bundles| ==> bundles[i].deviceId in seeded)
  {
    if bundles != [] {
      SeedingKeepsScanned(known, bundles[..|bundles| - 1]);
    }
  }

  /** An entry that was not scanned is the one of the last introduction that names it, or else as it was. */
  lemma {:induction false} SeededExact(known: Identities, bundles: seq<Bundle>, id: string) returns (last: int)
    requires id in known ==> !known[id].trust.Scanned?
    ensures -1 <= last < |bundles| && (last >= 0 ==> bundles[last].deviceId == id)
    ensures forall k :: last < k < |bundles| ==> bundles[k].deviceId != id
    ensures var seeded := Seeded(known, bundles);
            if last < 0 then (id in seeded <==> id in known) && (id in known ==> seeded[id] == known[id])
            else id in seeded && seeded[id] == Known(bundles[last].publicKey, bundles[last].signing, Inherited)
  {
    last := |bundles| - 1;
    if bundles != [] {
      var before := SeededExact(known, bundles[..last], id);
      if bundles[last].deviceId != id {
        last := before;
      }
    }
  }

  /**
   * A known device that publishes its first signing key without a chain keeps the trust it had:
   * a scanned device stays scanned with a signing key nobody scanned.
   */
  lemma FirstSigningKeyKeepsTrust(known: Identities, roster: Roster, group: string, next: Identities, id: string)
    requires Named(roster) && Reconciled(known, roster, group, next) && id in roster && id in known
    requires Open(known, roster[id])
    ensures !Chained(known, roster, group, id) ==> next[id] == Known(known[id].publicKey, roster[id].signing,
        known[id].trust)
    ensures Chained(known, roster, group, id) ==> next[id].trust == Attested || next[id].trust == Tofu
  {
    assert Settled(known, roster, group, id, next[id]);
  }
}
