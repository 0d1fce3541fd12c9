/**
 * What one device believes about the others' keys, and how a roster served by the server changes it.
 */
module Identity {
  import opened Basics
  import opened Statements

  type Key = string

  /** Where a device's keys came from, in falling order of trust. */
  datatype Trust = Scanned | Inherited | Attested | Tofu

  datatype Known = Known(publicKey: Key, signing: Option<Key>, trust: Trust)

  type Identities = map<string, Known>

  /** A signature is the key that made it and the text it covers; any other bytes verify under nothing. */
  datatype Signature = Signed(key: Key, text: string) | Noise

  datatype Attestation = Attestation(fields: AttestationFields, signature: Signature)

  datatype RosterDevice = RosterDevice(id: string, publicKey: Key, signing: Option<Key>,
      attestation: Option<Attestation>)

  datatype Bundle = Bundle(deviceId: string, publicKey: Key, signing: Option<Key>)

  predicate VerifyStatement(key: Key, text: string, signature: Signature) {
    signature == Signed(key, text)
  }

  /** The attestation is about exactly this roster entry, and this key signed it. */
  predicate AttestationHolds(a: Attestation, device: RosterDevice, signerKey: Key) {
    && a.fields.deviceId == device.id
    && a.fields.publicKey == device.publicKey
    && device.signing == Some(a.fields.signingPublicKey)
    && VerifyStatement(signerKey, AttestationStatement(a.fields), a.signature)
  }

  // ---------------------------------------------------------------------
  // The roster, as a map
  // ---------------------------------------------------------------------

  type Roster = map<string, RosterDevice>

  /** A term for the solver to hang a pair of positions on. */
  ghost predicate Pair(i: int, j: int) {
    true
  }

  ghost predicate Distinct(devices: seq<RosterDevice>) {
    forall i, j {:trigger Pair(i, j)} :: Pair(i, j) && 0 <= i < j < |devices| ==> devices[i].id != devices[j].id
  }

  function Listed(devices: seq<RosterDevice>): Roster {
    if devices == [] then map[]
    else Listed(devices[..|devices| - 1])[devices[|devices| - 1].id := devices[|devices| - 1]]
  }

  lemma LastDistinct(devices: seq<RosterDevice>)
    requires devices != [] && Distinct(devices)
    ensures Distinct(devices[..|devices| - 1])
    ensures forall i :: 0 <= i < |devices| - 1 ==> devices[i].id != devices[|devices| - 1].id
  {
    forall i | 0 <= i < |devices| - 1 ensures devices[i].id != devices[|devices| - 1].id {
      assert Pair(i, |devices| - 1);
    }
  }

  lemma {:induction false} ListedExact(devices: seq<RosterDevice>)
    ensures forall id :: id in Listed(devices) <==> exists i :: 0 <= i < |devices| && devices[i].id == id
    ensures forall id :: id in Listed(devices) ==> Listed(devices)[id].id == id && Listed(devices)[id] in devices
  {
    if devices != [] {
      var init, last := devices[..|devices| - 1], devices[|devices| - 1];
      ListedExact(init);
      forall id ensures id in Listed(devices) <==> exists i :: 0 <= i < |devices| && devices[i].id == id {
        if id in Listed(init) {
          var i :| 0 <= i < |init| && init[i].id == id;
          assert devices[i].id == id;
        } else if id == last.id {
          assert devices[|devices| - 1].id == id;
        }
        forall i | 0 <= i < |devices| && devices[i].id == id ensures id in Listed(devices) {
          assert i < |init| ==> init[i].id == id;
        }
      }
      assert forall d :: d in init ==> d in devices;
    }
  }

  lemma {:induction false} ListedAt(devices: seq<RosterDevice>, i: nat)
    requires Distinct(devices) && i < |devices|
    ensures devices[i].id in Listed(devices) && Listed(devices)[devices[i].id] == devices[i]
  {
    var init := devices[..|devices| - 1];
    if i < |init| {
      LastDistinct(devices);
      ListedAt(init, i);
    }
  }

  /** Nothing held for this id yet, or its first signing key. */
  predicate Open(known: Identities, device: RosterDevice) {
    if device.id !in known then true
    else known[device.id].publicKey == device.publicKey && known[device.id].signing.None? && device.signing.Some?
  }

  /** What the roster says contradicts a key already held. */
  predicate Contradicts(known: Identities, device: RosterDevice) {
    && device.id in known
    && (known[device.id].publicKey != device.publicKey
        || (known[device.id].signing.Some? && device.signing.Some? && known[device.id].signing != device.signing))
  }

  // ---------------------------------------------------------------------
  // Chains of attestations
  // ---------------------------------------------------------------------

  /** `device` is vouched for, in this group, by `signer`, whose signing key is `signerKey`. */
  predicate Vouches(device: RosterDevice, group: string, signer: string, signerKey: Key) {
    && device.attestation.Some? && device.signing.Some?
    && device.attestation.value.fields.groupId == group
    && device.attestation.value.fields.signerDeviceId == signer
    && AttestationHolds(device.attestation.value, device, signerKey)
  }

  /** Someone whose signing key was held before the roster came. */
  predicate Base(known: Identities, id: string) {
    id in known && known[id].signing.Some?
  }

  /** The signing key a step of a chain is checked against. */
  function KeyOf(known: Identities, roster: Roster, id: string): Option<Key> {
    if Base(known, id) then known[id].signing
    else if id in roster then roster[id].signing else None
  }

  predicate Link(known: Identities, roster: Roster, group: string, id: string, signer: string) {
    && id in roster && Open(known, roster[id])
    && KeyOf(known, roster, signer).Some?
    && Vouches(roster[id], group, signer, KeyOf(known, roster, signer).value)
  }

  /** A path of attestations, each for this group and each checked, from its first device to one held before. */
  ghost predicate Chain(known: Identities, roster: Roster, group: string, path: seq<string>)
    decreases |path|
  {
    && path != []
    && (if |path| == 1 then Base(known, path[0])
        else Link(known, roster, group, path[0], path[1]) && Chain(known, roster, group, path[1..]))
  }

  ghost predicate ChainsTo(known: Identities, roster: Roster, group: string, id: string, base: string) {
    exists path :: Chain(known, roster, group, path) && |path| > 1 && path[0] == id && path[|path| - 1] == base
  }

  ghost predicate Chained(known: Identities, roster: Roster, group: string, id: string) {
    exists base :: ChainsTo(known, roster, group, id, base)
  }

  /** The roster's entries have their own ids, as a roster made by `Listed` does. */
  ghost predicate Named(roster: Roster) {
    forall id :: id in roster ==> roster[id].id == id
  }

  lemma BaseIsClosed(known: Identities, roster: Roster, id: string)
    requires Base(known, id) && id in roster && Named(roster)
    ensures !Open(known, roster[id])
  {
  }

  /** Each device carries one attestation, so its chain is the only one. */
  lemma {:induction false} ChainUnique(known: Identities, roster: Roster, group: string, p: seq<string>, q: seq<string>)
    requires Named(roster) && Chain(known, roster, group, p) && Chain(known, roster, group, q) && p[0] == q[0]
    ensures p == q
    decreases |p|
  {
    if |p| > 1 && |q| > 1 {
      ChainUnique(known, roster, group, p[1..], q[1..]);
      assert p == [p[0]] + p[1..] && q == [q[0]] + q[1..];
    }
  }

  lemma {:induction false} ChainEnds(known: Identities, roster: Roster, group: string, path: seq<string>)
    requires Chain(known, roster, group, path)
    ensures Base(known, path[|path| - 1])
    decreases |path|
  {
    if |path| > 1 {
      ChainEnds(known, roster, group, path[1..]);
    }
  }

  // ---------------------------------------------------------------------
  // What reconciling promises
  // ---------------------------------------------------------------------

  /** What a newly vouched device is worth: a chain is as strong as where it starts. */
  function FromSigner(trust: Trust): Trust {
    if trust.Tofu? then Tofu else Attested
  }

  function FirstSight(known: Identities, device: RosterDevice): Known {
    Known(device.publicKey, device.signing, if device.id in known then known[device.id].trust else Tofu)
  }

  /** The belief about one listed device after a roster. */
  ghost predicate Settled(known: Identities, roster: Roster, group: string, id: string, entry: Known)
    requires id in roster && Named(roster)
  {
    var device := roster[id];
    if !Open(known, device) then id in known && entry == known[id]
    else if !Chained(known, roster, group, id) then entry == FirstSight(known, device)
    else exists base :: ChainsTo(known, roster, group, id, base) && Base(known, base)
           && entry == Known(device.publicKey, device.signing, FromSigner(known[base].trust))
  }

  ghost predicate Reconciled(known: Identities, roster: Roster, group: string, next: Identities)
    requires Named(roster)
  {
    next.Keys == roster.Keys && forall id :: id in roster ==> Settled(known, roster, group, id, next[id])
  }

  function Changed(known: Identities, devices: seq<RosterDevice>): seq<string> {
    if devices == [] then []
    else Changed(known, devices[..|devices| - 1])
         + (if Contradicts(known, devices[|devices| - 1]) then [devices[|devices| - 1].id] else [])
  }

  function OpenOnes(known: Identities, devices: seq<RosterDevice>): seq<RosterDevice> {
    if devices == [] then []
    else OpenOnes(known, devices[..|devices| - 1]) + (if Open(known,
        devices[|devices| - 1]) then [devices[|devices| - 1]] else [])
  }

  // ---------------------------------------------------------------------
  // The fixpoint
  // ---------------------------------------------------------------------

  /** Resolved devices have the entry their chain earns; the others are as they were. */
  ghost predicate Progress(known: Identities, roster: Roster, group: string, next: Identities, waiting: set<string>)
    requires Named(roster)
  {
    && waiting <= roster.Keys
    && (forall id :: id in waiting ==> Open(known, roster[id]))
    && next.Keys <= known.Keys + roster.Keys
    && (forall id :: id in known && (id in waiting || id !in roster || !Open(known, roster[id])) ==>
          id in next && next[id] == known[id])
    && (forall id :: id in waiting && id !in known ==> id !in next)
    && (forall id :: id in roster && Open(known, roster[id]) && id !in waiting ==>
          id in next && Resolved(known, roster, group, id, next[id]))
  }

  ghost predicate Resolved(known: Identities, roster: Roster, group: string, id: string, entry: Known)
    requires id in roster
  {
    exists base :: ChainsTo(known, roster, group, id, base) && Base(known, base)
      && entry == Known(roster[id].publicKey, roster[id].signing, FromSigner(known[base].trust))
  }

  /** The test of the loop: this device's attestation checks out under a signing key held now. */
  predicate Resolvable(next: Identities, device: RosterDevice, group: string) {
    && device.attestation.Some? && device.signing.Some?
    && device.attestation.value.fields.groupId == group
    && var signer := device.attestation.value.fields.signerDeviceId;
       signer in next && next[signer].signing.Some?
       && AttestationHolds(device.attestation.value, device, next[signer].signing.value)
  }

  function FromAttestation(next: Identities, device: RosterDevice): Known
    requires device.attestation.Some? && device.attestation.value.fields.signerDeviceId in next
  {
    Known(device.publicKey, device.signing, FromSigner(next[device.attestation.value.fields.signerDeviceId].trust))
  }

  /** A signer that is held now is either a base, or itself resolved: one more link makes a longer chain. */
  lemma ResolveOne(known: Identities, roster: Roster, group: string, next: Identities, waiting: set<string>, id: string)
    requires Named(roster) && Progress(known, roster, group, next, waiting)
    requires id in waiting && Resolvable(next, roster[id], group)
    ensures Progress(known, roster, group, next[id := FromAttestation(next, roster[id])], waiting - {id})
  {
    var device := roster[id];
    var signer := device.attestation.value.fields.signerDeviceId;
    var entry := FromAttestation(next, device);
    SignerIsKeyed(known, roster, group, next, waiting, signer);
    assert Link(known, roster, group, id, signer);
    if Base(known, signer) {
      ShortChain(known, roster, group, id, signer);
    } else {
      var base :| ChainsTo(known, roster, group, signer, base) && Base(known, base)
        && next[signer] == Known(roster[signer].publicKey, roster[signer].signing, FromSigner(known[base].trust));
      LongerChain(known, roster, group, id, signer, base);
    }
    assert Resolved(known, roster, group, id, entry);
    ProgressGrows(known, roster, group, next, waiting, id, entry);
  }

  lemma ProgressGrows(known: Identities, roster: Roster, group: string, next: Identities, waiting: set<string>,
                      id: string, entry: Known)
    requires Named(roster) && Progress(known, roster, group, next, waiting)
    requires id in waiting && Resolved(known, roster, group, id, entry)
    ensures Progress(known, roster, group, next[id := entry], waiting - {id})
  {
  }

  lemma SignerIsKeyed(known: Identities, roster: Roster, group: string, next: Identities, waiting: set<string>,
                      signer: string)
    requires Named(roster) && Progress(known, roster, group, next, waiting)
    requires signer in next && next[signer].signing.Some?
    ensures KeyOf(known, roster, signer) == next[signer].signing
    ensures Base(known, signer) ==> next[signer] == known[signer]
    ensures !Base(known, signer) ==> signer in roster && Resolved(known, roster, group, signer, next[signer])
  {
    if Base(known, signer) && signer in roster {
      BaseIsClosed(known, roster, signer);
    }
  }

  lemma ShortChain(known: Identities, roster: Roster, group: string, id: string, base: string)
    requires Link(known, roster, group, id, base) && Base(known, base)
    ensures ChainsTo(known, roster, group, id, base)
  {
    var path := [id, base];
    assert path[1..] == [base];
    assert Chain(known, roster, group, path);
  }

  lemma LongerChain(known: Identities, roster: Roster, group: string, id: string, signer: string, base: string)
    requires Link(known, roster, group, id, signer) && ChainsTo(known, roster, group, signer, base)
    ensures ChainsTo(known, roster, group, id, base)
  {
    var path :| Chain(known, roster, group, path) && |path| > 1 && path[0] == signer && path[|path| - 1] == base;
    assert ([id] + path)[1..] == path;
    assert Chain(known, roster, group, [id] + path);
  }

  /** When nothing waiting can be resolved, nothing waiting has a chain. */
  lemma {:induction false} StuckHasNoChain(known: Identities, roster: Roster, group: string, next: Identities,
      waiting: set<string>, path: seq<string>)
    requires Named(roster) && Progress(known, roster, group, next, waiting)
    requires forall id :: id in waiting ==> !Resolvable(next, roster[id], group)
    requires path != [] && path[0] in waiting
    ensures !Chain(known, roster, group, path)
    decreases |path|
  {
    if |path| == 1 {
      BaseNotWaiting(known, roster, group, next, waiting, path[0]);
    } else if path[1] in waiting {
      StuckHasNoChain(known, roster, group, next, waiting, path[1..]);
    } else if Chain(known, roster, group, path) {
      StepResolvable(known, roster, group, next, waiting, path);
      assert false;
    }
  }

  lemma BaseNotWaiting(known: Identities, roster: Roster, group: string, next: Identities, waiting: set<string>,
                       id: string)
    requires Named(roster) && Progress(known, roster, group, next, waiting) && id in waiting
    ensures !Base(known, id)
  {
  }

  lemma StepResolvable(known: Identities, roster: Roster, group: string, next: Identities, waiting: set<string>,
                       path: seq<string>)
    requires Named(roster) && Progress(known, roster, group, next, waiting)
    requires Chain(known, roster, group, path) && |path| > 1 && path[1] !in waiting
    ensures Resolvable(next, roster[path[0]], group)
  {
    var signer := path[1];
    assert Chain(known, roster, group, path[1..]) && path[1..][0] == signer;
    if Base(known, signer) {
      if signer in roster {
        BaseIsClosed(known, roster, signer);
      }
      assert next[signer] == known[signer];
    } else {
      assert Link(known, roster, group, signer, path[1..][1]);
    }
  }

  lemma Start(known: Identities, devices: seq<RosterDevice>, group: string)
    requires Distinct(devices)
    ensures Named(Listed(devices)) && Waiting(known, Listed(devices), group, known, OpenOnes(known, devices))
  {
    ListedExact(devices);
    OpenExact(known, devices);
    OpenIds(known, devices);
  }

  lemma OpenIds(known: Identities, devices: seq<RosterDevice>)
    requires Distinct(devices)
    ensures forall id :: id in Ids(OpenOnes(known, devices)) <==>
        id in Listed(devices) && Open(known, Listed(devices)[id])
    ensures InRoster(OpenOnes(known, devices), Listed(devices))
  {
    ListedExact(devices);
    OpenExact(known, devices);
    var open, roster := OpenOnes(known, devices), Listed(devices);
    forall i | 0 <= i < |open| ensures open[i].id in roster && roster[open[i].id] == open[i] {
      assert open[i] in devices;
      var k :| 0 <= k < |devices| && devices[k] == open[i];
      ListedAt(devices, k);
    }
    forall id | id in roster && Open(known, roster[id]) ensures id in Ids(open) {
      assert roster[id] in open;
      var i :| 0 <= i < |open| && open[i] == roster[id];
      assert open[i].id in Ids(open);
    }
  }

  ghost predicate InRoster(devices: seq<RosterDevice>, roster: Roster) {
    forall i :: 0 <= i < |devices| ==> devices[i].id in roster && roster[devices[i].id] == devices[i]
  }

  lemma {:induction false} OpenExact(known: Identities, devices: seq<RosterDevice>)
    requires Distinct(devices)
    ensures Distinct(OpenOnes(known, devices))
    ensures forall d :: d in OpenOnes(known, devices) <==> d in devices && Open(known, d)
  {
    if devices != [] {
      var init, last := devices[..|devices| - 1], devices[|devices| - 1];
      LastDistinct(devices);
      OpenExact(known, init);
      assert devices == init + [last];
      var open := OpenOnes(known, init);
      forall i | 0 <= i < |open| ensures open[i].id != last.id {
        assert open[i] in init;
        var k :| 0 <= k < |init| && init[k] == open[i];
        assert devices[k] == open[i];
      }
    }
  }

  /** First sight for whatever is left, and nobody who is not listed. */
  ghost predicate Adopted(known: Identities, roster: Roster, next: Identities, waiting: set<string>, final: Identities)
    requires Named(roster)
  {
    && final.Keys == roster.Keys
    && (forall id :: id in roster && id in waiting ==> final[id] == FirstSight(known, roster[id]))
    && (forall id :: id in roster && id !in waiting ==> id in next && final[id] == next[id])
  }

  lemma Finish(known: Identities, roster: Roster, group: string, next: Identities, waiting: set<string>,
               final: Identities)
    requires Named(roster) && Progress(known, roster, group, next, waiting)
    requires forall id :: id in waiting ==> !Resolvable(next, roster[id], group)
    requires Adopted(known, roster, next, waiting, final)
    ensures Reconciled(known, roster, group, final)
  {
    forall id | id in roster ensures Settled(known, roster, group, id, final[id]) {
      if id in waiting {
        WaitingUnchained(known, roster, group, next, waiting, id);
      } else if Open(known, roster[id]) {
        assert Resolved(known, roster, group, id, final[id]);
      }
    }
  }

  lemma WaitingUnchained(known: Identities, roster: Roster, group: string, next: Identities, waiting: set<string>,
                         id: string)
    requires Named(roster) && Progress(known, roster, group, next, waiting) && id in waiting
    requires forall id :: id in waiting ==> !Resolvable(next, roster[id], group)
    ensures !Chained(known, roster, group, id)
  {
    forall path: seq<string> | path != [] && path[0] == id ensures !Chain(known, roster, group, path) {
      StuckHasNoChain(known, roster, group, next, waiting, path);
    }
  }

  // ---------------------------------------------------------------------
  // The store
  // ---------------------------------------------------------------------

  function Ids(devices: seq<RosterDevice>): set<string> {
    set i | 0 <= i < |devices| :: devices[i].id
  }

  class IdentityStore {
    var identities: Identities

    constructor ()
      ensures identities == map[]
    {
      identities := map[];
    }

    /** Keys read off a screen replace whatever was held. */
    method PinScannedDevice(b: Bundle)
      modifies this
      ensures identities == old(identities)[b.deviceId := Known(b.publicKey, b.signing, Scanned)]
    {
      identities := identities[b.deviceId := Known(b.publicKey, b.signing, Scanned)];
    }

    /** The introducer's view of the space; what was scanned is never replaced by it. */
    method SeedInheritedIdentities(bundles: seq<Bundle>)
      modifies this
      ensures identities == Seeded(old(identities), bundles)
    {
      for i := 0 to |bundles|
        invariant identities == Seeded(old(identities), bundles[..i])
      {
        assert bundles[..i + 1][..i] == bundles[..i];
        var b := bundles[i];
        if !(b.deviceId in identities && identities[b.deviceId].trust.Scanned?) {
          identities := identities[b.deviceId := Known(b.publicKey, b.signing, Inherited)];
        }
      }
      assert bundles[..|bundles|] == bundles;
    }

    /** Sort the roster into what is settled, what contradicts, and what is open. */
    method FirstPass(devices: seq<RosterDevice>) returns (changed: seq<string>, open: seq<RosterDevice>)
      ensures changed == Changed(identities, devices) && open == OpenOnes(identities, devices)
    {
      changed, open := [], [];
      for i := 0 to |devices|
        invariant changed == Changed(identities, devices[..i]) && open == OpenOnes(identities, devices[..i])
      {
        var device := devices[i];
        assert devices[..i + 1][..i] == devices[..i] && devices[..i + 1][i] == device;
        if device.id !in identities {
          open := open + [device];
        } else if identities[device.id].publicKey != device.publicKey {
          changed := changed + [device.id];
        } else if identities[device.id].signing.Some? {
          if device.signing.Some? && identities[device.id].signing != device.signing {
            changed := changed + [device.id];
          }
        } else if device.signing.Some? {
          open := open + [device];
        }
      }
      assert devices[..|devices|] == devices;
    }

    /** One device of a round: adopted under its signer's key, or kept for the next round. */
    method TryOne(ghost known: Identities, ghost roster: Roster, group: string, next0: Identities,
                  still0: seq<RosterDevice>, pending: seq<RosterDevice>, i: nat)
      returns (next: Identities, still: seq<RosterDevice>, resolved: bool)
      requires Named(roster) && i < |pending| && Waiting(known, roster, group, next0, still0 + pending[i..])
      ensures Waiting(known, roster, group, next, still + pending[i + 1..])
      ensures resolved == Resolvable(next0, pending[i], group)
      ensures still == if resolved then still0 else still0 + [pending[i]]
      ensures !resolved ==> next == next0
    {
      var device := pending[i];
      next, still, resolved := next0, still0, Resolvable(next0, device, group);
      if resolved {
        ResolveNext(known, roster, group, next0, still, pending, i, device);
        next := next0[device.id := FromAttestation(next0, device)];
      } else {
        NextLeft(still, pending, i);
        still := still + [device];
      }
    }

    /** One round over what is left; `next` is updated as it goes, so later devices see earlier ones. */
    method Round(ghost known: Identities, ghost roster: Roster, group: string, next0: Identities,
                 pending: seq<RosterDevice>)
      returns (next: Identities, still: seq<RosterDevice>, progress: bool)
      requires Named(roster) && Waiting(known, roster, group, next0, pending)
      ensures Waiting(known, roster, group, next, still)
      ensures |still| + (if progress then 1 else 0) <= |pending|
      ensures !progress ==> NoneResolvable(next, still, group)
    {
      next, still, progress := next0, [], false;
      StillWaiting(known, roster, group, next, pending, still + pending[0..]);
      for i := 0 to |pending|
        invariant Waiting(known, roster, group, next, still + pending[i..])
        invariant |still| + (if progress then 1 else 0) <= i
        invariant !progress ==> NoneResolvable(next, still, group)
      {
        var resolved;
        next, still, resolved := TryOne(known, roster, group, next, still, pending, i);
        progress := progress || resolved;
      }
      StillWaiting(known, roster, group, next, still + pending[|pending|..], still);
    }

    /** Rounds until one resolves nothing. */
    method Fixpoint(ghost known: Identities, ghost roster: Roster, group: string, next0: Identities,
                    pending0: seq<RosterDevice>)
      returns (next: Identities, pending: seq<RosterDevice>)
      requires Named(roster) && Waiting(known, roster, group, next0, pending0)
      ensures Waiting(known, roster, group, next, pending) && NoneResolvable(next, pending, group)
    {
      next, pending := next0, pending0;
      var progress := true;
      while progress && pending != []
        invariant Waiting(known, roster, group, next, pending)
        invariant progress || NoneResolvable(next, pending, group)
        decreases |pending| + (if progress then 1 else 0)
      {
        next, pending, progress := Round(known, roster, group, next, pending);
      }
    }

    /** First sight for the rest; a device known without a signing key keeps the trust it had. */
    method AdoptTheRest(ghost known: Identities, ghost roster: Roster, ghost group: string, resolved: Identities,
                        pending: seq<RosterDevice>, devices: seq<RosterDevice>)
      returns (final: Identities)
      requires Distinct(devices) && roster == Listed(devices) && Named(roster)
      requires Waiting(known, roster, group, resolved, pending)
      ensures Adopted(known, roster, resolved, Ids(pending), final)
    {
      var next := resolved;
      for i := 0 to |pending|
        invariant next == WithRest(resolved, pending[..i])
      {
        assert pending[..i + 1][..i] == pending[..i];
        next := WithFirstSight(next, pending[i]);
      }
      assert pending[..|pending|] == pending;
      final := map id | id in next && id in Ids(devices) :: next[id];
      WaitingFacts(known, roster, group, resolved, pending);
      RestExact(known, resolved, pending);
      Dropped(known, roster, resolved, pending, next, devices, final);
    }

    /**
     * Reconcile with a roster of distinct devices: every belief afterwards is the one the chains of
     * attestations earn, and every contradiction is reported.
     */
    method ReconcileDevices(devices: seq<RosterDevice>, group: string) returns (changed: seq<string>)
      requires Distinct(devices)
      modifies this
      ensures Named(Listed(devices)) && Reconciled(old(identities), Listed(devices), group, identities)
      ensures changed == Changed(old(identities), devices)
    {
      ghost var roster := Listed(devices);
      var open;
      changed, open := FirstPass(devices);
      Start(identities, devices, group);
      var next, pending := Fixpoint(identities, roster, group, identities, open);
      var final := AdoptTheRest(identities, roster, group, next, pending, devices);
      WaitingFacts(identities, roster, group, next, pending);
      Finish(identities, roster, group, next, Ids(pending), final);
      identities := final;
    }
  }

  lemma NextLeft(still: seq<RosterDevice>, pending: seq<RosterDevice>, i: nat)
    requires i < |pending|
    ensures var left := still + pending[i..];
            && |still| < |left| && left[|still|] == pending[i]
            && left[..|still|] + left[|still| + 1..] == still + pending[i + 1..]
            && left == still + [pending[i]] + pending[i + 1..]
  {
    var left := still + pending[i..];
    assert left[..|still|] == still && left[|still| + 1..] == pending[i + 1..];
    assert pending[i..] == [pending[i]] + pending[i + 1..];
  }

  /** `pending` is what is left of the open part of the roster. */
  ghost predicate Waiting(known: Identities, roster: Roster, group: string, next: Identities,
                          pending: seq<RosterDevice>)
    requires Named(roster)
  {
    Distinct(pending) && InRoster(pending, roster) && Progress(known, roster, group, next, Ids(pending))
  }

  ghost predicate NoneResolvable(next: Identities, pending: seq<RosterDevice>, group: string) {
    forall i :: 0 <= i < |pending| ==> !Resolvable(next, pending[i], group)
  }

  lemma ResolveAt(known: Identities, roster: Roster, group: string, next: Identities, left: seq<RosterDevice>,
                  at: nat, device: RosterDevice)
    requires Named(roster) && Waiting(known, roster, group, next, left)
    requires at < |left| && device == left[at] && Resolvable(next, device, group)
    ensures Waiting(known, roster, group, next[device.id := FromAttestation(next, device)], left[..at] + left[at + 1..])
  {
    assert left[at].id in Ids(left);
    ResolveOne(known, roster, group, next, Ids(left), device.id);
    IdsWithout(left, at);
    InRosterWithout(left, at, roster);
  }

  lemma StillWaiting(known: Identities, roster: Roster, group: string, next: Identities, a: seq<RosterDevice>,
                     b: seq<RosterDevice>)
    requires Named(roster) && a == b && Waiting(known, roster, group, next, a)
    ensures Waiting(known, roster, group, next, b)
  {
  }

  lemma ResolveNext(known: Identities, roster: Roster, group: string, next: Identities, still: seq<RosterDevice>,
                    pending: seq<RosterDevice>, i: nat, device: RosterDevice)
    requires Named(roster) && i < |pending| && device == pending[i] && Resolvable(next, device, group)
    requires Waiting(known, roster, group, next, still + pending[i..])
    ensures Waiting(known, roster, group, next[device.id := FromAttestation(next, device)], still + pending[i + 1..])
  {
    NextLeft(still, pending, i);
    ResolveAt(known, roster, group, next, still + pending[i..], |still|, device);
  }

  lemma InRosterWithout(left: seq<RosterDevice>, at: nat, roster: Roster)
    requires at < |left| && InRoster(left, roster)
    ensures InRoster(left[..at] + left[at + 1..], roster)
  {
    var less := left[..at] + left[at + 1..];
    forall k | 0 <= k < |less| ensures less[k] == left[if k < at then k else k + 1] {
    }
  }

  lemma WaitingFacts(known: Identities, roster: Roster, group: string, next: Identities, pending: seq<RosterDevice>)
    requires Named(roster) && Waiting(known, roster, group, next, pending)
    ensures forall id :: id in roster && id !in Ids(pending) ==> id in next
    ensures forall id :: id in Ids(pending) ==> (id in known <==> id in next) && (id in known ==> next[id] == known[id])
    ensures forall group' :: NoneResolvable(next, pending, group') ==>
              forall id :: id in Ids(pending) ==> id in roster && !Resolvable(next, roster[id], group')
  {
  }

  function WithFirstSight(next: Identities, device: RosterDevice): Identities {
    next[device.id := Known(device.publicKey, device.signing, if device.id in next then next[device.id].trust
        else Tofu)]
  }

  function WithRest(next: Identities, pending: seq<RosterDevice>): Identities {
    if pending == [] then next else WithFirstSight(WithRest(next, pending[..|pending| - 1]), pending[|pending| - 1])
  }

  lemma {:induction false} RestExact(known: Identities, next: Identities, pending: seq<RosterDevice>)
    requires Distinct(pending)
    requires forall id :: id in Ids(pending) ==>
          (id in known <==> id in next) && (id in known ==> next[id] == known[id])
    ensures var rest := WithRest(next, pending);
            && rest.Keys == next.Keys + Ids(pending)
            && (forall id :: id in next && id !in Ids(pending) ==> rest[id] == next[id])
            && (forall k :: 0 <= k < |pending| ==> rest[pending[k].id] == FirstSight(known, pending[k]))
  {
    if pending != [] {
      var init, last := pending[..|pending| - 1], pending[|pending| - 1];
      LastDistinct(pending);
      IdsGrow(pending, |pending| - 1);
      assert pending[..|pending|] == pending;
      RestExact(known, next, init);
      assert last.id !in Ids(init) && Ids(pending) == Ids(init) + {last.id};
      assert WithRest(next, pending) == WithRest(next, init)[last.id := FirstSight(known, last)];
      forall k | 0 <= k < |pending| ensures WithRest(next, pending)[pending[k].id] == FirstSight(known, pending[k]) {
        assert k < |init| ==> pending[k] == init[k] && init[k].id in Ids(init);
      }
    }
  }

  lemma IdsGrow(devices: seq<RosterDevice>, i: nat)
    requires i < |devices|
    ensures Ids(devices[..i + 1]) == Ids(devices[..i]) + {devices[i].id}
  {
    var more := devices[..i + 1];
    forall id | id in Ids(devices[..i]) ensures id in Ids(more) {
      var k :| 0 <= k < i && devices[..i][k].id == id;
      assert more[k].id == id;
    }
    assert more[i].id in Ids(more);
    forall id | id in Ids(more) ensures id in Ids(devices[..i]) + {devices[i].id} {
      var k :| 0 <= k < |more| && more[k].id == id;
      assert k < i ==> devices[..i][k].id == id;
    }
  }

  lemma IdsWithout(devices: seq<RosterDevice>, at: nat)
    requires at < |devices| && Distinct(devices)
    ensures Ids(devices[..at] + devices[at + 1..]) == Ids(devices) - {devices[at].id}
    ensures Distinct(devices[..at] + devices[at + 1..])
  {
    var less := devices[..at] + devices[at + 1..];
    forall k | 0 <= k < |less| ensures less[k] == devices[if k < at then k else k + 1] && less[k].id != devices[at].id {
      assert Pair(k, at) && Pair(at, k + 1);
    }
    forall i, j | Pair(i, j) && 0 <= i < j < |less| ensures less[i].id != less[j].id {
      assert Pair(if i < at then i else i + 1, if j < at then j else j + 1);
    }
    forall id | id in Ids(devices) - {devices[at].id} ensures id in Ids(less) {
      var k :| 0 <= k < |devices| && devices[k].id == id;
      assert less[if k < at then k else k - 1].id == id;
    }
    forall id | id in Ids(less) ensures id in Ids(devices) - {devices[at].id} {
      var k :| 0 <= k < |less| && less[k].id == id;
      assert devices[if k < at then k else k + 1].id == id;
    }
  }

  lemma Dropped(known: Identities, roster: Roster, resolved: Identities, pending: seq<RosterDevice>, next: Identities,
                devices: seq<RosterDevice>, final: Identities)
    requires Distinct(devices) && roster == Listed(devices) && InRoster(pending, roster) && Named(roster)
    requires next.Keys == resolved.Keys + Ids(pending)
    requires forall id :: id in roster && id !in Ids(pending) ==> id in resolved
    requires forall id :: id in resolved && id !in Ids(pending) ==> next[id] == resolved[id]
    requires forall k :: 0 <= k < |pending| ==>
          pending[k].id in next && next[pending[k].id] == FirstSight(known, pending[k])
    requires final == map id | id in next && id in Ids(devices) :: next[id]
    ensures Adopted(known, roster, resolved, Ids(pending), final)
  {
    ListedExact(devices);
    forall id ensures id in final <==> id in roster {
      assert id in Ids(devices) <==> id in roster;
    }
  }

  function Seeded(known: Identities, bundles: seq<Bundle>): Identities {
    if bundles == [] then known
    else
      var before, b := Seeded(known, bundles[..|bundles| - 1]), bundles[|bundles| - 1];
      if b.deviceId in before && before[b.deviceId].trust.Scanned? then before
      else before[b.deviceId := Known(b.publicKey, b.signing, Inherited)]
  }
}
