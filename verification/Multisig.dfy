/** Logic signatures signed by several keys: a threshold of distinct members is needed and enough.

    A signature is taken to be ideal: it says which key signed which program, and verifies for
    exactly that key and program. The address of a group is taken to be injective. */
module Multisig {
  import opened Wrappers

  type PublicKey = nat
  datatype SecretKey = SecretKey(publicKey: PublicKey)
  datatype Signature = NoSignature | SignedBy(pk: PublicKey, program: string)
  datatype Subsig = Subsig(pk: PublicKey, s: Signature)
  datatype EncodedMultisig = EncodedMultisig(v: nat, thr: nat, subsig: seq<Subsig>)
  datatype MultisigMetadata = MultisigMetadata(version: nat, threshold: nat, addrs: seq<PublicKey>)
  datatype Address = MultisigAddress(meta: MultisigMetadata)
  datatype Error = InvalidSecretKey | NoMultisigPresent

  /** The metadata that have an address. */
  predicate HasAddress(meta: MultisigMetadata) {
    meta.version == 1 && 0 < meta.threshold <= |meta.addrs| && meta.threshold <= 255
  }

  function Meta(m: EncodedMultisig): MultisigMetadata {
    MultisigMetadata(m.v, m.thr, Keys(m.subsig))
  }

  function Keys(subsigs: seq<Subsig>): seq<PublicKey> {
    seq(|subsigs|, i requires 0 <= i < |subsigs| => subsigs[i].pk)
  }

  function Unsigned(meta: MultisigMetadata): EncodedMultisig {
    EncodedMultisig(meta.version, meta.threshold,
                    seq(|meta.addrs|, i requires 0 <= i < |meta.addrs| => Subsig(meta.addrs[i], NoSignature)))
  }

  predicate VerifyBytes(program: string, s: Signature, pk: PublicKey) {
    s == SignedBy(pk, program)
  }

  /** The first slot of a key. */
  function SlotOf(subsigs: seq<Subsig>, pk: PublicKey): Option<nat> {
    if subsigs == [] then None
    else if subsigs[0].pk == pk then Some(0)
    else match SlotOf(subsigs[1..], pk) case None => None case Some(i) => Some(i + 1)
  }

  lemma {:induction false} SlotOfIsFirst(subsigs: seq<Subsig>, pk: PublicKey)
    ensures match SlotOf(subsigs, pk)
            case Some(i) => i < |subsigs| && subsigs[i].pk == pk && forall j :: 0 <= j < i ==> subsigs[j].pk != pk
            case None => forall j :: 0 <= j < |subsigs| ==> subsigs[j].pk != pk
  {
    if subsigs != [] && subsigs[0].pk != pk {
      SlotOfIsFirst(subsigs[1..], pk);
    }
  }

  /** The key's signature in its first slot; a key without a slot is an error. */
  function SignedSubsigs(subsigs: seq<Subsig>, program: string, pk: PublicKey): Result<seq<Subsig>, Error> {
    match SlotOf(subsigs, pk)
    case None => Failure(InvalidSecretKey)
    case Some(i) =>
      SlotOfIsFirst(subsigs, pk);
      Success(subsigs[i := Subsig(pk, SignedBy(pk, program))])
  }

  function CountSigned(subsigs: seq<Subsig>): nat {
    if subsigs == [] then 0
    else CountSigned(subsigs[..|subsigs| - 1]) + if subsigs[|subsigs| - 1].s == NoSignature then 0 else 1
  }

  function CountVerified(subsigs: seq<Subsig>, program: string): nat {
    if subsigs == [] then 0
    else
      var last := subsigs[|subsigs| - 1];
      CountVerified(subsigs[..|subsigs| - 1], program)
      + if last.s != NoSignature && VerifyBytes(program, last.s, last.pk) then 1 else 0
  }

  /** What verification answers. */
  predicate Accepted(m: EncodedMultisig, program: string, acc: Address) {
    && |m.subsig| >= m.thr
    && HasAddress(Meta(m)) && acc == MultisigAddress(Meta(m))
    && CountSigned(m.subsig) >= m.thr && CountVerified(m.subsig, program) >= m.thr
  }

  class LogicSig {
    const logic: string
    var msig: Option<EncodedMultisig>

    constructor (program: string)
      ensures logic == program && msig == None
    {
      logic := program;
      msig := None;
    }

    method SingleSignMultisig(secretKey: SecretKey, m: EncodedMultisig) returns (r: Result<(Signature, nat), Error>)
      ensures match SlotOf(m.subsig, secretKey.publicKey)
              case None => r == Failure(InvalidSecretKey)
              case Some(i) => r == Success((SignedBy(secretKey.publicKey, logic), i))
    {
      for i := 0 to |m.subsig|
        invariant match SlotOf(m.subsig[i..], secretKey.publicKey)
                  case None => SlotOf(m.subsig, secretKey.publicKey) == None
                  case Some(k) => SlotOf(m.subsig, secretKey.publicKey) == Some(i + k)
      {
        assert m.subsig[i..][0] == m.subsig[i] && m.subsig[i..][1..] == m.subsig[i + 1..];
        if m.subsig[i].pk == secretKey.publicKey {
          return Success((SignedBy(secretKey.publicKey, logic), i));
        }
      }
      return Failure(InvalidSecretKey);
    }

    /** Starts a multisignature with one signature. */
    method Sign(secretKey: SecretKey, meta: MultisigMetadata) returns (r: Result<(), Error>)
      modifies this
      ensures match SignedSubsigs(Unsigned(meta).subsig, logic, secretKey.publicKey)
              case Success(subsigs) => r == Success(()) && msig == Some(Unsigned(meta).(subsig := subsigs))
              case Failure(e) => r == Failure(e) && msig == Some(Unsigned(meta))
    {
      var m := Unsigned(meta);
      msig := Some(m);
      var signed :- SingleSignMultisig(secretKey, m);
      var (sig, index) := signed;
      SlotOfIsFirst(m.subsig, secretKey.publicKey);
      msig := Some(m.(subsig := m.subsig[index := m.subsig[index].(s := sig)]));
      return Success(());
    }

    method AppendToMultisig(secretKey: SecretKey) returns (r: Result<(), Error>)
      modifies this
      ensures match old(msig)
              case None => r == Failure(NoMultisigPresent) && msig == None
              case Some(m) =>
                match SignedSubsigs(m.subsig, logic, secretKey.publicKey)
                case Success(subsigs) => r == Success(()) && msig == Some(m.(subsig := subsigs))
                case Failure(e) => r == Failure(e) && msig == old(msig)
    {
      if msig.None? {
        return Failure(NoMultisigPresent);
      }
      var m := msig.value;
      var signed :- SingleSignMultisig(secretKey, m);
      var (sig, index) := signed;
      SlotOfIsFirst(m.subsig, secretKey.publicKey);
      msig := Some(m.(subsig := m.subsig[index := m.subsig[index].(s := sig)]));
      return Success(());
    }

    method VerifyMultisig(m: EncodedMultisig, acc: Address) returns (ok: bool)
      ensures ok <==> Accepted(m, logic, acc)
    {
      if |m.subsig| < m.thr {
        return false;
      }
      if !HasAddress(Meta(m)) {
        return false;
      }
      if acc != MultisigAddress(Meta(m)) {
        return false;
      }
      var counter := 0;
      for i := 0 to |m.subsig|
        invariant counter == CountSigned(m.subsig[..i])
      {
        assert m.subsig[..i + 1][..i] == m.subsig[..i];
        if m.subsig[i].s != NoSignature {
          counter := counter + 1;
        }
      }
      assert m.subsig[..|m.subsig|] == m.subsig;
      if counter < m.thr {
        return false;
      }
      var verifiedCounter := 0;
      for i := 0 to |m.subsig|
        invariant verifiedCounter == CountVerified(m.subsig[..i], logic)
      {
        assert m.subsig[..i + 1][..i] == m.subsig[..i];
        if m.subsig[i].s != NoSignature && VerifyBytes(logic, m.subsig[i].s, m.subsig[i].pk) {
          verifiedCounter := verifiedCounter + 1;
        }
      }
      return verifiedCounter >= m.thr;
    }
  }

  // ----- the threshold -----

  /** Every signature is its slot's own on the program, and no key signed in two slots. */
  ghost predicate Honest(subsigs: seq<Subsig>, program: string) {
    && (forall i :: 0 <= i < |subsigs| ==>
          subsigs[i].s == NoSignature || subsigs[i].s == SignedBy(subsigs[i].pk, program))
    && (forall i, j :: 0 <= i < j < |subsigs| && subsigs[i].s != NoSignature && subsigs[j].s != NoSignature ==>
          subsigs[i].pk != subsigs[j].pk)
  }

  ghost function Signers(subsigs: seq<Subsig>): set<PublicKey> {
    set i | 0 <= i < |subsigs| && subsigs[i].s != NoSignature :: subsigs[i].pk
  }

  /** The last slot adds a new signer if it is signed, and none if it is not. */
  lemma LastSigner(subsigs: seq<Subsig>, program: string)
    requires subsigs != [] && Honest(subsigs, program)
    ensures var n := |subsigs| - 1;
            |Signers(subsigs)| == |Signers(subsigs[..n])| + if subsigs[n].s == NoSignature then 0 else 1
  {
    var n := |subsigs| - 1;
    if subsigs[n].s == NoSignature {
      assert Signers(subsigs) == Signers(subsigs[..n]);
    } else {
      assert Signers(subsigs) == Signers(subsigs[..n]) + {subsigs[n].pk};
      assert subsigs[n].pk !in Signers(subsigs[..n]);
    }
  }

  lemma {:induction false} CountsAreSigners(subsigs: seq<Subsig>, program: string)
    requires Honest(subsigs, program)
    ensures CountSigned(subsigs) == CountVerified(subsigs, program) == |Signers(subsigs)|
  {
    if subsigs != [] {
      var n := |subsigs| - 1;
      CountsAreSigners(subsigs[..n], program);
      LastSigner(subsigs, program);
    }
  }

  /** Signing is the same as adding the key to the signers; only the first slot of a key is ever used. */
  ghost predicate FirstSlotsOnly(subsigs: seq<Subsig>) {
    forall i :: 0 <= i < |subsigs| && subsigs[i].s != NoSignature ==> SlotOf(subsigs, subsigs[i].pk) == Some(i)
  }

  lemma {:induction false} SlotsByKeys(x: seq<Subsig>, y: seq<Subsig>, pk: PublicKey)
    requires |x| == |y| && forall i :: 0 <= i < |x| ==> x[i].pk == y[i].pk
    ensures SlotOf(x, pk) == SlotOf(y, pk)
  {
    if x != [] {
      SlotsByKeys(x[1..], y[1..], pk);
    }
  }

  lemma SigningAddsSigner(subsigs: seq<Subsig>, program: string, pk: PublicKey)
    requires Honest(subsigs, program) && FirstSlotsOnly(subsigs)
    requires SignedSubsigs(subsigs, program, pk).Success?
    ensures var after := SignedSubsigs(subsigs, program, pk).value;
            && Honest(after, program) && FirstSlotsOnly(after)
            && Keys(after) == Keys(subsigs)
            && Signers(after) == Signers(subsigs) + {pk}
  {
    var after := SignedSubsigs(subsigs, program, pk).value;
    var k := SlotOf(subsigs, pk).value;
    SlotOfIsFirst(subsigs, pk);
    forall i | 0 <= i < |after|
      ensures after[i].pk == subsigs[i].pk
      ensures SlotOf(after, after[i].pk) == SlotOf(subsigs, subsigs[i].pk)
    {
      SlotsByKeys(subsigs, after, after[i].pk);
    }
    assert forall i :: 0 <= i < |after| && i != k ==> after[i] == subsigs[i];
    assert Signers(after) == Signers(subsigs) + {pk} by {
      assert after[k].pk == pk;
      forall q | q in Signers(subsigs)
        ensures q in Signers(after)
      {
        var i :| 0 <= i < |subsigs| && subsigs[i].s != NoSignature && subsigs[i].pk == q;
        assert after[i].pk == q && after[i].s != NoSignature;
      }
      forall q | q in Signers(after) && q != pk
        ensures q in Signers(subsigs)
      {
        var i :| 0 <= i < |after| && after[i].s != NoSignature && after[i].pk == q;
        assert i != k;
      }
    }
  }

  /** Signs with each key in turn; a key that is not a member throws and changes nothing. */
  function SignAll(subsigs: seq<Subsig>, program: string, keys: seq<PublicKey>): seq<Subsig>
    decreases |keys|
  {
    if keys == [] then subsigs
    else
      match SignedSubsigs(subsigs, program, keys[0])
      case Success(after) => SignAll(after, program, keys[1..])
      case Failure(_) => SignAll(subsigs, program, keys[1..])
  }

  ghost function ToSet(keys: seq<PublicKey>): set<PublicKey> {
    set k | k in keys
  }

  lemma {:induction false} SignAllSigners(subsigs: seq<Subsig>, program: string, keys: seq<PublicKey>)
    requires Honest(subsigs, program) && FirstSlotsOnly(subsigs)
    ensures var after := SignAll(subsigs, program, keys);
            && Honest(after, program) && Keys(after) == Keys(subsigs)
            && Signers(after) == Signers(subsigs) + ToSet(keys) * ToSet(Keys(subsigs))
    decreases |keys|
  {
    if keys != [] {
      var pk := keys[0];
      SlotOfIsFirst(subsigs, pk);
      assert ToSet(keys) == {pk} + ToSet(keys[1..]);
      if SlotOf(subsigs, pk).Some? {
        SigningAddsSigner(subsigs, program, pk);
        SignAllSigners(SignedSubsigs(subsigs, program, pk).value, program, keys[1..]);
        assert Keys(subsigs)[SlotOf(subsigs, pk).value] == pk;
      } else {
        SignAllSigners(subsigs, program, keys[1..]);
        assert pk !in Keys(subsigs);
      }
    } else {
      assert Signers(subsigs) + ToSet([]) * ToSet(Keys(subsigs)) == Signers(subsigs);
    }
  }

  /** A signature counts only for the program it was made on. */
  lemma {:induction false} OthersVerifyNothing(subsigs: seq<Subsig>, program: string, other: string)
    requires other != program
    requires forall i :: 0 <= i < |subsigs| ==>
               subsigs[i].s == NoSignature || subsigs[i].s == SignedBy(subsigs[i].pk, program)
    ensures CountVerified(subsigs, other) == 0
  {
    if subsigs != [] {
      OthersVerifyNothing(subsigs[..|subsigs| - 1], program, other);
    }
  }

  /** After any keys have signed a program, in any order and any number of times, the multisignature is
      accepted for a program and an address exactly when it is that program, the address is that of the
      version, the threshold and the members, these have an address at all, and enough distinct members
      are among the keys. */
  lemma {:induction false} ThresholdIff(
      meta: MultisigMetadata, program: string, keys: seq<PublicKey>, other: string, acc: Address)
    ensures var m := Unsigned(meta).(subsig := SignAll(Unsigned(meta).subsig, program, keys));
            Accepted(m, other, acc) <==>
            && other == program && acc == MultisigAddress(meta)
            && meta.version == 1 && 0 < meta.threshold <= |meta.addrs| && meta.threshold <= 255
            && |ToSet(keys) * ToSet(meta.addrs)| >= meta.threshold
  {
    var start := Unsigned(meta).subsig;
    SignAllSigners(start, program, keys);
    var after := SignAll(start, program, keys);
    assert Keys(start) == meta.addrs;
    assert Signers(start) == {};
    assert Signers(after) == ToSet(keys) * ToSet(meta.addrs);
    CountsAreSigners(after, program);
    assert |Keys(after)| == |after|;
    if other != program {
      OthersVerifyNothing(after, program, other);
    }
  }
}
