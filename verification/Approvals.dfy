/** Dual approval of a response (aisecure/control/response.py, `verify_pair`). Hash and
    signature check are parameters; identifier syntax is checked before. */
module Approvals {
  import opened Common

  datatype Operation = DisableRule | RestoreRule | OtherOperation

  datatype Role = Primary | Secondary | OtherRole

  datatype Proposal = Proposal(id: string, target: string, operation: Operation, stateHash: string, expiresAt: int,
                               policy: string, newApprovalForRollback: bool)

  datatype Claim = Claim(proposal: string, approver: string, role: Role, issuedAt: int, expiresAt: int, approves: bool)

  datatype Proof = Proof(claim: Claim, signature: string)

  /** The hash of a proposal, and the check of a signature over a claim by a key. */
  datatype Crypto = Crypto(digest: Proposal -> string, verifies: (string, Claim, string) -> bool)

  const WINDOW := 300
  const SKEW := 15

  predicate PlanOk(p: Proposal, now: int) {
    && !p.operation.OtherOperation? && p.policy == "response-1" && p.newApprovalForRollback
    && |p.stateHash| == 64 && (forall i :: 0 <= i < 64 ==> '0' <= p.stateHash[i] <= '9' || 'a' <= p.stateHash[i] <= 'f')
    && now + 1 <= p.expiresAt <= now + WINDOW
  }

  predicate ProofOk(p: Proposal, proof: Proof, keys: map<string, string>, now: int, crypto: Crypto) {
    var c := proof.claim;
    && c.proposal == crypto.digest(p) && c.approves && !c.role.OtherRole?
    && now - WINDOW <= c.issuedAt <= now + SKEW
    && now + 1 <= c.expiresAt <= c.issuedAt + WINDOW && c.expiresAt <= p.expiresAt
    && c.approver in keys && |keys[c.approver]| == 32 && crypto.verifies(keys[c.approver], c, proof.signature)
  }

  /** Two approvals of this very proposal by two people with two keys in two roles. */
  predicate Independent(p: Proposal, proofs: seq<Proof>, keys: map<string, string>, now: int, crypto: Crypto) {
    && PlanOk(p, now) && |proofs| == 2
    && ProofOk(p, proofs[0], keys, now, crypto) && ProofOk(p, proofs[1], keys, now, crypto)
    && proofs[0].claim.approver != proofs[1].claim.approver
    && keys[proofs[0].claim.approver] != keys[proofs[1].claim.approver]
    && {proofs[0].claim.role, proofs[1].claim.role} == {Primary, Secondary}
  }

  method VerifyPair(p: Proposal, proofs: seq<Proof>, keys: map<string, string>, now: int, crypto: Crypto)
    returns (people: Option<set<string>>)
    ensures people.Some? <==> Independent(p, proofs, keys, now, crypto)
    ensures people.Some? ==> people.value == {proofs[0].claim.approver, proofs[1].claim.approver}
  {
    hide PlanOk, ProofOk;
    if !PlanOk(p, now) || |proofs| != 2 { return None; }
    var approvers: set<string>, publics: set<string>, roles: set<Role> := {}, {}, {};
    var i := 0;
    while i < |proofs|
      invariant 0 <= i <= 2
      invariant i >= 1 ==> ProofOk(p, proofs[0], keys, now, crypto)
      invariant i >= 2 ==> ProofOk(p, proofs[1], keys, now, crypto)
      invariant i == 0 ==> approvers == {} && publics == {} && roles == {}
      invariant i == 1 ==> Gathered(proofs[..1], keys, approvers, publics, roles)
      invariant i == 2 ==> Gathered(proofs, keys, approvers, publics, roles)
    {
      if !ProofOk(p, proofs[i], keys, now, crypto) { return None; }
      var c := proofs[i].claim;
      KnownApprover(p, proofs[i], keys, now, crypto);
      approvers, publics, roles := approvers + {c.approver}, publics + {keys[c.approver]}, roles + {c.role};
      i := i + 1;
    }
    KnownApprover(p, proofs[0], keys, now, crypto);
    KnownApprover(p, proofs[1], keys, now, crypto);
    var a, b := proofs[0].claim, proofs[1].claim;
    Two(a.approver, b.approver);
    Two(keys[a.approver], keys[b.approver]);
    Two(a.role, b.role);
    if |approvers| != 2 || |publics| != 2 || |roles| != 2 { return None; }
    return Some(approvers);
  }

  function KeyOf(keys: map<string, string>, approver: string): string {
    if approver in keys then keys[approver] else ""
  }

  /** What the loop has collected from one or two proofs. */
  predicate Gathered(proofs: seq<Proof>, keys: map<string, string>, approvers: set<string>, publics: set<string>,
                     roles: set<Role>)
    requires 1 <= |proofs| <= 2
  {
    var a, b := proofs[0].claim, proofs[|proofs| - 1].claim;
    && approvers == {a.approver, b.approver} && publics == {KeyOf(keys, a.approver), KeyOf(keys, b.approver)}
    && roles == {a.role, b.role}
  }

  lemma KnownApprover(p: Proposal, proof: Proof, keys: map<string, string>, now: int, crypto: Crypto)
    requires ProofOk(p, proof, keys, now, crypto)
    ensures proof.claim.approver in keys && KeyOf(keys, proof.claim.approver) == keys[proof.claim.approver]
    ensures proof.claim.role == Primary || proof.claim.role == Secondary
  {
  }

  lemma Two<T>(x: T, y: T)
    ensures |{x, y}| == 2 <==> x != y
  {
    if x == y { assert {x, y} == {x}; }
  }

  /** The order in which the approvals are presented does not matter. */
  lemma OrderOfApprovals(p: Proposal, a: Proof, b: Proof, keys: map<string, string>, now: int, crypto: Crypto)
    ensures Independent(p, [a, b], keys, now, crypto) <==> Independent(p, [b, a], keys, now, crypto)
  {
    assert {a.claim.role, b.claim.role} == {b.claim.role, a.claim.role};
  }

  /** A signed approval of this proposal in this role: given at most five minutes ago, ending no
      later than five minutes after it was given nor after the proposal, by a known operator. */
  predicate Approves(proof: Proof, role: Role, p: Proposal, keys: map<string, string>, now: int, crypto: Crypto) {
    var c := proof.claim;
    && c.proposal == crypto.digest(p) && c.approves && c.role == role && c.approver in keys
    && |keys[c.approver]| == 32 && crypto.verifies(keys[c.approver], c, proof.signature)
    && -15 <= now - c.issuedAt <= 300 && now < c.expiresAt && c.expiresAt - c.issuedAt <= 300
    && c.expiresAt <= p.expiresAt
  }

  /** A plan of this policy, on a state named by a hash, that ends within five minutes. */
  predicate Sound(p: Proposal, now: int) {
    && p.operation in {DisableRule, RestoreRule} && p.policy == "response-1" && p.newApprovalForRollback
    && |p.stateHash| == 64 && (forall c :: c in p.stateHash ==> '0' <= c <= '9' || 'a' <= c <= 'f')
    && now < p.expiresAt <= now + 300
  }

  lemma SoundIs(p: Proposal, now: int)
    ensures PlanOk(p, now) <==> Sound(p, now)
  {
    assert forall i :: 0 <= i < |p.stateHash| ==> p.stateHash[i] in p.stateHash;
  }

  /** A pair is accepted exactly if one operator approves a sound plan as the primary and
      another, with another key, as the secondary, in whichever order. */
  lemma AcceptedExactly(p: Proposal, proofs: seq<Proof>, keys: map<string, string>, now: int, crypto: Crypto)
    ensures Independent(p, proofs, keys, now, crypto) <==>
              exists a, b ::
                && (proofs == [a, b] || proofs == [b, a]) && Sound(p, now)
                && Approves(a, Primary, p, keys, now, crypto) && Approves(b, Secondary, p, keys, now, crypto)
                && a.claim.approver != b.claim.approver && keys[a.claim.approver] != keys[b.claim.approver]
  {
    hide PlanOk, Sound;
    SoundIs(p, now);
    if Independent(p, proofs, keys, now, crypto) {
      var a, b := proofs[0], proofs[1];
      assert proofs == [a, b];
      assert Primary in {a.claim.role, b.claim.role} && Secondary in {a.claim.role, b.claim.role};
      if a.claim.role == Primary {
        assert Approves(a, Primary, p, keys, now, crypto) && Approves(b, Secondary, p, keys, now, crypto);
      } else {
        assert Approves(b, Primary, p, keys, now, crypto) && Approves(a, Secondary, p, keys, now, crypto);
      }
    }
  }

  /** A pair accepted for two proposals means their hashes collide, and a pair can be
      used during at most 315 seconds. */
  lemma PairIsBound(p: Proposal, q: Proposal, proofs: seq<Proof>, keys: map<string, string>, now: int, later: int,
                    crypto: Crypto)
    requires Independent(p, proofs, keys, now, crypto) && Independent(q, proofs, keys, later, crypto)
    ensures crypto.digest(p) == crypto.digest(q)
    ensures -(WINDOW + SKEW) < later - now < WINDOW + SKEW
  {
    hide PlanOk;
    var c := proofs[0].claim;
    assert c.issuedAt - SKEW <= now < c.issuedAt + WINDOW && c.issuedAt - SKEW <= later < c.issuedAt + WINDOW;
  }
}
