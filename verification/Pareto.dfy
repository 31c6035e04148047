/** dea_v01_fitness.py: hard gates first, then Pareto comparison. */
module Pareto {
  import opened Prelude

  datatype Direction = Min | Max

  type Vector = map<string, real>

  type Directions = map<string, Direction>

  predicate NotWorse(a: real, b: real, d: Direction) {
    if d == Min then a <= b else a >= b
  }

  predicate Better(a: real, b: real, d: Direction) {
    if d == Min then a < b else a > b
  }

  predicate Dominates(a: Vector, b: Vector, directions: Directions)
    requires directions.Keys <= a.Keys && directions.Keys <= b.Keys
  {
    && (forall k :: k in directions ==> NotWorse(a[k], b[k], directions[k]))
    && (exists k :: k in directions && Better(a[k], b[k], directions[k]))
  }

  /** Dominance is a strict partial order on complete vectors. */
  lemma DominanceIsStrictOrder(a: Vector, b: Vector, c: Vector, directions: Directions)
    requires directions.Keys <= a.Keys && directions.Keys <= b.Keys && directions.Keys <= c.Keys
    ensures !Dominates(a, a, directions)
    ensures Dominates(a, b, directions) ==> !Dominates(b, a, directions)
    ensures Dominates(a, b, directions) && Dominates(b, c, directions) ==> Dominates(a, c, directions)
  {
    if Dominates(a, b, directions) && Dominates(b, c, directions) {
      var k :| k in directions && Better(a[k], b[k], directions[k]);
      assert NotWorse(b[k], c[k], directions[k]);
      assert Better(a[k], c[k], directions[k]);
    }
  }

  // ---------- manifests ----------

  datatype GateStatus = GatePass | GateFail | GateUnknown

  datatype Profile = Profile(
    analyzerSha: string, profileSha: string, oracleSha: string, measurementSetSha: string,
    hardGates: seq<string>, metrics: Directions)

  datatype EvidenceReceipt = EvidenceReceipt(
    observedHeadSha: string, analyzerSha: string, profileSha: string, oracleSha: string, measurementSetSha: string,
    evidenceRef: string)

  datatype GateEvidence = GateEvidence(receipt: EvidenceReceipt, status: GateStatus)

  datatype Measurement = Measurement(receipt: EvidenceReceipt, value: Option<real>)

  datatype Candidate = Candidate(
    id: string, headSha: string, baseSha: string, generation: int,
    hardGates: map<string, GateEvidence>, metrics: map<string, Measurement>)

  datatype Manifest = Manifest(
    workId: string, baseSha: string, profile: Profile, candidates: seq<Candidate>, baselineId: string)

  predicate IsSha(s: string) {
    |s| == 40 && forall i :: 0 <= i < |s| ==> '0' <= s[i] <= '9' || 'a' <= s[i] <= 'f'
  }

  predicate UniqueNames(names: seq<string>) {
    names != [] && (forall n :: n in names ==> n != "")
    && forall i, j :: 0 <= i < j < |names| ==> names[i] != names[j]
  }

  predicate ReceiptOk(r: EvidenceReceipt, head: string, p: Profile) {
    r.observedHeadSha == head && r.analyzerSha == p.analyzerSha && r.profileSha == p.profileSha
    && r.oracleSha == p.oracleSha && r.measurementSetSha == p.measurementSetSha && r.evidenceRef != ""
  }

  predicate ProfileOk(p: Profile) {
    IsSha(p.analyzerSha) && IsSha(p.profileSha) && IsSha(p.oracleSha) && IsSha(p.measurementSetSha)
    && UniqueNames(p.hardGates) && "semantic_contract" in p.hardGates
    && p.metrics != map[] && "" !in p.metrics
  }

  function Ids(candidates: seq<Candidate>): seq<string> {
    seq(|candidates|, i requires 0 <= i < |candidates| => candidates[i].id)
  }

  predicate HeaderOk(m: Manifest) {
    && m.workId != "" && IsSha(m.baseSha) && ProfileOk(m.profile)
    && |m.candidates| >= 2 && UniqueNames(Ids(m.candidates))
    && (exists i :: 0 <= i < |m.candidates| && m.candidates[i].id == m.baselineId
                    && m.candidates[i].headSha == m.baseSha && m.candidates[i].generation == 0)
  }

  predicate CandidateOk(c: Candidate, m: Manifest) {
    && IsSha(c.headSha) && c.baseSha == m.baseSha && c.generation >= 0
    && c.hardGates.Keys == (set g | g in m.profile.hardGates) && c.metrics.Keys == m.profile.metrics.Keys
    && (forall g :: g in c.hardGates ==> ReceiptOk(c.hardGates[g].receipt, c.headSha, m.profile))
    && (forall k :: k in c.metrics ==> ReceiptOk(c.metrics[k].receipt, c.headSha, m.profile))
  }

  predicate Accepted(m: Manifest) {
    HeaderOk(m) && forall i :: 0 <= i < |m.candidates| ==> CandidateOk(m.candidates[i], m)
  }

  datatype CandidateState = Infeasible | UnknownHardGate | UnknownMetrics | MetadataEligible

  function StateOf(c: Candidate): CandidateState {
    if exists g :: g in c.hardGates && c.hardGates[g].status == GateFail then Infeasible
    else if exists g :: g in c.hardGates && c.hardGates[g].status == GateUnknown then UnknownHardGate
    else if exists k :: k in c.metrics && c.metrics[k].value.None? then UnknownMetrics
    else MetadataEligible
  }

  function VectorOf(c: Candidate): Vector {
    map k | k in c.metrics && c.metrics[k].value.Some? :: c.metrics[k].value.value
  }

  /** `eligible`, keyed by candidate id. */
  ghost predicate IsEligibleMap(m: Manifest, n: nat, eligible: map<string, Vector>)
    requires n <= |m.candidates|
  {
    && (forall id :: id in eligible <==>
          exists i :: 0 <= i < n && m.candidates[i].id == id && StateOf(m.candidates[i]) == MetadataEligible)
    && (forall i :: 0 <= i < n && StateOf(m.candidates[i]) == MetadataEligible ==>
          m.candidates[i].id in eligible && eligible[m.candidates[i].id] == VectorOf(m.candidates[i]))
  }

  // ---------- survivors ----------

  ghost predicate Complete(eligible: map<string, Vector>, directions: Directions) {
    forall id :: id in eligible ==> directions.Keys <= eligible[id].Keys
  }

  /** Nobody else among `eligible` dominates it. */
  predicate Survives(eligible: map<string, Vector>, directions: Directions, id: string)
    requires Complete(eligible, directions)
  {
    id in eligible
    && !(exists other :: other in eligible && other != id && Dominates(eligible[other], eligible[id], directions))
  }

  function Survivors(eligible: map<string, Vector>, directions: Directions): (front: set<string>)
    requires Complete(eligible, directions)
    ensures forall id :: id in front <==> Survives(eligible, directions, id)
  {
    set id | id in eligible && Survives(eligible, directions, id)
  }

  /** Climbing from a vector through ever better ones ends at a survivor. */
  lemma {:induction false} ClimbToFront(eligible: map<string, Vector>, directions: Directions, id: string, unseen: set<string>)
    requires Complete(eligible, directions) && id in eligible && unseen <= eligible.Keys && id !in unseen
    requires forall x :: x in eligible && Dominates(eligible[x], eligible[id], directions) ==> x in unseen
    ensures Survives(eligible, directions, id)
            || exists s :: Survives(eligible, directions, s) && Dominates(eligible[s], eligible[id], directions)
    decreases |unseen|
  {
    if !Survives(eligible, directions, id) {
      var better :| better in eligible && better != id && Dominates(eligible[better], eligible[id], directions);
      forall x | x in eligible && Dominates(eligible[x], eligible[better], directions)
        ensures x in unseen - {better} && Dominates(eligible[x], eligible[id], directions)
      {
        DominanceIsStrictOrder(eligible[x], eligible[better], eligible[id], directions);
      }
      ClimbToFront(eligible, directions, better, unseen - {better});
      if !Survives(eligible, directions, better) {
        var s :| Survives(eligible, directions, s) && Dominates(eligible[s], eligible[better], directions);
        DominanceIsStrictOrder(eligible[s], eligible[better], eligible[id], directions);
      }
    }
  }

  /** Every eligible candidate is on the front or beaten by a member of it, and no member beats another. */
  lemma FrontIsComplete(eligible: map<string, Vector>, directions: Directions)
    requires Complete(eligible, directions)
    ensures forall id :: id in eligible ==>
      id in Survivors(eligible, directions)
      || exists s :: s in Survivors(eligible, directions) && Dominates(eligible[s], eligible[id], directions)
    ensures forall a, b :: a in Survivors(eligible, directions) && b in Survivors(eligible, directions) ==>
      !Dominates(eligible[a], eligible[b], directions)
    ensures eligible != map[] ==> Survivors(eligible, directions) != {}
  {
    forall id | id in eligible
      ensures id in Survivors(eligible, directions)
              || exists s :: s in Survivors(eligible, directions) && Dominates(eligible[s], eligible[id], directions)
    {
      DominanceIsStrictOrder(eligible[id], eligible[id], eligible[id], directions);
      ClimbToFront(eligible, directions, id, eligible.Keys - {id});
    }
    forall a, b | a in Survivors(eligible, directions) && b in Survivors(eligible, directions)
      ensures !Dominates(eligible[a], eligible[b], directions)
    {
      DominanceIsStrictOrder(eligible[a], eligible[b], eligible[a], directions);
    }
    if eligible != map[] {
      var id :| id in eligible;
    }
  }

  // ---------- evaluate ----------

  datatype Review = Review(
    reviewRequired: bool, paretoReviewSet: set<string>, baselineEligible: bool, eligible: map<string, Vector>)

  lemma EligibleIsComplete(m: Manifest, eligible: map<string, Vector>)
    requires Accepted(m) && IsEligibleMap(m, |m.candidates|, eligible)
    ensures Complete(eligible, m.profile.metrics)
  {
    hide HeaderOk, CandidateOk, StateOf, VectorOf;
    forall id | id in eligible ensures m.profile.metrics.Keys <= eligible[id].Keys {
      var i :| 0 <= i < |m.candidates| && m.candidates[i].id == id && StateOf(m.candidates[i]) == MetadataEligible;
      VectorIsComplete(m.candidates[i], m);
    }
  }

  lemma VectorIsComplete(c: Candidate, m: Manifest)
    requires CandidateOk(c, m) && StateOf(c) == MetadataEligible
    ensures m.profile.metrics.Keys <= VectorOf(c).Keys
  {
    hide ReceiptOk, IsSha;
  }

  lemma DistinctCandidates(m: Manifest)
    requires HeaderOk(m)
    ensures forall i, j :: 0 <= i < j < |m.candidates| ==> m.candidates[i].id != m.candidates[j].id
  {
    hide IsSha, ProfileOk;
    forall i, j | 0 <= i < j < |m.candidates| ensures m.candidates[i].id != m.candidates[j].id {
      assert Ids(m.candidates)[i] == m.candidates[i].id && Ids(m.candidates)[j] == m.candidates[j].id;
    }
  }

  // ---------- the same, said on the candidates ----------

  /** Every hard gate passed and every metric was measured. */
  predicate Sound(c: Candidate) {
    && (forall g :: g in c.hardGates ==> c.hardGates[g].status == GatePass)
    && (forall k :: k in c.metrics ==> c.metrics[k].value.Some?)
  }

  lemma EligibleExactly(c: Candidate)
    ensures StateOf(c) == MetadataEligible <==> Sound(c)
  {
  }

  /** On every metric `a` is no worse: lower where less is better, higher where more is. */
  predicate AtLeastAsGood(a: Candidate, b: Candidate, directions: Directions)
    requires Sound(a) && Sound(b) && directions.Keys == a.metrics.Keys && directions.Keys == b.metrics.Keys
  {
    forall k :: k in directions ==>
      match directions[k]
      case Min => a.metrics[k].value.value <= b.metrics[k].value.value
      case Max => a.metrics[k].value.value >= b.metrics[k].value.value
  }

  predicate SameValues(a: Candidate, b: Candidate, directions: Directions)
    requires Sound(a) && Sound(b) && directions.Keys == a.metrics.Keys && directions.Keys == b.metrics.Keys
  {
    forall k :: k in directions ==> a.metrics[k].value.value == b.metrics[k].value.value
  }

  lemma DominatesExactly(a: Candidate, b: Candidate, directions: Directions)
    requires Sound(a) && Sound(b) && directions.Keys == a.metrics.Keys && directions.Keys == b.metrics.Keys
    ensures Dominates(VectorOf(a), VectorOf(b), directions)
            <==> AtLeastAsGood(a, b, directions) && !SameValues(a, b, directions)
  {
  }

  /** The candidate is sound, and every sound candidate at least as good has the same values. */
  ghost predicate IsOnFront(m: Manifest, c: Candidate)
    requires Accepted(m) && c in m.candidates
  {
    && Sound(c)
    && forall other :: other in m.candidates && MetricsCovered(m, other) && MetricsCovered(m, c) && Sound(other) ==>
         !AtLeastAsGood(other, c, m.profile.metrics) || SameValues(other, c, m.profile.metrics)
  }

  predicate MetricsCovered(m: Manifest, c: Candidate) {
    m.profile.metrics.Keys == c.metrics.Keys
  }

  lemma AcceptedCovers(m: Manifest, c: Candidate)
    requires Accepted(m) && c in m.candidates
    ensures MetricsCovered(m, c)
  {
    hide HeaderOk, ReceiptOk, IsSha;
    var i :| 0 <= i < |m.candidates| && m.candidates[i] == c;
    assert CandidateOk(m.candidates[i], m);
  }

  lemma EligibleVector(m: Manifest, eligible: map<string, Vector>, c: Candidate)
    requires Accepted(m) && IsEligibleMap(m, |m.candidates|, eligible) && c in m.candidates
    ensures c.id in eligible <==> Sound(c)
    ensures Sound(c) ==> eligible[c.id] == VectorOf(c)
  {
    hide CandidateOk, StateOf, VectorOf, Sound;
    DistinctCandidates(m);
    EligibleExactly(c);
    var i :| 0 <= i < |m.candidates| && m.candidates[i] == c;
    hide HeaderOk;
    if c.id in eligible {
      var j :| 0 <= j < |m.candidates| && m.candidates[j].id == c.id && StateOf(m.candidates[j]) == MetadataEligible;
      assert i == j;
    }
  }

  /** The front holds exactly the sound candidates no sound candidate beats. */
  lemma FrontIsExact(m: Manifest, eligible: map<string, Vector>, c: Candidate)
    requires Accepted(m) && IsEligibleMap(m, |m.candidates|, eligible) && Complete(eligible, m.profile.metrics)
    requires c in m.candidates
    ensures c.id in Survivors(eligible, m.profile.metrics) <==> IsOnFront(m, c)
  {
    hide Accepted, StateOf, VectorOf, Sound, Dominates, AtLeastAsGood, SameValues;
    EligibleVector(m, eligible, c);
    AcceptedCovers(m, c);
    if Sound(c) {
      forall other | other in m.candidates && Sound(other)
        ensures MetricsCovered(m, other) && other.id in eligible
        ensures Dominates(eligible[other.id], eligible[c.id], m.profile.metrics)
                <==> AtLeastAsGood(other, c, m.profile.metrics) && !SameValues(other, c, m.profile.metrics)
      {
        EligibleVector(m, eligible, other);
        AcceptedCovers(m, other);
        DominatesExactly(other, c, m.profile.metrics);
      }
      forall id | id in eligible && id != c.id && Dominates(eligible[id], eligible[c.id], m.profile.metrics)
        ensures !IsOnFront(m, c)
      {
        var other := EligibleCandidate(m, eligible, id);
        assert MetricsCovered(m, other);
      }
      if !IsOnFront(m, c) {
        var other :| other in m.candidates && MetricsCovered(m, other) && Sound(other)
          && AtLeastAsGood(other, c, m.profile.metrics) && !SameValues(other, c, m.profile.metrics);
        if other.id == c.id {
          DominanceIsStrictOrder(eligible[c.id], eligible[c.id], eligible[c.id], m.profile.metrics);
        }
      }
    }
  }

  lemma EligibleCandidate(m: Manifest, eligible: map<string, Vector>, id: string) returns (c: Candidate)
    requires IsEligibleMap(m, |m.candidates|, eligible) && id in eligible
    ensures c in m.candidates && c.id == id && Sound(c)
  {
    hide StateOf, VectorOf, Sound;
    var i :| 0 <= i < |m.candidates| && m.candidates[i].id == id && StateOf(m.candidates[i]) == MetadataEligible;
    c := m.candidates[i];
    EligibleExactly(c);
  }

  /** An accepted candidate was evaluated on its own head, from the common base, with the profile's tools. */
  lemma AcceptedEvidenceIsOwn(m: Manifest, c: Candidate)
    requires Accepted(m) && c in m.candidates
    ensures c.baseSha == m.baseSha
    ensures forall g :: g in c.hardGates ==>
      c.hardGates[g].receipt.observedHeadSha == c.headSha && c.hardGates[g].receipt.oracleSha == m.profile.oracleSha
      && c.hardGates[g].receipt.analyzerSha == m.profile.analyzerSha
    ensures forall k :: k in c.metrics ==>
      c.metrics[k].receipt.observedHeadSha == c.headSha && c.metrics[k].receipt.oracleSha == m.profile.oracleSha
      && c.metrics[k].receipt.measurementSetSha == m.profile.measurementSetSha
    ensures forall g :: g in c.hardGates <==> g in m.profile.hardGates
    ensures "semantic_contract" in c.hardGates
  {
    hide IsSha, UniqueNames;
    var i :| 0 <= i < |m.candidates| && m.candidates[i] == c;
    assert CandidateOk(m.candidates[i], m);
  }

  /** An accepted manifest yields a review exactly when its baseline is eligible; then every eligible
      candidate is in the review set or beaten by one of its members. */
  method Evaluate(m: Manifest) returns (r: Result<Review>)
    ensures r.Ok? <==> Accepted(m)
    ensures r.Ok? ==>
      && IsEligibleMap(m, |m.candidates|, r.value.eligible) && Complete(r.value.eligible, m.profile.metrics)
      && (r.value.reviewRequired <==> m.baselineId in r.value.eligible)
      && (r.value.baselineEligible <==> m.baselineId in r.value.eligible)
      && r.value.paretoReviewSet == (if r.value.reviewRequired then Survivors(r.value.eligible, m.profile.metrics) else {})
    ensures r.Ok? ==> forall c :: c in m.candidates ==>
      && (c.id in r.value.paretoReviewSet <==> r.value.reviewRequired && IsOnFront(m, c))
      && (c.id == m.baselineId ==> (r.value.reviewRequired <==> Sound(c)))
  {
    hide ReceiptOk, IsSha, ProfileOk, CandidateOk, StateOf, VectorOf, Dominates;
    if !HeaderOk(m) {
      return Err("invalid manifest");
    }
    DistinctCandidates(m);
    hide HeaderOk;
    var eligible: map<string, Vector> := map[];
    for i := 0 to |m.candidates|
      invariant forall j :: 0 <= j < i ==> CandidateOk(m.candidates[j], m)
      invariant IsEligibleMap(m, i, eligible)
    {
      var c := m.candidates[i];
      if !CandidateOk(c, m) {
        return Err("invalid candidate");
      }
      if StateOf(c) == MetadataEligible {
        eligible := eligible[c.id := VectorOf(c)];
      }
    }
    EligibleIsComplete(m, eligible);
    FrontIsComplete(eligible, m.profile.metrics);
    var front := Survivors(eligible, m.profile.metrics);
    var admissible := m.baselineId in eligible;
    forall c | c in m.candidates
      ensures c.id in front <==> IsOnFront(m, c)
      ensures c.id in eligible <==> Sound(c)
    {
      FrontIsExact(m, eligible, c);
      EligibleVector(m, eligible, c);
    }
    hide Sound, IsOnFront;
    return Ok(Review(admissible && front != {}, if admissible then front else {}, admissible, eligible));
  }
}
