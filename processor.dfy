// The event loop: pairing the simulation's output entries with the generator's input
// entries, the per-event comparison of the two kinetic-energy lists, and the fills and
// counters each event produces. Trees are modelled as sequences of entries; opening the
// file pair is an input to the model.
module Processor {
  import opened Wrappers
  import Kinematics
  import Config
  import Stats
  import H = Histograms
  import Display
  import Sums

  // ---------------------------------------------------------------------------
  // Entries

  /** One generator particle: PDG code, status, four-momentum (px, py, pz, E) in GeV, vertex,
      and the rest mass of the four-momentum (the square root the original takes). */
  datatype TruthParticle = TruthParticle(
    pdg: int, status: int, px: real, py: real, pz: real, e: real,
    x: real, y: real, z: real, mass: real)

  /** One entry of the generator tree: the event number, the particle count StdHepN and the
      particle arrays. */
  datatype InputEntry = InputEntry(evtNum: int, stdHepN: int, particles: seq<TruthParticle>)

  /** One entry of the simulation tree, the branches the event loop reads; a branch that is
      not in the tree leaves its vector pointer null. */
  datatype OutputEntry = OutputEntry(
    evid: int, subev: int, mcparticlecount: int,
    mcxs: Option<seq<real>>, mcys: Option<seq<real>>, mczs: Option<seq<real>>,
    mcus: Option<seq<real>>, mcvs: Option<seq<real>>, mcws: Option<seq<real>>,
    mckes: Option<seq<real>>,
    scintPhotons: real, cherPhotons: real, remPhotons: real,
    hitPMTID: Option<seq<int>>, mcPMTID: Option<seq<int>>, mcPMTNPE: Option<seq<int>>)

  /** The particle arrays hold StdHepN particles, and every final-state one among them has a
      real rest mass. */
  predicate WellFormedInput(e: InputEntry) {
    && e.stdHepN <= |e.particles|
    && forall k :: 0 <= k < e.stdHepN && e.particles[k].status == 1 ==> ValidMass(e.particles[k])
  }

  predicate ValidMass(p: TruthParticle) {
    Kinematics.IsRestMass(p.mass, p.px, p.py, p.pz, p.e)
  }

  /** The kinetic-energy vector holds at least mcparticlecount values. */
  predicate WellFormedOutput(o: OutputEntry) {
    o.mckes.Some? ==> o.mcparticlecount <= |o.mckes.value|
  }

  function KE(p: TruthParticle): real
    requires ValidMass(p)
  {
    Kinematics.CalculateKE(p.px, p.py, p.pz, p.e, p.mass)
  }

  // ---------------------------------------------------------------------------
  // The two kinetic-energy lists

  /** The indices below n of the final-state (status 1) particles, in index order. */
  function FinalIndices(ps: seq<TruthParticle>, n: int): seq<int>
    requires n <= |ps|
    decreases if n < 0 then 0 else n
  {
    if n <= 0 then [] else FinalIndices(ps, n - 1) + (if ps[n - 1].status == 1 then [n - 1] else [])
  }

  /** The kinetic energies of the final-state particles below n, in index order. */
  function InputKEs(ps: seq<TruthParticle>, n: int): seq<real>
    requires n <= |ps|
    requires forall k :: 0 <= k < n && ps[k].status == 1 ==> ValidMass(ps[k])
    decreases if n < 0 then 0 else n
  {
    if n <= 0 then []
    else InputKEs(ps, n - 1) + (if ps[n - 1].status == 1 then [KE(ps[n - 1])] else [])
  }

  /** The input list of an entry. */
  function InputList(e: InputEntry): seq<real>
    requires WellFormedInput(e)
  {
    InputKEs(e.particles, e.stdHepN)
  }

  /** The output list of an entry: the first mcparticlecount kinetic energies, none when the
      vector is missing. */
  function OutputList(o: OutputEntry): (l: seq<real>)
    requires WellFormedOutput(o)
  {
    if o.mckes.None? || o.mcparticlecount <= 0 then [] else o.mckes.value[..o.mcparticlecount]
  }

  /** The final-state indices are exactly the status-1 particles below n, in strictly
      increasing order. */
  lemma {:induction false} FinalIndicesSpec(ps: seq<TruthParticle>, n: int)
    requires n <= |ps|
    ensures forall k :: k in FinalIndices(ps, n) <==> 0 <= k < n && ps[k].status == 1
    ensures forall i, j :: 0 <= i < j < |FinalIndices(ps, n)| ==> FinalIndices(ps, n)[i] < FinalIndices(ps, n)[j]
    decreases if n < 0 then 0 else n
  {
    if n > 0 {
      FinalIndicesSpec(ps, n - 1);
      var prev := FinalIndices(ps, n - 1);
      forall i | 0 <= i < |prev| ensures prev[i] < n - 1 {
        assert prev[i] in prev;
      }
    }
  }

  /** The input list holds the kinetic energy of each final-state particle, in index order. */
  lemma {:induction false} InputKEsIndexed(ps: seq<TruthParticle>, n: int)
    requires n <= |ps|
    requires forall k :: 0 <= k < n && ps[k].status == 1 ==> ValidMass(ps[k])
    ensures |InputKEs(ps, n)| == |FinalIndices(ps, n)|
    ensures forall i :: 0 <= i < |InputKEs(ps, n)| ==>
      && 0 <= FinalIndices(ps, n)[i] < n && ps[FinalIndices(ps, n)[i]].status == 1
      && InputKEs(ps, n)[i] == KE(ps[FinalIndices(ps, n)[i]])
    decreases if n < 0 then 0 else n
  {
    if n > 0 {
      InputKEsIndexed(ps, n - 1);
    }
  }

  /** The output list is the first mcparticlecount values of the vector, or empty without one. */
  lemma OutputListSpec(o: OutputEntry)
    requires WellFormedOutput(o)
    ensures o.mckes.None? ==> OutputList(o) == []
    ensures o.mckes.Some? ==>
      |OutputList(o)| == (if o.mcparticlecount < 0 then 0 else o.mcparticlecount)
      && forall j :: 0 <= j < |OutputList(o)| ==> OutputList(o)[j] == o.mckes.value[j]
  {
  }

  // ---------------------------------------------------------------------------
  // The fills of one event

  function PESum(npes: seq<int>): real
    decreases |npes|
  {
    if npes == [] then 0.0 else PESum(npes[..|npes| - 1]) + npes[|npes| - 1] as real
  }

  /** The photoelectron total: summed only when both the NPE and the hit-id vectors are there. */
  function EventPEs(o: OutputEntry): real {
    if o.mcPMTNPE.Some? && o.hitPMTID.Some? then PESum(o.mcPMTNPE.value) else 0.0
  }

  /** The input and output totals: summed only when both lists are non-empty. */
  function Totals(inKEs: seq<real>, outKEs: seq<real>): (real, real) {
    if outKEs != [] && inKEs != [] then (Sums.Sum(inKEs), Sums.Sum(outKEs)) else (0.0, 0.0)
  }

  /** One single-energy fill per index, pairing the lists index by index. */
  function PairFills(d: int, a: seq<real>, b: seq<real>): seq<H.FillCall>
    requires |a| == |b|
    decreases |a|
  {
    if a == [] then []
    else PairFills(d, a[..|a| - 1], b[..|b| - 1]) + [H.SingleEnergies(d, a[|a| - 1], b[|b| - 1])]
  }

  /** The four event-level fills. */
  function EventTail(d: int, inKEs: seq<real>, outKEs: seq<real>, o: OutputEntry): seq<H.FillCall> {
    var (tin, tout) := Totals(inKEs, outKEs);
    [H.TotalEnergy(d, tin, tout),
     H.PhotonsVsKE(d, tout, o.scintPhotons, o.cherPhotons, o.remPhotons),
     H.PEsVsKE(d, tout, EventPEs(o)),
     H.Ediff(d, tin - tout)]
  }

  /** The fills of one event in call order: the single-energy pairs when the lists have equal
      length, then the four event-level fills. */
  function EventFills(d: int, inKEs: seq<real>, outKEs: seq<real>, o: OutputEntry): seq<H.FillCall> {
    (if |inKEs| == |outKEs| then PairFills(d, inKEs, outKEs) else []) + EventTail(d, inKEs, outKEs, o)
  }

  /** The points the single-energy bucket receives from the paired lists. */
  function PairPoints(a: seq<real>, b: seq<real>): multiset<H.Point>
    requires |a| == |b|
    decreases |a|
  {
    if a == [] then multiset{} else PairPoints(a[..|a| - 1], b[..|b| - 1]) + multiset{H.At2(a[|a| - 1], b[|b| - 1])}
  }

  lemma {:induction false} PairFillsIndexed(d: int, a: seq<real>, b: seq<real>)
    requires |a| == |b|
    ensures |PairFills(d, a, b)| == |a|
    ensures forall k :: 0 <= k < |a| ==> PairFills(d, a, b)[k] == H.SingleEnergies(d, a[k], b[k])
    decreases |a|
  {
    if a != [] {
      var n := |a| - 1;
      PairFillsIndexed(d, a[..n], b[..n]);
    }
  }

  /** The calls of one event: once per index a single-energy fill with the index-matched pair
      when the lengths agree and none otherwise, followed by exactly one each of the total,
      photon, photoelectron and difference fills; totals are zero unless both lists are
      non-empty, and the difference is input total minus output total. */
  lemma EventFillsShape(d: int, inKEs: seq<real>, outKEs: seq<real>, o: OutputEntry)
    ensures var fs := EventFills(d, inKEs, outKEs, o);
      var m := if |inKEs| == |outKEs| then |inKEs| else 0;
      var (tin, tout) := Totals(inKEs, outKEs);
      && |fs| == m + 4
      && (forall k :: 0 <= k < m ==> fs[k] == H.SingleEnergies(d, inKEs[k], outKEs[k]))
      && (forall k :: 0 <= k < |fs| ==> (fs[k].SingleEnergies? <==> k < m))
      && fs[m] == H.TotalEnergy(d, tin, tout)
      && fs[m + 1] == H.PhotonsVsKE(d, tout, o.scintPhotons, o.cherPhotons, o.remPhotons)
      && fs[m + 2] == H.PEsVsKE(d, tout, EventPEs(o))
      && fs[m + 3] == H.Ediff(d, tin - tout)
      && (!(inKEs != [] && outKEs != []) ==> tin == 0.0 && tout == 0.0)
      && (o.mcPMTNPE.None? || o.hitPMTID.None? ==> EventPEs(o) == 0.0)
  {
    if |inKEs| == |outKEs| {
      PairFillsIndexed(d, inKEs, outKEs);
    }
  }

  /** What the single-energy fills add to each bucket. */
  lemma {:induction false} PairFillsTotal(d: int, a: seq<real>, b: seq<real>, s: H.Slot)
    requires |a| == |b|
    ensures H.Total(PairFills(d, a, b), s)
         == if H.InRange(d) && s == H.Slot(H.H2IoSingleEnergies, d) then PairPoints(a, b) else multiset{}
    decreases |a|
  {
    if a != [] {
      var n := |a| - 1;
      PairFillsTotal(d, a[..n], b[..n], s);
      H.TotalSnoc(PairFills(d, a[..n], b[..n]), H.SingleEnergies(d, a[n], b[n]), s);
      SingleContribution(d, a[n], b[n], s);
    }
  }

  /** A single-energy fill adds its pair to the single-energy bucket of its category, if accepted. */
  lemma SingleContribution(d: int, i: real, o: real, s: H.Slot)
    ensures H.Contribution(H.SingleEnergies(d, i, o), s)
         == if H.InRange(d) && s == H.Slot(H.H2IoSingleEnergies, d) then multiset{H.At2(i, o)} else multiset{}
  {
    var ds := H.Deposits(H.SingleEnergies(d, i, o));
    if s.family == H.H2IoSingleEnergies {
      H.PointsOfUnique(ds, s.family, 0);
    } else {
      H.PointsOfAbsent(ds, s.family);
    }
  }

  /** What one event's fills add to a bucket: the pairs' part, then the four event-level calls'. */
  lemma EventTotal(d: int, inKEs: seq<real>, outKEs: seq<real>, o: OutputEntry, s: H.Slot)
    ensures var tail := EventTail(d, inKEs, outKEs, o);
      H.Total(EventFills(d, inKEs, outKEs, o), s)
        == (if |inKEs| == |outKEs| && H.InRange(d) && s == H.Slot(H.H2IoSingleEnergies, d)
            then PairPoints(inKEs, outKEs) else multiset{})
           + H.Contribution(tail[0], s) + H.Contribution(tail[1], s)
           + H.Contribution(tail[2], s) + H.Contribution(tail[3], s)
  {
    var pairs := if |inKEs| == |outKEs| then PairFills(d, inKEs, outKEs) else [];
    var tail := EventTail(d, inKEs, outKEs, o);
    assert EventFills(d, inKEs, outKEs, o) == pairs + tail;
    H.TotalAppend(pairs, tail, s);
    if |inKEs| == |outKEs| {
      PairFillsTotal(d, inKEs, outKEs, s);
    }
    H.TotalOfFour(tail, s);
  }

  /** After one event the difference bucket of an accepted category holds exactly one new
      point, input total minus output total. */
  lemma EventEdiffEntry(t: H.Table, d: int, inKEs: seq<real>, outKEs: seq<real>, o: OutputEntry)
    requires H.InRange(d) && H.Slot(H.H1Ediff, d) in t
    ensures var s := H.Slot(H.H1Ediff, d); var (tin, tout) := Totals(inKEs, outKEs);
      var r := H.ApplyAll(t, EventFills(d, inKEs, outKEs, o));
      s in r && r[s].fills == t[s].fills + multiset{H.At1(tin - tout)}
  {
    H.ApplyAllClosed(t, EventFills(d, inKEs, outKEs, o), H.Slot(H.H1Ediff, d));
    EventEdiffTotal(d, inKEs, outKEs, o);
  }

  /** One event adds, in total, its one difference point to the difference bucket. */
  lemma EventEdiffTotal(d: int, inKEs: seq<real>, outKEs: seq<real>, o: OutputEntry)
    requires H.InRange(d)
    ensures H.Total(EventFills(d, inKEs, outKEs, o), H.Slot(H.H1Ediff, d))
         == multiset{H.At1(Totals(inKEs, outKEs).0 - Totals(inKEs, outKEs).1)}
  {
    var s := H.Slot(H.H1Ediff, d);
    EventTotal(d, inKEs, outKEs, o, s);
    TailContributions(d, inKEs, outKEs, o, s);
  }

  /** After one event the single-energy bucket of an accepted category holds one new point per
      index-matched pair when the lists have equal length, and nothing new otherwise. */
  lemma EventSingleEnergiesEntries(t: H.Table, d: int, inKEs: seq<real>, outKEs: seq<real>, o: OutputEntry)
    requires H.InRange(d) && H.Slot(H.H2IoSingleEnergies, d) in t
    ensures var s := H.Slot(H.H2IoSingleEnergies, d);
      var r := H.ApplyAll(t, EventFills(d, inKEs, outKEs, o));
      s in r && r[s].fills == t[s].fills + (if |inKEs| == |outKEs| then PairPoints(inKEs, outKEs) else multiset{})
  {
    H.ApplyAllClosed(t, EventFills(d, inKEs, outKEs, o), H.Slot(H.H2IoSingleEnergies, d));
    EventSingleEnergiesTotal(d, inKEs, outKEs, o);
  }

  /** One event adds, in total, its index-matched pairs to the single-energy bucket. */
  lemma EventSingleEnergiesTotal(d: int, inKEs: seq<real>, outKEs: seq<real>, o: OutputEntry)
    requires H.InRange(d)
    ensures H.Total(EventFills(d, inKEs, outKEs, o), H.Slot(H.H2IoSingleEnergies, d))
         == if |inKEs| == |outKEs| then PairPoints(inKEs, outKEs) else multiset{}
  {
    var s := H.Slot(H.H2IoSingleEnergies, d);
    EventTotal(d, inKEs, outKEs, o, s);
    TailContributions(d, inKEs, outKEs, o, s);
  }

  /** What the event-level calls add to the difference and the single-energy buckets of their
      category: only the difference fill adds anything, its one point. */
  lemma TailContributions(d: int, inKEs: seq<real>, outKEs: seq<real>, o: OutputEntry, s: H.Slot)
    requires H.InRange(d) && s.dataset == d
    requires s.family == H.H1Ediff || s.family == H.H2IoSingleEnergies
    ensures var tail := EventTail(d, inKEs, outKEs, o);
      && tail[3] == H.Ediff(d, Totals(inKEs, outKEs).0 - Totals(inKEs, outKEs).1)
      && H.Contribution(tail[0], s) == multiset{}
      && H.Contribution(tail[1], s) == multiset{}
      && H.Contribution(tail[2], s) == multiset{}
      && (s.family != H.H1Ediff ==> H.Contribution(tail[3], s) == multiset{})
      && (s.family == H.H1Ediff ==>
            H.Contribution(tail[3], s) == multiset{H.At1(Totals(inKEs, outKEs).0 - Totals(inKEs, outKEs).1)})
  {
    var tin, tout := Totals(inKEs, outKEs).0, Totals(inKEs, outKEs).1;
    H.ContributionAbsent(H.TotalEnergy(d, tin, tout), s);
    H.ContributionAbsent(H.PhotonsVsKE(d, tout, o.scintPhotons, o.cherPhotons, o.remPhotons), s);
    H.ContributionAbsent(H.PEsVsKE(d, tout, EventPEs(o)), s);
    if s.family != H.H1Ediff {
      H.ContributionAbsent(H.Ediff(d, tin - tout), s);
    } else {
      H.PointsOfUnique(H.Deposits(H.Ediff(d, tin - tout)), H.H1Ediff, 0);
    }
  }

  // ---------------------------------------------------------------------------
  // Pairing the two trees

  /** The input entry an output entry at offset i of file f is paired with. */
  function InputIndex(f: int, i: int): int {
    f * 100 + i + 1
  }

  /** The (output offset, input index) pairs the loop processes from offset i on: secondary
      entries are skipped, and the walk stops at the first primary entry whose input index
      reaches the input extent. */
  function PairsFrom(f: int, outs: seq<OutputEntry>, nIn: int, i: nat): seq<(int, int)>
    requires i <= |outs|
    decreases |outs| - i
  {
    if i == |outs| then []
    else if outs[i].subev != 0 then PairsFrom(f, outs, nIn, i + 1)
    else if InputIndex(f, i) >= nIn then []
    else [(i, InputIndex(f, i))] + PairsFrom(f, outs, nIn, i + 1)
  }

  function Pairs(f: int, outs: seq<OutputEntry>, nIn: int): seq<(int, int)> {
    PairsFrom(f, outs, nIn, 0)
  }

  /** The pairs from offset i are primary entries at offsets i and above, each paired with
      input index f*100 + offset + 1 below the extent, in strictly increasing offset order. */
  lemma {:induction false} PairsFromBounds(f: int, outs: seq<OutputEntry>, nIn: int, i: nat)
    requires i <= |outs|
    ensures forall k :: 0 <= k < |PairsFrom(f, outs, nIn, i)| ==>
      var p := PairsFrom(f, outs, nIn, i)[k];
      i <= p.0 < |outs| && outs[p.0].subev == 0 && p.1 == InputIndex(f, p.0) && p.1 < nIn
    ensures forall k, l :: 0 <= k < l < |PairsFrom(f, outs, nIn, i)| ==>
      PairsFrom(f, outs, nIn, i)[k].0 < PairsFrom(f, outs, nIn, i)[l].0
    decreases |outs| - i
  {
    if i < |outs| {
      PairsFromBounds(f, outs, nIn, i + 1);
      var rest := PairsFrom(f, outs, nIn, i + 1);
      if outs[i].subev == 0 && InputIndex(f, i) < nIn {
        var ps := PairsFrom(f, outs, nIn, i);
        assert ps == [(i, InputIndex(f, i))] + rest;
        forall k | 0 <= k < |ps|
          ensures i <= ps[k].0 < |outs| && outs[ps[k].0].subev == 0
            && ps[k].1 == InputIndex(f, ps[k].0) && ps[k].1 < nIn
        {
          if k > 0 {
            assert ps[k] == rest[k - 1];
          }
        }
        forall k, l | 0 <= k < l < |ps|
          ensures ps[k].0 < ps[l].0
        {
          assert ps[l] == rest[l - 1];
          if k > 0 {
            assert ps[k] == rest[k - 1];
          }
        }
      }
    }
  }

  /** Output offset o appears in the pairs. */
  ghost predicate Paired(ps: seq<(int, int)>, o: int) {
    exists k :: 0 <= k < |ps| && ps[k].0 == o
  }

  /** An offset at or above i is paired exactly when its entry is primary and its input index
      is below the extent. */
  lemma {:induction false} PairsFromCovers(f: int, outs: seq<OutputEntry>, nIn: int, i: nat)
    requires i <= |outs|
    ensures forall o :: i <= o < |outs| ==>
      (Paired(PairsFrom(f, outs, nIn, i), o) <==> outs[o].subev == 0 && InputIndex(f, o) < nIn)
    decreases |outs| - i
  {
    if i < |outs| {
      PairsFromCovers(f, outs, nIn, i + 1);
      PairsFromBounds(f, outs, nIn, i + 1);
      var rest := PairsFrom(f, outs, nIn, i + 1);
      var ps := PairsFrom(f, outs, nIn, i);
      if outs[i].subev == 0 && InputIndex(f, i) < nIn {
        assert ps == [(i, InputIndex(f, i))] + rest;
        forall o | i <= o < |outs|
          ensures Paired(ps, o) <==> outs[o].subev == 0 && InputIndex(f, o) < nIn
        {
          if o == i {
            assert ps[0].0 == o;
          } else if Paired(rest, o) {
            var k :| 0 <= k < |rest| && rest[k].0 == o;
            assert ps[k + 1] == rest[k];
          } else {
            forall k | 0 <= k < |ps| ensures ps[k].0 != o {
              if k > 0 {
                assert ps[k] == rest[k - 1];
              }
            }
          }
        }
      } else if outs[i].subev == 0 {
        forall o | i <= o < |outs|
          ensures !(outs[o].subev == 0 && InputIndex(f, o) < nIn)
        {
        }
      } else {
        assert ps == rest;
        assert !Paired(rest, i);
      }
    }
  }

  /** The whole pairing: every output offset is paired exactly when its entry is primary and
      its input index f*100 + offset + 1 lies below the extent. */
  lemma PairsSpec(f: int, outs: seq<OutputEntry>, nIn: int)
    ensures forall k :: 0 <= k < |Pairs(f, outs, nIn)| ==>
      var p := Pairs(f, outs, nIn)[k];
      0 <= p.0 < |outs| && outs[p.0].subev == 0 && p.1 == InputIndex(f, p.0) && p.1 < nIn
    ensures forall k, l :: 0 <= k < l < |Pairs(f, outs, nIn)| ==> Pairs(f, outs, nIn)[k].0 < Pairs(f, outs, nIn)[l].0
    ensures forall o :: 0 <= o < |outs| ==>
      (Paired(Pairs(f, outs, nIn), o) <==> outs[o].subev == 0 && InputIndex(f, o) < nIn)
  {
    PairsFromBounds(f, outs, nIn, 0);
    PairsFromCovers(f, outs, nIn, 0);
    assert Pairs(f, outs, nIn) == PairsFrom(f, outs, nIn, 0);
  }

  /** One processed event: its number within the file and the two entries it pairs. */
  datatype Processed = Processed(evtNr: int, outIndex: int, inIndex: int)

  /** The pairs numbered 1, 2, 3, ... in processing order. */
  function Numbered(ps: seq<(int, int)>): (r: seq<Processed>)
    ensures |r| == |ps|
    ensures forall k :: 0 <= k < |ps| ==> r[k] == Processed(k + 1, ps[k].0, ps[k].1)
  {
    seq(|ps|, k requires 0 <= k < |ps| => Processed(k + 1, ps[k].0, ps[k].1))
  }

  /** Numbering one more pair appends it with the next number. */
  lemma NumberedSnoc(ps: seq<(int, int)>, p: (int, int))
    ensures Numbered(ps + [p]) == Numbered(ps) + [Processed(|ps| + 1, p.0, p.1)]
  {
    assert forall k :: 0 <= k < |ps| ==> (ps + [p])[k] == ps[k];
  }

  /** Every pair names an existing output and input entry. */
  predicate ValidPairs(ps: seq<(int, int)>, nIn: int, nOut: int) {
    forall k :: 0 <= k < |ps| ==> 0 <= ps[k].0 < nOut && 0 <= ps[k].1 < nIn
  }

  predicate AllWellFormed(ins: seq<InputEntry>, outs: seq<OutputEntry>) {
    (forall k :: 0 <= k < |ins| ==> WellFormedInput(ins[k]))
    && (forall k :: 0 <= k < |outs| ==> WellFormedOutput(outs[k]))
  }

  /** The fills of the processed events, event after event. */
  function FileFills(d: int, ps: seq<(int, int)>, ins: seq<InputEntry>, outs: seq<OutputEntry>): seq<H.FillCall>
    requires ValidPairs(ps, |ins|, |outs|) && AllWellFormed(ins, outs)
    decreases |ps|
  {
    if ps == [] then []
    else
      var p := ps[|ps| - 1];
      FileFills(d, ps[..|ps| - 1], ins, outs)
        + EventFills(d, InputList(ins[p.1]), OutputList(outs[p.0]), outs[p.0])
  }

  /** The number of processed events whose two lists differ in length. */
  function Mismatches(ps: seq<(int, int)>, ins: seq<InputEntry>, outs: seq<OutputEntry>): nat
    requires ValidPairs(ps, |ins|, |outs|) && AllWellFormed(ins, outs)
    decreases |ps|
  {
    if ps == [] then 0
    else
      var p := ps[|ps| - 1];
      Mismatches(ps[..|ps| - 1], ins, outs)
        + (if |InputList(ins[p.1])| != |OutputList(outs[p.0])| then 1 else 0)
  }

  /** The result of opening file pair f: a failure, with the validity flag of the file manager
      at that point, or the two trees and the simulation file. */
  datatype OpenResult =
    | OpenFailed(filesValid: bool)
    | Opened(inputs: seq<InputEntry>, outputs: seq<OutputEntry>, outputFile: Option<Display.OutputFile>)

  // ---------------------------------------------------------------------------
  // The processor

  class EventProcessor {
    const histograms: H.HistogramManager
    const statistics: Stats.Statistics
    var display: Display.EventDisplay?

    constructor(hm: H.HistogramManager, stats: Stats.Statistics)
      ensures histograms == hm && statistics == stats && display == null
    {
      histograms := hm;
      statistics := stats;
      display := null;
    }

    method SetEventDisplay(ed: Display.EventDisplay?)
      modifies this`display
      ensures display == ed
    {
      display := ed;
    }

    /** Compares one pair of entries: builds both kinetic-energy lists, fills the histograms,
        counts a length mismatch, and draws the event when a display is attached and enabled
        (with no truth record, as the caller has none). */
    method ProcessEvent(evtNr: int, dataset: int, cfg: Config.Config, input: InputEntry, output: OutputEntry)
      returns (shown: Option<Display.Outcome>)
      requires WellFormedInput(input) && WellFormedOutput(output)
      modifies histograms, statistics
      ensures histograms.buckets
           == H.ApplyAll(old(histograms.buckets), EventFills(dataset, InputList(input), OutputList(output), output))
      ensures statistics.Counters() == old(statistics.Counters()).(keSizeMismatch :=
        old(statistics.n_events_with_KE_size_mismatch) + (if |InputList(input)| != |OutputList(output)| then 1 else 0))
      ensures shown.Some? <==> display != null && cfg.modeEventDisplay
      ensures shown.Some? ==> display != null
      ensures shown.Some? ==>
        var skip := Display.SkipFor(display.geometryLoaded, output.mcPMTID, output.mcPMTNPE);
        && (shown.value.Skipped? <==> skip.Some?)
        && (skip.Some? ==> shown.value == Display.Skipped(skip.value))
        && (skip.None? ==> (shown.value.Faulted? <==> !Display.PanelReadable(None, output.mcxs, output.mcys,
              output.mczs, output.mcus, output.mcvs, output.mcws, output.mckes)))
        && (shown.value.Drawn? ==>
              && output.mcPMTID.Some? && output.mcPMTNPE.Some? && output.mckes.Some?
              && Display.PanelShows(shown.value.panel, display.pmtPos, display.Box(), evtNr, None,
                   output.mcxs, output.mcys, output.mczs, output.mcus, output.mcvs, output.mcws,
                   output.mckes.value, output.mcparticlecount,
                   Display.Photons(output.scintPhotons, output.cherPhotons, output.remPhotons),
                   output.mcPMTID.value, output.mcPMTNPE.value)
              && shown.value.panel.listed == [] && shown.value.panel.notListed == None)
    {
      var inKEs := CollectInputKEs(input);
      var outKEs := CollectOutputKEs(output);
      if |inKEs| == |outKEs| {
        FillPairs(dataset, inKEs, outKEs);
      } else {
        CountMismatch();
      }
      FillEventLevel(dataset, inKEs, outKEs, output);
      H.ApplyAllAppend(old(histograms.buckets),
        if |inKEs| == |outKEs| then PairFills(dataset, inKEs, outKEs) else [],
        EventTail(dataset, inKEs, outKEs, output));

      shown := None;
      if display != null && cfg.modeEventDisplay {
        var o := display.CreateDisplay(
          evtNr, None, output.mcxs, output.mcys, output.mczs, output.mcus, output.mcvs, output.mcws,
          output.mckes, output.mcparticlecount, output.scintPhotons, output.cherPhotons, output.remPhotons,
          output.mcPMTID, output.mcPMTNPE);
        shown := Some(o);
      }
    }

    /** The single-energy fills, one per index of the two equally long lists. */
    method FillPairs(dataset: int, inKEs: seq<real>, outKEs: seq<real>)
      requires |inKEs| == |outKEs|
      modifies histograms
      ensures histograms.buckets == H.ApplyAll(old(histograms.buckets), PairFills(dataset, inKEs, outKEs))
    {
      ghost var pf := PairFills(dataset, inKEs, outKEs);
      PairFillsIndexed(dataset, inKEs, outKEs);
      var k := 0;
      while k < |inKEs|
        invariant 0 <= k <= |inKEs|
        invariant histograms.buckets == H.ApplyAll(old(histograms.buckets), pf[..k])
      {
        histograms.FillSingleEnergies(dataset, inKEs[k], outKEs[k]);
        assert pf[..k + 1] == pf[..k] + [pf[k]];
        H.ApplyAllSnoc(old(histograms.buckets), pf[..k], pf[k]);
        k := k + 1;
      }
      assert pf[..k] == pf;
    }

    /** `n_total_entries++` for one more processed event. */
    method CountEntry()
      modifies statistics
      ensures statistics.Counters() == old(statistics.Counters()).(totalEntries := old(statistics.n_total_entries) + 1)
    {
      statistics.n_total_entries := statistics.n_total_entries + 1;
    }

    method CountMismatch()
      modifies statistics
      ensures statistics.Counters() == old(statistics.Counters()).(keSizeMismatch :=
        old(statistics.n_events_with_KE_size_mismatch) + 1)
    {
      statistics.n_events_with_KE_size_mismatch := statistics.n_events_with_KE_size_mismatch + 1;
    }

    /** The totals, the photoelectron sum and the four event-level fills. */
    method FillEventLevel(dataset: int, inKEs: seq<real>, outKEs: seq<real>, output: OutputEntry)
      modifies histograms
      ensures histograms.buckets == H.ApplyAll(old(histograms.buckets), EventTail(dataset, inKEs, outKEs, output))
    {
      var inTotal, outTotal := 0.0, 0.0;
      if outKEs != [] && inKEs != [] {
        inTotal := Accumulate(inKEs);
        outTotal := Accumulate(outKEs);
      }
      var pes := 0.0;
      if output.mcPMTNPE.Some? && output.hitPMTID.Some? {
        pes := AccumulatePEs(output.mcPMTNPE.value);
      }
      histograms.FillTotalEnergy(dataset, inTotal, outTotal);
      histograms.FillPhotonsVsKE(dataset, outTotal, output.scintPhotons, output.cherPhotons, output.remPhotons);
      histograms.FillPEsVsKE(dataset, outTotal, pes);
      histograms.FillEdiff(dataset, inTotal - outTotal);
      TailApplied(old(histograms.buckets), dataset, inKEs, outKEs, output);
    }

    /** Walks file pair f: counts the failure when the files cannot be opened; otherwise counts
        the pair, loads the display geometry once, and processes every paired output entry in
        order, numbering the events 1, 2, 3, ... */
    method ProcessFile(fileNr: int, dataset: int, cfg: Config.Config, open: OpenResult)
      returns (trace: seq<Processed>)
      requires open.Opened? ==> fileNr >= 0
      requires open.Opened? ==> AllWellFormed(open.inputs, open.outputs)
      modifies histograms, statistics, display
      ensures open.OpenFailed? ==>
        && trace == []
        && histograms.buckets == old(histograms.buckets)
        && statistics.Counters() == if open.filesValid then old(statistics.Counters())
           else old(statistics.Counters()).(
             inputFileNotReadable := old(statistics.n_input_file_not_readable) + 1,
             outputFileNotReadable := old(statistics.n_output_file_not_readable) + 1)
      ensures open.Opened? ==>
        var ps := Pairs(fileNr, open.outputs, |open.inputs|);
        && ValidPairs(ps, |open.inputs|, |open.outputs|)
        && trace == Numbered(ps)
        && histograms.buckets == H.ApplyAll(old(histograms.buckets), FileFills(dataset, ps, open.inputs, open.outputs))
        && statistics.Counters() == old(statistics.Counters()).(
             validFilePairs := old(statistics.n_valid_file_pairs) + 1,
             totalEntries := old(statistics.n_total_entries) + |ps|,
             keSizeMismatch := old(statistics.n_events_with_KE_size_mismatch) + Mismatches(ps, open.inputs, open.outputs))
      ensures display != null ==>
        if open.Opened? && cfg.modeEventDisplay && !old(display.geometryLoaded)
        then display.geometryLoaded == Display.Loadable(open.outputFile)
             && Display.LoadEffect(open.outputFile, old(display.pmtPos), old(display.Box()), false,
                                   display.pmtPos, display.Box(), display.geometryLoaded)
        else display.geometryLoaded == old(display.geometryLoaded) && display.pmtPos == old(display.pmtPos)
             && display.Box() == old(display.Box())
    {
      if open.OpenFailed? {
        if !open.filesValid {
          CountUnreadable();
        }
        return [];
      }
      trace := ProcessOpened(fileNr, dataset, cfg, open.inputs, open.outputs, open.outputFile);
    }

    /** A file pair whose trees opened: count it, load the geometry, run the event loop. */
    method ProcessOpened(fileNr: int, dataset: int, cfg: Config.Config, ins: seq<InputEntry>, outs: seq<OutputEntry>,
                         outputFile: Option<Display.OutputFile>)
      returns (trace: seq<Processed>)
      requires fileNr >= 0 && AllWellFormed(ins, outs)
      modifies histograms, statistics, display
      ensures var ps := Pairs(fileNr, outs, |ins|);
        && ValidPairs(ps, |ins|, |outs|)
        && trace == Numbered(ps)
        && histograms.buckets == H.ApplyAll(old(histograms.buckets), FileFills(dataset, ps, ins, outs))
        && statistics.Counters() == old(statistics.Counters()).(
             validFilePairs := old(statistics.n_valid_file_pairs) + 1,
             totalEntries := old(statistics.n_total_entries) + |ps|,
             keSizeMismatch := old(statistics.n_events_with_KE_size_mismatch) + Mismatches(ps, ins, outs))
      ensures display != null ==>
        if cfg.modeEventDisplay && !old(display.geometryLoaded)
        then display.geometryLoaded == Display.Loadable(outputFile)
             && Display.LoadEffect(outputFile, old(display.pmtPos), old(display.Box()), false,
                                   display.pmtPos, display.Box(), display.geometryLoaded)
        else display.geometryLoaded == old(display.geometryLoaded) && display.pmtPos == old(display.pmtPos)
             && display.Box() == old(display.Box())
    {
      CountValidPair();
      PrepareDisplay(cfg, outputFile);
      trace := RunEvents(fileNr, dataset, cfg, ins, outs);
    }

    /** Loads the display geometry from the output file, once, when the display is on. */
    method PrepareDisplay(cfg: Config.Config, outputFile: Option<Display.OutputFile>)
      modifies display
      ensures display != null ==>
        if cfg.modeEventDisplay && !old(display.geometryLoaded)
        then display.geometryLoaded == Display.Loadable(outputFile)
             && Display.LoadEffect(outputFile, old(display.pmtPos), old(display.Box()), false,
                                   display.pmtPos, display.Box(), display.geometryLoaded)
        else display.geometryLoaded == old(display.geometryLoaded) && display.pmtPos == old(display.pmtPos)
             && display.Box() == old(display.Box())
    {
      if display != null && cfg.modeEventDisplay {
        if !display.IsGeometryLoaded() {
          var _ := display.LoadGeometry(outputFile);
        }
      }
    }

    /** Both "not readable" counters, for a pair whose files were flagged invalid. */
    method CountUnreadable()
      modifies statistics
      ensures statistics.Counters() == old(statistics.Counters()).(
        inputFileNotReadable := old(statistics.n_input_file_not_readable) + 1,
        outputFileNotReadable := old(statistics.n_output_file_not_readable) + 1)
    {
      statistics.n_input_file_not_readable := statistics.n_input_file_not_readable + 1;
      statistics.n_output_file_not_readable := statistics.n_output_file_not_readable + 1;
    }

    /** `n_valid_file_pairs++` for a pair whose trees opened. */
    method CountValidPair()
      modifies statistics
      ensures statistics.Counters() == old(statistics.Counters()).(validFilePairs := old(statistics.n_valid_file_pairs) + 1)
    {
      statistics.n_valid_file_pairs := statistics.n_valid_file_pairs + 1;
    }

    /** The event loop of a file pair whose trees opened. */
    method RunEvents(fileNr: int, dataset: int, cfg: Config.Config, ins: seq<InputEntry>, outs: seq<OutputEntry>)
      returns (trace: seq<Processed>)
      requires fileNr >= 0 && AllWellFormed(ins, outs)
      modifies histograms, statistics
      ensures var ps := Pairs(fileNr, outs, |ins|);
        && trace == Numbered(ps)
        && Progress(old(histograms.buckets), histograms.buckets, old(statistics.Counters()), statistics.Counters(),
             dataset, ps, ins, outs)
    {
      var nIn := |ins|;
      ghost var t0, c0 := histograms.buckets, statistics.Counters();
      ghost var done: seq<(int, int)> := [];
      var evtNr := 0;
      trace := [];
      var i := 0;
      while i < |outs|
        invariant 0 <= i <= |outs|
        invariant done + PairsFrom(fileNr, outs, nIn, i) == Pairs(fileNr, outs, nIn)
        invariant Progress(t0, histograms.buckets, c0, statistics.Counters(), dataset, done, ins, outs)
        invariant evtNr == |done| && trace == Numbered(done)
      {
        if outs[i].subev != 0 {
          PairsSkip(fileNr, outs, nIn, i);
          i := i + 1;
          continue;
        }
        var iIn := fileNr * 100 + i + 1;
        if iIn >= nIn {
          PairsStop(fileNr, outs, nIn, i);
          break;
        }
        evtNr := evtNr + 1;
        ProcessPair(evtNr, dataset, cfg, ins, outs, (i, iIn), t0, c0, done);
        PairsStep(fileNr, outs, nIn, i, done);
        NumberedSnoc(done, (i, iIn));
        done := done + [(i, iIn)];
        trace := trace + [Processed(evtNr, i, iIn)];
        i := i + 1;
      }
      assert done == done + PairsFrom(fileNr, outs, nIn, i);
    }

    /** One iteration of the event loop: count the entry and process the pair. */
    method ProcessPair(evtNr: int, dataset: int, cfg: Config.Config, ins: seq<InputEntry>, outs: seq<OutputEntry>,
                       p: (int, int), ghost t0: H.Table, ghost c0: Stats.Counts, ghost done: seq<(int, int)>)
      requires 0 <= p.0 < |outs| && 0 <= p.1 < |ins|
      requires Progress(t0, histograms.buckets, c0, statistics.Counters(), dataset, done, ins, outs)
      modifies histograms, statistics
      ensures Progress(t0, histograms.buckets, c0, statistics.Counters(), dataset, done + [p], ins, outs)
    {
      ghost var t1, c1 := histograms.buckets, statistics.Counters();
      CountEntry();
      var _ := ProcessEvent(evtNr, dataset, cfg, ins[p.1], outs[p.0]);
      ProgressStep(t0, t1, histograms.buckets, c0, c1, statistics.Counters(), dataset, done, p, ins, outs);
    }
  }

  /** The state after the events of `done`, from table t0 and counters c0: the fills of those
      events applied, the entry count advanced by one per event and the mismatch count by one
      per event whose two lists differ in length. */
  ghost predicate Progress(t0: H.Table, t: H.Table, c0: Stats.Counts, c: Stats.Counts, d: int,
                           done: seq<(int, int)>, ins: seq<InputEntry>, outs: seq<OutputEntry>)
  {
    && AllWellFormed(ins, outs)
    && ValidPairs(done, |ins|, |outs|)
    && t == H.ApplyAll(t0, FileFills(d, done, ins, outs))
    && c == c0.(totalEntries := c0.totalEntries + |done|, keSizeMismatch := c0.keSizeMismatch + Mismatches(done, ins, outs))
  }

  /** Processing one more pair keeps the progress relation. */
  lemma ProgressStep(t0: H.Table, t1: H.Table, t2: H.Table, c0: Stats.Counts, c1: Stats.Counts, c2: Stats.Counts, d: int,
                     done: seq<(int, int)>, p: (int, int), ins: seq<InputEntry>, outs: seq<OutputEntry>)
    requires Progress(t0, t1, c0, c1, d, done, ins, outs)
    requires 0 <= p.0 < |outs| && 0 <= p.1 < |ins|
    requires t2 == H.ApplyAll(t1, EventFills(d, InputList(ins[p.1]), OutputList(outs[p.0]), outs[p.0]))
    requires c2 == c1.(totalEntries := c1.totalEntries + 1,
                       keSizeMismatch := c1.keSizeMismatch
                         + (if |InputList(ins[p.1])| != |OutputList(outs[p.0])| then 1 else 0))
    ensures Progress(t0, t2, c0, c2, d, done + [p], ins, outs)
  {
    FileStep(d, done, p, ins, outs);
    H.ApplyAllAppend(t0, FileFills(d, done, ins, outs),
      EventFills(d, InputList(ins[p.1]), OutputList(outs[p.0]), outs[p.0]));
  }

  /** Taking the primary entry at offset i moves it from the pairs still to come to those done. */
  lemma PairsStep(f: int, outs: seq<OutputEntry>, nIn: int, i: nat, done: seq<(int, int)>)
    requires i < |outs| && outs[i].subev == 0 && InputIndex(f, i) < nIn
    ensures (done + [(i, InputIndex(f, i))]) + PairsFrom(f, outs, nIn, i + 1) == done + PairsFrom(f, outs, nIn, i)
  {
  }

  /** A secondary entry is skipped. */
  lemma PairsSkip(f: int, outs: seq<OutputEntry>, nIn: int, i: nat)
    requires i < |outs| && outs[i].subev != 0
    ensures PairsFrom(f, outs, nIn, i) == PairsFrom(f, outs, nIn, i + 1)
  {
  }

  /** A primary entry whose input index reaches the extent ends the walk. */
  lemma PairsStop(f: int, outs: seq<OutputEntry>, nIn: int, i: nat)
    requires i < |outs| && outs[i].subev == 0 && InputIndex(f, i) >= nIn
    ensures PairsFrom(f, outs, nIn, i) == []
  {
  }

  /** The input list, collected in index order over the first StdHepN particles. */
  method CollectInputKEs(e: InputEntry) returns (kes: seq<real>)
    requires WellFormedInput(e)
    ensures kes == InputList(e)
  {
    kes := [];
    var k := 0;
    while k < e.stdHepN
      invariant 0 <= k && (k <= e.stdHepN || k == 0)
      invariant kes == InputKEs(e.particles, k)
    {
      var p := e.particles[k];
      if p.status == 1 {
        kes := kes + [Kinematics.CalculateKE(p.px, p.py, p.pz, p.e, p.mass)];
      }
      k := k + 1;
    }
  }

  /** The output list, copied value by value. */
  method CollectOutputKEs(o: OutputEntry) returns (kes: seq<real>)
    requires WellFormedOutput(o)
    ensures kes == OutputList(o)
  {
    kes := [];
    if o.mckes.Some? {
      var j := 0;
      while j < o.mcparticlecount
        invariant 0 <= j && (j <= o.mcparticlecount || j == 0)
        invariant kes == o.mckes.value[..j]
      {
        kes := kes + [o.mckes.value[j]];
        j := j + 1;
      }
    }
  }

  method Accumulate(s: seq<real>) returns (total: real)
    ensures total == Sums.Sum(s)
  {
    total := 0.0;
    var k := 0;
    while k < |s|
      invariant 0 <= k <= |s|
      invariant total == Sums.Sum(s[..k])
    {
      assert s[..k + 1][..k] == s[..k];
      total := total + s[k];
      k := k + 1;
    }
    assert s[..k] == s;
  }

  method AccumulatePEs(npes: seq<int>) returns (total: real)
    ensures total == PESum(npes)
  {
    total := 0.0;
    var k := 0;
    while k < |npes|
      invariant 0 <= k <= |npes|
      invariant total == PESum(npes[..k])
    {
      assert npes[..k + 1][..k] == npes[..k];
      total := total + npes[k] as real;
      k := k + 1;
    }
    assert npes[..k] == npes;
  }

  /** The four event-level Fill* calls, one after the other, apply the event tail. */
  lemma TailApplied(t: H.Table, d: int, inKEs: seq<real>, outKEs: seq<real>, o: OutputEntry)
    ensures var tail := EventTail(d, inKEs, outKEs, o);
      H.ApplyAll(t, tail) == H.Apply(H.Apply(H.Apply(H.Apply(t, tail[0]), tail[1]), tail[2]), tail[3])
  {
    var tail := EventTail(d, inKEs, outKEs, o);
    H.ApplyAllSnoc(t, [], tail[0]);
    H.ApplyAllSnoc(t, [tail[0]], tail[1]);
    H.ApplyAllSnoc(t, [tail[0], tail[1]], tail[2]);
    H.ApplyAllSnoc(t, [tail[0], tail[1], tail[2]], tail[3]);
    assert [] + [tail[0]] == [tail[0]];
    assert [tail[0]] + [tail[1]] == [tail[0], tail[1]];
    assert [tail[0], tail[1]] + [tail[2]] == [tail[0], tail[1], tail[2]];
    assert [tail[0], tail[1], tail[2]] + [tail[3]] == tail;
  }

  /** Extending the processed pairs by one extends the fills by that event's and the mismatch
      count by its mismatch. */
  lemma FileStep(d: int, done: seq<(int, int)>, p: (int, int), ins: seq<InputEntry>, outs: seq<OutputEntry>)
    requires ValidPairs(done, |ins|, |outs|) && 0 <= p.0 < |outs| && 0 <= p.1 < |ins|
    requires AllWellFormed(ins, outs)
    ensures ValidPairs(done + [p], |ins|, |outs|)
    ensures FileFills(d, done + [p], ins, outs)
         == FileFills(d, done, ins, outs) + EventFills(d, InputList(ins[p.1]), OutputList(outs[p.0]), outs[p.0])
    ensures Mismatches(done + [p], ins, outs)
         == Mismatches(done, ins, outs) + (if |InputList(ins[p.1])| != |OutputList(outs[p.0])| then 1 else 0)
  {
    assert (done + [p])[..|done + [p]| - 1] == done;
  }
}
