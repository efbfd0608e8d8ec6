// The metric aggregator: one bucket per (histogram family, category) slot, created by
// Initialize and filled by the Fill* operations. ROOT's binning is not visible, so a
// bucket is its fixed configuration (name, bins, ranges) plus the multiset of points
// it has received.
module Histograms {
  import Text
  import Config

  /** The histogram arrays of the manager, one constructor per array. */
  datatype Family =
    | H1Ediff
    | H2IoTotalEnergy
    | H2IoSingleEnergies
    | H2ScintPhotonsVsKE
    | H2RemPhotonsVsKE
    | H2PhotonsVsKE
    | H2CherenkovPhotonsVsKE
    | H2PMTChargeVsKE
    | H2PEsVsKE
    | H1PosResX
    | H1PosResY
    | H1PosResZ
    | H1PosResR
    | H1NParticlesInput
    | H1NParticlesOutput
    | H1NParticlesMatched
    | H2PEperMeVVsEnergy
    | H1PEperMeVElectrons
    | H1PEperMeVMuons
    | H1PEperMeVHadrons
    | H2EnergyResolutionVsE
    | H1EnergyResolution

  /** Number of bins over [lo, hi]. */
  datatype Axis = Axis(bins: int, lo: real, hi: real)

  datatype Shape = One(x: Axis) | Two(x: Axis, y: Axis)

  /** One call of TH1::Fill: a coordinate or a coordinate pair. */
  datatype Point = At1(x: real) | At2(x: real, y: real)

  datatype Bucket = Bucket(name: string, shape: Shape, fills: multiset<Point>)

  /** Element `dataset` of the array of `family`. */
  datatype Slot = Slot(family: Family, dataset: int)

  /** The pointer arrays: a slot without a key holds a null pointer. */
  type Table = map<Slot, Bucket>

  /** The guard every fill starts with. */
  predicate InRange(dataset: int) {
    1 <= dataset < Config.NSAMPLES
  }

  /** The Fill* calls, with their arguments. */
  datatype FillCall =
    | SingleEnergies(dataset: int, inputKE: real, outputKE: real)
    | TotalEnergy(dataset: int, inputTotal: real, outputTotal: real)
    | Ediff(dataset: int, ediff: real)
    | PhotonsVsKE(dataset: int, ke: real, scint: real, cher: real, rem: real)
    | PEsVsKE(dataset: int, ke: real, nPE: real)
    | PositionResolution(dataset: int, dx: real, dy: real, dz: real, dr: real)
    | ParticleMatching(dataset: int, nInput: int, nOutput: int, nMatched: int)
    | LightYield(dataset: int, totalKE: real, nPE: real, pdg: int)
    | EnergyResolution(dataset: int, eInput: real, eOutput: real, relDiff: real)

  // ---------------------------------------------------------------------------
  // Bucket configuration

  /** The array name that Initialize formats for a family. */
  function Prefix(f: Family): string {
    match f
    case H1Ediff => "h1d_Ediff"
    case H2IoTotalEnergy => "h2d_ioTotalEnergy"
    case H2IoSingleEnergies => "h2d_ioSingleEnergies"
    case H2ScintPhotonsVsKE => "h2d_oScintPhotonsVsKE"
    case H2RemPhotonsVsKE => "h2d_oRemPhotonsVsKE"
    case H2PhotonsVsKE => "h2d_oPhotonsVsKE"
    case H2CherenkovPhotonsVsKE => "h2d_oCherenkovPhotonsVsKE"
    case H2PMTChargeVsKE => "h2d_oPMTChargeVsKE"
    case H2PEsVsKE => "h2d_oPEsVsKE"
    case H1PosResX => "h1d_posResX"
    case H1PosResY => "h1d_posResY"
    case H1PosResZ => "h1d_posResZ"
    case H1PosResR => "h1d_posResR"
    case H1NParticlesInput => "h1d_nParticles_input"
    case H1NParticlesOutput => "h1d_nParticles_output"
    case H1NParticlesMatched => "h1d_nParticles_matched"
    case H2PEperMeVVsEnergy => "h2d_PEperMeV_vs_Energy"
    case H1PEperMeVElectrons => "h1d_PEperMeV_electrons"
    case H1PEperMeVMuons => "h1d_PEperMeV_muons"
    case H1PEperMeVHadrons => "h1d_PEperMeV_hadrons"
    case H2EnergyResolutionVsE => "h2d_EnergyResolution_vs_E"
    case H1EnergyResolution => "h1d_EnergyResolution"
  }

  /** The object name for category d: the prefix, "_0", then d in decimal. */
  function BucketName(f: Family, d: nat): string {
    Prefix(f) + "_0" + Text.Decimal(d)
  }

  /** Bins and ranges that Initialize gives each family. */
  function ShapeOf(f: Family, cfg: Config.Config): Shape {
    var ke := Axis(100, 0.0, 10000.0);
    var photons := Axis(5000, 0.0, 50000000.0);
    var perMeV := Axis(200, 0.0, 10.0);
    var resolution := Axis(200, -1.0, 1.0);
    var multiplicity := Axis(50, 0.0, 50.0);
    var position := Axis(200, -1000.0, 1000.0);
    match f
    case H1Ediff => One(Axis(cfg.nBinsEdiff, -2.0, 2.0))
    case H2IoTotalEnergy => Two(Axis(1000, 0.0, 10000.0), Axis(1000, 0.0, 10000.0))
    case H2IoSingleEnergies => Two(Axis(1000, 0.0, 10000.0), Axis(1000, 0.0, 10000.0))
    case H2ScintPhotonsVsKE => Two(ke, photons)
    case H2RemPhotonsVsKE => Two(ke, Axis(100, 0.0, 100.0))
    case H2PhotonsVsKE => Two(ke, photons)
    case H2CherenkovPhotonsVsKE => Two(ke, photons)
    case H2PMTChargeVsKE => Two(ke, photons)
    case H2PEsVsKE => Two(Axis(100, 0.0, 100000.0), Axis(1000, 0.0, 10000.0))
    case H1PosResX => One(position)
    case H1PosResY => One(position)
    case H1PosResZ => One(position)
    case H1PosResR => One(Axis(200, 0.0, 2000.0))
    case H1NParticlesInput => One(multiplicity)
    case H1NParticlesOutput => One(multiplicity)
    case H1NParticlesMatched => One(multiplicity)
    case H2PEperMeVVsEnergy => Two(ke, perMeV)
    case H1PEperMeVElectrons => One(perMeV)
    case H1PEperMeVMuons => One(perMeV)
    case H1PEperMeVHadrons => One(perMeV)
    case H2EnergyResolutionVsE => Two(ke, resolution)
    case H1EnergyResolution => One(resolution)
  }

  /** A freshly allocated, empty bucket for category d. */
  function Blank(f: Family, d: nat, cfg: Config.Config): Bucket {
    Bucket(BucketName(f, d), ShapeOf(f, cfg), multiset{})
  }

  // The six groups of arrays that Initialize allocates in one loop each, in source order.
  const EDIFF_GROUP: seq<Family> := [H1Ediff]
  const ENERGY_GROUP: seq<Family> :=
    [H2IoTotalEnergy, H2IoSingleEnergies, H2PhotonsVsKE, H2CherenkovPhotonsVsKE,
     H2ScintPhotonsVsKE, H2RemPhotonsVsKE, H2PEsVsKE]
  const POSITION_GROUP: seq<Family> := [H1PosResX, H1PosResY, H1PosResZ, H1PosResR]
  const MATCHING_GROUP: seq<Family> := [H1NParticlesInput, H1NParticlesOutput, H1NParticlesMatched]
  const LIGHT_YIELD_GROUP: seq<Family> :=
    [H2PEperMeVVsEnergy, H1PEperMeVElectrons, H1PEperMeVMuons, H1PEperMeVHadrons]
  const RESOLUTION_GROUP: seq<Family> := [H2EnergyResolutionVsE, H1EnergyResolution]

  /** Every family Initialize allocates. */
  const CREATED: seq<Family> :=
    EDIFF_GROUP + ENERGY_GROUP + POSITION_GROUP + MATCHING_GROUP + LIGHT_YIELD_GROUP + RESOLUTION_GROUP

  /** The PMT-charge array is the only one Initialize never allocates. */
  lemma CreatedFamilies(f: Family)
    ensures f in CREATED <==> f != H2PMTChargeVsKE
  {
  }

  /** One iteration of an allocation loop: every array of the group gets a fresh bucket in category l. */
  function AllocateGroup(t: Table, group: seq<Family>, l: nat, cfg: Config.Config): (r: Table)
    ensures forall s :: s in r <==> s in t || (s.family in group && s.dataset == l)
    ensures forall s :: s in r ==>
      r[s] == if s.family in group && s.dataset == l then Blank(s.family, l, cfg) else t[s]
    decreases |group|
  {
    if group == [] then t
    else AllocateGroup(t, group[..|group| - 1], l, cfg)[Slot(group[|group| - 1], l) := Blank(group[|group| - 1], l, cfg)]
  }

  /** `after` is `before` with a fresh bucket in every slot (f, d), f in the group, 1 <= d < hi. */
  ghost predicate Allocated(before: Table, after: Table, group: seq<Family>, hi: int, cfg: Config.Config) {
    && (forall s :: s in after <==> s in before || (s.family in group && 1 <= s.dataset < hi))
    && (forall s :: s in after ==>
          after[s] == if s.family in group && 1 <= s.dataset < hi then Blank(s.family, s.dataset, cfg)
                      else before[s])
  }

  /** Two allocation loops, one after the other, allocate the union of their groups. */
  lemma AllocatedCompose(t0: Table, t1: Table, t2: Table, a: seq<Family>, b: seq<Family>, hi: int, cfg: Config.Config)
    requires Allocated(t0, t1, a, hi, cfg) && Allocated(t1, t2, b, hi, cfg)
    ensures Allocated(t0, t2, a + b, hi, cfg)
  {
  }

  /** What Initialize leaves behind: every created family holds a fresh bucket in categories 1..8,
      the Ediff buckets have the configured bin count over [-2, 2], and slot 0 and the
      PMT-charge array keep what they held (null, on a fresh manager). */
  lemma InitializeFacts(t0: Table, t: Table, cfg: Config.Config)
    requires Allocated(t0, t, CREATED, Config.NSAMPLES, cfg)
    ensures forall f, d :: f != H2PMTChargeVsKE && 1 <= d < Config.NSAMPLES ==>
      Slot(f, d) in t && t[Slot(f, d)] == Blank(f, d, cfg)
    ensures forall s: Slot :: s.dataset == 0 || s.family == H2PMTChargeVsKE ==>
      (s in t <==> s in t0) && (s in t ==> t[s] == t0[s])
    ensures forall d :: 1 <= d < Config.NSAMPLES ==>
      t[Slot(H1Ediff, d)].shape == One(Axis(cfg.nBinsEdiff, -2.0, 2.0))
  {
    forall f | true
      ensures f in CREATED <==> f != H2PMTChargeVsKE
    {
      CreatedFamilies(f);
    }
  }

  // ---------------------------------------------------------------------------
  // Fills

  /** `if (h[s]) h[s]->Fill(p)`: adds p to the bucket in s, when there is one. */
  function Put(t: Table, s: Slot, p: Point): (r: Table)
    ensures r.Keys == t.Keys
  {
    if s in t then t[s := t[s].(fills := t[s].fills + multiset{p})] else t
  }

  /** The buckets of its category that a call fills, with the point each receives, in source order. */
  function Deposits(c: FillCall): (ds: seq<(Family, Point)>)
    ensures forall i, j :: 0 <= i < j < |ds| ==> ds[i].0 != ds[j].0
  {
    match c
    case SingleEnergies(_, i, o) => [(H2IoSingleEnergies, At2(i, o))]
    case TotalEnergy(_, i, o) => [(H2IoTotalEnergy, At2(i, o))]
    case Ediff(_, e) => [(H1Ediff, At1(e))]
    case PhotonsVsKE(_, ke, s, ch, r) =>
      [(H2PhotonsVsKE, At2(ke, s + ch + r)), (H2CherenkovPhotonsVsKE, At2(ke, ch)),
       (H2RemPhotonsVsKE, At2(ke, r)), (H2ScintPhotonsVsKE, At2(ke, s))]
    case PEsVsKE(_, ke, n) => [(H2PEsVsKE, At2(ke, n))]
    case PositionResolution(_, dx, dy, dz, dr) =>
      [(H1PosResX, At1(dx)), (H1PosResY, At1(dy)), (H1PosResZ, At1(dz)), (H1PosResR, At1(dr))]
    case ParticleMatching(_, ni, no, nm) =>
      [(H1NParticlesInput, At1(ni as real)), (H1NParticlesOutput, At1(no as real)),
       (H1NParticlesMatched, At1(nm as real))]
    case LightYield(_, ke, n, _) =>
      if ke > 0.0 then [(H2PEperMeVVsEnergy, At2(ke, n / ke))] else []
    case EnergyResolution(_, ein, _, rel) =>
      [(H2EnergyResolutionVsE, At2(ein, rel)), (H1EnergyResolution, At1(rel))]
  }

  /** Puts each deposit into category d, in order. */
  function PutAll(t: Table, d: int, ds: seq<(Family, Point)>): (r: Table)
    ensures r.Keys == t.Keys
    decreases |ds|
  {
    if ds == [] then t else PutAll(Put(t, Slot(ds[0].0, d), ds[0].1), d, ds[1..])
  }

  /** PutAll on a deposit list of at most four entries, written out. */
  lemma {:induction false} PutAllUnroll(t: Table, d: int, ds: seq<(Family, Point)>)
    requires 1 <= |ds| <= 4
    ensures var t1 := Put(t, Slot(ds[0].0, d), ds[0].1);
      && (|ds| == 1 ==> PutAll(t, d, ds) == t1)
      && (|ds| >= 2 ==> var t2 := Put(t1, Slot(ds[1].0, d), ds[1].1);
           && (|ds| == 2 ==> PutAll(t, d, ds) == t2)
           && (|ds| >= 3 ==> var t3 := Put(t2, Slot(ds[2].0, d), ds[2].1);
                && (|ds| == 3 ==> PutAll(t, d, ds) == t3)
                && (|ds| == 4 ==> PutAll(t, d, ds) == Put(t3, Slot(ds[3].0, d), ds[3].1))))
    decreases |ds|
  {
    var t1 := Put(t, Slot(ds[0].0, d), ds[0].1);
    if |ds| == 1 {
      assert ds[1..] == [];
    } else {
      PutAllUnroll(t1, d, ds[1..]);
    }
  }

  /** The effect of one Fill* call on the arrays. */
  function Apply(t: Table, c: FillCall): (r: Table)
    ensures r.Keys == t.Keys
    ensures !InRange(c.dataset) ==> r == t
  {
    if InRange(c.dataset) then PutAll(t, c.dataset, Deposits(c)) else t
  }

  /** The effect of a sequence of calls, first to last. */
  function ApplyAll(t: Table, cs: seq<FillCall>): Table
    decreases |cs|
  {
    if cs == [] then t else Apply(ApplyAll(t, cs[..|cs| - 1]), cs[|cs| - 1])
  }

  /** The points that deposits ds put into family f. */
  function PointsOf(ds: seq<(Family, Point)>, f: Family): multiset<Point>
    decreases |ds|
  {
    if ds == [] then multiset{}
    else (if ds[0].0 == f then multiset{ds[0].1} else multiset{}) + PointsOf(ds[1..], f)
  }

  /** What call c adds to the bucket in slot s. */
  function Contribution(c: FillCall, s: Slot): multiset<Point> {
    if InRange(c.dataset) && s.dataset == c.dataset then PointsOf(Deposits(c), s.family)
    else multiset{}
  }

  /** What a sequence of calls adds to the bucket in slot s. */
  function Total(cs: seq<FillCall>, s: Slot): multiset<Point>
    decreases |cs|
  {
    if cs == [] then multiset{} else Total(cs[..|cs| - 1], s) + Contribution(cs[|cs| - 1], s)
  }

  // ---------------------------------------------------------------------------
  // Closed forms

  lemma {:induction false} PutAllClosed(t: Table, d: int, ds: seq<(Family, Point)>, s: Slot)
    requires s in t
    ensures PutAll(t, d, ds)[s]
         == t[s].(fills := t[s].fills + (if s.dataset == d then PointsOf(ds, s.family) else multiset{}))
    decreases |ds|
  {
    if ds != [] {
      var t1 := Put(t, Slot(ds[0].0, d), ds[0].1);
      PutAllClosed(t1, d, ds[1..], s);
    }
  }

  /** A call leaves every bucket in place and adds its contribution to each. */
  lemma ApplyClosed(t: Table, c: FillCall, s: Slot)
    requires s in t
    ensures Apply(t, c).Keys == t.Keys
    ensures Apply(t, c)[s] == t[s].(fills := t[s].fills + Contribution(c, s))
  {
    if InRange(c.dataset) {
      PutAllClosed(t, c.dataset, Deposits(c), s);
    }
  }

  /** A sequence of calls leaves every bucket in place and adds its total contribution to each. */
  lemma {:induction false} ApplyAllClosed(t: Table, cs: seq<FillCall>, s: Slot)
    requires s in t
    ensures ApplyAll(t, cs).Keys == t.Keys
    ensures ApplyAll(t, cs)[s] == t[s].(fills := t[s].fills + Total(cs, s))
    decreases |cs|
  {
    if cs != [] {
      var init := cs[..|cs| - 1];
      ApplyAllClosed(t, init, s);
      ApplyClosed(ApplyAll(t, init), cs[|cs| - 1], s);
    }
  }

  lemma {:induction false} ApplyAllKeys(t: Table, cs: seq<FillCall>)
    ensures ApplyAll(t, cs).Keys == t.Keys
    decreases |cs|
  {
    if cs != [] {
      ApplyAllKeys(t, cs[..|cs| - 1]);
    }
  }

  // ---------------------------------------------------------------------------
  // Properties of the fills

  /** Out-of-range categories, and tables without buckets, are never changed. */
  lemma FillGuards(t: Table, c: FillCall)
    ensures !InRange(c.dataset) ==> Apply(t, c) == t
    ensures Apply(map[], c) == map[]
  {
  }

  /** Before Initialize every pointer is null, so any sequence of fills changes nothing. */
  lemma FillsBeforeInitialize(cs: seq<FillCall>)
    ensures ApplyAll(map[], cs) == map[]
  {
    ApplyAllKeys(map[], cs);
  }

  lemma {:induction false} PointsOfAbsent(ds: seq<(Family, Point)>, f: Family)
    requires forall i :: 0 <= i < |ds| ==> ds[i].0 != f
    ensures PointsOf(ds, f) == multiset{}
    decreases |ds|
  {
    if ds != [] {
      PointsOfAbsent(ds[1..], f);
    }
  }

  lemma {:induction false} PointsOfUnique(ds: seq<(Family, Point)>, f: Family, i: int)
    requires 0 <= i < |ds| && ds[i].0 == f
    requires forall j :: 0 <= j < |ds| && j != i ==> ds[j].0 != f
    ensures PointsOf(ds, f) == multiset{ds[i].1}
    decreases |ds|
  {
    if i == 0 {
      PointsOfAbsent(ds[1..], f);
    } else {
      PointsOfUnique(ds[1..], f, i - 1);
    }
  }

  /** What a call adds in its own category, when the family appears at most once among its deposits. */
  lemma PointsOfDeposits(c: FillCall, f: Family)
    requires forall i, j :: 0 <= i < j < |Deposits(c)| ==> Deposits(c)[i].0 != Deposits(c)[j].0
    ensures forall i :: 0 <= i < |Deposits(c)| && Deposits(c)[i].0 == f ==>
      PointsOf(Deposits(c), f) == multiset{Deposits(c)[i].1}
    ensures (forall i :: 0 <= i < |Deposits(c)| ==> Deposits(c)[i].0 != f) ==>
      PointsOf(Deposits(c), f) == multiset{}
  {
    var ds := Deposits(c);
    forall i | 0 <= i < |ds| && ds[i].0 == f
      ensures PointsOf(ds, f) == multiset{ds[i].1}
    {
      PointsOfUnique(ds, f, i);
    }
    if forall i :: 0 <= i < |ds| ==> ds[i].0 != f {
      PointsOfAbsent(ds, f);
    }
  }

  /** A call none of whose deposits goes to the family of s adds nothing to s. */
  lemma ContributionAbsent(c: FillCall, s: Slot)
    requires forall i :: 0 <= i < |Deposits(c)| ==> Deposits(c)[i].0 != s.family
    ensures Contribution(c, s) == multiset{}
  {
    PointsOfAbsent(Deposits(c), s.family);
  }

  /** A fill for category d changes only the buckets of category d that it names. */
  lemma FillFrame(t: Table, c: FillCall, s: Slot)
    requires s in t
    requires s.dataset != c.dataset || forall i :: 0 <= i < |Deposits(c)| ==> Deposits(c)[i].0 != s.family
    ensures Apply(t, c)[s] == t[s]
  {
    ApplyClosed(t, c, s);
    if s.dataset == c.dataset {
      PointsOfAbsent(Deposits(c), s.family);
    }
  }

  /** FillPhotonsVsKE adds exactly one point at the same KE to each of its four buckets. */
  lemma PhotonsVsKEEntries(t: Table, d: int, ke: real, scint: real, cher: real, rem: real, f: Family)
    requires InRange(d) && Slot(f, d) in t
    ensures var after := Apply(t, PhotonsVsKE(d, ke, scint, cher, rem))[Slot(f, d)].fills;
      var before := t[Slot(f, d)].fills;
      && (f == H2PhotonsVsKE ==> after == before + multiset{At2(ke, scint + cher + rem)})
      && (f == H2CherenkovPhotonsVsKE ==> after == before + multiset{At2(ke, cher)})
      && (f == H2RemPhotonsVsKE ==> after == before + multiset{At2(ke, rem)})
      && (f == H2ScintPhotonsVsKE ==> after == before + multiset{At2(ke, scint)})
      && (f !in {H2PhotonsVsKE, H2CherenkovPhotonsVsKE, H2RemPhotonsVsKE, H2ScintPhotonsVsKE} ==> after == before)
  {
    var c := PhotonsVsKE(d, ke, scint, cher, rem);
    var ds := Deposits(c);
    assert ds == [(H2PhotonsVsKE, At2(ke, scint + cher + rem)), (H2CherenkovPhotonsVsKE, At2(ke, cher)),
                  (H2RemPhotonsVsKE, At2(ke, rem)), (H2ScintPhotonsVsKE, At2(ke, scint))];
    ApplyClosed(t, c, Slot(f, d));
    if f == H2PhotonsVsKE {
      PointsOfUnique(ds, f, 0);
    } else if f == H2CherenkovPhotonsVsKE {
      PointsOfUnique(ds, f, 1);
    } else if f == H2RemPhotonsVsKE {
      PointsOfUnique(ds, f, 2);
    } else if f == H2ScintPhotonsVsKE {
      PointsOfUnique(ds, f, 3);
    } else {
      PointsOfAbsent(ds, f);
    }
  }

  /** FillLightYield fills only for a positive total KE, at (KE, nPE / KE),
      and never touches the per-species buckets. */
  lemma LightYieldEntries(t: Table, d: int, ke: real, nPE: real, pdg: int, f: Family)
    requires Slot(f, d) in t
    ensures var after := Apply(t, LightYield(d, ke, nPE, pdg))[Slot(f, d)].fills;
      var before := t[Slot(f, d)].fills;
      && (f == H2PEperMeVVsEnergy && InRange(d) && ke > 0.0 ==> after == before + multiset{At2(ke, nPE / ke)})
      && (f != H2PEperMeVVsEnergy || !InRange(d) || ke <= 0.0 ==> after == before)
  {
    var c := LightYield(d, ke, nPE, pdg);
    ApplyClosed(t, c, Slot(f, d));
    PointsOfDeposits(c, f);
  }

  /** FillEnergyResolution fills (E_input, rel_diff) and rel_diff; the output energy plays no part. */
  lemma EnergyResolutionEntries(t: Table, d: int, eIn: real, eOut: real, eOut': real, rel: real, f: Family)
    requires InRange(d) && Slot(f, d) in t
    ensures Apply(t, EnergyResolution(d, eIn, eOut, rel)) == Apply(t, EnergyResolution(d, eIn, eOut', rel))
    ensures var after := Apply(t, EnergyResolution(d, eIn, eOut, rel))[Slot(f, d)].fills;
      var before := t[Slot(f, d)].fills;
      && (f == H2EnergyResolutionVsE ==> after == before + multiset{At2(eIn, rel)})
      && (f == H1EnergyResolution ==> after == before + multiset{At1(rel)})
      && (f != H2EnergyResolutionVsE && f != H1EnergyResolution ==> after == before)
  {
    var c := EnergyResolution(d, eIn, eOut, rel);
    ApplyClosed(t, c, Slot(f, d));
    PointsOfDeposits(c, f);
  }

  // ---------------------------------------------------------------------------
  // Order independence

  lemma {:induction false} TotalAppend(a: seq<FillCall>, b: seq<FillCall>, s: Slot)
    ensures Total(a + b, s) == Total(a, s) + Total(b, s)
    decreases |b|
  {
    if b == [] {
      assert a + b == a;
    } else {
      var b' := b[..|b| - 1];
      assert (a + b)[..|a + b| - 1] == a + b';
      TotalAppend(a, b', s);
    }
  }

  lemma TotalSingle(c: FillCall, s: Slot)
    ensures Total([c], s) == Contribution(c, s)
  {
    assert [c][..0] == [];
  }

  /** Taking out element j takes out exactly that call's contribution. */
  lemma TotalRemove(cs: seq<FillCall>, j: int, s: Slot)
    requires 0 <= j < |cs|
    ensures Total(cs, s) == Contribution(cs[j], s) + Total(cs[..j] + cs[j + 1..], s)
  {
    assert cs == cs[..j] + [cs[j]] + cs[j + 1..];
    TotalAppend(cs[..j] + [cs[j]], cs[j + 1..], s);
    TotalAppend(cs[..j], [cs[j]], s);
    TotalAppend(cs[..j], cs[j + 1..], s);
    TotalSingle(cs[j], s);
  }

  /** The total contribution depends only on the multiset of calls. */
  lemma {:induction false} TotalPermutation(cs1: seq<FillCall>, cs2: seq<FillCall>, s: Slot)
    requires multiset(cs1) == multiset(cs2)
    ensures Total(cs1, s) == Total(cs2, s)
    decreases |cs1|
  {
    if cs1 != [] {
      var n := |cs1| - 1;
      var j := MatchLast(cs1, cs2);
      TotalPermutation(cs1[..n], cs2[..j] + cs2[j + 1..], s);
      TotalRemove(cs2, j, s);
      assert Total(cs1, s) == Total(cs1[..n], s) + Contribution(cs1[n], s);
    } else {
      assert |cs2| == |multiset(cs2)| == 0;
    }
  }

  /** The last call of cs1 sits somewhere in its permutation cs2, and taking it out of both
      leaves two permutations of each other. */
  lemma MatchLast(cs1: seq<FillCall>, cs2: seq<FillCall>) returns (j: int)
    requires cs1 != [] && multiset(cs1) == multiset(cs2)
    ensures 0 <= j < |cs2| && cs2[j] == cs1[|cs1| - 1]
    ensures multiset(cs1[..|cs1| - 1]) == multiset(cs2[..j] + cs2[j + 1..])
  {
    var n := |cs1| - 1;
    var c := cs1[n];
    assert cs1 == cs1[..n] + [c];
    assert c in multiset(cs2);
    j :| 0 <= j < |cs2| && cs2[j] == c;
    var rest := cs2[..j] + cs2[j + 1..];
    assert cs2 == cs2[..j] + [c] + cs2[j + 1..];
    assert multiset(cs1) == multiset(cs1[..n]) + multiset{c};
    assert multiset(cs2) == multiset(cs2[..j]) + multiset{c} + multiset(cs2[j + 1..]);
    assert multiset(rest) == multiset(cs2[..j]) + multiset(cs2[j + 1..]);
    assert multiset(cs1[..n]) == multiset(cs1) - multiset{c};
    assert multiset(rest) == multiset(cs2) - multiset{c};
  }

  /** Buckets only count their fills: applying the same calls in any order gives the same arrays. */
  lemma FillOrderIndependent(t: Table, cs1: seq<FillCall>, cs2: seq<FillCall>)
    requires multiset(cs1) == multiset(cs2)
    ensures ApplyAll(t, cs1) == ApplyAll(t, cs2)
  {
    ApplyAllKeys(t, cs1);
    ApplyAllKeys(t, cs2);
    forall s | s in t
      ensures ApplyAll(t, cs1)[s] == ApplyAll(t, cs2)[s]
    {
      ApplyAllClosed(t, cs1, s);
      ApplyAllClosed(t, cs2, s);
      TotalPermutation(cs1, cs2, s);
    }
  }

  /** One more call at the end is one more Apply. */
  lemma ApplyAllSnoc(t: Table, cs: seq<FillCall>, c: FillCall)
    ensures ApplyAll(t, cs + [c]) == Apply(ApplyAll(t, cs), c)
  {
    assert (cs + [c])[..|cs + [c]| - 1] == cs;
  }

  /** One more call at the end adds its contribution. */
  lemma TotalSnoc(cs: seq<FillCall>, c: FillCall, s: Slot)
    ensures Total(cs + [c], s) == Total(cs, s) + Contribution(c, s)
  {
    assert (cs + [c])[..|cs + [c]| - 1] == cs;
  }

  /** What four calls add to a bucket, call by call. */
  lemma TotalOfFour(cs: seq<FillCall>, s: Slot)
    requires |cs| == 4
    ensures Total(cs, s) == Contribution(cs[0], s) + Contribution(cs[1], s)
                          + Contribution(cs[2], s) + Contribution(cs[3], s)
  {
    assert cs[..1][..0] == [] && cs[..2][..1] == cs[..1] && cs[..3][..2] == cs[..2];
    assert Total(cs[..1], s) == Contribution(cs[0], s);
    assert Total(cs[..2], s) == Total(cs[..1], s) + Contribution(cs[1], s);
    assert Total(cs[..3], s) == Total(cs[..2], s) + Contribution(cs[2], s);
    assert Total(cs, s) == Total(cs[..3], s) + Contribution(cs[3], s);
  }

  /** Running one batch of calls after another is running their concatenation. */
  lemma {:induction false} ApplyAllAppend(t: Table, a: seq<FillCall>, b: seq<FillCall>)
    ensures ApplyAll(t, a + b) == ApplyAll(ApplyAll(t, a), b)
    decreases |b|
  {
    if b == [] {
      assert a + b == a;
    } else {
      var b' := b[..|b| - 1];
      assert (a + b)[..|a + b| - 1] == a + b';
      ApplyAllAppend(t, a, b');
    }
  }

  // ---------------------------------------------------------------------------
  // The manager

  class HistogramManager {
    /** All 22 pointer arrays, keyed by (array, category). */
    var buckets: Table

    /** Every pointer starts out null. */
    constructor()
      ensures buckets == map[]
    {
      buckets := map[];
    }

    /** Allocates a fresh, empty bucket in categories 1..8 of every family but the
        PMT-charge one; slot 0 and the PMT-charge array are left as they were. */
    method Initialize(cfg: Config.Config)
      modifies this
      ensures Allocated(old(buckets), buckets, CREATED, Config.NSAMPLES, cfg)
    {
      ghost var t0 := buckets;
      AllocateLoop(EDIFF_GROUP, cfg);
      ghost var t1 := buckets;
      AllocateLoop(ENERGY_GROUP, cfg);
      AllocatedCompose(t0, t1, buckets, EDIFF_GROUP, ENERGY_GROUP, Config.NSAMPLES, cfg);
      ghost var t2 := buckets;
      AllocateLoop(POSITION_GROUP, cfg);
      AllocatedCompose(t0, t2, buckets, EDIFF_GROUP + ENERGY_GROUP, POSITION_GROUP, Config.NSAMPLES, cfg);
      ghost var t3 := buckets;
      AllocateLoop(MATCHING_GROUP, cfg);
      AllocatedCompose(t0, t3, buckets, EDIFF_GROUP + ENERGY_GROUP + POSITION_GROUP, MATCHING_GROUP,
        Config.NSAMPLES, cfg);
      ghost var t4 := buckets;
      AllocateLoop(LIGHT_YIELD_GROUP, cfg);
      AllocatedCompose(t0, t4, buckets, EDIFF_GROUP + ENERGY_GROUP + POSITION_GROUP + MATCHING_GROUP,
        LIGHT_YIELD_GROUP, Config.NSAMPLES, cfg);
      ghost var t5 := buckets;
      AllocateLoop(RESOLUTION_GROUP, cfg);
      AllocatedCompose(t0, t5, buckets,
        EDIFF_GROUP + ENERGY_GROUP + POSITION_GROUP + MATCHING_GROUP + LIGHT_YIELD_GROUP,
        RESOLUTION_GROUP, Config.NSAMPLES, cfg);
    }

    /** One allocation loop of Initialize, `for (l = 1; l < NSAMPLES; l++)` over a group of arrays. */
    method AllocateLoop(group: seq<Family>, cfg: Config.Config)
      modifies this
      ensures Allocated(old(buckets), buckets, group, Config.NSAMPLES, cfg)
    {
      var l := 1;
      while l < Config.NSAMPLES
        invariant 1 <= l <= Config.NSAMPLES
        invariant Allocated(old(buckets), buckets, group, l, cfg)
      {
        buckets := AllocateGroup(buckets, group, l, cfg);
        l := l + 1;
      }
    }

    method FillSingleEnergies(dataset: int, inputKE: real, outputKE: real)
      modifies this
      ensures buckets == Apply(old(buckets), SingleEnergies(dataset, inputKE, outputKE))
    {
      ghost var t0 := buckets;
      if InRange(dataset) {
        buckets := Put(buckets, Slot(H2IoSingleEnergies, dataset), At2(inputKE, outputKE));
        PutAllUnroll(t0, dataset, Deposits(SingleEnergies(dataset, inputKE, outputKE)));
      }
    }

    method FillTotalEnergy(dataset: int, inputTotal: real, outputTotal: real)
      modifies this
      ensures buckets == Apply(old(buckets), TotalEnergy(dataset, inputTotal, outputTotal))
    {
      ghost var t0 := buckets;
      if InRange(dataset) {
        buckets := Put(buckets, Slot(H2IoTotalEnergy, dataset), At2(inputTotal, outputTotal));
        PutAllUnroll(t0, dataset, Deposits(TotalEnergy(dataset, inputTotal, outputTotal)));
      }
    }

    method FillEdiff(dataset: int, ediff: real)
      modifies this
      ensures buckets == Apply(old(buckets), Ediff(dataset, ediff))
    {
      ghost var t0 := buckets;
      if InRange(dataset) {
        buckets := Put(buckets, Slot(H1Ediff, dataset), At1(ediff));
        PutAllUnroll(t0, dataset, Deposits(Ediff(dataset, ediff)));
      }
    }

    method FillPhotonsVsKE(dataset: int, ke: real, scint: real, cher: real, rem: real)
      modifies this
      ensures buckets == Apply(old(buckets), PhotonsVsKE(dataset, ke, scint, cher, rem))
    {
      ghost var t0 := buckets;
      if InRange(dataset) {
        buckets := Put(buckets, Slot(H2PhotonsVsKE, dataset), At2(ke, scint + cher + rem));
        buckets := Put(buckets, Slot(H2CherenkovPhotonsVsKE, dataset), At2(ke, cher));
        buckets := Put(buckets, Slot(H2RemPhotonsVsKE, dataset), At2(ke, rem));
        buckets := Put(buckets, Slot(H2ScintPhotonsVsKE, dataset), At2(ke, scint));
        PutAllUnroll(t0, dataset, Deposits(PhotonsVsKE(dataset, ke, scint, cher, rem)));
      }
    }

    method FillPEsVsKE(dataset: int, ke: real, nPE: real)
      modifies this
      ensures buckets == Apply(old(buckets), PEsVsKE(dataset, ke, nPE))
    {
      ghost var t0 := buckets;
      if InRange(dataset) {
        buckets := Put(buckets, Slot(H2PEsVsKE, dataset), At2(ke, nPE));
        PutAllUnroll(t0, dataset, Deposits(PEsVsKE(dataset, ke, nPE)));
      }
    }

    method FillPositionResolution(dataset: int, dx: real, dy: real, dz: real, dr: real)
      modifies this
      ensures buckets == Apply(old(buckets), PositionResolution(dataset, dx, dy, dz, dr))
    {
      ghost var t0 := buckets;
      if InRange(dataset) {
        buckets := Put(buckets, Slot(H1PosResX, dataset), At1(dx));
        buckets := Put(buckets, Slot(H1PosResY, dataset), At1(dy));
        buckets := Put(buckets, Slot(H1PosResZ, dataset), At1(dz));
        buckets := Put(buckets, Slot(H1PosResR, dataset), At1(dr));
        PutAllUnroll(t0, dataset, Deposits(PositionResolution(dataset, dx, dy, dz, dr)));
      }
    }

    method FillParticleMatching(dataset: int, nInput: int, nOutput: int, nMatched: int)
      modifies this
      ensures buckets == Apply(old(buckets), ParticleMatching(dataset, nInput, nOutput, nMatched))
    {
      ghost var t0 := buckets;
      if InRange(dataset) {
        buckets := Put(buckets, Slot(H1NParticlesInput, dataset), At1(nInput as real));
        buckets := Put(buckets, Slot(H1NParticlesOutput, dataset), At1(nOutput as real));
        buckets := Put(buckets, Slot(H1NParticlesMatched, dataset), At1(nMatched as real));
        PutAllUnroll(t0, dataset, Deposits(ParticleMatching(dataset, nInput, nOutput, nMatched)));
      }
    }

    method FillLightYield(dataset: int, totalKE: real, nPE: real, pdg: int)
      modifies this
      ensures buckets == Apply(old(buckets), LightYield(dataset, totalKE, nPE, pdg))
    {
      ghost var t0 := buckets;
      if InRange(dataset) && totalKE > 0.0 {
        var perMeV := nPE / totalKE;
        buckets := Put(buckets, Slot(H2PEperMeVVsEnergy, dataset), At2(totalKE, perMeV));
        PutAllUnroll(t0, dataset, Deposits(LightYield(dataset, totalKE, nPE, pdg)));
      }
    }

    method FillEnergyResolution(dataset: int, eInput: real, eOutput: real, relDiff: real)
      modifies this
      ensures buckets == Apply(old(buckets), EnergyResolution(dataset, eInput, eOutput, relDiff))
    {
      ghost var t0 := buckets;
      if InRange(dataset) {
        buckets := Put(buckets, Slot(H2EnergyResolutionVsE, dataset), At2(eInput, relDiff));
        buckets := Put(buckets, Slot(H1EnergyResolution, dataset), At1(relDiff));
        PutAllUnroll(t0, dataset, Deposits(EnergyResolution(dataset, eInput, eOutput, relDiff)));
      }
    }

    /** Dispatches a recorded call to the matching Fill* method. */
    method Fill(c: FillCall)
      modifies this
      ensures buckets == Apply(old(buckets), c)
    {
      match c
      case SingleEnergies(d, i, o) => FillSingleEnergies(d, i, o);
      case TotalEnergy(d, i, o) => FillTotalEnergy(d, i, o);
      case Ediff(d, e) => FillEdiff(d, e);
      case PhotonsVsKE(d, ke, s, ch, r) => FillPhotonsVsKE(d, ke, s, ch, r);
      case PEsVsKE(d, ke, n) => FillPEsVsKE(d, ke, n);
      case PositionResolution(d, dx, dy, dz, dr) => FillPositionResolution(d, dx, dy, dz, dr);
      case ParticleMatching(d, ni, no, nm) => FillParticleMatching(d, ni, no, nm);
      case LightYield(d, ke, n, pdg) => FillLightYield(d, ke, n, pdg);
      case EnergyResolution(d, ein, eout, rel) => FillEnergyResolution(d, ein, eout, rel);
    }
  }
}
