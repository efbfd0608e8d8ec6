// The event display: sensor geometry loaded once from the simulation output, the
// assignment of sensors to detector faces, the per-face hit maps and the information
// panel of one event. Canvas layout, palettes and the PDF writer are not modelled; a
// drawn display is the data those would render.
module Display {
  import opened Wrappers
  import Text
  import Maps
  import Sums
  import opened Geometry

  /** The sensor columns of the `meta` tree; a missing branch leaves its pointer null. */
  datatype MetaTree = MetaTree(
    pmtId: Option<seq<int>>,
    pmtX: Option<seq<real>>,
    pmtY: Option<seq<real>>,
    pmtZ: Option<seq<real>>)

  /** An opened output file, which may lack the `meta` tree. */
  datatype OutputFile = OutputFile(meta: Option<MetaTree>)

  /** All four columns are present and equally long. */
  predicate ValidColumns(t: MetaTree) {
    && t.pmtId.Some? && t.pmtX.Some? && t.pmtY.Some? && t.pmtZ.Some?
    && |t.pmtId.value| == |t.pmtX.value| == |t.pmtY.value| == |t.pmtZ.value|
  }

  /** The load succeeds: a file, with a meta tree, with valid columns. */
  predicate Loadable(file: Option<OutputFile>) {
    file.Some? && file.value.meta.Some? && ValidColumns(file.value.meta.value)
  }

  /** The stored sensor positions: millimetres to metres. */
  function Positions(xs: seq<real>, ys: seq<real>, zs: seq<real>): (ps: seq<Vec3>)
    requires |xs| == |ys| == |zs|
    ensures |ps| == |xs|
    ensures forall i :: 0 <= i < |ps| ==> ps[i] == Vec3(xs[i] * 0.001, ys[i] * 0.001, zs[i] * 0.001)
  {
    seq(|xs|, i requires 0 <= i < |xs| => Vec3(xs[i] * 0.001, ys[i] * 0.001, zs[i] * 0.001))
  }

  /** What a load attempt leaves: on a loadable file the sensors inserted in metres (a later
      duplicate overwriting), the running box of every row read, and the loaded flag; on any
      other file the table, the box and the flag as they were. */
  predicate LoadEffect(file: Option<OutputFile>, pos0: map<int, Vec3>, box0: Bounds, loaded0: bool,
                       pos: map<int, Vec3>, box: Bounds, loaded: bool)
  {
    if Loadable(file) then
      var t := file.value.meta.value;
      var ps := Positions(t.pmtX.value, t.pmtY.value, t.pmtZ.value);
      && loaded
      && pos == Maps.InsertAll(pos0, t.pmtId.value, ps)
      && box == (if |ps| == 0 then box0 else BoxOf(ps))
    else
      pos == pos0 && box == box0 && loaded == loaded0
  }

  // ---------------------------------------------------------------------------
  // Face lists

  predicate Ascending(s: seq<int>) {
    forall i, j :: 0 <= i < j < |s| ==> s[i] < s[j]
  }

  /** faces[k] lists, in ascending order, exactly the sensors the classifier puts on face k. */
  ghost predicate FaceAssignment(faces: seq<seq<int>>, pos: map<int, Vec3>, b: Bounds) {
    && |faces| == 6
    && (forall k :: 0 <= k < 6 ==> Ascending(faces[k]))
    && (forall k, i :: 0 <= k < 6 && 0 <= i < |faces[k]| ==>
          faces[k][i] in pos && Classify(pos[faces[k][i]], b) == Some(FaceAt(k)))
    && (forall id :: id in pos && Classify(pos[id], b).Some? ==>
          id in faces[FaceIndex(Classify(pos[id], b).value)])
  }

  lemma {:induction false} AscendingUnique(a: seq<int>, b: seq<int>)
    requires Ascending(a) && Ascending(b)
    requires forall x :: x in a <==> x in b
    ensures a == b
    decreases |a| + |b|
  {
    assert a != [] ==> a[0] in a;
    assert b != [] ==> b[0] in b;
    if a != [] && b != [] {
      var i :| 0 <= i < |b| && b[i] == a[0];
      var j :| 0 <= j < |a| && a[j] == b[0];
      assert b[0] <= b[i] == a[0] <= a[j] == b[0];
      forall x
        ensures x in a[1..] <==> x in b[1..]
      {
        if x in a[1..] {
          var i :| 0 <= i < |a| - 1 && a[1..][i] == x;
          assert a[i + 1] == x && x in a && x in b;
          assert x != b[0];
          var j :| 0 <= j < |b| && b[j] == x;
          assert j > 0 && b[1..][j - 1] == x;
        }
        if x in b[1..] {
          var i :| 0 <= i < |b| - 1 && b[1..][i] == x;
          assert b[i + 1] == x && x in b && x in a;
          assert x != a[0];
          var j :| 0 <= j < |a| && a[j] == x;
          assert j > 0 && a[1..][j - 1] == x;
        }
      }
      AscendingUnique(a[1..], b[1..]);
    }
  }

  /** The face lists after visiting the sensors in `seen`. */
  ghost predicate PartialAssignment(faces: seq<seq<int>>, seen: set<int>, pos: map<int, Vec3>, b: Bounds) {
    && |faces| == 6
    && (forall k :: 0 <= k < 6 ==> Ascending(faces[k]))
    && (forall k, i :: 0 <= k < 6 && 0 <= i < |faces[k]| ==>
          faces[k][i] in seen && faces[k][i] in pos && Classify(pos[faces[k][i]], b) == Some(FaceAt(k)))
    && (forall id :: id in seen && id in pos && Classify(pos[id], b).Some? ==>
          id in faces[FaceIndex(Classify(pos[id], b).value)])
  }

  /** Visiting a sensor larger than every one seen so far keeps the face lists right. */
  lemma VisitStep(faces: seq<seq<int>>, seen: set<int>, pos: map<int, Vec3>, b: Bounds, id: int)
    requires PartialAssignment(faces, seen, pos, b)
    requires id in pos && forall a :: a in seen ==> a < id
    ensures var c := Classify(pos[id], b);
      PartialAssignment(
        if c.Some? then faces[FaceIndex(c.value) := faces[FaceIndex(c.value)] + [id]] else faces,
        seen + {id}, pos, b)
  {
    var c := Classify(pos[id], b);
    if c.Some? {
      var k := FaceIndex(c.value);
      var faces' := faces[k := faces[k] + [id]];
      assert FaceAt(k) == c.value;
      forall i | 0 <= i < |faces[k]|
        ensures faces[k][i] < id
      {
        assert faces[k][i] in seen;
      }
      assert Ascending(faces'[k]);
      forall x | x in seen + {id} && x in pos && Classify(pos[x], b).Some?
        ensures x in faces'[FaceIndex(Classify(pos[x], b).value)]
      {
        var kx := FaceIndex(Classify(pos[x], b).value);
        if x == id {
          assert faces'[k][|faces[k]|] == id;
        } else {
          assert x in faces[kx];
          var i :| 0 <= i < |faces[kx]| && faces[kx][i] == x;
          assert faces'[kx][i] == x;
        }
      }
    }
  }

  /** m is the smallest element of s. */
  predicate IsLeast(m: int, s: set<int>) {
    m in s && forall r :: r in s ==> m <= r
  }

  /** A non-empty set of ids has a smallest one, the one `std::map` iteration visits first. */
  lemma SmallestExists(s: set<int>)
    requires s != {}
    ensures exists m :: IsLeast(m, s)
    decreases s
  {
    if forall x :: x !in s {
      assert false;
    }
    var x :| x in s;
    if y :| y in s && y != x {
      var s' := s - {x};
      assert y in s';
      SmallestExists(s');
      var m :| IsLeast(m, s');
      var least := if x < m then x else m;
      forall r | r in s
        ensures least <= r
      {
        if r != x {
          assert r in s';
        }
      }
      assert IsLeast(least, s);
    } else {
      assert IsLeast(x, s);
    }
  }

  /** The state of the walk over the sensor table: `seen` visited, `remaining` still to come,
      every visited id below every remaining one, and the face lists right for what was seen. */
  ghost predicate Visiting(faces: seq<seq<int>>, seen: set<int>, remaining: set<int>, pos: map<int, Vec3>,
                           b: Bounds) {
    && remaining + seen == pos.Keys && remaining !! seen
    && (forall a, r :: a in seen && r in remaining ==> a < r)
    && PartialAssignment(faces, seen, pos, b)
  }

  /** Before the walk: six empty lists, nothing seen. */
  lemma VisitStart(pos: map<int, Vec3>, b: Bounds)
    ensures Visiting([[], [], [], [], [], []], {}, pos.Keys, pos, b)
  {
  }

  /** Taking the smallest remaining id and appending it to its face keeps the walk's state. */
  lemma VisitNext(faces: seq<seq<int>>, seen: set<int>, remaining: set<int>, pos: map<int, Vec3>, b: Bounds,
                  id: int)
    requires Visiting(faces, seen, remaining, pos, b)
    requires IsLeast(id, remaining)
    ensures |faces| == 6 && id in pos
    ensures var c := Classify(pos[id], b);
      Visiting(if c.Some? then faces[FaceIndex(c.value) := faces[FaceIndex(c.value)] + [id]] else faces,
               seen + {id}, remaining - {id}, pos, b)
  {
    VisitStep(faces, seen, pos, b, id);
  }

  /** After the walk every sensor was seen, so the face lists are complete. */
  lemma VisitDone(faces: seq<seq<int>>, seen: set<int>, pos: map<int, Vec3>, b: Bounds)
    requires Visiting(faces, seen, {}, pos, b)
    ensures FaceAssignment(faces, pos, b)
  {
    assert seen == pos.Keys;
  }

  /** The face lists of the sensor table, built in ascending id order. */
  method AssignFaces(pos: map<int, Vec3>, b: Bounds) returns (faces: seq<seq<int>>)
    ensures FaceAssignment(faces, pos, b)
  {
    faces := [[], [], [], [], [], []];
    var remaining := pos.Keys;
    ghost var seen: set<int> := {};
    VisitStart(pos, b);
    while remaining != {}
      invariant Visiting(faces, seen, remaining, pos, b)
      decreases |remaining|
    {
      SmallestExists(remaining);
      var id :| IsLeast(id, remaining);
      VisitNext(faces, seen, remaining, pos, b, id);
      var c := Classify(pos[id], b);
      if c.Some? {
        faces := faces[FaceIndex(c.value) := faces[FaceIndex(c.value)] + [id]];
      }
      remaining := remaining - {id};
      seen := seen + {id};
    }
    VisitDone(faces, seen, pos, b);
  }

  /** The face lists are determined by the sensor positions and the box. */
  lemma FaceAssignmentUnique(f1: seq<seq<int>>, f2: seq<seq<int>>, pos: map<int, Vec3>, b: Bounds)
    requires FaceAssignment(f1, pos, b) && FaceAssignment(f2, pos, b)
    ensures f1 == f2
  {
    forall k | 0 <= k < 6
      ensures f1[k] == f2[k]
    {
      forall x
        ensures x in f1[k] <==> x in f2[k]
      {
        if x in f1[k] {
          var i :| 0 <= i < |f1[k]| && f1[k][i] == x;
          assert Classify(pos[x], b) == Some(FaceAt(k));
        }
        if x in f2[k] {
          var i :| 0 <= i < |f2[k]| && f2[k][i] == x;
          assert Classify(pos[x], b) == Some(FaceAt(k));
        }
      }
      AscendingUnique(f1[k], f2[k]);
    }
  }

  /** No sensor is listed on two faces. */
  lemma FacesDisjoint(faces: seq<seq<int>>, pos: map<int, Vec3>, b: Bounds, k1: int, k2: int, id: int)
    requires FaceAssignment(faces, pos, b)
    requires 0 <= k1 < 6 && 0 <= k2 < 6 && id in faces[k1] && id in faces[k2]
    ensures k1 == k2
  {
    var i :| 0 <= i < |faces[k1]| && faces[k1][i] == id;
    var j :| 0 <= j < |faces[k2]| && faces[k2][j] == id;
    assert FaceIndex(FaceAt(k1)) == k1 && FaceIndex(FaceAt(k2)) == k2;
  }

  // ---------------------------------------------------------------------------
  // Face plots

  /** One `h->Fill(ax, ay, npe)`. */
  datatype Fill = Fill(ax: real, ay: real, weight: int)

  datatype FacePlot = FacePlot(face: Face, frame: Frame, fills: seq<Fill>)

  /** The hit count of a sensor, 0 for a sensor without a hit. */
  function NPE(npe: map<int, int>, id: int): int {
    if id in npe then npe[id] else 0
  }

  /** The fills of a face: each listed sensor with a known position, projected, weighted by its hit count. */
  function FaceFills(f: Face, ids: seq<int>, pos: map<int, Vec3>, npe: map<int, int>): seq<Fill>
    decreases |ids|
  {
    if ids == [] then []
    else
      var id := ids[|ids| - 1];
      FaceFills(f, ids[..|ids| - 1], pos, npe)
        + (if id in pos then [Fill(Project(f, pos[id]).0, Project(f, pos[id]).1, NPE(npe, id))] else [])
  }

  /** Every fill is a listed sensor with a position, at its projection, with its hit count,
      and a sensor inside the box is drawn inside the face's frame. */
  lemma {:induction false} FaceFillsSound(f: Face, ids: seq<int>, pos: map<int, Vec3>, npe: map<int, int>, b: Bounds)
    requires forall id :: id in pos ==> Inside(pos[id], b)
    ensures forall fl :: fl in FaceFills(f, ids, pos, npe) ==>
      exists id :: id in ids && id in pos && fl == Fill(Project(f, pos[id]).0, Project(f, pos[id]).1, NPE(npe, id))
    ensures forall fl :: fl in FaceFills(f, ids, pos, npe) ==>
      FrameOf(f, b).axmin <= fl.ax <= FrameOf(f, b).axmax && FrameOf(f, b).aymin <= fl.ay <= FrameOf(f, b).aymax
    decreases |ids|
  {
    if ids != [] {
      var n := |ids| - 1;
      FaceFillsSound(f, ids[..n], pos, npe, b);
      if ids[n] in pos {
        ProjectionInFrame(f, pos[ids[n]], b);
      }
      forall fl | fl in FaceFills(f, ids, pos, npe)
        ensures exists id :: id in ids && id in pos && fl == Fill(Project(f, pos[id]).0, Project(f, pos[id]).1, NPE(npe, id))
      {
        if fl in FaceFills(f, ids[..n], pos, npe) {
          var id :| id in ids[..n] && id in pos && fl == Fill(Project(f, pos[id]).0, Project(f, pos[id]).1, NPE(npe, id));
          assert id in ids;
        } else {
          assert ids[n] in ids;
        }
      }
    }
  }

  /** The faces in the order they are drawn. */
  const DRAW_ORDER: seq<Face> := [ZP, ZM, XP, XM, YP, YM]

  // ---------------------------------------------------------------------------
  // Information panel

  /** The sum over the finite, positive kinetic energies (over the reals every value is finite). */
  function SumPositive(kes: seq<real>): (total: real)
    ensures total >= 0.0
    decreases |kes|
  {
    if kes == [] then 0.0
    else SumPositive(kes[..|kes| - 1]) + (if kes[|kes| - 1] > 0.0 then kes[|kes| - 1] else 0.0)
  }

  /** Non-positive energies contribute nothing: the total equals the plain sum when none are
      negative, and never exceeds the sum of the positive part. */
  lemma {:induction false} SumPositiveSpec(kes: seq<real>)
    ensures (forall i :: 0 <= i < |kes| ==> kes[i] >= 0.0) ==> SumPositive(kes) == Sums.Sum(kes)
    ensures SumPositive(kes) >= Sums.Sum(kes)
    decreases |kes|
  {
    if kes != [] {
      var n := |kes| - 1;
      SumPositiveSpec(kes[..n]);
      if forall i :: 0 <= i < |kes| ==> kes[i] >= 0.0 {
        assert forall i :: 0 <= i < n ==> kes[..n][i] >= 0.0;
      }
    }
  }

  /** A listed particle: kinetic energy, PDG code and direction. */
  datatype Listed = Listed(ke: real, pdg: int, u: real, v: real, w: real)

  /** At most this many particles are listed. */
  const MAX_SHOW: int := 4

  function MinInt(a: int, b: int): int {
    if a < b then a else b
  }

  /** The truth record passed for the event: one optional PDG code per particle
      (a null particle pointer is skipped). */
  type TruthRecord = seq<Option<int>>

  /** The particle count of the truth record, 0 when none is passed. */
  function ParticleCount(mc: Option<TruthRecord>): int {
    if mc.Some? then |mc.value| else 0
  }

  /** The columns the listing loop reads for particle ip. */
  predicate Readable(ip: int, kes: seq<real>, us: Option<seq<real>>, vs: Option<seq<real>>, ws: Option<seq<real>>) {
    0 <= ip < |kes| && us.Some? && ip < |us.value| && vs.Some? && ip < |vs.value| && ws.Some? && ip < |ws.value|
  }

  /** Every particle the loop lists among the first k can be read. */
  predicate ListingReadable(mc: TruthRecord, k: int, kes: seq<real>, us: Option<seq<real>>, vs: Option<seq<real>>, ws: Option<seq<real>>)
    requires 0 <= k <= |mc|
  {
    forall ip :: 0 <= ip < k && mc[ip].Some? ==> Readable(ip, kes, us, vs, ws)
  }

  /** The particles the loop collects from the first k, in index order. */
  function Collected(mc: TruthRecord, k: int, kes: seq<real>, us: Option<seq<real>>, vs: Option<seq<real>>, ws: Option<seq<real>>): seq<Listed>
    requires 0 <= k <= |mc| && ListingReadable(mc, k, kes, us, vs, ws)
    decreases k
  {
    if k == 0 then []
    else
      Collected(mc, k - 1, kes, us, vs, ws)
        + (if mc[k - 1].Some?
           then [Listed(kes[k - 1], mc[k - 1].value, us.value[k - 1], vs.value[k - 1], ws.value[k - 1])]
           else [])
  }

  predicate SortedByKEDescending(s: seq<Listed>) {
    forall i, j :: 0 <= i < j < |s| ==> s[i].ke >= s[j].ke
  }

  /** The `%06d` field: a non-negative number left-padded with zeros to six digits; a negative one
      keeps its sign in front of the digits, with the zeros before the sign. */
  function Padded6(n: int): string {
    var digits := if n >= 0 then Text.Decimal(n) else "-" + Text.Decimal(-n);
    Text.Zeros(if |digits| < 6 then 6 - |digits| else 0) + digits
  }

  function EventFileName(evtNr: int): string {
    "./Plots/event_" + Padded6(evtNr) + ".pdf"
  }

  /** For 0 <= n < 10^6 the name is 24 characters long and its six-digit field reads back as n. */
  lemma EventFileNameLayout(n: int)
    requires 0 <= n < 1000000
    ensures var s := EventFileName(n);
      |s| == 24 && s[..14] == "./Plots/event_" && s[20..] == ".pdf"
      && Text.AllDigits(s[14..20]) && Text.ParseDecimal(s[14..20]) == n
  {
    assert Text.Pow10(6) == 1000000;
    Text.DecimalAtMost(n, 6);
    Text.ZeroPadRoundTrip(n, 6);
    var s := EventFileName(n);
    assert Padded6(n) == Text.ZeroPad(n, 6);
    assert s[14..20] == Padded6(n);
  }

  datatype SkipReason = NoGeometry | NoPhotoelectrons | NoHitInfo

  /** The three photon counts the panel prints, each on its own line, under their total. */
  datatype Photons = Photons(scint: real, cher: real, rem: real) {
    function Total(): real {
      scint + cher + rem
    }
  }

  /** What the information panel and the six faces show. */
  datatype Panel = Panel(
    npeMap: map<int, int>,
    faces: seq<seq<int>>,
    plots: seq<FacePlot>,
    totalEdep: real,
    photons: Photons,
    collectedPEs: int,
    vertex: Vec3,
    particleCount: int,
    listed: seq<Listed>,
    notListed: Option<int>,
    fileName: string)

  /** A display is skipped before anything is drawn, dereferences a missing or too short
      column (undefined behaviour in the original), or is drawn. */
  datatype Outcome = Skipped(reason: SkipReason) | Faulted | Drawn(panel: Panel)

  /** The skip guards, in order. */
  function SkipFor(loaded: bool, mcPMTID: Option<seq<int>>, mcPMTNPE: Option<seq<int>>): (r: Option<SkipReason>)
    ensures r.None? <==> loaded && mcPMTNPE.Some? && mcPMTID.Some? && 0 < |mcPMTNPE.value| == |mcPMTID.value|
    ensures !loaded ==> r == Some(NoGeometry)
  {
    if !loaded then Some(NoGeometry)
    else if mcPMTNPE.None? || |mcPMTNPE.value| == 0 then Some(NoPhotoelectrons)
    else if mcPMTID.None? || |mcPMTID.value| != |mcPMTNPE.value| then Some(NoHitInfo)
    else None
  }

  /** The columns the panel reads are all there. */
  predicate PanelReadable(
    mc: Option<TruthRecord>, mcxs: Option<seq<real>>, mcys: Option<seq<real>>, mczs: Option<seq<real>>,
    mcus: Option<seq<real>>, mcvs: Option<seq<real>>, mcws: Option<seq<real>>, mckes: Option<seq<real>>)
  {
    && mckes.Some?
    && mcxs.Some? && |mcxs.value| > 0 && mcys.Some? && |mcys.value| > 0 && mczs.Some? && |mczs.value| > 0
    && (mc.Some? ==> ListingReadable(mc.value, MinInt(|mc.value|, MAX_SHOW), mckes.value, mcus, mcvs, mcws))
  }

  /** x placed in front of the first element of s with a smaller kinetic energy. */
  function Insert(x: Listed, s: seq<Listed>): seq<Listed>
    decreases |s|
  {
    if s == [] then [x]
    else if s[0].ke >= x.ke then [s[0]] + Insert(x, s[1..])
    else [x] + s
  }

  /** The particles ordered by descending kinetic energy, standing in for `std::sort` with that
      comparison (which leaves the order of equal energies unspecified). */
  function SortByKEDescending(s: seq<Listed>): seq<Listed>
    decreases |s|
  {
    if s == [] then [] else Insert(s[0], SortByKEDescending(s[1..]))
  }

  lemma {:induction false} InsertPermutes(x: Listed, s: seq<Listed>)
    ensures multiset(Insert(x, s)) == multiset(s) + multiset{x}
    decreases |s|
  {
    if s != [] && s[0].ke >= x.ke {
      InsertPermutes(x, s[1..]);
      assert s == [s[0]] + s[1..];
    }
  }

  /** The tail of a descending list is descending, and its head bounds every element. */
  lemma TailSorted(s: seq<Listed>)
    requires SortedByKEDescending(s) && s != []
    ensures SortedByKEDescending(s[1..])
    ensures forall y :: y in s ==> s[0].ke >= y.ke
  {
    var t := s[1..];
    forall i, j | 0 <= i < j < |t| ensures t[i].ke >= t[j].ke {
      assert t[i] == s[i + 1] && t[j] == s[j + 1];
    }
  }

  /** A head no smaller than anything in a descending list keeps it descending. */
  lemma ConsSorted(h: Listed, r: seq<Listed>)
    requires SortedByKEDescending(r)
    requires forall y :: y in r ==> h.ke >= y.ke
    ensures SortedByKEDescending([h] + r)
  {
    var r' := [h] + r;
    forall i, j | 0 <= i < j < |r'| ensures r'[i].ke >= r'[j].ke {
      assert r'[j] == r[j - 1] && r[j - 1] in r;
      if i > 0 {
        assert r'[i] == r[i - 1];
      }
    }
  }

  lemma {:induction false} InsertSorted(x: Listed, s: seq<Listed>)
    requires SortedByKEDescending(s)
    ensures SortedByKEDescending(Insert(x, s))
    decreases |s|
  {
    if s != [] {
      TailSorted(s);
      if s[0].ke >= x.ke {
        var t := s[1..];
        InsertSorted(x, t);
        InsertPermutes(x, t);
        var r := Insert(x, t);
        forall y | y in r ensures s[0].ke >= y.ke {
          assert y in multiset(r);
          if y != x {
            assert y in t;
          }
        }
        ConsSorted(s[0], r);
      } else {
        ConsSorted(x, s);
      }
    }
  }

  /** The sorted list holds the same particles, ordered by descending kinetic energy. */
  lemma {:induction false} SortByKEDescendingSpec(s: seq<Listed>)
    ensures SortedByKEDescending(SortByKEDescending(s))
    ensures multiset(SortByKEDescending(s)) == multiset(s)
    decreases |s|
  {
    if s != [] {
      var r := SortByKEDescending(s[1..]);
      SortByKEDescendingSpec(s[1..]);
      InsertSorted(s[0], r);
      InsertPermutes(s[0], r);
      assert SortByKEDescending(s) == Insert(s[0], r);
      assert multiset(s) == multiset(s[1..]) + multiset{s[0]} by {
        assert s == [s[0]] + s[1..];
      }
    }
  }

  /** Builds the sensor-to-hit-count map column by column. */
  method BuildNpeMap(ids: seq<int>, npes: seq<int>) returns (m: map<int, int>)
    requires |ids| == |npes|
    ensures m == Maps.InsertAll(map[], ids, npes)
  {
    m := map[];
    var i := 0;
    while i < |ids|
      invariant 0 <= i <= |ids|
      invariant m == Maps.InsertAll(map[], ids[..i], npes[..i])
    {
      m := m[ids[i] := npes[i]];
      assert ids[..i + 1][..i] == ids[..i] && npes[..i + 1][..i] == npes[..i];
      i := i + 1;
    }
    assert ids[..i] == ids && npes[..i] == npes;
  }

  /** The deposited energy of the panel: the loop over the kinetic energies. */
  method TotalEdep(kes: seq<real>) returns (total: real)
    ensures total == SumPositive(kes)
  {
    total := 0.0;
    var j := 0;
    while j < |kes|
      invariant 0 <= j <= |kes|
      invariant total == SumPositive(kes[..j])
    {
      assert kes[..j + 1][..j] == kes[..j];
      if kes[j] > 0.0 {
        total := total + kes[j];
      }
      j := j + 1;
    }
    assert kes[..j] == kes;
  }

  /** Collects the first k particles of the truth record that are present; fails at the first
      one whose columns cannot be read. */
  method CollectParticles(mc: TruthRecord, k: int, kes: seq<real>,
                          us: Option<seq<real>>, vs: Option<seq<real>>, ws: Option<seq<real>>)
    returns (ok: bool, particles: seq<Listed>)
    requires 0 <= k <= |mc|
    ensures ok <==> ListingReadable(mc, k, kes, us, vs, ws)
    ensures ok ==> particles == Collected(mc, k, kes, us, vs, ws)
  {
    particles := [];
    var ip := 0;
    while ip < k
      invariant 0 <= ip <= k
      invariant ListingReadable(mc, ip, kes, us, vs, ws)
      invariant particles == Collected(mc, ip, kes, us, vs, ws)
    {
      var p := mc[ip];
      if p.Some? {
        if !Readable(ip, kes, us, vs, ws) {
          return false, particles;
        }
        particles := particles + [Listed(kes[ip], p.value, us.value[ip], vs.value[ip], ws.value[ip])];
      }
      ip := ip + 1;
    }
    ok := true;
  }

  /** The particle listing: the first MAX_SHOW truth particles collected and sorted by
      descending kinetic energy; it fails when a listed particle has no readable entry. */
  method ListParticles(mc: Option<TruthRecord>, kes: seq<real>,
                       us: Option<seq<real>>, vs: Option<seq<real>>, ws: Option<seq<real>>)
    returns (ok: bool, listed: seq<Listed>)
    ensures ok <==> (mc.Some? ==> ListingReadable(mc.value, MinInt(|mc.value|, MAX_SHOW), kes, us, vs, ws))
    ensures ok ==> SortedByKEDescending(listed)
    ensures ok && mc.None? ==> listed == []
    ensures ok && mc.Some? ==>
      multiset(listed) == multiset(Collected(mc.value, MinInt(|mc.value|, MAX_SHOW), kes, us, vs, ws))
  {
    listed := [];
    ok := true;
    if mc.Some? {
      var particles;
      ok, particles := CollectParticles(mc.value, MinInt(|mc.value|, MAX_SHOW), kes, us, vs, ws);
      if ok {
        SortByKEDescendingSpec(particles);
        listed := SortByKEDescending(particles);
      }
    }
  }

  /** The six plots in draw order, each face's frame filled from its list. */
  ghost predicate PlotsOf(plots: seq<FacePlot>, faces: seq<seq<int>>, pos: map<int, Vec3>, b: Bounds, npeMap: map<int, int>)
    requires |faces| == 6
  {
    && |plots| == 6
    && forall i :: 0 <= i < 6 ==>
         plots[i] == FacePlot(DRAW_ORDER[i], FrameOf(DRAW_ORDER[i], b),
                              FaceFills(DRAW_ORDER[i], faces[FaceIndex(DRAW_ORDER[i])], pos, npeMap))
  }

  /** What a drawn display shows for one event: the hit map of the hit columns, the face lists and
      plots of the loaded geometry, the energy and photon totals, the number of sensors with hits,
      the vertex in metres, the up to four listed particles ordered by descending kinetic energy,
      the count of those not listed, and the output file name. */
  ghost predicate PanelShows(
    p: Panel, pos: map<int, Vec3>, b: Bounds, evtNr: int, mc: Option<TruthRecord>,
    mcxs: Option<seq<real>>, mcys: Option<seq<real>>, mczs: Option<seq<real>>,
    mcus: Option<seq<real>>, mcvs: Option<seq<real>>, mcws: Option<seq<real>>,
    kes: seq<real>, mcparticlecount: int, photons: Photons, ids: seq<int>, npes: seq<int>)
  {
    && |ids| == |npes|
    && PanelReadable(mc, mcxs, mcys, mczs, mcus, mcvs, mcws, Some(kes))
    && p.npeMap == Maps.InsertAll(map[], ids, npes)
    && FaceAssignment(p.faces, pos, b)
    && PlotsOf(p.plots, p.faces, pos, b, p.npeMap)
    && p.totalEdep == SumPositive(kes)
    && p.photons == photons
    && p.collectedPEs == |npes|
    && p.vertex == Vec3(0.001 * mcxs.value[0], 0.001 * mcys.value[0], 0.001 * mczs.value[0])
    && p.particleCount == mcparticlecount
    && SortedByKEDescending(p.listed)
    && (mc.None? ==> p.listed == [])
    && (mc.Some? ==>
          multiset(p.listed) == multiset(Collected(mc.value, MinInt(|mc.value|, MAX_SHOW), kes, mcus, mcvs, mcws)))
    && p.notListed == (if ParticleCount(mc) > MAX_SHOW then Some(ParticleCount(mc) - MAX_SHOW) else None)
    && p.fileName == EventFileName(evtNr)
  }

  /** The fields of a composed panel, gathered into PanelShows. */
  lemma PanelShowsIntro(
    p: Panel, pos: map<int, Vec3>, b: Bounds, evtNr: int, mc: Option<TruthRecord>,
    xs: seq<real>, ys: seq<real>, zs: seq<real>,
    us: Option<seq<real>>, vs: Option<seq<real>>, ws: Option<seq<real>>,
    kes: seq<real>, mcparticlecount: int, photons: Photons, ids: seq<int>, npes: seq<int>)
    requires |ids| == |npes| && |xs| > 0 && |ys| > 0 && |zs| > 0
    requires SortedByKEDescending(p.listed)
    requires mc.None? ==> p.listed == []
    requires mc.Some? ==>
      && ListingReadable(mc.value, MinInt(|mc.value|, MAX_SHOW), kes, us, vs, ws)
      && multiset(p.listed) == multiset(Collected(mc.value, MinInt(|mc.value|, MAX_SHOW), kes, us, vs, ws))
    requires p.npeMap == Maps.InsertAll(map[], ids, npes)
    requires FaceAssignment(p.faces, pos, b)
    requires PlotsOf(p.plots, p.faces, pos, b, p.npeMap)
    requires p.totalEdep == SumPositive(kes) && p.photons == photons && p.collectedPEs == |npes|
    requires p.vertex == Vec3(0.001 * xs[0], 0.001 * ys[0], 0.001 * zs[0])
    requires p.particleCount == mcparticlecount
    requires p.notListed == (if ParticleCount(mc) > MAX_SHOW then Some(ParticleCount(mc) - MAX_SHOW) else None)
    requires p.fileName == EventFileName(evtNr)
    ensures PanelShows(p, pos, b, evtNr, mc, Some(xs), Some(ys), Some(zs), us, vs, ws, kes, mcparticlecount,
                       photons, ids, npes)
  {
  }

  class EventDisplay {
    var pmtPos: map<int, Vec3>
    var xmin: real
    var xmax: real
    var ymin: real
    var ymax: real
    var zmin: real
    var zmax: real
    var geometryLoaded: bool

    function Box(): Bounds
      reads this
    {
      Bounds(xmin, xmax, ymin, ymax, zmin, zmax)
    }

    /** No geometry, every bound -1. */
    constructor()
      ensures pmtPos == map[] && !geometryLoaded
      ensures Box() == Bounds(-1.0, -1.0, -1.0, -1.0, -1.0, -1.0)
    {
      pmtPos := map[];
      xmin, xmax, ymin, ymax, zmin, zmax := -1.0, -1.0, -1.0, -1.0, -1.0, -1.0;
      geometryLoaded := false;
    }

    function IsGeometryLoaded(): bool
      reads this
    {
      geometryLoaded
    }

    /** Reads the sensor table. On any missing piece or a length mismatch nothing changes and the
        result is false. Otherwise each sensor is stored (a later duplicate id overwriting an
        earlier one) in metres, the box becomes the running min/max of every row read, overwritten
        duplicates included (unchanged for an empty table), and the geometry counts as loaded. */
    method LoadGeometry(file: Option<OutputFile>) returns (ok: bool)
      modifies this
      ensures ok <==> Loadable(file)
      ensures !ok ==> pmtPos == old(pmtPos) && Box() == old(Box()) && geometryLoaded == old(geometryLoaded)
      ensures ok ==> var t := file.value.meta.value;
        var ps := Positions(t.pmtX.value, t.pmtY.value, t.pmtZ.value);
        && geometryLoaded
        && pmtPos == Maps.InsertAll(old(pmtPos), t.pmtId.value, ps)
        && Box() == (if |ps| == 0 then old(Box()) else BoxOf(ps))
      ensures LoadEffect(file, old(pmtPos), old(Box()), old(geometryLoaded), pmtPos, Box(), geometryLoaded)
    {
      if file.None? || file.value.meta.None? {
        return false;
      }
      var t := file.value.meta.value;
      if t.pmtId.None? || t.pmtX.None? || t.pmtY.None? || t.pmtZ.None? {
        return false;
      }
      var ids, xs, ys, zs := t.pmtId.value, t.pmtX.value, t.pmtY.value, t.pmtZ.value;
      if |ids| != |xs| || |ids| != |ys| || |ids| != |zs| {
        return false;
      }
      ghost var ps := Positions(xs, ys, zs);
      var pos := pmtPos;
      var b := Box();
      var i := 0;
      while i < |ids|
        invariant 0 <= i <= |ids|
        invariant pos == Maps.InsertAll(old(pmtPos), ids[..i], ps[..i])
        invariant b == if i == 0 then old(Box()) else BoxOf(ps[..i])
      {
        var v := Vec3(xs[i] * 0.001, ys[i] * 0.001, zs[i] * 0.001);
        pos := pos[ids[i] := v];
        if i == 0 {
          b := PointBox(v);
        } else {
          b := Extend(b, v);
        }
        assert ids[..i + 1][..i] == ids[..i] && ps[..i + 1][..i] == ps[..i];
        i := i + 1;
      }
      assert ids[..i] == ids && ps[..i] == ps;
      pmtPos := pos;
      SetBox(b);
      geometryLoaded := true;
      return true;
    }

    method SetBox(b: Bounds)
      modifies this`xmin, this`xmax, this`ymin, this`ymax, this`zmin, this`zmax
      ensures Box() == b
    {
      xmin, xmax, ymin, ymax, zmin, zmax := b.xmin, b.xmax, b.ymin, b.ymax, b.zmin, b.zmax;
    }

    /** Walks the sensors in ascending id order (the order of the map) and appends each to the
        list of the first face whose test it passes. */
    method AssignPMTsToFaces() returns (faces: seq<seq<int>>)
      ensures FaceAssignment(faces, pmtPos, Box())
    {
      faces := AssignFaces(pmtPos, Box());
    }

    /** Sets up the face's frame and fills it with the hit count of each listed sensor that has a position. */
    method DrawFace(face: Face, facePmts: seq<int>, npeMap: map<int, int>) returns (plot: FacePlot)
      ensures plot == FacePlot(face, FrameOf(face, Box()), FaceFills(face, facePmts, pmtPos, npeMap))
    {
      var frame := FrameOf(face, Box());
      var fills: seq<Fill> := [];
      var i := 0;
      while i < |facePmts|
        invariant 0 <= i <= |facePmts|
        invariant fills == FaceFills(face, facePmts[..i], pmtPos, npeMap)
      {
        var pid := facePmts[i];
        assert facePmts[..i + 1][..i] == facePmts[..i];
        if pid in pmtPos {
          var pos := pmtPos[pid];
          var ax, ay;
          if face == ZP || face == ZM {
            ax, ay := pos.y, pos.x;
          } else if face == XP || face == XM {
            ax, ay := pos.y, pos.z;
          } else {
            ax, ay := pos.x, pos.z;
          }
          var npe := 0;
          if pid in npeMap {
            npe := npeMap[pid];
          }
          fills := fills + [Fill(ax, ay, npe)];
        }
        i := i + 1;
      }
      assert facePmts[..i] == facePmts;
      plot := FacePlot(face, frame, fills);
    }

    /** One event display. */
    method CreateDisplay(
      evtNr: int, mc: Option<TruthRecord>,
      mcxs: Option<seq<real>>, mcys: Option<seq<real>>, mczs: Option<seq<real>>,
      mcus: Option<seq<real>>, mcvs: Option<seq<real>>, mcws: Option<seq<real>>,
      mckes: Option<seq<real>>, mcparticlecount: int,
      scintPhotons: real, cherPhotons: real, remPhotons: real,
      mcPMTID: Option<seq<int>>, mcPMTNPE: Option<seq<int>>)
      returns (r: Outcome)
      ensures var skip := SkipFor(geometryLoaded, mcPMTID, mcPMTNPE);
        && (skip.Some? <==> r.Skipped?)
        && (skip.Some? ==> r == Skipped(skip.value))
        && (skip.None? ==> (r.Faulted? <==> !PanelReadable(mc, mcxs, mcys, mczs, mcus, mcvs, mcws, mckes)))
      ensures r.Drawn? ==>
        && mcPMTID.Some? && mcPMTNPE.Some? && mckes.Some?
        && PanelShows(r.panel, pmtPos, Box(), evtNr, mc, mcxs, mcys, mczs, mcus, mcvs, mcws, mckes.value,
                      mcparticlecount, Photons(scintPhotons, cherPhotons, remPhotons), mcPMTID.value, mcPMTNPE.value)
    {
      if !geometryLoaded {
        return Skipped(NoGeometry);
      }
      if mcPMTNPE.None? || |mcPMTNPE.value| <= 0 {
        return Skipped(NoPhotoelectrons);
      }
      if mcPMTID.None? || |mcPMTID.value| != |mcPMTNPE.value| {
        return Skipped(NoHitInfo);
      }
      r := DrawPanel(evtNr, mc, mcxs, mcys, mczs, mcus, mcvs, mcws, mckes, mcparticlecount,
                     Photons(scintPhotons, cherPhotons, remPhotons), mcPMTID.value, mcPMTNPE.value);
    }

    /** The display once the guards have passed: faulted on the first column found missing. */
    method DrawPanel(
      evtNr: int, mc: Option<TruthRecord>,
      mcxs: Option<seq<real>>, mcys: Option<seq<real>>, mczs: Option<seq<real>>,
      mcus: Option<seq<real>>, mcvs: Option<seq<real>>, mcws: Option<seq<real>>,
      mckes: Option<seq<real>>, mcparticlecount: int, photons: Photons, ids: seq<int>, npes: seq<int>)
      returns (r: Outcome)
      requires |ids| == |npes|
      ensures r.Faulted? || r.Drawn?
      ensures r.Faulted? <==> !PanelReadable(mc, mcxs, mcys, mczs, mcus, mcvs, mcws, mckes)
      ensures r.Drawn? ==>
        mckes.Some? && PanelShows(r.panel, pmtPos, Box(), evtNr, mc, mcxs, mcys, mczs, mcus, mcvs, mcws,
                                  mckes.value, mcparticlecount, photons, ids, npes)
    {
      if mckes.None? || mcxs.None? || |mcxs.value| == 0 || mcys.None? || |mcys.value| == 0
         || mczs.None? || |mczs.value| == 0 {
        return Faulted;
      }
      var ok, listed := ListParticles(mc, mckes.value, mcus, mcvs, mcws);
      if !ok {
        return Faulted;
      }
      var p := ComposePanel(evtNr, mc, mcxs.value, mcys.value, mczs.value, mcus, mcvs, mcws, mckes.value, mcparticlecount,
                            photons, ids, npes, listed);
      PanelShowsIntro(p, pmtPos, Box(), evtNr, mc, mcxs.value, mcys.value, mczs.value, mcus, mcvs, mcws, mckes.value,
                      mcparticlecount, photons, ids, npes);
      r := Drawn(p);
    }

    /** The panel of a readable event: the sensor faces, the energy sum, the vertex and the
        particle listing already collected and sorted. */
    method ComposePanel(evtNr: int, mc: Option<TruthRecord>, xs: seq<real>, ys: seq<real>, zs: seq<real>,
                        us: Option<seq<real>>, vs: Option<seq<real>>, ws: Option<seq<real>>,
                        kes: seq<real>, mcparticlecount: int, photons: Photons, ids: seq<int>, npes: seq<int>,
                        listed: seq<Listed>)
      returns (p: Panel)
      requires |ids| == |npes| && |xs| > 0 && |ys| > 0 && |zs| > 0
      requires SortedByKEDescending(listed)
      requires mc.None? ==> listed == []
      requires mc.Some? ==>
        && ListingReadable(mc.value, MinInt(|mc.value|, MAX_SHOW), kes, us, vs, ws)
        && multiset(listed) == multiset(Collected(mc.value, MinInt(|mc.value|, MAX_SHOW), kes, us, vs, ws))
      ensures p.npeMap == Maps.InsertAll(map[], ids, npes)
      ensures FaceAssignment(p.faces, pmtPos, Box())
      ensures PlotsOf(p.plots, p.faces, pmtPos, Box(), p.npeMap)
      ensures p.totalEdep == SumPositive(kes) && p.photons == photons && p.collectedPEs == |npes|
      ensures p.vertex == Vec3(0.001 * xs[0], 0.001 * ys[0], 0.001 * zs[0])
      ensures p.particleCount == mcparticlecount && p.listed == listed
      ensures p.notListed == (if ParticleCount(mc) > MAX_SHOW then Some(ParticleCount(mc) - MAX_SHOW) else None)
      ensures p.fileName == EventFileName(evtNr)
    {
      var npeMap := BuildNpeMap(ids, npes);
      var faces := AssignPMTsToFaces();
      var plots := DrawFaces(faces, npeMap);
      var totalEdep := TotalEdep(kes);
      var vertex := Vec3(0.001 * xs[0], 0.001 * ys[0], 0.001 * zs[0]);
      var nparIn := ParticleCount(mc);
      var notListed := if nparIn > MAX_SHOW then Some(nparIn - MAX_SHOW) else None;
      var fileName := EventFileName(evtNr);
      p := Panel(npeMap, faces, plots, totalEdep, photons, |npes|, vertex, mcparticlecount,
                 listed, notListed, fileName);
    }

    /** Draws the six faces in draw order. */
    method DrawFaces(faces: seq<seq<int>>, npeMap: map<int, int>) returns (plots: seq<FacePlot>)
      requires |faces| == 6
      ensures PlotsOf(plots, faces, pmtPos, Box(), npeMap)
    {
      plots := [];
      var i := 0;
      while i < 6
        invariant 0 <= i <= 6 && |plots| == i
        invariant forall q :: 0 <= q < i ==>
          plots[q] == FacePlot(DRAW_ORDER[q], FrameOf(DRAW_ORDER[q], Box()),
                               FaceFills(DRAW_ORDER[q], faces[FaceIndex(DRAW_ORDER[q])], pmtPos, npeMap))
      {
        var face := DRAW_ORDER[i];
        var plot := DrawFace(face, faces[FaceIndex(face)], npeMap);
        plots := plots + [plot];
        i := i + 1;
      }
    }
  }
}
