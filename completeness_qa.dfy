// The CompletenessQa analysis object: per-sensor containers that test()
// fills sensor by sensor, the depth it computes for each sensor and the
// depth test record it submits for each.
module Completeness {
  import opened Binning
  import opened LimitingMagnitude
  import opened Matching

  /** A sensor, named by its raft and its CCD. */
  datatype Sensor = Sensor(raft: string, ccd: string)

  /** What the data-access layer supplies for one run, keyed by sensor. */
  datatype Inputs = Inputs(
    detector: seq<Sensor>,                    // the detector map's keys, in iteration order
    filter: map<Sensor, string>,              // filter name per sensor
    matchObj: map<Sensor, seq<Match>>,        // matches against the 'obj' reference set
    matchSrc: map<Sensor, seq<Match>>,        // matches against the 'src' reference set
    sources: map<Sensor, seq<Source>>,        // detected sources
    refObjects: map<Sensor, seq<RefObject>>)  // reference-catalog objects

  /** A record submitted to the test set: its label, value, [min, max], comment and area. */
  datatype TestRecord = TestRecord(
    name: string, value: real, limits: (real, real), comment: string, areaLabel: string)

  const DepthLabel: string := "photometric depth "
  const DepthComment: string := "magnitude where star completeness drops below 0.5"

  /** Everything test() stores for one sensor: its seven vectors and its depth. */
  datatype SensorOutcome = SensorOutcome(
    starObj: seq<real>,
    galaxyObj: seq<real>,
    starSrc: seq<real>,
    galaxySrc: seq<real>,
    unmatchedCatStar: seq<real>,
    unmatchedCatGalaxy: seq<real>,
    unmatchedImage: seq<real>,
    depth: real)

  /** One pass over a sensor's match list; a sensor without one gets an empty pass. */
  function SplitFor(lists: map<Sensor, seq<Match>>, k: Sensor, ft: FluxType, toMag: real -> real): MatchSplit {
    SplitMatches(if k in lists then lists[k] else [], ft, toMag)
  }

  /**
   * What test() computes for sensor k. The id dictionaries are rebuilt for
   * each match list, so only the 'src' pass decides what is unmatched; the
   * depth is limitingMag's, from the matched and the unmatched catalog stars.
   */
  function Outcome(inp: Inputs, k: Sensor, ft: FluxType, toMag: real -> real,
                   catMag: (RefObject, string) -> real): SensorOutcome
    requires k in inp.filter
  {
    var obj := SplitFor(inp.matchObj, k, ft, toMag);
    var src := SplitFor(inp.matchSrc, k, ft, toMag);
    var image := if k in inp.sources then UnmatchedImageMags(inp.sources[k], src.sourceIds, ft, toMag) else [];
    var refs := if k in inp.refObjects then UnmatchedRefs(inp.refObjects[k], src.refIds) else [];
    var catStar := CatalogMags(refs, true, inp.filter[k], catMag);
    var catGalaxy := CatalogMags(refs, false, inp.filter[k], catMag);
    SensorOutcome(obj.stars, obj.galaxies, src.stars, src.galaxies, catStar, catGalaxy, image, Depth(src.stars, catStar))
  }

  /**
   * A sensor's unmatched-image magnitudes come from exactly its sources
   * with a positive flux that no accepted pair of the 'src' list claims.
   */
  lemma UnmatchedImageSources(inp: Inputs, k: Sensor, ft: FluxType, toMag: real -> real)
    requires k in inp.sources
    ensures var src := if k in inp.matchSrc then inp.matchSrc[k] else [];
      var orphans := Orphans(inp.sources[k], SplitFor(inp.matchSrc, k, ft, toMag).sourceIds, ft);
      forall s :: s in orphans <==>
        && s in inp.sources[k]
        && Flux(s, ft) > 0.0
        && !(exists m :: m in src && Accepted(m, ft) && m.src.id == s.id)
  {
    var src := if k in inp.matchSrc then inp.matchSrc[k] else [];
    RecordedIdsExactly(src, ft, toMag);
    OrphansExactly(inp.sources[k], SplitFor(inp.matchSrc, k, ft, toMag).sourceIds, ft);
  }

  /**
   * A sensor's unmatched-catalog lists hold one magnitude per reference
   * object that no accepted pair of the 'src' list claims, in the list of
   * its class.
   */
  lemma UnmatchedCatalogObjects(inp: Inputs, k: Sensor, ft: FluxType, toMag: real -> real,
                                catMag: (RefObject, string) -> real)
    requires k in inp.filter && k in inp.refObjects
    ensures var src := if k in inp.matchSrc then inp.matchSrc[k] else [];
      var unmatched := UnmatchedRefs(inp.refObjects[k], SplitFor(inp.matchSrc, k, ft, toMag).refIds);
      var o := Outcome(inp, k, ft, toMag, catMag);
      && (forall r :: r in unmatched <==>
            && r in inp.refObjects[k]
            && !(exists m :: m in src && Accepted(m, ft) && m.ref.id == r.id))
      && |o.unmatchedCatStar| + |o.unmatchedCatGalaxy| == |unmatched|
      && (forall x :: multiset(o.unmatchedCatStar)[x] ==
            |Positions(inp.refObjects[k], UnrecordedOfClass(SplitFor(inp.matchSrc, k, ft, toMag).refIds, true, inp.filter[k], catMag, x))|)
      && (forall x :: multiset(o.unmatchedCatGalaxy)[x] ==
            |Positions(inp.refObjects[k], UnrecordedOfClass(SplitFor(inp.matchSrc, k, ft, toMag).refIds, false, inp.filter[k], catMag, x))|)
  {
    var src := if k in inp.matchSrc then inp.matchSrc[k] else [];
    RecordedIdsExactly(src, ft, toMag);
    UnmatchedCatalogPartition(inp.refObjects[k], SplitFor(inp.matchSrc, k, ft, toMag).refIds,
                              inp.filter[k], catMag);
  }

  /**
   * The 'obj' match list has no say in the unmatched lists or in the depth:
   * two runs that differ only in it agree on them.
   */
  lemma ObjListIgnored(inp: Inputs, objLists: map<Sensor, seq<Match>>, k: Sensor, ft: FluxType,
                       toMag: real -> real, catMag: (RefObject, string) -> real)
    requires k in inp.filter
    ensures var a, b := Outcome(inp, k, ft, toMag, catMag), Outcome(inp.(matchObj := objLists), k, ft, toMag, catMag);
      && a.unmatchedImage == b.unmatchedImage
      && a.unmatchedCatStar == b.unmatchedCatStar
      && a.unmatchedCatGalaxy == b.unmatchedCatGalaxy
      && Depth(a.starSrc, a.unmatchedCatStar) == Depth(b.starSrc, b.unmatchedCatStar)
  {
  }

  /**
   * A source that only the 'obj' list matches is still reported as an
   * unmatched detection.
   */
  lemma ObjOnlyMatchStaysUnmatched(ft: FluxType, toMag: real -> real, catMag: (RefObject, string) -> real)
    ensures var k := Sensor("R:1,1", "S:0,0");
      var s := Source(7, 100.0, 100.0, {Star});
      var m := Match(RefObject(3, 50.0, true), s, 0.1);
      var inp := Inputs([k], map[k := "r"], map[k := [m]], map[k := []], map[k := [s]], map[]);
      && Accepted(m, ft)
      && Outcome(inp, k, ft, toMag, catMag).starObj == [toMag(50.0)]
      && Outcome(inp, k, ft, toMag, catMag).unmatchedImage == [toMag(100.0)]
  {
    var k := Sensor("R:1,1", "S:0,0");
    var s := Source(7, 100.0, 100.0, {Star});
    var m := Match(RefObject(3, 50.0, true), s, 0.1);
    var inp := Inputs([k], map[k := "r"], map[k := [m]], map[k := []], map[k := [s]], map[]);
    assert Flux(s, ft) == 100.0;
    assert Kept([m], ft) == [m] by {
      assert [m][..0] == [];
    }
    assert RefMags([m], true, toMag) == [toMag(50.0)] by {
      assert [m][..0] == [];
    }
    assert SplitFor(inp.matchObj, k, ft, toMag).stars == [toMag(50.0)];
    assert SplitFor(inp.matchSrc, k, ft, toMag).sourceIds == map[];
    assert Orphans([s], map[], ft) == [s] by {
      assert [s][..0] == [];
    }
    assert UnmatchedImageMags([s], map[], ft, toMag) == [toMag(100.0)];
  }

  /** The depth test record of one sensor. */
  function DepthRecord(value: real, limits: (real, real), area: string): TestRecord {
    TestRecord(DepthLabel, value, limits, DepthComment, area)
  }

  /** The seven per-sensor vectors that test() fills. */
  datatype Container =
    | StarObj | GalaxyObj | StarSrc | GalaxySrc
    | UnmatchedCatStar | UnmatchedCatGalaxy | UnmatchedImage

  /** The part of a sensor's outcome that goes into container c. */
  function Select(o: SensorOutcome, c: Container): seq<real> {
    match c
    case StarObj => o.starObj
    case GalaxyObj => o.galaxyObj
    case StarSrc => o.starSrc
    case GalaxySrc => o.galaxySrc
    case UnmatchedCatStar => o.unmatchedCatStar
    case UnmatchedCatGalaxy => o.unmatchedCatGalaxy
    case UnmatchedImage => o.unmatchedImage
  }

  /** Everything an analysis has stored: the seven containers, the depths and the submitted records. */
  datatype Analysis = Analysis(
    starObj: map<Sensor, seq<real>>,
    galaxyObj: map<Sensor, seq<real>>,
    starSrc: map<Sensor, seq<real>>,
    galaxySrc: map<Sensor, seq<real>>,
    unmatchedCatStar: map<Sensor, seq<real>>,
    unmatchedCatGalaxy: map<Sensor, seq<real>>,
    unmatchedImage: map<Sensor, seq<real>>,
    depth: map<Sensor, real>,
    testSet: seq<TestRecord>)

  /** Container c of an analysis. */
  function Vector(a: Analysis, c: Container): map<Sensor, seq<real>> {
    match c
    case StarObj => a.starObj
    case GalaxyObj => a.galaxyObj
    case StarSrc => a.starSrc
    case GalaxySrc => a.galaxySrc
    case UnmatchedCatStar => a.unmatchedCatStar
    case UnmatchedCatGalaxy => a.unmatchedCatGalaxy
    case UnmatchedImage => a.unmatchedImage
  }

  /**
   * The state test() starts its loop from: an empty vector for every
   * detector key in each container, no depth yet, the records already submitted.
   */
  function Fresh(keys: seq<Sensor>, testSet: seq<TestRecord>): Analysis {
    var empty := map k | k in keys :: [];
    Analysis(empty, empty, empty, empty, empty, empty, empty, map[], testSet)
  }

  /**
   * One pass of test()'s loop: sensor k's vectors replaced by its outcome,
   * its depth stored and its depth record submitted.
   */
  function Record(a: Analysis, k: Sensor, o: SensorOutcome, limits: (real, real), area: string): Analysis {
    Analysis(
      a.starObj[k := o.starObj], a.galaxyObj[k := o.galaxyObj],
      a.starSrc[k := o.starSrc], a.galaxySrc[k := o.galaxySrc],
      a.unmatchedCatStar[k := o.unmatchedCatStar], a.unmatchedCatGalaxy[k := o.unmatchedCatGalaxy],
      a.unmatchedImage[k := o.unmatchedImage],
      a.depth[k := o.depth],
      a.testSet + [DepthRecord(o.depth, limits, area)])
  }

  /** Every detector key has a filter, as test() needs when it looks one up. */
  predicate FilterForEach(inp: Inputs) {
    forall i :: 0 <= i < |inp.detector| ==> inp.detector[i] in inp.filter
  }

  /** The outcome of a sensor that has no filter, which test() never reaches. */
  const NoOutcome := SensorOutcome([], [], [], [], [], [], [], 0.0)

  /** Sensor k's outcome in this run, for every sensor that has a filter. */
  function OutcomeOf(inp: Inputs, ft: FluxType, toMag: real -> real,
                     catMag: (RefObject, string) -> real): Sensor -> SensorOutcome
  {
    k => if k in inp.filter then Outcome(inp, k, ft, toMag, catMag) else NoOutcome
  }

  /**
   * The analysis after the keys of done have been handled in order,
   * starting from start, each sensor k with its outcome outcome(k).
   */
  function Run(start: Analysis, done: seq<Sensor>, outcome: Sensor -> SensorOutcome,
               limits: (real, real), areaName: Sensor -> string): Analysis
    decreases |done|, 1
  {
    if done == [] then start else Handled(start, done, outcome, limits, areaName)
  }

  /** The analysis just after the last key of done has been handled. */
  function Handled(start: Analysis, done: seq<Sensor>, outcome: Sensor -> SensorOutcome,
                   limits: (real, real), areaName: Sensor -> string): Analysis
    requires done != []
    decreases |done|, 0
  {
    var k := done[|done| - 1];
    Record(Run(start, done[..|done| - 1], outcome, limits, areaName), k, outcome(k), limits, areaName(k))
  }

  /** Handling one more key k extends the analysis by that sensor's outcome. */
  lemma RunStep(start: Analysis, done: seq<Sensor>, k: Sensor, outcome: Sensor -> SensorOutcome,
                limits: (real, real), areaName: Sensor -> string)
    ensures Run(start, done + [k], outcome, limits, areaName)
         == Record(Run(start, done, outcome, limits, areaName), k, outcome(k), limits, areaName(k))
  {
    assert (done + [k])[..|done|] == done;
  }

  /** The loop's step: handling key n of keys after the first n. */
  lemma RunPrefixStep(start: Analysis, keys: seq<Sensor>, n: nat, outcome: Sensor -> SensorOutcome,
                      limits: (real, real), areaName: Sensor -> string)
    requires n < |keys|
    ensures Run(start, keys[..n + 1], outcome, limits, areaName)
         == Record(Run(start, keys[..n], outcome, limits, areaName), keys[n], outcome(keys[n]), limits, areaName(keys[n]))
  {
    assert keys[..n + 1] == keys[..n] + [keys[n]];
    RunStep(start, keys[..n], keys[n], outcome, limits, areaName);
  }

  /** The loop's exit: all keys handled. */
  lemma RunWhole(start: Analysis, keys: seq<Sensor>, outcome: Sensor -> SensorOutcome,
                 limits: (real, real), areaName: Sensor -> string)
    ensures Run(start, keys[..|keys|], outcome, limits, areaName) == Run(start, keys, outcome, limits, areaName)
  {
    assert keys[..|keys|] == keys;
  }

  /** Recording sensor k replaces its vector in container c and leaves every other key alone. */
  lemma RecordVector(a: Analysis, k: Sensor, o: SensorOutcome, limits: (real, real), area: string,
                     c: Container, key: Sensor)
    ensures var m, m' := Vector(a, c), Vector(Record(a, k, o, limits, area), c);
      && (key in m' <==> key in m || key == k)
      && (key == k ==> m'[key] == Select(o, c))
      && (key != k && key in m ==> m'[key] == m[key])
  {
  }

  /**
   * A handled sensor's vector in container c is the one its outcome gives;
   * every other key keeps the vector it started with, and no key is added
   * beyond the handled ones.
   */
  lemma {:induction false} RunVector(start: Analysis, done: seq<Sensor>, outcome: Sensor -> SensorOutcome,
                                     limits: (real, real), areaName: Sensor -> string, c: Container, k: Sensor)
    ensures var m, m0 := Vector(Run(start, done, outcome, limits, areaName), c), Vector(start, c);
      && (k in m <==> k in m0 || k in done)
      && (k in done ==> m[k] == Select(outcome(k), c))
      && (k !in done && k in m0 ==> m[k] == m0[k])
  {
    if done != [] {
      var init, last := done[..|done| - 1], done[|done| - 1];
      assert done == init + [last];
      RunVector(start, init, outcome, limits, areaName, c, k);
      RunStep(start, init, last, outcome, limits, areaName);
      RecordVector(Run(start, init, outcome, limits, areaName), last, outcome(last), limits, areaName(last), c, k);
    }
  }

  /** A handled sensor's depth is the one its outcome gives; other depths stay as they were. */
  lemma {:induction false} RunDepth(start: Analysis, done: seq<Sensor>, outcome: Sensor -> SensorOutcome,
                                    limits: (real, real), areaName: Sensor -> string, k: Sensor)
    ensures var d, d0 := Run(start, done, outcome, limits, areaName).depth, start.depth;
      && (k in d <==> k in d0 || k in done)
      && (k in done ==> d[k] == outcome(k).depth)
      && (k !in done && k in d0 ==> d[k] == d0[k])
  {
    if done != [] {
      var init, last := done[..|done| - 1], done[|done| - 1];
      assert done == init + [last];
      RunDepth(start, init, outcome, limits, areaName, k);
      RunStep(start, init, last, outcome, limits, areaName);
    }
  }

  /**
   * The records submitted before stay in front, followed by one depth record
   * per handled sensor, in key order.
   */
  lemma {:induction false} RunRecords(start: Analysis, done: seq<Sensor>, outcome: Sensor -> SensorOutcome,
                                      limits: (real, real), areaName: Sensor -> string, i: nat)
    ensures var r, r0 := Run(start, done, outcome, limits, areaName).testSet, start.testSet;
      && |r| == |r0| + |done|
      && r[..|r0|] == r0
      && (i < |done| ==> r[|r0| + i] == DepthRecord(outcome(done[i]).depth, limits, areaName(done[i])))
  {
    if done != [] {
      var init, last := done[..|done| - 1], done[|done| - 1];
      assert done == init + [last];
      RunRecords(start, init, outcome, limits, areaName, i);
      RunStep(start, init, last, outcome, limits, areaName);
    }
  }

  /**
   * What test() leaves behind, given the records submitted before it:
   * fresh containers for the detector keys, then every key handled in order.
   */
  function Analyzed(inp: Inputs, ft: FluxType, toMag: real -> real, catMag: (RefObject, string) -> real,
                    limits: (real, real), areaName: Sensor -> string, testSet: seq<TestRecord>): Analysis
  {
    Run(Fresh(inp.detector, testSet), inp.detector, OutcomeOf(inp, ft, toMag, catMag), limits, areaName)
  }

  /** For a sensor with a filter, the run's outcome function gives that sensor's outcome. */
  lemma OutcomeAt(inp: Inputs, ft: FluxType, toMag: real -> real, catMag: (RefObject, string) -> real, k: Sensor)
    ensures k in inp.filter ==> OutcomeOf(inp, ft, toMag, catMag)(k) == Outcome(inp, k, ft, toMag, catMag)
  {
  }

  /**
   * After test(): container c holds exactly the detector keys, each sensor
   * with the vector its own outcome gives.
   */
  lemma TestStoresVectors(inp: Inputs, ft: FluxType, toMag: real -> real, catMag: (RefObject, string) -> real,
                          limits: (real, real), areaName: Sensor -> string, testSet: seq<TestRecord>,
                          c: Container, k: Sensor)
    requires FilterForEach(inp)
    ensures var m := Vector(Analyzed(inp, ft, toMag, catMag, limits, areaName, testSet), c);
      && (k in m <==> k in inp.detector)
      && (k in inp.detector ==> m[k] == Select(Outcome(inp, k, ft, toMag, catMag), c))
  {
    RunVector(Fresh(inp.detector, testSet), inp.detector, OutcomeOf(inp, ft, toMag, catMag), limits, areaName, c, k);
    OutcomeAt(inp, ft, toMag, catMag, k);
  }

  /**
   * After test(): the depth table holds exactly the detector keys, each
   * sensor with the depth its own outcome gives.
   */
  lemma TestStoresDepths(inp: Inputs, ft: FluxType, toMag: real -> real, catMag: (RefObject, string) -> real,
                         limits: (real, real), areaName: Sensor -> string, testSet: seq<TestRecord>, k: Sensor)
    requires FilterForEach(inp)
    ensures var d := Analyzed(inp, ft, toMag, catMag, limits, areaName, testSet).depth;
      && (k in d <==> k in inp.detector)
      && (k in inp.detector ==> d[k] == Outcome(inp, k, ft, toMag, catMag).depth)
  {
    RunDepth(Fresh(inp.detector, testSet), inp.detector, OutcomeOf(inp, ft, toMag, catMag), limits, areaName, k);
    OutcomeAt(inp, ft, toMag, catMag, k);
  }

  /**
   * After test(): the records submitted before, then one depth record per
   * detector key in key order, each carrying the depth stored for its key.
   */
  lemma TestSubmitsRecords(inp: Inputs, ft: FluxType, toMag: real -> real, catMag: (RefObject, string) -> real,
                           limits: (real, real), areaName: Sensor -> string, testSet: seq<TestRecord>, i: nat)
    requires FilterForEach(inp)
    ensures var a := Analyzed(inp, ft, toMag, catMag, limits, areaName, testSet);
      && |a.testSet| == |testSet| + |inp.detector|
      && a.testSet[..|testSet|] == testSet
      && (i < |inp.detector| ==>
            && inp.detector[i] in a.depth
            && a.testSet[|testSet| + i] == DepthRecord(a.depth[inp.detector[i]], limits, areaName(inp.detector[i])))
  {
    var start, outcome := Fresh(inp.detector, testSet), OutcomeOf(inp, ft, toMag, catMag);
    RunRecords(start, inp.detector, outcome, limits, areaName, i);
    if i < |inp.detector| {
      RunDepth(start, inp.detector, outcome, limits, areaName, inp.detector[i]);
    }
  }

  class CompletenessQa {
    const limits: (real, real)
    var fluxType: FluxType
    var matchStarObj: map<Sensor, seq<real>>
    var matchGalObj: map<Sensor, seq<real>>
    var matchStarSrc: map<Sensor, seq<real>>
    var matchGalSrc: map<Sensor, seq<real>>
    var unmatchCatStar: map<Sensor, seq<real>>
    var unmatchCatGal: map<Sensor, seq<real>>
    var unmatchImage: map<Sensor, seq<real>>
    var depth: map<Sensor, real>
    var testSet: seq<TestRecord>  // the records this analysis has submitted

    constructor (completenessMagMin: real, completenessMagMax: real)
      ensures limits == (completenessMagMin, completenessMagMax)
      ensures depth == map[] && testSet == []
      ensures matchStarObj == map[] && matchGalObj == map[] && matchStarSrc == map[] && matchGalSrc == map[]
      ensures unmatchCatStar == map[] && unmatchCatGal == map[] && unmatchImage == map[]
    {
      limits := (completenessMagMin, completenessMagMax);
      fluxType := Psf;
      matchStarObj, matchGalObj, matchStarSrc, matchGalSrc := map[], map[], map[], map[];
      unmatchCatStar, unmatchCatGal, unmatchImage := map[], map[], map[];
      depth := map[];
      testSet := [];
    }

    /** The stored containers, depths and records, as one value. */
    function State(): Analysis
      reads this
    {
      Analysis(matchStarObj, matchGalObj, matchStarSrc, matchGalSrc,
               unmatchCatStar, unmatchCatGal, unmatchImage, depth, testSet)
    }

    /** limitingMag for sensor k: the depth from its matched and its undetected catalog stars. */
    method LimitingMag(k: Sensor) returns (r: real)
      requires k in matchStarSrc && k in unmatchCatStar
      ensures r == Depth(matchStarSrc[k], unmatchCatStar[k])
    {
      var hd := Histogram(matchStarSrc[k]);
      var hu := Histogram(unmatchCatStar[k]);
      RetainFromBins(hd, hu, 0);
      var bins := Retained(hd, hu);
      r := FindCrossing(Centers(bins), Fractions(bins));
    }

    /** The 'obj' pass of test()'s match loop; its id dictionaries are dropped. */
    method ObjPass(inp: Inputs, k: Sensor, ft: FluxType, toMag: real -> real)
      modifies this`matchStarObj, this`matchGalObj
      ensures matchStarObj == old(matchStarObj)[k := SplitFor(inp.matchObj, k, ft, toMag).stars]
      ensures matchGalObj == old(matchGalObj)[k := SplitFor(inp.matchObj, k, ft, toMag).galaxies]
    {
      var matches := if k in inp.matchObj then inp.matchObj[k] else [];
      var split := PartitionMatches(matches, ft, toMag);
      matchStarObj := matchStarObj[k := split.stars];
      matchGalObj := matchGalObj[k := split.galaxies];
    }

    /**
     * The 'src' pass of test()'s match loop; its id dictionaries, built
     * afresh, are the ones the unmatched lists are drawn against.
     */
    method SrcPass(inp: Inputs, k: Sensor, ft: FluxType, toMag: real -> real)
      returns (matchSourceIds: map<int, nat>, matchSourceRefIds: map<int, nat>)
      modifies this`matchStarSrc, this`matchGalSrc
      ensures matchStarSrc == old(matchStarSrc)[k := SplitFor(inp.matchSrc, k, ft, toMag).stars]
      ensures matchGalSrc == old(matchGalSrc)[k := SplitFor(inp.matchSrc, k, ft, toMag).galaxies]
      ensures matchSourceIds == SplitFor(inp.matchSrc, k, ft, toMag).sourceIds
      ensures matchSourceRefIds == SplitFor(inp.matchSrc, k, ft, toMag).refIds
    {
      var matches := if k in inp.matchSrc then inp.matchSrc[k] else [];
      var split := PartitionMatches(matches, ft, toMag);
      matchStarSrc := matchStarSrc[k := split.stars];
      matchGalSrc := matchGalSrc[k := split.galaxies];
      matchSourceIds, matchSourceRefIds := split.sourceIds, split.refIds;
    }

    /** The unmatched-image and unmatched-catalog lists of one sensor. */
    method UnmatchedPass(inp: Inputs, k: Sensor, ft: FluxType, toMag: real -> real,
                         catMag: (RefObject, string) -> real,
                         matchSourceIds: map<int, nat>, matchSourceRefIds: map<int, nat>)
      requires k in inp.filter
      modifies this`unmatchImage, this`unmatchCatStar, this`unmatchCatGal
      ensures var refs := if k in inp.refObjects then UnmatchedRefs(inp.refObjects[k], matchSourceRefIds) else [];
        && unmatchImage == old(unmatchImage)[k :=
             if k in inp.sources then UnmatchedImageMags(inp.sources[k], matchSourceIds, ft, toMag) else []]
        && unmatchCatStar == old(unmatchCatStar)[k := CatalogMags(refs, true, inp.filter[k], catMag)]
        && unmatchCatGal == old(unmatchCatGal)[k := CatalogMags(refs, false, inp.filter[k], catMag)]
    {
      var image := [];
      if k in inp.sources {
        image := CollectUnmatchedImage(inp.sources[k], matchSourceIds, ft, toMag);
      }
      unmatchImage := unmatchImage[k := image];

      var filterName := inp.filter[k];
      var catStar, catGalaxy := [], [];
      if k in inp.refObjects {
        catStar, catGalaxy := CollectUnmatchedCatalog(inp.refObjects[k], matchSourceRefIds, filterName, catMag);
      }
      unmatchCatStar := unmatchCatStar[k := catStar];
      unmatchCatGal := unmatchCatGal[k := catGalaxy];
    }

    /** The three passes of test()'s loop that fill sensor k's seven vectors. */
    method FillSensor(inp: Inputs, k: Sensor, ft: FluxType, toMag: real -> real,
                      catMag: (RefObject, string) -> real)
      requires k in inp.filter
      modifies this`matchStarObj, this`matchGalObj, this`matchStarSrc, this`matchGalSrc,
               this`unmatchCatStar, this`unmatchCatGal, this`unmatchImage
      ensures var o := Outcome(inp, k, ft, toMag, catMag);
        && matchStarObj == old(matchStarObj)[k := o.starObj]
        && matchGalObj == old(matchGalObj)[k := o.galaxyObj]
        && matchStarSrc == old(matchStarSrc)[k := o.starSrc]
        && matchGalSrc == old(matchGalSrc)[k := o.galaxySrc]
        && unmatchCatStar == old(unmatchCatStar)[k := o.unmatchedCatStar]
        && unmatchCatGal == old(unmatchCatGal)[k := o.unmatchedCatGalaxy]
        && unmatchImage == old(unmatchImage)[k := o.unmatchedImage]
    {
      ObjPass(inp, k, ft, toMag);
      var matchSourceIds, matchSourceRefIds := SrcPass(inp, k, ft, toMag);
      UnmatchedPass(inp, k, ft, toMag, catMag, matchSourceIds, matchSourceRefIds);
    }

    /** The body of test()'s loop for one sensor: its vectors, its depth and its test record. */
    method AnalyzeSensor(inp: Inputs, k: Sensor, ft: FluxType, toMag: real -> real,
                         catMag: (RefObject, string) -> real, areaName: Sensor -> string)
      requires k in inp.filter
      modifies this`matchStarObj, this`matchGalObj, this`matchStarSrc, this`matchGalSrc,
               this`unmatchCatStar, this`unmatchCatGal, this`unmatchImage, this`depth, this`testSet
      ensures State() == Record(old(State()), k, Outcome(inp, k, ft, toMag, catMag), limits, areaName(k))
    {
      FillSensor(inp, k, ft, toMag, catMag);
      var maxDepth := LimitingMag(k);
      depth := depth[k := maxDepth];
      testSet := testSet + [DepthRecord(maxDepth, limits, areaName(k))];
    }

    /** Test()'s loop body for detector key n, given the first n keys are done. */
    method HandleKey(inp: Inputs, n: nat, ft: FluxType, toMag: real -> real,
                     catMag: (RefObject, string) -> real, areaName: Sensor -> string,
                     ghost start: Analysis)
      requires FilterForEach(inp) && n < |inp.detector|
      requires State() == Run(start, inp.detector[..n], OutcomeOf(inp, ft, toMag, catMag), limits, areaName)
      modifies this`matchStarObj, this`matchGalObj, this`matchStarSrc, this`matchGalSrc,
               this`unmatchCatStar, this`unmatchCatGal, this`unmatchImage, this`depth, this`testSet
      ensures State() == Run(start, inp.detector[..n + 1], OutcomeOf(inp, ft, toMag, catMag), limits, areaName)
    {
      AnalyzeSensor(inp, inp.detector[n], ft, toMag, catMag, areaName);
      RunPrefixStep(start, inp.detector, n, OutcomeOf(inp, ft, toMag, catMag), limits, areaName);
    }

    /** The containers test() sets up: an empty vector for every detector key, no depths yet. */
    method Reset(keys: seq<Sensor>, ft: FluxType)
      modifies this
      ensures State() == Fresh(keys, old(testSet))
      ensures fluxType == ft
    {
      fluxType := ft;
      var start := Fresh(keys, testSet);
      matchStarObj, matchGalObj, matchStarSrc, matchGalSrc := start.starObj, start.galaxyObj, start.starSrc, start.galaxySrc;
      unmatchCatStar, unmatchCatGal, unmatchImage := start.unmatchedCatStar, start.unmatchedCatGalaxy, start.unmatchedImage;
      depth := start.depth;
    }

    /** Test()'s loop over the detector keys, from the analysis start. */
    method AnalyzeAll(inp: Inputs, ft: FluxType, toMag: real -> real,
                      catMag: (RefObject, string) -> real, areaName: Sensor -> string, ghost start: Analysis)
      requires FilterForEach(inp) && State() == start
      modifies this`matchStarObj, this`matchGalObj, this`matchStarSrc, this`matchGalSrc,
               this`unmatchCatStar, this`unmatchCatGal, this`unmatchImage, this`depth, this`testSet
      ensures State() == Run(start, inp.detector, OutcomeOf(inp, ft, toMag, catMag), limits, areaName)
    {
      for n := 0 to |inp.detector|
        invariant State() == Run(start, inp.detector[..n], OutcomeOf(inp, ft, toMag, catMag), limits, areaName)
      {
        HandleKey(inp, n, ft, toMag, catMag, areaName, start);
      }
      RunWhole(start, inp.detector, OutcomeOf(inp, ft, toMag, catMag), limits, areaName);
    }

    /**
     * The analysis run: fresh containers for every detector key, then every
     * sensor analysed in key order, each with its depth and one test record.
     */
    method Test(inp: Inputs, ft: FluxType, toMag: real -> real,
                catMag: (RefObject, string) -> real, areaName: Sensor -> string)
      requires FilterForEach(inp)
      modifies this
      ensures fluxType == ft
      ensures State() == Analyzed(inp, ft, toMag, catMag, limits, areaName, old(testSet))
    {
      Reset(inp.detector, ft);
      AnalyzeAll(inp, ft, toMag, catMag, areaName, State());
    }
  }
}
