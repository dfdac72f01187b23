// The per-sensor bookkeeping of CompletenessQa.test: which matched pairs are
// accepted, the reference magnitudes they contribute as stars or galaxies,
// the detection and reference ids they mark as matched, and the two
// unmatched lists derived from those ids.
module Matching {

  /** The detection flags the analysis looks at. */
  datatype Flag = InterpCenter | SaturCenter | Star

  /** A detected source: its id, its two flux measurements and its flags. */
  datatype Source = Source(id: int, psfFlux: real, apFlux: real, flags: set<Flag>)

  /** A reference-catalog object: its id, its PSF flux and its star/galaxy class. */
  datatype RefObject = RefObject(id: int, psfFlux: real, isStar: bool)

  /** A (reference, detection, separation) triple from the matcher. */
  datatype Match = Match(ref: RefObject, src: Source, distance: real)

  /** Which detection flux is used: "psf" selects the PSF flux, anything else the aperture flux. */
  datatype FluxType = Psf | Aperture

  function Flux(s: Source, ft: FluxType): real {
    match ft
    case Psf => s.psfFlux
    case Aperture => s.apFlux
  }

  /** INTERP_CENTER or SATUR_CENTER is set. */
  predicate HasBadFlag(s: Source) {
    InterpCenter in s.flags || SaturCenter in s.flags
  }

  /** A pair counts only with both fluxes positive and no bad flag on the detection. */
  predicate Accepted(m: Match, ft: FluxType) {
    m.ref.psfFlux > 0.0 && Flux(m.src, ft) > 0.0 && !HasBadFlag(m.src)
  }

  /** The accepted pairs of a match list, in list order. */
  function Kept(ms: seq<Match>, ft: FluxType): seq<Match> {
    if ms == [] then []
    else
      var m := ms[|ms| - 1];
      Kept(ms[..|ms| - 1], ft) + (if Accepted(m, ft) then [m] else [])
  }

  /**
   * The reference magnitudes of the pairs whose detection carries the STAR
   * flag (star == true) or does not (star == false), in list order.
   */
  function RefMags(kept: seq<Match>, star: bool, toMag: real -> real): seq<real> {
    if kept == [] then []
    else
      var m := kept[|kept| - 1];
      RefMags(kept[..|kept| - 1], star, toMag)
        + (if (Star in m.src.flags) == star then [toMag(m.ref.psfFlux)] else [])
  }

  /** One more occurrence of id, starting from zero for a new id. */
  function Bump(counts: map<int, nat>, id: int): map<int, nat> {
    counts[id := (if id in counts then counts[id] else 0) + 1]
  }

  /** The dictionary update of the match loop: a new id starts at zero, then its count goes up by one. */
  method CountId(counts: map<int, nat>, id: int) returns (r: map<int, nat>)
    ensures r == Bump(counts, id)
  {
    r := counts;
    if id !in r {
      r := r[id := 0];
    }
    r := r[id := r[id] + 1];
  }

  /** The dictionary of occurrence counts of a list of ids. */
  function IdCounts(ids: seq<int>): map<int, nat> {
    if ids == [] then map[] else Bump(IdCounts(ids[..|ids| - 1]), ids[|ids| - 1])
  }

  function SourceIds(ms: seq<Match>): seq<int> {
    seq(|ms|, i requires 0 <= i < |ms| => ms[i].src.id)
  }

  function RefIds(ms: seq<Match>): seq<int> {
    seq(|ms|, i requires 0 <= i < |ms| => ms[i].ref.id)
  }

  /** What one pass over a match list leaves behind. */
  datatype MatchSplit = MatchSplit(
    stars: seq<real>,
    galaxies: seq<real>,
    sourceIds: map<int, nat>,
    refIds: map<int, nat>)

  function SplitMatches(ms: seq<Match>, ft: FluxType, toMag: real -> real): MatchSplit {
    var kept := Kept(ms, ft);
    MatchSplit(
      RefMags(kept, true, toMag),
      RefMags(kept, false, toMag),
      IdCounts(SourceIds(kept)),
      IdCounts(RefIds(kept)))
  }

  /**
   * One pass of the match loop: filter the pairs, count the accepted ids in
   * two fresh dictionaries and split the reference magnitudes by the STAR flag.
   */
  method PartitionMatches(ms: seq<Match>, ft: FluxType, toMag: real -> real) returns (split: MatchSplit)
    ensures split == SplitMatches(ms, ft, toMag)
  {
    var stars, galaxies := [], [];
    var sourceIds: map<int, nat>, refIds: map<int, nat> := map[], map[];
    for i := 0 to |ms|
      invariant stars == RefMags(Kept(ms[..i], ft), true, toMag)
      invariant galaxies == RefMags(Kept(ms[..i], ft), false, toMag)
      invariant sourceIds == IdCounts(SourceIds(Kept(ms[..i], ft)))
      invariant refIds == IdCounts(RefIds(Kept(ms[..i], ft)))
    {
      var m := ms[i];
      KeptStep(ms, i, ft);
      var fref := m.ref.psfFlux;
      var f := if ft == Psf then m.src.psfFlux else m.src.apFlux;
      assert f == Flux(m.src, ft);
      if fref > 0.0 && f > 0.0 && !(InterpCenter in m.src.flags || SaturCenter in m.src.flags) {
        AcceptedStep(Kept(ms[..i], ft), m, toMag);
        var mag := toMag(fref);
        sourceIds := CountId(sourceIds, m.src.id);
        refIds := CountId(refIds, m.ref.id);
        if Star in m.src.flags {
          stars := stars + [mag];
        } else {
          galaxies := galaxies + [mag];
        }
      }
    }
    assert ms[..|ms|] == ms;
    split := MatchSplit(stars, galaxies, sourceIds, refIds);
  }

  lemma KeptStep(ms: seq<Match>, i: int, ft: FluxType)
    requires 0 <= i < |ms|
    ensures Kept(ms[..i + 1], ft) == if Accepted(ms[i], ft) then Kept(ms[..i], ft) + [ms[i]] else Kept(ms[..i], ft)
  {
    assert ms[..i + 1][..i] == ms[..i];
    assert Kept(ms[..i], ft) + [] == Kept(ms[..i], ft);
  }

  /** What appending one accepted pair does to the lists and dictionaries of a pass. */
  lemma AcceptedStep(kept: seq<Match>, m: Match, toMag: real -> real)
    ensures RefMags(kept + [m], true, toMag)
         == if Star in m.src.flags then RefMags(kept, true, toMag) + [toMag(m.ref.psfFlux)] else RefMags(kept, true, toMag)
    ensures RefMags(kept + [m], false, toMag)
         == if Star in m.src.flags then RefMags(kept, false, toMag) else RefMags(kept, false, toMag) + [toMag(m.ref.psfFlux)]
    ensures IdCounts(SourceIds(kept + [m])) == Bump(IdCounts(SourceIds(kept)), m.src.id)
    ensures IdCounts(RefIds(kept + [m])) == Bump(IdCounts(RefIds(kept)), m.ref.id)
  {
    assert (kept + [m])[..|kept|] == kept;
    assert RefMags(kept, true, toMag) + [] == RefMags(kept, true, toMag);
    assert RefMags(kept, false, toMag) + [] == RefMags(kept, false, toMag);
    assert SourceIds(kept + [m]) == SourceIds(kept) + [m.src.id];
    assert RefIds(kept + [m]) == RefIds(kept) + [m.ref.id];
    assert (SourceIds(kept) + [m.src.id])[..|kept|] == SourceIds(kept);
    assert (RefIds(kept) + [m.ref.id])[..|kept|] == RefIds(kept);
  }

  /** Exactly the accepted pairs of the list are kept. */
  lemma {:induction false} KeptExactly(ms: seq<Match>, ft: FluxType)
    ensures forall m :: m in Kept(ms, ft) <==> m in ms && Accepted(m, ft)
  {
    if ms != [] {
      var init := ms[..|ms| - 1];
      KeptExactly(init, ft);
      assert ms == init + [ms[|ms| - 1]];
    }
  }

  /** The id dictionary holds exactly the ids of the list, each with its multiplicity. */
  lemma {:induction false} IdCountsAreMultiplicities(ids: seq<int>)
    ensures forall id :: id in IdCounts(ids) <==> id in ids
    ensures forall id :: id in IdCounts(ids) ==> IdCounts(ids)[id] == multiset(ids)[id]
  {
    if ids != [] {
      var init := ids[..|ids| - 1];
      IdCountsAreMultiplicities(init);
      assert ids == init + [ids[|ids| - 1]];
    }
  }

  /**
   * After a pass over a match list, a detection id (a reference id) is
   * recorded exactly when some accepted pair carries it.
   */
  lemma RecordedIdsExactly(ms: seq<Match>, ft: FluxType, toMag: real -> real)
    ensures forall id :: id in SplitMatches(ms, ft, toMag).sourceIds <==>
      exists m :: m in ms && Accepted(m, ft) && m.src.id == id
    ensures forall id :: id in SplitMatches(ms, ft, toMag).refIds <==>
      exists m :: m in ms && Accepted(m, ft) && m.ref.id == id
  {
    var kept := Kept(ms, ft);
    KeptExactly(ms, ft);
    IdCountsAreMultiplicities(SourceIds(kept));
    IdCountsAreMultiplicities(RefIds(kept));
    forall id
      ensures id in SourceIds(kept) <==> exists m :: m in ms && Accepted(m, ft) && m.src.id == id
      ensures id in RefIds(kept) <==> exists m :: m in ms && Accepted(m, ft) && m.ref.id == id
    {
      if id in SourceIds(kept) {
        var i :| 0 <= i < |kept| && SourceIds(kept)[i] == id;
        assert kept[i] in kept;
      }
      if id in RefIds(kept) {
        var i :| 0 <= i < |kept| && RefIds(kept)[i] == id;
        assert kept[i] in kept;
      }
      if exists m :: m in ms && Accepted(m, ft) && m.src.id == id {
        var m :| m in ms && Accepted(m, ft) && m.src.id == id;
        var i :| 0 <= i < |kept| && kept[i] == m;
        assert SourceIds(kept)[i] == id;
      }
      if exists m :: m in ms && Accepted(m, ft) && m.ref.id == id {
        var m :| m in ms && Accepted(m, ft) && m.ref.id == id;
        var i :| 0 <= i < |kept| && kept[i] == m;
        assert RefIds(kept)[i] == id;
      }
    }
  }

  /** The positions of s whose element satisfies p. */
  function Positions<T>(s: seq<T>, p: T -> bool): set<int> {
    set i | 0 <= i < |s| && p(s[i])
  }

  /** Appending one element adds one position exactly when the element satisfies p. */
  lemma PositionsStep<T>(s: seq<T>, t: T, p: T -> bool)
    ensures |Positions(s + [t], p)| == |Positions(s, p)| + (if p(t) then 1 else 0)
  {
    var before, after := Positions(s, p), Positions(s + [t], p);
    forall i | 0 <= i < |s| ensures i in after <==> i in before {
      assert (s + [t])[i] == s[i];
    }
    if p(t) {
      assert after == before + {|s|};
    } else {
      assert after == before;
    }
  }

  /** A pair of the given class (STAR flag set or not) whose reference magnitude is x. */
  function OfClass(star: bool, toMag: real -> real, x: real): Match -> bool {
    (m: Match) => (Star in m.src.flags) == star && toMag(m.ref.psfFlux) == x
  }

  /** An accepted pair of the given class whose reference magnitude is x. */
  function AcceptedOfClass(ft: FluxType, star: bool, toMag: real -> real, x: real): Match -> bool {
    (m: Match) => Accepted(m, ft) && (Star in m.src.flags) == star && toMag(m.ref.psfFlux) == x
  }

  /** The list of a class holds x once per kept pair of that class whose reference magnitude is x. */
  lemma {:induction false} RefMagsCounts(kept: seq<Match>, toMag: real -> real)
    ensures forall star: bool, x :: multiset(RefMags(kept, star, toMag))[x] == |Positions(kept, OfClass(star, toMag, x))|
  {
    if kept != [] {
      var init, m := kept[..|kept| - 1], kept[|kept| - 1];
      RefMagsCounts(init, toMag);
      assert kept == init + [m];
      forall star: bool, x
        ensures multiset(RefMags(kept, star, toMag))[x] == |Positions(kept, OfClass(star, toMag, x))|
      {
        PositionsStep(init, m, OfClass(star, toMag, x));
      }
    }
  }

  /**
   * Every kept pair contributes one magnitude to exactly one of the two
   * lists: the list of its class holds x once per kept pair of that class
   * whose reference magnitude is x.
   */
  lemma {:induction false} RefMagsPartition(kept: seq<Match>, toMag: real -> real)
    ensures |RefMags(kept, true, toMag)| + |RefMags(kept, false, toMag)| == |kept|
    ensures forall star: bool, x :: x in RefMags(kept, star, toMag) <==>
      exists m :: m in kept && (Star in m.src.flags) == star && toMag(m.ref.psfFlux) == x
    ensures forall star: bool, x :: multiset(RefMags(kept, star, toMag))[x] == |Positions(kept, OfClass(star, toMag, x))|
  {
    RefMagsCounts(kept, toMag);
    if kept != [] {
      var init := kept[..|kept| - 1];
      RefMagsPartition(init, toMag);
      assert kept == init + [kept[|kept| - 1]];
    }
  }

  /**
   * Over the whole match list: the star (galaxy) list of a pass holds x once
   * per accepted pair with (without) the STAR flag whose reference magnitude is x.
   */
  lemma {:induction false} SplitCounts(ms: seq<Match>, ft: FluxType, toMag: real -> real)
    ensures forall star: bool, x ::
      multiset(RefMags(Kept(ms, ft), star, toMag))[x] == |Positions(ms, AcceptedOfClass(ft, star, toMag, x))|
  {
    RefMagsCounts(Kept(ms, ft), toMag);
    forall star: bool, x
      ensures |Positions(Kept(ms, ft), OfClass(star, toMag, x))| == |Positions(ms, AcceptedOfClass(ft, star, toMag, x))|
    {
      KeptPositions(ms, ft, star, toMag, x);
    }
  }

  /** Filtering keeps exactly the accepted pairs, so it keeps the count of accepted pairs of each class. */
  lemma {:induction false} KeptPositions(ms: seq<Match>, ft: FluxType, star: bool, toMag: real -> real, x: real)
    ensures |Positions(Kept(ms, ft), OfClass(star, toMag, x))| == |Positions(ms, AcceptedOfClass(ft, star, toMag, x))|
  {
    if ms != [] {
      var init, m := ms[..|ms| - 1], ms[|ms| - 1];
      KeptPositions(init, ft, star, toMag, x);
      assert ms == init + [m];
      PositionsStep(init, m, AcceptedOfClass(ft, star, toMag, x));
      if Accepted(m, ft) {
        PositionsStep(Kept(init, ft), m, OfClass(star, toMag, x));
      } else {
        assert Kept(ms, ft) == Kept(init, ft);
      }
    }
  }

  /**
   * The star and galaxy lists of a pass together hold one magnitude per
   * accepted pair; a magnitude is a star's exactly when an accepted pair
   * whose detection has the STAR flag gives it, and a galaxy's exactly when
   * one without the flag gives it, as many times as such pairs give it.
   */
  lemma StarGalaxySplit(ms: seq<Match>, ft: FluxType, toMag: real -> real)
    ensures var split := SplitMatches(ms, ft, toMag);
      && |split.stars| + |split.galaxies| == |Kept(ms, ft)|
      && (forall x :: x in split.stars <==>
            exists m :: m in ms && Accepted(m, ft) && Star in m.src.flags && toMag(m.ref.psfFlux) == x)
      && (forall x :: x in split.galaxies <==>
            exists m :: m in ms && Accepted(m, ft) && Star !in m.src.flags && toMag(m.ref.psfFlux) == x)
      && (forall x :: multiset(split.stars)[x] == |Positions(ms, AcceptedOfClass(ft, true, toMag, x))|)
      && (forall x :: multiset(split.galaxies)[x] == |Positions(ms, AcceptedOfClass(ft, false, toMag, x))|)
  {
    KeptExactly(ms, ft);
    RefMagsPartition(Kept(ms, ft), toMag);
    SplitCounts(ms, ft, toMag);
  }

  /** The sources of a list whose id was not matched and whose flux is positive. */
  function Orphans(ss: seq<Source>, matched: map<int, nat>, ft: FluxType): seq<Source> {
    if ss == [] then []
    else
      var s := ss[|ss| - 1];
      Orphans(ss[..|ss| - 1], matched, ft)
        + (if s.id !in matched && Flux(s, ft) > 0.0 then [s] else [])
  }

  function ImageMags(ss: seq<Source>, ft: FluxType, toMag: real -> real): seq<real> {
    seq(|ss|, i requires 0 <= i < |ss| => toMag(Flux(ss[i], ft)))
  }

  /** The unmatched-image magnitudes: one per orphan source, in list order. */
  function UnmatchedImageMags(ss: seq<Source>, matched: map<int, nat>, ft: FluxType, toMag: real -> real): seq<real> {
    ImageMags(Orphans(ss, matched, ft), ft, toMag)
  }

  /** The loop over a sensor's sources that collects the detections nobody matched. */
  method CollectUnmatchedImage(ss: seq<Source>, matched: map<int, nat>, ft: FluxType, toMag: real -> real)
    returns (mags: seq<real>)
    ensures mags == UnmatchedImageMags(ss, matched, ft, toMag)
  {
    mags := [];
    for i := 0 to |ss|
      invariant mags == ImageMags(Orphans(ss[..i], matched, ft), ft, toMag)
    {
      var s := ss[i];
      assert ss[..i + 1][..i] == ss[..i];
      assert s.id in matched ==> Orphans(ss[..i + 1], matched, ft) == Orphans(ss[..i], matched, ft);
      if s.id !in matched {
        var f := if ft == Psf then s.psfFlux else s.apFlux;
        if f <= 0.0 {
          assert Orphans(ss[..i + 1], matched, ft) == Orphans(ss[..i], matched, ft);
          continue;
        }
        ghost var orphans := Orphans(ss[..i], matched, ft);
        assert f == Flux(s, ft);
        assert Orphans(ss[..i + 1], matched, ft) == orphans + [s];
        assert ImageMags(orphans + [s], ft, toMag) == ImageMags(orphans, ft, toMag) + [toMag(f)];
        mags := mags + [toMag(f)];
      }
    }
    assert ss[..|ss|] == ss;
  }

  /** A source is an orphan exactly when its id is unmatched and its flux positive. */
  lemma {:induction false} OrphansExactly(ss: seq<Source>, matched: map<int, nat>, ft: FluxType)
    ensures forall s :: s in Orphans(ss, matched, ft) <==>
      s in ss && s.id !in matched && Flux(s, ft) > 0.0
  {
    if ss != [] {
      var init := ss[..|ss| - 1];
      OrphansExactly(init, matched, ft);
      assert ss == init + [ss[|ss| - 1]];
    }
  }

  /** Each orphan appears as often as it does in the source list, and only orphans appear. */
  lemma {:induction false} OrphansCounts(ss: seq<Source>, matched: map<int, nat>, ft: FluxType)
    ensures forall s ::
      multiset(Orphans(ss, matched, ft))[s] == (if s.id !in matched && Flux(s, ft) > 0.0 then multiset(ss)[s] else 0)
  {
    if ss != [] {
      var init, last := ss[..|ss| - 1], ss[|ss| - 1];
      OrphansCounts(init, matched, ft);
      assert ss == init + [last];
      assert multiset(ss) == multiset(init) + multiset{last};
    }
  }

  /** The reference objects of a list whose id was not matched. */
  function UnmatchedRefs(refs: seq<RefObject>, matched: map<int, nat>): seq<RefObject> {
    if refs == [] then []
    else
      var r := refs[|refs| - 1];
      UnmatchedRefs(refs[..|refs| - 1], matched) + (if r.id !in matched then [r] else [])
  }

  /** The catalog magnitudes in the sensor's filter of the stars (or of the galaxies). */
  function CatalogMags(refs: seq<RefObject>, star: bool, filterName: string,
                       catMag: (RefObject, string) -> real): seq<real> {
    if refs == [] then []
    else
      var r := refs[|refs| - 1];
      CatalogMags(refs[..|refs| - 1], star, filterName, catMag)
        + (if r.isStar == star then [catMag(r, filterName)] else [])
  }

  /** The loop over a sensor's reference objects that collects those never detected. */
  method CollectUnmatchedCatalog(refs: seq<RefObject>, matched: map<int, nat>, filterName: string,
                                 catMag: (RefObject, string) -> real)
    returns (stars: seq<real>, galaxies: seq<real>)
    ensures stars == CatalogMags(UnmatchedRefs(refs, matched), true, filterName, catMag)
    ensures galaxies == CatalogMags(UnmatchedRefs(refs, matched), false, filterName, catMag)
  {
    stars, galaxies := [], [];
    for i := 0 to |refs|
      invariant stars == CatalogMags(UnmatchedRefs(refs[..i], matched), true, filterName, catMag)
      invariant galaxies == CatalogMags(UnmatchedRefs(refs[..i], matched), false, filterName, catMag)
    {
      var r := refs[i];
      UnmatchedRefsStep(refs, i, matched, filterName, catMag);
      if r.id !in matched {
        var mag := catMag(r, filterName);
        if r.isStar {
          stars := stars + [mag];
        } else {
          galaxies := galaxies + [mag];
        }
      }
    }
    assert refs[..|refs|] == refs;
  }

  lemma UnmatchedRefsStep(refs: seq<RefObject>, i: int, matched: map<int, nat>, filterName: string,
                          catMag: (RefObject, string) -> real)
    requires 0 <= i < |refs|
    ensures var before, r := UnmatchedRefs(refs[..i], matched), refs[i];
      && UnmatchedRefs(refs[..i + 1], matched) == (if r.id !in matched then before + [r] else before)
      && (r.id !in matched ==>
            && CatalogMags(before + [r], true, filterName, catMag)
               == CatalogMags(before, true, filterName, catMag) + (if r.isStar then [catMag(r, filterName)] else [])
            && CatalogMags(before + [r], false, filterName, catMag)
               == CatalogMags(before, false, filterName, catMag) + (if r.isStar then [] else [catMag(r, filterName)]))
  {
    assert refs[..i + 1][..i] == refs[..i];
    var before := UnmatchedRefs(refs[..i], matched);
    assert (before + [refs[i]])[..|before|] == before;
    assert before + [] == before;
  }

  /** A reference object is unmatched exactly when its id was not recorded. */
  lemma {:induction false} UnmatchedRefsExactly(refs: seq<RefObject>, matched: map<int, nat>)
    ensures forall r :: r in UnmatchedRefs(refs, matched) <==> r in refs && r.id !in matched
  {
    if refs != [] {
      var init := refs[..|refs| - 1];
      UnmatchedRefsExactly(init, matched);
      assert refs == init + [refs[|refs| - 1]];
    }
  }

  /** A reference object of the given class whose catalog magnitude in the filter is x. */
  function ObjectOfClass(star: bool, filterName: string, catMag: (RefObject, string) -> real, x: real): RefObject -> bool {
    (r: RefObject) => r.isStar == star && catMag(r, filterName) == x
  }

  /** A reference object with an unrecorded id, of the given class, whose catalog magnitude is x. */
  function UnrecordedOfClass(matched: map<int, nat>, star: bool, filterName: string,
                             catMag: (RefObject, string) -> real, x: real): RefObject -> bool {
    (r: RefObject) => r.id !in matched && r.isStar == star && catMag(r, filterName) == x
  }

  /** The list of a class holds x once per object of that class whose catalog magnitude is x. */
  lemma {:induction false} CatalogMagsCounts(refs: seq<RefObject>, filterName: string,
                                             catMag: (RefObject, string) -> real)
    ensures forall star: bool, x ::
      multiset(CatalogMags(refs, star, filterName, catMag))[x] == |Positions(refs, ObjectOfClass(star, filterName, catMag, x))|
  {
    if refs != [] {
      var init, r := refs[..|refs| - 1], refs[|refs| - 1];
      CatalogMagsCounts(init, filterName, catMag);
      assert refs == init + [r];
      forall star: bool, x
        ensures multiset(CatalogMags(refs, star, filterName, catMag))[x] == |Positions(refs, ObjectOfClass(star, filterName, catMag, x))|
      {
        PositionsStep(init, r, ObjectOfClass(star, filterName, catMag, x));
      }
    }
  }

  /**
   * Each reference object lands in exactly one of the star and galaxy lists,
   * by its class: the list of a class holds x once per object of that class
   * whose catalog magnitude is x.
   */
  lemma {:induction false} CatalogMagsPartition(refs: seq<RefObject>, filterName: string,
                                                catMag: (RefObject, string) -> real)
    ensures |CatalogMags(refs, true, filterName, catMag)| + |CatalogMags(refs, false, filterName, catMag)| == |refs|
    ensures forall star: bool, x :: x in CatalogMags(refs, star, filterName, catMag) <==>
      exists r :: r in refs && r.isStar == star && catMag(r, filterName) == x
    ensures forall star: bool, x ::
      multiset(CatalogMags(refs, star, filterName, catMag))[x] == |Positions(refs, ObjectOfClass(star, filterName, catMag, x))|
  {
    CatalogMagsCounts(refs, filterName, catMag);
    if refs != [] {
      var init := refs[..|refs| - 1];
      CatalogMagsPartition(init, filterName, catMag);
      assert refs == init + [refs[|refs| - 1]];
    }
  }

  /**
   * Over the whole object list: the unmatched list of a class holds x once
   * per object with an unrecorded id, of that class, whose catalog magnitude is x.
   */
  lemma {:induction false} UnmatchedCatalogCounts(refs: seq<RefObject>, matched: map<int, nat>, filterName: string,
                                                  catMag: (RefObject, string) -> real)
    ensures forall star: bool, x ::
      multiset(CatalogMags(UnmatchedRefs(refs, matched), star, filterName, catMag))[x]
      == |Positions(refs, UnrecordedOfClass(matched, star, filterName, catMag, x))|
  {
    CatalogMagsCounts(UnmatchedRefs(refs, matched), filterName, catMag);
    forall star: bool, x
      ensures |Positions(UnmatchedRefs(refs, matched), ObjectOfClass(star, filterName, catMag, x))|
           == |Positions(refs, UnrecordedOfClass(matched, star, filterName, catMag, x))|
    {
      UnmatchedPositions(refs, matched, star, filterName, catMag, x);
    }
  }

  /** Dropping the recorded ids keeps exactly the unrecorded objects, so it keeps their count per class. */
  lemma {:induction false} UnmatchedPositions(refs: seq<RefObject>, matched: map<int, nat>, star: bool,
                                              filterName: string, catMag: (RefObject, string) -> real, x: real)
    ensures |Positions(UnmatchedRefs(refs, matched), ObjectOfClass(star, filterName, catMag, x))|
         == |Positions(refs, UnrecordedOfClass(matched, star, filterName, catMag, x))|
  {
    if refs != [] {
      var init, r := refs[..|refs| - 1], refs[|refs| - 1];
      UnmatchedPositions(init, matched, star, filterName, catMag, x);
      assert refs == init + [r];
      PositionsStep(init, r, UnrecordedOfClass(matched, star, filterName, catMag, x));
      if r.id !in matched {
        PositionsStep(UnmatchedRefs(init, matched), r, ObjectOfClass(star, filterName, catMag, x));
      } else {
        assert UnmatchedRefs(refs, matched) == UnmatchedRefs(init, matched);
      }
    }
  }

  /**
   * The unmatched-catalog lists hold one magnitude per reference object
   * whose id was not recorded, stars and galaxies apart, each magnitude as
   * many times as such objects of that class give it.
   */
  lemma UnmatchedCatalogPartition(refs: seq<RefObject>, matched: map<int, nat>, filterName: string,
                                  catMag: (RefObject, string) -> real)
    ensures var unmatched := UnmatchedRefs(refs, matched);
      && (forall r :: r in unmatched <==> r in refs && r.id !in matched)
      && |CatalogMags(unmatched, true, filterName, catMag)|
         + |CatalogMags(unmatched, false, filterName, catMag)| == |unmatched|
      && (forall star: bool, x ::
            multiset(CatalogMags(unmatched, star, filterName, catMag))[x]
            == |Positions(refs, UnrecordedOfClass(matched, star, filterName, catMag, x))|)
  {
    UnmatchedRefsExactly(refs, matched);
    CatalogMagsPartition(UnmatchedRefs(refs, matched), filterName, catMag);
    UnmatchedCatalogCounts(refs, matched, filterName, catMag);
  }
}
