# Photometric completeness depth of pipeQA's CompletenessQa

This project models the core of the `CompletenessQa` analysis of the LSST
pipeline QA package. For every sensor (a raft/CCD pair) of a detector, the
analysis does four things:

- It walks the sensor's two match lists, against the 'obj' and the 'src' reference sets.
- It keeps the pairs whose reference and detection fluxes are both positive and whose detection has neither the INTERP_CENTER nor the SATUR_CENTER flag.
- It splits the reference magnitudes of those pairs into star and galaxy vectors by the detection's STAR flag, and collects the detections and the reference objects that no accepted pair claims.
- It computes the sensor's *photometric depth*: the magnitude where the detected fraction of stars falls to one half. It stores that depth and submits one test record for it.

Modules:

- `Options` (`options.dfy`): the optional value used for "no bin" and "no crossing".
- `Binning` (`binning.dfy`): the 25 histogram bins with edges 14.0, 14.5, ..., 26.5. Each bin is half-open except the last, which is closed.
- `LimitingMagnitude` (`limiting_mag.dfy`): `limitingMag`.
  - The bins with a nonzero combined count are kept as `Bin` values, and each kept bin gives the detected fraction d/(d+u).
  - The backward scan stops at index 2. It is a method (`FindCrossing`) proved equal to the function `CrossingDepth`.
  - The class method `CompletenessQa.LimitingMag` is proved equal to `Depth`, which applies `CrossingDepth` to the kept bins. The faintest-crossing properties are proved about `Depth`.
- `Matching` (`matching.dfy`): one pass over a match list and the two unmatched lists.
  - The pass filters the pairs, counts ids in fresh dictionaries and splits stars from galaxies.
  - Each loop is a method (`PartitionMatches`, `CollectUnmatchedImage`, `CollectUnmatchedCatalog`) proved equal to a specification function. Lemmas state what those functions contain.
- `Completeness` (`completeness_qa.dfy`): the analysis object and its `test` loop.
  - The class `CompletenessQa` holds the seven per-sensor vectors, the depth table and the submitted records as fields that its methods update in place.
  - `Test` resets the containers and runs the loop over the detector keys. It is proved to end in `Analyzed(...)`, a fold of `Record` over the keys.
  - The lemmas `TestStoresVectors`, `TestStoresDepths` and `TestSubmitsRecords` state what that final state holds for every key.

External things are parameters:

- Magnitude conversion `-2.5*log10(flux)` is `toMag: real -> real`.
- A reference object's catalog magnitude in a filter (`getMag`) is `catMag`.
- The detector name used as the test's area label is `areaName`.
- Flux choice is `FluxType` (`Psf` for "psf", `Aperture` for anything else).
- The data-access layer's per-sensor dictionaries are the `Inputs` value.
- The detection flags are a `set<Flag>` instead of a bitmask.

## Behaviour as written

What the code of `limitingMag` does, which a reader of its test comment ("magnitude where star completeness drops below 0.5") might not expect:

- The scan runs from the faintest kept bin toward the bright end and returns the first crossing it meets. The result is therefore the *faintest* crossing (`DepthIsFaintestCrossing`).
- The scan never examines the pair of kept bins 0 and 1. Matched stars [20, 20, 20, 21, 21] against unmatched stars [21, 21, 21, 22, 22] give kept fractions 1, 0.4 and 0. The only crossing there is between kept bins 0 and 1, so the depth is the sentinel 0.0 (`FirstPairNeverScanned`), not an interpolated magnitude.
- The interpolated depth lies in the half-open interval (x[i-1], x[i]]. It equals x[i] when the fraction at i is exactly one half.
- The sentinel 0.0 cannot be confused with a real crossing: every bin centre is at least 14.25, and `DepthIsFaintestCrossing` states that the depth is 0.0 exactly when no crossing at index 2 or above exists.

## Model

| member | source | states |
|---|---|---|
| Binning.BinIndex | python/lsst/testing/pipeQA/analysis/CompletenessQa.py:25 | a magnitude has a bin exactly when it lies in [14.0, 26.5], and that bin is the unique k with Edge(k) <= m < Edge(k+1), the last bin also holding 26.5 |
| Binning.HistogramTotal | python/lsst/testing/pipeQA/analysis/CompletenessQa.py:55-57 | the 25 histogram counts add up to the number of magnitudes inside [14.0, 26.5]: each such magnitude is counted once, the others not at all |
| LimitingMagnitude.RetainFromBins | python/lsst/testing/pipeQA/analysis/CompletenessQa.py:62-66 | every kept bin is a valid bin index carrying its own matched and unmatched counts, and its combined count is nonzero |
| LimitingMagnitude.RetainFromSorted | python/lsst/testing/pipeQA/analysis/CompletenessQa.py:62-63 | the nonzero mask keeps bins in strictly increasing bin order |
| LimitingMagnitude.RetainFromComplete | python/lsst/testing/pipeQA/analysis/CompletenessQa.py:62 | every bin with a nonzero combined count is kept |
| LimitingMagnitude.FractionBounds | python/lsst/testing/pipeQA/analysis/CompletenessQa.py:64-67 | a kept bin's fraction d/(d+u) lies in [0, 1], and it is at most one half exactly when d <= u |
| LimitingMagnitude.CentersIncrease | python/lsst/testing/pipeQA/analysis/CompletenessQa.py:59-63 | the centres x of the kept bins strictly increase |
| LimitingMagnitude.CrossingIffCounts | python/lsst/testing/pipeQA/analysis/CompletenessQa.py:70 | the crossing test y[i-1] > 0.5 >= y[i] holds exactly when kept bin i-1 has more matched than unmatched stars and kept bin i has no more |
| LimitingMagnitude.InterpolationBetween | python/lsst/testing/pipeQA/analysis/CompletenessQa.py:71 | at a crossing with x[i-1] < x[i], the interpolated magnitude lies in (x[i-1], x[i]] |
| LimitingMagnitude.FaintestCrossing | python/lsst/testing/pipeQA/analysis/CompletenessQa.py:69-70 | the index the scan stops at is a crossing with index between 2 and the upper bound |
| LimitingMagnitude.FaintestCrossingIsFaintest | python/lsst/testing/pipeQA/analysis/CompletenessQa.py:69-72 | no index above the one found is a crossing; when none is found, no index from 2 up is one |
| LimitingMagnitude.FindCrossing | python/lsst/testing/pipeQA/analysis/CompletenessQa.py:69-72 | the backward loop with its early return yields the interpolated faintest crossing at index 2 or above, or 0.0 |
| LimitingMagnitude.DepthIsFaintestCrossing | python/lsst/testing/pipeQA/analysis/CompletenessQa.py:52-72 | the depth is 0.0 exactly when no kept index i >= 2 is a crossing; otherwise it is the interpolation at the faintest such crossing and lies in (x[i-1], x[i]] |
| LimitingMagnitude.FewKeptBinsGiveSentinel | python/lsst/testing/pipeQA/analysis/CompletenessQa.py:69-72 | with fewer than three kept bins the depth is 0.0 |
| LimitingMagnitude.EmptyInputsGiveSentinel | python/lsst/testing/pipeQA/analysis/CompletenessQa.py:55-72 | two empty star lists give the depth 0.0 |
| LimitingMagnitude.FirstPairNeverScanned | python/lsst/testing/pipeQA/analysis/CompletenessQa.py:69-72 | the example above has a crossing only at kept index 1 and gives the depth 0.0 |
| LimitingMagnitude.CrossingInterpolated | python/lsst/testing/pipeQA/analysis/CompletenessQa.py:55-71 | a worked example with kept fractions 1, 1, 0.25, 0 reports 251/12, interpolated between the centres 20.25 and 21.25 |
| Matching.CountId | python/lsst/testing/pipeQA/analysis/CompletenessQa.py:188-193 | the dictionary update starts a new id at zero and then adds one |
| Matching.PartitionMatches | python/lsst/testing/pipeQA/analysis/CompletenessQa.py:163-204 | the loop over a match list produces the star and galaxy magnitudes and the two id dictionaries of the accepted pairs |
| Matching.KeptExactly | python/lsst/testing/pipeQA/analysis/CompletenessQa.py:186 | a pair is kept exactly when it is in the list, both fluxes are positive and neither bad flag is set |
| Matching.IdCountsAreMultiplicities | python/lsst/testing/pipeQA/analysis/CompletenessQa.py:188-193 | the id dictionary holds exactly the ids seen, each with its number of occurrences |
| Matching.RecordedIdsExactly | python/lsst/testing/pipeQA/analysis/CompletenessQa.py:166-193 | after a pass, a detection id (a reference id) is recorded exactly when some accepted pair of that list carries it |
| Matching.RefMagsCounts | python/lsst/testing/pipeQA/analysis/CompletenessQa.py:195-201 | the list of a class holds each magnitude x exactly as many times as kept pairs of that class have reference magnitude x |
| Matching.RefMagsPartition | python/lsst/testing/pipeQA/analysis/CompletenessQa.py:195-201 | every kept pair contributes one magnitude to exactly one of the STAR and non-STAR lists: membership, total length, and the count of each magnitude per list |
| Matching.KeptPositions | python/lsst/testing/pipeQA/analysis/CompletenessQa.py:186 | filtering keeps, for each class and magnitude, exactly as many pairs as the list has accepted pairs of that class and magnitude |
| Matching.SplitCounts | python/lsst/testing/pipeQA/analysis/CompletenessQa.py:184-201 | over a whole match list, the star (galaxy) list holds x once per accepted pair with (without) the STAR flag whose reference magnitude is x |
| Matching.StarGalaxySplit | python/lsst/testing/pipeQA/analysis/CompletenessQa.py:186-201 | the star and galaxy lists together have one entry per accepted pair; a magnitude is a star's exactly when an accepted pair with the STAR flag gives it, a galaxy's exactly when one without it does, and each list holds it as many times as such pairs give it |
| Matching.CollectUnmatchedImage | python/lsst/testing/pipeQA/analysis/CompletenessQa.py:206-217 | the loop over the sources collects, in order, the magnitudes of the sources with an unrecorded id and a positive flux |
| Matching.OrphansExactly | python/lsst/testing/pipeQA/analysis/CompletenessQa.py:208-217 | a source is reported exactly when it is in the list, its id was not recorded and its selected flux is positive |
| Matching.OrphansCounts | python/lsst/testing/pipeQA/analysis/CompletenessQa.py:208-223 | each source that is reported appears as many times as it occurs in the sensor's source list, and no other source appears |
| Matching.CollectUnmatchedCatalog | python/lsst/testing/pipeQA/analysis/CompletenessQa.py:226-235 | the loop over the reference objects collects, in order, the catalog magnitudes of the unrecorded objects, stars and galaxies apart |
| Matching.UnmatchedRefsExactly | python/lsst/testing/pipeQA/analysis/CompletenessQa.py:228-230 | a reference object is unmatched exactly when it is in the list and its id was not recorded |
| Matching.CatalogMagsCounts | python/lsst/testing/pipeQA/analysis/CompletenessQa.py:231-235 | the list of a class holds each magnitude x exactly as many times as objects of that class have catalog magnitude x |
| Matching.CatalogMagsPartition | python/lsst/testing/pipeQA/analysis/CompletenessQa.py:231-235 | every object lands in exactly one of the star and galaxy lists, by getIsStar: membership, total length, and the count of each magnitude per list |
| Matching.UnmatchedPositions | python/lsst/testing/pipeQA/analysis/CompletenessQa.py:228-230 | dropping the recorded ids keeps, for each class and magnitude, exactly as many objects as the list has unrecorded objects of that class and magnitude |
| Matching.UnmatchedCatalogCounts | python/lsst/testing/pipeQA/analysis/CompletenessQa.py:228-235 | over a whole object list, the unmatched list of a class holds x once per object with an unrecorded id, of that class, whose catalog magnitude is x |
| Matching.UnmatchedCatalogPartition | python/lsst/testing/pipeQA/analysis/CompletenessQa.py:226-237 | the two unmatched-catalog lists together have one entry per reference object whose id was not recorded, each magnitude in the list of its class as many times as such objects give it |
| Completeness.UnmatchedImageSources | python/lsst/testing/pipeQA/analysis/CompletenessQa.py:160-223 | a sensor's unmatched detections are exactly its sources with a positive flux that no accepted pair of the 'src' list claims, the last list whose dictionaries survive |
| Completeness.UnmatchedCatalogObjects | python/lsst/testing/pipeQA/analysis/CompletenessQa.py:160-237 | a sensor's unmatched reference objects are exactly those no accepted pair of the 'src' list claims, one catalog magnitude each, in the list of its class and counted once per object |
| Completeness.ObjListIgnored | python/lsst/testing/pipeQA/analysis/CompletenessQa.py:160-239 | the 'obj' match list has no influence on the unmatched lists or the depth |
| Completeness.ObjOnlyMatchStaysUnmatched | python/lsst/testing/pipeQA/analysis/CompletenessQa.py:160-223 | a source matched only in the 'obj' list lands in the 'obj' star vector and is still reported as unmatched |
| Completeness.RunStep | python/lsst/testing/pipeQA/analysis/CompletenessQa.py:150-246 | handling one more key extends the analysis by that sensor's outcome |
| Completeness.RunPrefixStep | python/lsst/testing/pipeQA/analysis/CompletenessQa.py:150-246 | handling key n after the first n keys gives the analysis of the first n+1 keys |
| Completeness.RecordVector | python/lsst/testing/pipeQA/analysis/CompletenessQa.py:203-237 | storing a sensor's outcome replaces its vector in each container and leaves every other sensor's vector alone |
| Completeness.RunVector | python/lsst/testing/pipeQA/analysis/CompletenessQa.py:150-237 | after the loop over some keys, each handled sensor holds the vector its outcome gives, the others keep their starting vector, and no other key appears |
| Completeness.RunDepth | python/lsst/testing/pipeQA/analysis/CompletenessQa.py:239-240 | after the loop over some keys, each handled sensor's depth is its outcome's depth and the others are unchanged |
| Completeness.RunRecords | python/lsst/testing/pipeQA/analysis/CompletenessQa.py:242-246 | the earlier records stay in front, followed by one depth record per handled key, in key order |
| Completeness.TestStoresVectors | python/lsst/testing/pipeQA/analysis/CompletenessQa.py:134-237 | after test, each container holds exactly the detector keys, each sensor with the vector computed from its own inputs |
| Completeness.TestStoresDepths | python/lsst/testing/pipeQA/analysis/CompletenessQa.py:142-240 | after test, the depth table holds exactly the detector keys, each with the depth computed from its own matched and unmatched stars |
| Completeness.TestSubmitsRecords | python/lsst/testing/pipeQA/analysis/CompletenessQa.py:239-246 | given a filter for every detector key, test submits exactly one record per detector key, in key order, after the earlier ones; record i carries the label, the depth stored for key i, the limits, the comment and the key's area name |
| Completeness.CompletenessQa.constructor | python/lsst/testing/pipeQA/analysis/CompletenessQa.py:22-25 | the acceptance limits are [completenessMagMin, completenessMagMax]; the seven per-sensor vector containers and the depth table are empty and no record is submitted yet |
| Completeness.CompletenessQa.LimitingMag | python/lsst/testing/pipeQA/analysis/CompletenessQa.py:45-72 | a sensor's depth is Depth of its stored matched-star and unmatched-star vectors |
| Completeness.CompletenessQa.ObjPass | python/lsst/testing/pipeQA/analysis/CompletenessQa.py:155-204 | the 'obj' pass stores the sensor's star and galaxy vectors from that list and changes nothing else |
| Completeness.CompletenessQa.SrcPass | python/lsst/testing/pipeQA/analysis/CompletenessQa.py:155-204 | the 'src' pass stores the sensor's star and galaxy vectors and returns the id dictionaries of that list alone |
| Completeness.CompletenessQa.UnmatchedPass | python/lsst/testing/pipeQA/analysis/CompletenessQa.py:206-237 | the sensor's unmatched-image and unmatched-catalog vectors are stored from the 'src' dictionaries |
| Completeness.CompletenessQa.FillSensor | python/lsst/testing/pipeQA/analysis/CompletenessQa.py:150-237 | the seven vectors of sensor k become those of its outcome; other sensors' vectors are unchanged |
| Completeness.CompletenessQa.AnalyzeSensor | python/lsst/testing/pipeQA/analysis/CompletenessQa.py:150-246 | one loop iteration records sensor k's outcome: vectors, depth and one depth test record |
| Completeness.CompletenessQa.HandleKey | python/lsst/testing/pipeQA/analysis/CompletenessQa.py:150-246 | given the first n keys are done, handling key n makes the first n+1 keys done |
| Completeness.CompletenessQa.Reset | python/lsst/testing/pipeQA/analysis/CompletenessQa.py:125-142 | the flux type is set and every container is fresh: an empty vector for each detector key, no depths |
| Completeness.CompletenessQa.AnalyzeAll | python/lsst/testing/pipeQA/analysis/CompletenessQa.py:150-246 | the loop over the detector keys ends in the fold of Record over all keys |
| Completeness.CompletenessQa.Test | python/lsst/testing/pipeQA/analysis/CompletenessQa.py:122-246 | test sets the flux type and leaves exactly Analyzed: fresh containers, then every detector key handled in order after the earlier records |

## Left out

- `limitingMagMinuit` and the `minuit2` path, including the `fit` container, are not modelled. They call an external minimizer on floating-point `arctan`, and `hasMinuit` is `False` on both branches of its import.
- `plot`, `free` and the figure and reporting helpers are not modelled. They are plotting and attribute teardown.
- Data access is not modelled: the per-sensor dictionaries `getDetectorBySensor` and the like supply are the `Inputs` value. `getTestSet` is modelled as the record list the object keeps. `testCode.Test`/`addTest` become a `TestRecord` appended to that list. `cameraInfo.getDetectorName` is the `areaName` parameter.
- Magnitudes: `-2.5*log10(f)` is the uninterpreted `toMag`, and `getMag(filterName)` is the uninterpreted `catMag`.
- `num.isfinite(mrefmag)` at line 197 always holds here, because reals are finite. In the source, a reference flux of +inf passes the test at line 186. Its ids are recorded at lines 188-193, but its magnitude -inf is dropped at line 197. Such a pair counts as matched and adds no magnitude, which breaks the one-magnitude-per-accepted-pair count of `StarGalaxySplit`. The model has no such pair.
- Arithmetic is on exact reals, not IEEE doubles. The fractions and the interpolation are exact here. The bin edges are exact in binary, so binning agrees. There are no NaN values. In the source, a NaN flux passes the test `f <= 0.0` at line 215 and is reported with a NaN magnitude. The model's `Flux(s, ft) > 0.0` is never NaN.
- The detection flag bitmask is modelled as a set of the three flags the analysis reads.
- Detector keys are (raft, ccd) pairs. The detector objects those names come from are not modelled.
- `RaftCcdVector`/`RaftCcdData` are modelled as maps from the sensor to the stored vector or value. `RaftCcdData.py` is not part of this model.
- Completeness.CompletenessQa.Reset: the depth table starts empty rather than with `RaftCcdData`'s default value for every key. After `Test` every detector key has its depth, so the final state agrees.
- Completeness.CompletenessQa.ObjPass: it writes the empty vectors for a sensor without an 'obj' match list, where the source leaves the container untouched (lines 168 and 203-204). The value is the same, because `Reset` gives every detector key an empty vector. The same holds for SrcPass.
- Completeness.CompletenessQa.Test: it requires a filter for every detector key. The source indexes `self.filter[key]` at line 153 and raises `KeyError` part-way through the loop otherwise; that partial state is not modelled.
- The unused locals are not modelled: `q`, `multiples`, `ferr`, `dist`, `maxSrcIdx` and `histRatio`.
- `PsfEllipticityQaAnalysis.py` is not part of this model. It is floating-point `sqrt`/`arctan2` and foreign median statistics.
