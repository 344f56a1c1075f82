# Track aggregation in the YOLOv8 object classification service

This project models the core of the object classification service: a video is read frame by
frame, and every `frame_skip_factor`-th frame goes to the YOLOv8 tracker. Each tracked box
becomes an observation. It goes to the track that has its id, and a new track is created the
first time an id is seen. At the end, a report lists every track observed at least
`MIN_DETECTIONS` times.

The modules follow the source files:

- `Translation` (utils/TranslateObject.py): renames detector labels to the report's vocabulary.
- `ColorDetector` (utils/ColorDetector.py):
  - the crop rectangle arithmetic;
  - the HLS colour-naming cascade;
  - the `crop_and_detect` loop over the cluster centres.
- `Track` (utils/ClassificationObject.py): the track entity as a class. Its mutators append to
  the parallel histories in place and keep the derived fields up to date:
  - the travelled distance;
  - the net displacement;
  - the static flag;
  - the majority label;
  - the top three colour names.
- `TrackFunctions` (utils/ClassificationObjectFunctions.py): creating a track, finding a track
  by id, and recording an observation on the track found.
- `ReturnObject` (utils/ReturnObject.py): the `ReturnJSON` report. Its count and its two lists
  grow in lock-step.
- `ObjectClassification` (object_classification_yolov8.py):
  - the frame loop with its two counters;
  - the routing of a frame's boxes into the two registry lists (ids and tracks, in first-seen
    order);
  - the `MIN_DETECTIONS` filter that fills the report.
- `Counting`: the part of Python's `collections.Counter` that the track uses.
  `most_common(n)` ranks by count and breaks ties by first occurrence.
- `Wrappers` and `Geometry`: Python's optional values, points and boxes.

The state of the main loop is described by the stream of observations routed so far. After any
number of frames:

- the id list holds the distinct ids of that stream, in first-seen order;
- the i-th track has the i-th id;
- each track's histories are exactly the observations of its id.

From this the model proves what a run delivers:

- the loop stops at a frame number computed from the prediction budget, the frame count and the
  video length;
- `predicted_frames` is ceil(n / skip);
- every track's frame list is in non-decreasing order and holds only classified frames;
- the report lists, in first-seen order, exactly the ids seen at least `MIN_DETECTIONS` times.

Foreign computations are parameters:

- the tracker, as a function of the frame number and the frame;
- the clustering, masking, slicing and BGR-to-HLS conversion, as the fields of `Vision`;
- the Euclidean distance, as a function `dist`. Lemmas that need metric facts assume only
  non-negativity, `dist(p, p) == 0` and the triangle inequality.

Facts about the code that the model follows:

- `COLOR_PREDICTION_INTERVAL` is read (utils/VariableClass.py:60) but never used:
  `crop_and_detect` runs on every routed box when `FIND_DOMINANT_COLORS` is set.
- `ReturnJSON.object_count` is never updated; only the `'objectCount'` entry of the report dict
  is. The model's `objectCount` is that entry.
- The track reads `MIN_STATIC_DISTANCE` from the environment itself, as its own threshold. The
  model passes it in with `MIN_DISTANCE` as `Thresholds`.

## Model

| member | source | states |
|---|---|---|
| Translation.Translate | utils/TranslateObject.py:1-23 | each of the seven table labels goes to its replacement; every other label comes back unchanged (so at most one rename applies) |
| Translation.RenamedLabelsAreFinal | utils/TranslateObject.py:9-22 | no replacement label is itself a label the table renames |
| Translation.TranslateIdempotent | utils/TranslateObject.py:1-23 | translating an already translated label changes nothing |
| Translation.TranslatedIsFixedPoint | utils/TranslateObject.py:1-23 | a renamed label, and any translation that changed its input, lies outside the table |
| ColorDetector.Trunc | utils/ColorDetector.py:41-44 | `int(x)` truncates toward zero: the result is the integer within one of `x` on the side of zero |
| ColorDetector.OrderedBox | utils/ColorDetector.py:41-48 | x1 <= x2 and y1 <= y2, and each axis holds exactly the two truncated input coordinates of that axis |
| ColorDetector.OrderedBoxSwap | utils/ColorDetector.py:41-48 | swapping the reported corners, on both axes or on x alone, gives the same box |
| ColorDetector.CropDetectedObject | utils/ColorDetector.py:32-65 | the crop rectangle keeps the centre of the ordered box: each side moves inward by the same amount at both ends |
| ColorDetector.CropWithoutReduction | utils/ColorDetector.py:14-61 | with the default `crop_reduction = 0` the crop is exactly the ordered, non-inverted box |
| ColorDetector.ShrinkBound | utils/ColorDetector.py:54-56 | for a reduction in [0, 1] the per-end shrink `int(side * r / 2)` is non-negative and at most half the side |
| ColorDetector.Reduction | utils/ColorDetector.py:55-56 | for a non-negative `side * crop_reduction` the shrink is a non-negative integer at most half of it |
| ColorDetector.CropStaysInside | utils/ColorDetector.py:50-61 | with a reduction in [0, 1] the crop lies inside the ordered box and is never inverted |
| ColorDetector.HueName | utils/ColorDetector.py:164-187 | the hue cascade names one of the twelve hues, and leaves the colour unassigned exactly at h == 345 |
| ColorDetector.HlsToStr | utils/ColorDetector.py:122-189 | every result is black, white, an optionally dark/light grey, or a hue with an optional dark/light/dull prefix joined by one space |
| ColorDetector.BlackAndWhite | utils/ColorDetector.py:147-150 | the name is "black" iff L/255 < 0.12 and "white" iff L/255 > 0.88, whatever the hue and saturation |
| ColorDetector.GreyIgnoresHue | utils/ColorDetector.py:152-160 | below saturation 0.28 the name is "dark grey", "light grey" or "grey" by lightness, and changing the hue never changes it |
| ColorDetector.DullOverridesLightness | utils/ColorDetector.py:159-162 | between saturations 0.28 and 0.51 the prefix is "dull" whatever the lightness prefix was |
| ColorDetector.Sector | utils/ColorDetector.py:164-187 | the arithmetic 30-degree sector of a doubled hue is one of twelve |
| ColorDetector.HueNameBySector | utils/ColorDetector.py:132-187 | for every 8-bit hue 0..179 the cascade picks exactly the hue of its sector, so the gap at 345 is never reached |
| ColorDetector.VividColour | utils/ColorDetector.py:152-189 | a saturated colour of middle lightness is named by its hue sector alone, with no prefix |
| ColorDetector.SaturatedShade | utils/ColorDetector.py:137-189 | a colour with saturation at least 0.51 and lightness in [0.12, 0.44) or (0.56, 0.88] is its hue sector prefixed "dark" or "light" |
| ColorDetector.DetectColor | utils/ColorDetector.py:112-119 | when the clustering finds no optimal k, no colours are returned |
| ColorDetector.RegionColors | utils/ColorDetector.py:212-219 | without a mask and with zero reduction the colours come from the slice of the ordered box; with a mask they come from the segmented frame, whatever the box |
| ColorDetector.HlsValues | utils/ColorDetector.py:226-228 | one HLS value per cluster centre, in order |
| ColorDetector.ColourNames | utils/ColorDetector.py:229-230 | one name per HLS value, in order |
| ColorDetector.CropAndDetect | utils/ColorDetector.py:203-232 | the centres come from the crop (no mask) or the masked frame; the three lists have equal length, hls[i] is the conversion of bgr[i] and names[i] is the name of hls[i] |
| Counting.Keys | utils/ClassificationObject.py:111 | the Counter's keys are exactly the elements of the list, and no more of them than the list is long |
| Counting.KeysInFirstSeenOrder | utils/ClassificationObject.py:111 | the Counter's keys come in the order in which they first occur in the list |
| Counting.KeysDistinct | utils/ClassificationObject.py:111 | the Counter's keys are pairwise distinct |
| Counting.FirstIndex | utils/ClassificationObject.py:111 | the first occurrence of an element: found exactly when present, and no earlier position holds it |
| Counting.FirstMaxSpec | utils/ClassificationObject.py:111-113 | the scan finds an element exactly when one is left; it has a maximal count, and no equally frequent element occurs before it |
| Counting.TopSelects | utils/ClassificationObject.py:241-247 | `most_common(n)` returns at most n distinct elements of the list, and all of them when fewer than n exist |
| Counting.TopRanked | utils/ClassificationObject.py:241-247 | counts never increase along the result of `most_common(n)` |
| Counting.TopTiesInFirstSeenOrder | utils/ClassificationObject.py:241-247 | equally frequent elements of the result appear in first-seen order |
| Counting.TopOmitsOnlyLower | utils/ClassificationObject.py:241-247 | an element left out never has a higher count than one kept, and on a tie it was first seen later |
| Counting.Majority | utils/ClassificationObject.py:111-113 | the majority label is one of the labels |
| Counting.MajorityIsFirstMode | utils/ClassificationObject.py:105-113 | the majority label is a most frequent label, and the earliest-first-seen among the most frequent |
| Counting.MostCommonOneIsMajority | utils/ClassificationObject.py:111-113 | `most_common(1)` is the one-element list holding the majority label |
| Counting.Top | utils/ClassificationObject.py:244 | the ranking takes at most n elements |
| Counting.MostCommon | utils/ClassificationObject.py:244 | `most_common(n)` keys: at most n of them; what they are is stated by the `Top` lemmas below |
| Counting.Flatten | utils/ClassificationObject.py:241 | every element of every list reappears in the concatenation |
| Track.Centroid | utils/ClassificationObject.py:139-147 | the centroid is the midpoint of the two corners in x and in y |
| Track.ClassificationObject.constructor | utils/ClassificationObject.py:9-82 | the track satisfies its invariant and holds the first frame, label, confidence and box; occurrences 1, distance 0, static distance 0, static; colour lists hold the first colours only when given; empty colour summary |
| Track.ClassificationObject.AddFrameNumber | utils/ClassificationObject.py:84-93 | appends the frame and raises `occurences` by one |
| Track.ClassificationObject.AddObjectName | utils/ClassificationObject.py:95-103 | appends the label and re-elects the majority over all labels |
| Track.ClassificationObject.EditObjectName | utils/ClassificationObject.py:105-113 | the label becomes the majority of the recorded labels |
| Track.ClassificationObject.AddObjectConf | utils/ClassificationObject.py:115-122 | appends the confidence |
| Track.ClassificationObject.AddTrajectory | utils/ClassificationObject.py:124-137 | appends the box and its centroid together; distance grows by the step from the previous centroid; static distance is first-to-new; the static flag follows the policy |
| Track.ClassificationObject.AddTrajectoryCentroid | utils/ClassificationObject.py:149-159 | appends the centroid, adds the step, and recomputes the displacement and the static flag |
| Track.ClassificationObject.AddOccurence | utils/ClassificationObject.py:161-166 | `occurences` grows by one |
| Track.ClassificationObject.AddDistance | utils/ClassificationObject.py:168-180 | distance grows by exactly the step between the last two centroids |
| Track.ClassificationObject.EditStaticDistance | utils/ClassificationObject.py:182-195 | static distance is recomputed, not accumulated, as first-to-last centroid, then the flag is re-decided |
| Track.ClassificationObject.EditIsStatic | utils/ClassificationObject.py:197-205 | static iff static distance <= MIN_STATIC_DISTANCE and distance >= MIN_DISTANCE |
| Track.ClassificationObject.AddObjectColorsBgr | utils/ClassificationObject.py:207-214 | appends the BGR colour list |
| Track.ClassificationObject.AddObjectColorsHls | utils/ClassificationObject.py:216-223 | appends the HLS colour list |
| Track.ClassificationObject.AddObjectColorsStr | utils/ClassificationObject.py:225-233 | appends the name list and makes the summary the top three names over all recorded lists |
| Track.ClassificationObject.EditObjectColorStr | utils/ClassificationObject.py:235-248 | the summary becomes `most_common(3)` over the flattened colour-name history |
| Track.PathLength | utils/ClassificationObject.py:168-180 | the running total is 0 before any step; the lemmas below relate it to each step and to the net displacement |
| Track.NetDisplacement | utils/ClassificationObject.py:182-195 | the static distance is 0 before any step |
| Track.ReturnedHasNoDisplacement | utils/ClassificationObject.py:182-195 | a track back at its first centroid has a static distance of 0, however far it travelled |
| Track.StaticPolicy | utils/ClassificationObject.py:197-205 | a static track travelled at least MIN_DISTANCE - MIN_STATIC_DISTANCE beyond its net displacement |
| Track.PathLengthAppend | utils/ClassificationObject.py:168-180 | one more centroid adds exactly its step from the previous last centroid to the running total |
| Track.IncrementalEqualsBatch | utils/ClassificationObject.py:168-180 | the incrementally kept distance equals the sum of all consecutive steps recomputed from the whole centroid history |
| Track.PathLengthMonotone | utils/ClassificationObject.py:168-180 | with a non-negative distance the total never decreases as the history grows |
| Track.NoMovementNoDistance | utils/ClassificationObject.py:168-194 | centroids that never move give distance 0 and static distance 0 |
| Track.NetDisplacementAtMostPathLength | utils/ClassificationObject.py:168-194 | the static distance never exceeds the travelled distance (triangle inequality) |
| Track.StaticMeaning | utils/ClassificationObject.py:182-205 | a valid track is static iff it was seen once, or it ended within MIN_STATIC_DISTANCE of its start having travelled at least MIN_DISTANCE |
| Track.NeverMovedIsNotStatic | utils/ClassificationObject.py:197-205 | with MIN_DISTANCE > 0, a track seen twice or more that never moved is not static |
| Track.MajorityTieGoesToFirstSeen | utils/ClassificationObject.py:105-113 | labels [b, a, a, b] elect b: a reaches the tied count first, but b was seen first and wins |
| TrackFunctions.IndexOfId | utils/ClassificationObjectFunctions.py:50-61 | the position of the first track with the id, absent exactly when no track has it |
| TrackFunctions.CreateClassificationObject | utils/ClassificationObjectFunctions.py:5-20 | a fresh valid track built from exactly the given first observation, frame size and colour lists |
| TrackFunctions.FindClassificationObject | utils/ClassificationObjectFunctions.py:50-61 | returns the first track in list order with the id, and None when there is none (the ValueError is never raised) |
| TrackFunctions.FindMeaning | utils/ClassificationObjectFunctions.py:56-61 | no match exactly when no track in the list has the id; a match is a member of the list |
| TrackFunctions.RecordDetection | utils/ClassificationObjectFunctions.py:40-43 | label, confidence, box and frame each grow by exactly one entry and the track stays valid |
| TrackFunctions.RecordColorValues | utils/ClassificationObjectFunctions.py:45-46 | each of the BGR and HLS lists is appended exactly when it is given |
| TrackFunctions.RecordColorNames | utils/ClassificationObjectFunctions.py:47 | the name list is appended only when given: then the summary is recomputed, otherwise it is unchanged |
| TrackFunctions.RecordColors | utils/ClassificationObjectFunctions.py:45-47 | each colour list is appended exactly when given (an empty list counts as given); with no names the summary is unchanged |
| TrackFunctions.RecordObservation | utils/ClassificationObjectFunctions.py:40-47 | all appends of an edit on one track, which stays valid |
| TrackFunctions.EditClassificationObject | utils/ClassificationObjectFunctions.py:23-47 | found iff some track has the id; the first such track receives every append, and every other track is unchanged |
| ReturnObject.NatToStringRoundTrip | utils/ReturnObject.py:33 | reading a decimal numeral back gives the number |
| ReturnObject.IntToStringRoundTrip | utils/ReturnObject.py:33 | `int(str(id)) == id` for every id, negative ones included |
| ReturnObject.IntToStringInjective | utils/ReturnObject.py:33 | distinct ids give distinct `'id'` strings |
| ReturnObject.IntToString | utils/ReturnObject.py:33 | `str(id)` is non-empty, starts with '-' iff the id is negative, and is digits otherwise |
| ReturnObject.DetailOf | utils/ReturnObject.py:33-53 | the legacy fields of an entry are `True`, 0, 0, 0 |
| ReturnObject.DetailIdRoundTrip | utils/ReturnObject.py:33 | the `'id'` string of an entry parses back to its track's id |
| ReturnObject.DetailsOfTracks | utils/ReturnObject.py:24-54 | the i-th label and the i-th entry of a list of added tracks are those of the i-th track |
| ReturnObject.EntriesAppend | utils/ReturnObject.py:24-54 | one more track adds its own label and its own entry at the end, and earlier entries stay as they were |
| ReturnObject.ReturnJSON.constructor | utils/ReturnObject.py:6-22 | operation "classify", count 0, empty properties and details |
| ReturnObject.ReturnJSON.AddDetectedObject | utils/ReturnObject.py:24-54 | count + 1, and exactly one label and one entry appended; the count equals both lengths and each label is its entry's `'classified'` |
| ReturnObject.ReturnJSON.BatchAddDetectedObject | utils/ReturnObject.py:56-63 | the same report as adding each track in list order: the count grows by the list length and the lists grow by the tracks' labels and entries |
| ObjectClassification.Observe | object_classification_yolov8.py:171-183 | an observation carries the box's id, translated label and current frame number, and carries colours exactly when FIND_DOMINANT_COLORS is set |
| ObjectClassification.RoutedCount | object_classification_yolov8.py:160-166 | the boxes routed in a frame are those before the first box without an id |
| ObjectClassification.ObserveAll | object_classification_yolov8.py:160-183 | one observation per routed box, each stamped with the current frame |
| ObjectClassification.FrameObservations | object_classification_yolov8.py:157-183 | a frame contributes only observations of that frame, and none when the tracker returns nothing |
| ObjectClassification.FrameSkipFactor | object_classification_yolov8.py:117 | `None` exactly when CLASSIFICATION_FPS is 0 |
| ObjectClassification.FrameSkipFactorTruncates | object_classification_yolov8.py:117 | for a non-negative quotient the skip factor is fps / CLASSIFICATION_FPS rounded toward zero |
| ObjectClassification.ClassifiedFrames | object_classification_yolov8.py:141 | `predicted_frames` after n frames is at most n, and at least 1 once a frame is read |
| ObjectClassification.ClassifiedFramesCount | object_classification_yolov8.py:141-237 | after n frames, `predicted_frames` is ceil(n / frame_skip_factor) |
| ObjectClassification.ClassifiedFramesMonotone | object_classification_yolov8.py:237 | `predicted_frames` never decreases as frames are read |
| ObjectClassification.ContinuesEarlier | object_classification_yolov8.py:125 | a loop that goes on past frame n went on past every earlier frame |
| ObjectClassification.ContinuesBelow | object_classification_yolov8.py:122-125 | the loop goes on past frame n iff n is below the stop frame (prediction budget, frame count, video length) |
| ObjectClassification.StopFrame | object_classification_yolov8.py:121-125 | the stop frame is within the video and the frame count, and 0 when no predictions are allowed |
| ObjectClassification.LoopStops | object_classification_yolov8.py:122-238 | a loop that stops at n stops at the stop frame, having classified ceil(n / skip) frames |
| ObjectClassification.StepObservations | object_classification_yolov8.py:141-215 | reading a frame routes only observations of that frame, and only when the skip factor selects it |
| ObjectClassification.HistoryLength | object_classification_yolov8.py:189-215 | an id has as many observations as it occurs in the stream, and some iff it occurs |
| ObjectClassification.NewIdHistories | object_classification_yolov8.py:201-215 | the first observation of an id puts it at the end of the keys with a one-entry history, leaving other histories alone |
| ObjectClassification.HistoryInFrameOrder | object_classification_yolov8.py:195 | the history of an id keeps the stream's frame order |
| ObjectClassification.RecordKnown | object_classification_yolov8.py:189-199 | routing an observation of a known id keeps the registry exact for the longer stream |
| ObjectClassification.CreateFor | object_classification_yolov8.py:202-212 | a fresh track with the observation's id holding exactly that observation |
| ObjectClassification.RegistryGrows | object_classification_yolov8.py:214-215 | appending the new id and its new track keeps the two lists exact for the longer stream |
| ObjectClassification.RegisterNew | object_classification_yolov8.py:201-215 | a new id gets a fresh track, appended to both lists, and the registry stays exact |
| ObjectClassification.RouteDetection | object_classification_yolov8.py:189-215 | create-or-edit dispatch: the registry describes the stream with the observation appended |
| ObjectClassification.ObserveBox | object_classification_yolov8.py:171-183 | the extraction, with `crop_and_detect` when colours are on, computes exactly the observation of the box |
| ObjectClassification.RouteBox | object_classification_yolov8.py:165-215 | a box with an id is observed and routed, so the registry describes the routed run extended by that box's observation |
| ObjectClassification.ClassifyFrame | object_classification_yolov8.py:157-215 | after a frame, the registry describes the old stream plus the frame's observations, stopping at the first box without an id |
| ObjectClassification.ReadFrame | object_classification_yolov8.py:129-238 | one pass of the loop counts a predicted frame exactly when the frame is selected, and the registry covers one more frame |
| ObjectClassification.ClassifyVideo | object_classification_yolov8.py:109-238 | the loop runs while it may and stops at the first frame where it may not; `predicted_frames` counts the classified frames; the lists describe every routed observation; all tracks are fresh |
| ObjectClassification.KeepIfFrequent | object_classification_yolov8.py:263-265 | a track with enough occurrences goes into the filtered list and the report together; otherwise neither changes |
| ObjectClassification.FilterAndReport | object_classification_yolov8.py:257-265 | the filtered list is the frequent tracks in list order, and the report lists exactly their labels and entries |
| ObjectClassification.TrackFrames | object_classification_yolov8.py:195-238 | every track's frame list is non-decreasing and holds only classified frame numbers below the frames read |
| ObjectClassification.ColorSummaryOf | utils/ClassificationObject.py:235-248 | the colour summary holds at most three names |
| ObjectClassification.ColorSummaryWithoutNames | utils/ClassificationObject.py:235-248 | a track whose observations bring no colour names keeps the empty colour summary it was created with |
| ObjectClassification.HistoryWithoutNames | object_classification_yolov8.py:189-215 | in a stream without colour names, every id's history leads to the empty colour summary |
| ObjectClassification.RegistryTrack | object_classification_yolov8.py:189-215 | a track counts exactly its id's observations, its first frame is the frame of the first of them, and without colour names its colour summary is empty |
| ObjectClassification.RegistryOrder | object_classification_yolov8.py:109-215 | ids and tracks are pairwise distinct, and in first-seen order |
| ObjectClassification.Kept | object_classification_yolov8.py:261-263 | the `MIN_DETECTIONS` filter in list order; its meaning is stated by `KeptAppend` and `KeptExactly` |
| ObjectClassification.KeptAppend | object_classification_yolov8.py:261-263 | one more track is kept at the end exactly when its occurrences reach MIN_DETECTIONS |
| ObjectClassification.KeptExactly | object_classification_yolov8.py:261-265 | a track is kept iff it is in the list and has at least MIN_DETECTIONS occurrences |
| ObjectClassification.KeptIds | object_classification_yolov8.py:261-265 | when each track's count is its id's count, the kept tracks' ids are the frequent ids, in order |
| ObjectClassification.ReportedIds | object_classification_yolov8.py:257-265 | the report's tracks are exactly the ids seen at least MIN_DETECTIONS times, in first-seen order |
| ObjectClassification.ClassifyAndReport | object_classification_yolov8.py:109-265 | a whole run stops at the stop frame; the report holds, in first-seen order, exactly the ids seen at least MIN_DETECTIONS times in the frames read, with lock-step count and lists |

## Left out

- Message queue, object storage, model loading and video I/O are not modelled:
  - RabbitMQ, KerberosVault and the YOLO/torch runtime;
  - `VideoCapture` and `VideoWriter`, `imshow` and `waitKey`;
  - the bbox frame and `annotate_frame`/`annotate_bbox_frame` (utils/AnnotateFrame.py is not part of this model);
  - `save_returnjson`, `json.dumps` and `cv2.imwrite`.
  The video is a list of frames plus the properties `cap.get` reports. A failed `cap.read()` is the end of that list.
- The tracker is foreign: `MODEL.track(..., persist=True)` is the function `track` of the frame number and the frame, so its internal state is not modelled.
- The zip at line 160 truncates to the shorter of boxes and masks. The model pairs each box with its own optional mask, so it assumes equal lengths.
- The `np.int32` conversion of mask points is not modelled: the polygon is handed on as integer points.
- Pixel operations and the clustering are foreign:
  - numpy slicing (including negative or out-of-range crop coordinates);
  - `fillPoly` with alpha masking;
  - the k-means/elbow search of `ColorPrediction.find_main_colors`;
  - `cv2.cvtColor`.
  Each is a function-typed field of `Vision`. `segment_object` and `bgr_to_hls` have no model beyond those fields.
- Floating point is modelled with exact reals:
  - distances, confidences and HLS ratios;
  - `fps / CLASSIFICATION_FPS`, where the model's `Trunc` is `int()` on the exact quotient.
  `math.sqrt` is the parameter `dist`.
- Environment loading (utils/VariableClass.py) is not modelled. The settings are a `Settings` value, and the track's two thresholds are `Thresholds`. `CREATE_RETURN_JSON` is taken as set, because the report is the output being modelled. `COLOR_PREDICTION_INTERVAL` is never used by the code.
- The legacy fields `valid`, `w`, `x` and `y` are the constants the constructor sets (`True`, 0, 0, 0). The report entry holds those constants.
- Aliasing between a report entry and its track is not modelled. The source's `details_dict` holds references to the track's own lists, while `DetailOf` takes a copy of their values. The two cannot differ here, because the report is built after the last change to any track.
- `CAP_PROP_FRAME_COUNT` is a float in the source; the model's frame count is an integer.
- ObjectClassification.ClassifyVideo: requires a frame skip factor of at least 1.
  - A zero `CLASSIFICATION_FPS` raises `ZeroDivisionError` at line 117.
  - A skip factor of 0 raises `ZeroDivisionError` at line 141 as soon as a frame is read.
  - A negative skip factor (negative fps) would run with Python's floored `%`, which the model does not cover.
- ObjectClassification.ClassifyAndReport: requires the same skip factor of at least 1, for the same reasons.
- TrackFunctions.EditClassificationObject: when no track has the id, the source dereferences the `None` returned by `find_classification_object` and raises `AttributeError`. The model returns `found == false` and changes nothing. The main loop only edits ids already in its list, so the case never arises there.
- ColorDetector.HlsToStr: for a doubled hue of exactly 345 the source fails on an unassigned `color`. An integer OpenCV hue never produces that value, and the model has no such input.
