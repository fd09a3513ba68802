# pointcloud_to_laserscan: the CloudToScan node, modelled in Dafny

The `CloudToScan` nodelet turns each 3-D point cloud into one planar laser scan. It
holds a small configuration: a height band, an angular window with its increment, a
scan time, a range band, and two frame ids. For every cloud it does three things:

1. It builds a scan whose metadata copies the configuration. The scan gets
   `ceil((angle_max - angle_min) / angle_increment)` ranges, each filled with the
   "no return" sentinel `range_max + 1.0`.
2. It derives a virtual sensor frame from the camera pose and broadcasts it. The frame
   sits at the middle of the height band and is turned about the vertical axis towards
   the camera's heading.
3. It projects every point into that frame lowered to height zero. A point is dropped
   if it has a NaN coordinate, lies outside the height band, is closer than `range_min`,
   or has a bearing outside the window. Otherwise it lands in one bin, and it overwrites
   that bin only when it is strictly closer than what the bin holds.

The project has three modules:

- `Reduction` (`reduction.dfy`) holds the pure part. It has the filter chain
  (`Classify`) and the bin-index guard (`Guarded`). It has the per-point update (`Step`)
  and the reduction of a point sequence (`Reduced`). Lemmas prove the bin-index bounds,
  that no bin ever grows, that each bin ends as the minimum of its candidates, and that
  the order of the points does not matter.
- `Frames` (`frames.dfy`) holds the broadcast virtual-sensor frame and the projection
  frame derived from it.
- `Nodelet` (`cloud_to_scan.dfy`) holds the class `CloudToScan`. Its fields are the
  node's. It has the constructor defaults, `Reconfigure`, and `Callback`. `Callback`
  allocates the ranges `array<real>` and updates it in place, one point at a time.
  The loop is proved against `Reduced`.

Geometry is exact `real` arithmetic. `atan2` and `sqrt` are parameters (the `Numerics`
record). The camera pose comes from a frame lookup; the callback receives it as the
camera origin and the z axis of the optical camera frame (its viewing direction) after
rotation. The rigid map from camera coordinates into the projection frame comes from the
transform library; the callback receives it as a function `project`. The lemmas that need a real square root take
`SqrtExact(num.sqrt)` as a hypothesis.

## Model

| member | source | states |
|---|---|---|
| `Reduction.Ceil` | src/cloud_to_scan.cpp:155 | the result is the least integer not below its argument |
| `Reduction.Trunc` | src/cloud_to_scan.cpp:230 | the float-to-int conversion rounds toward zero: for a non-negative argument it is the floor, for a negative one the ceiling |
| `Reduction.BinCount` | src/cloud_to_scan.cpp:155 | the bin count fits a `uint32`; with a positive increment, that many bins of width `angle_increment` cover the window and one fewer does not |
| `Reduction.Sentinels` | src/cloud_to_scan.cpp:156 | a ranges vector of the given length with every entry equal to the fill value |
| `Reduction.Classify` | src/cloud_to_scan.cpp:206-230 | the filter chain as written (with `RangeSq` and `Bearing` for lines 218 and 224): the verdict is "not a number" exactly when some coordinate is NaN, and an accepted point's squared range is at least `range_min_sq_`; `HitIffPassesEveryFilter` gives the full acceptance condition |
| `Reduction.HitIffPassesEveryFilter` | src/cloud_to_scan.cpp:206-230 | a point is accepted if and only if it has no NaN coordinate, `min_height <= z <= max_height`, `x*x + y*y >= range_min_sq_`, and `angle_min <= -atan2(-y, x) <= angle_max`; it then carries its squared range and bin `(int)((angle - angle_min) / angle_increment)` |
| `Reduction.HitIndexWithinWindow` | src/cloud_to_scan.cpp:225-230 | with a positive increment, an accepted point's index lies in `[0, ranges_size]`; it equals `ranges_size` exactly when the bearing is `angle_max` and the window is a whole number of increments |
| `Reduction.BoundaryPointIndexesPastEnd` | src/cloud_to_scan.cpp:225-232 | with the defaults, a point at (0, 1, 0.12) is accepted into bin 360 of a 360-bin scan; the guarded verdict drops it |
| `Reduction.Guarded` | src/cloud_to_scan.cpp:230-232 | an accepted point's bin index is in `[0, n)`; points whose index is out of range are dropped, and every other point gets exactly the as-written verdict |
| `Reduction.GuardDropsOnlyBoundaryPoints` | src/cloud_to_scan.cpp:225-232 | with the scan's own bin count, the guard changes the verdict of exactly the points on `angle_max` when the window is a whole number of increments |
| `Reduction.Step` | src/cloud_to_scan.cpp:230-233 | a rejected point leaves the ranges unchanged; an accepted one changes at most its own bin, only when the stored range squared is strictly larger than its squared range (a tie keeps the stored value), and then to `sqrt` of its squared range; when the stored range squared is strictly larger, the bin is overwritten with that `sqrt` |
| `Reduction.Reduced` | src/cloud_to_scan.cpp:197-234 | the loop visits the points in order, one `Step` each; the ranges keep their length, and a bin that changed has at least one point landing in it |
| `Reduction.StepNeverIncreases` | src/cloud_to_scan.cpp:232-233 | from non-negative ranges, one point leaves every bin non-negative and no larger than before |
| `Reduction.StepBoundsLandingBin` | src/cloud_to_scan.cpp:232-233 | after a point lands in a bin, that bin holds at most the point's range |
| `Reduction.ReducedIsBinMinimum` | src/cloud_to_scan.cpp:197-234 | after the loop, each bin is no larger than its fill value and than the range of every accepted point that lands in it, and equals one of these; all bins stay non-negative |
| `Reduction.ReducedOrderIndependent` | src/cloud_to_scan.cpp:197-234 | two point sequences with the same points (in any order, with any repetition) give the same ranges |
| `Reduction.ScenarioPointStraightAhead` | src/cloud_to_scan.cpp:206-233 | with the defaults, a single point one metre straight ahead at height 0.12 sets bin 180 to 1.0 and leaves the other 359 bins at 11.0 |
| `Reduction.ScenarioPointTooClose` | src/cloud_to_scan.cpp:218-222 | with the defaults, a point 0.3 m away changes no bin |
| `Reduction.ScenarioPointTooHigh` | src/cloud_to_scan.cpp:212-216 | with the defaults, a point at height 0.20 changes no bin, whatever its x and y |
| `Frames.VirtualFrame` | src/cloud_to_scan.cpp:171-189 | the broadcast transform goes from the reference frame to the output frame at the cloud's stamp; its origin has the camera's x and y and a height equidistant from `min_height` and `max_height`; its yaw is `atan2` of the rotated viewing axis's y and x |
| `Frames.ProjectionFrame` | src/cloud_to_scan.cpp:192-193 | the projection frame is the broadcast one with the origin's height set to zero and nothing else changed |
| `Frames.VirtualFrameHeights` | src/cloud_to_scan.cpp:171-193 | with `min_height <= max_height`, the broadcast origin lies inside the height band; the projection origin is the camera's horizontal position at height zero, with the same yaw |
| `Nodelet.Projected` | src/cloud_to_scan.cpp:197-200 | every point of the cloud, in order, mapped by the rigid transform into the lowered frame |
| `Nodelet.Offer` | src/cloud_to_scan.cpp:206-233 | one pass of the loop body updates the ranges array in place to `Step` of its former contents |
| `Nodelet.ReduceCloud` | src/cloud_to_scan.cpp:197-234 | the loop leaves the ranges array equal to `Reduced` of its former contents over the projected points |
| `Nodelet.CloudToScan.constructor` | src/cloud_to_scan.cpp:50-61 | the defaults: heights 0.10 and 0.15, window ±pi/2 with increment pi/360, scan time 1/30, ranges 0.45 and 10.0, frames `/kinect_depth_frame` and `/kinect_link`; the cached square is consistent |
| `Nodelet.CloudToScan.Reconfigure` | src/cloud_to_scan.cpp:128-140 | the eight numeric fields equal the new configuration, `rangeMinSq == rangeMin * rangeMin`, and both frame ids are unchanged |
| `Nodelet.CloudToScan.NewScan` | src/cloud_to_scan.cpp:144-156 | the scan header is the cloud's with the output frame id; angles, scan time and range band are the current fields; the time increment is 0; there are `BinCount` ranges, all equal to `range_max + 1.0`, which exceeds `range_max` |
| `Nodelet.CloudToScan.Callback` | src/cloud_to_scan.cpp:142-237 | the broadcast transform is the virtual frame of the camera pose; the published ranges are the reduction, from the sentinel fill, of the cloud's points projected into the lowered frame; once the cached square is up to date, as the constructor and `Reconfigure` leave it, that reduction uses the filter the settings define; the metadata is as for `NewScan` |

## Left out

- Node start-up is not modelled. This covers parameter loading in `onInit`, the
  dynamic-reconfigure server, publisher and subscriber creation, and the plugin
  registration (src/cloud_to_scan.cpp:78-110, 249). They are framework glue. The
  constructor computes the cached `range_min_sq_`, which the source first computes in
  `onInit` (line 93).
- Lazy subscription is not modelled: `connectCB`, `disconnectCB` and `connect_mutex_`
  (lines 71, 112-126). They gate a subscription on an external subscriber count under a
  lock.
- The frame lookup and its one-second wait are not modelled (lines 159-166). The camera
  pose is a parameter of `Callback`. The failure path is not modelled either: there the
  source goes on with a default-constructed transform.
- The broadcast and the publication are not modelled as side effects (lines 189, 236).
  `Callback` returns the transform and the scan instead. Logging is left out.
- Quaternion and vector arithmetic are not modelled. The camera's rotated viewing axis
  and the composed map `cloud_to_out` (lines 176-178, 194-200) come from parameters.
- `atan2` and `sqrt` are parameters, and IEEE floating point is not modelled. This
  covers the `double` arithmetic, the `float` copies of x, y and z (lines 202-204), the
  `float` ranges vector, and infinities. A NaN coordinate is an explicit constructor.
- The `int` conversion of the bin index is modelled as truncation to an unbounded
  integer. Its 32-bit range is not modelled; that only matters for scans with more than
  2^31 bins.
- `Nodelet.CloudToScan.Callback` requires `WindowDefined`: a non-zero increment and a
  bin count that fits a `uint32`. Outside that, the source divides by zero or converts
  an out-of-range double to `uint32_t`, which is undefined behaviour.
- `Reduction.ReducedIsBinMinimum`, `Reduction.StepNeverIncreases` and
  `Reduction.ReducedOrderIndependent` assume a non-negative fill, that is
  `range_max >= -1`. With a negative fill, the comparison of squares lets a bin grow.
  These lemmas also assume an exact square root.
- The unused `level` argument of `reconfigure` is dropped.
- The yaw is `atan2` of the rotated viewing axis's horizontal part. For an identity camera
  rotation that vector is vertical, so the yaw is `atan2(0, 0)`. The model follows the
  code here.

## Findings

| source | as written | input that shows it | evidently intended | confidence | as-written member | corrected member |
|---|---|---|---|---|---|---|
| src/cloud_to_scan.cpp:225-233 | only `angle > angle_max` is rejected; `index = (int)((angle - angle_min) / angle_increment)` then indexes `ranges` unchecked | default configuration; a point at (0, 1, 0.12) in the sensor frame has bearing pi/2 = `angle_max`, so index 360, but the scan has 360 bins | every index used is in `[0, ranges_size)`; a point past the last bin is dropped | not executed; exact in real arithmetic, but the double rounding of the quotient decides a given machine | `Reduction.BoundaryPointIndexesPastEnd` | `Reduction.Guarded` |
