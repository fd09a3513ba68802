/** The `CloudToScan` node: its configuration state, its reconfiguration entry point and
    the per-cloud callback that builds one laser scan.

    What the callback receives from its collaborators is passed in explicitly: the
    camera pose looked up in the reference frame (its origin, and its rotation applied
    to the z axis of the optical camera frame, which is the viewing direction), the
    numerical library, and `project`, which turns a projection frame into the rigid map
    from camera coordinates into it. The scan it would publish and the transform it
    would broadcast are its out-parameters. */
module Nodelet {
  import opened Reduction
  import opened Frames

  /** The header of a message: sequence number, time stamp and frame id. */
  datatype Header = Header(seqNo: nat, stamp: int, frameId: string)

  datatype PointCloud = PointCloud(header: Header, points: seq<Point>)

  /** Everything of a laser scan except its ranges. */
  datatype ScanInfo = ScanInfo(
    header: Header,
    angleMin: real, angleMax: real, angleIncrement: real,
    timeIncrement: real, scanTime: real,
    rangeMin: real, rangeMax: real)

  /** The points of a cloud, each mapped into the projection frame. */
  function Projected(pts: seq<Point>, toFrame: Point -> Point): (q: seq<Point>)
    ensures |q| == |pts| && forall i :: 0 <= i < |pts| ==> q[i] == toFrame(pts[i])
  {
    seq(|pts|, i requires 0 <= i < |pts| => toFrame(pts[i]))
  }

  /** The body of the callback's loop for one projected point: a point that passes the
      filters overwrites its bin when it is strictly closer than what the bin holds. */
  method Offer(ranges: array<real>, filter: Filter, p: Point, num: Numerics)
    requires filter.angleIncrement != 0.0
    modifies ranges
    ensures ranges[..] == Step(filter, old(ranges[..]), p, num)
  {
    ghost var before := ranges[..];
    var v := Guarded(filter, ranges.Length, p, num.atan2);
    if v.Hit? && ranges[v.index] * ranges[v.index] > v.rangeSq {
      ranges[v.index] := num.sqrt(v.rangeSq);
      assert ranges[..] == before[v.index := num.sqrt(v.rangeSq)];
    } else {
      assert ranges[..] == before;
    }
  }

  /** The loop of the callback: every point of the cloud is mapped into the projection
      frame and offered to its bin; the array ends as the reduction of the mapped points
      from its former contents. */
  method ReduceCloud(
    ranges: array<real>, filter: Filter, points: seq<Point>, toFrame: Point -> Point, num: Numerics)
    requires filter.angleIncrement != 0.0
    modifies ranges
    ensures ranges[..] == Reduced(filter, old(ranges[..]), Projected(points, toFrame), num)
  {
    ghost var init := ranges[..];
    ghost var pts := Projected(points, toFrame);
    assert pts[..0] == [];
    for i := 0 to |points|
      invariant ranges[..] == Reduced(filter, init, pts[..i], num)
    {
      var p := toFrame(points[i]);
      ReducedExtend(filter, init, pts, i, num);
      Offer(ranges, filter, p, num);
    }
    assert pts[..|points|] == pts;
  }

  class CloudToScan {
    var minHeight: real
    var maxHeight: real
    var angleMin: real
    var angleMax: real
    var angleIncrement: real
    var scanTime: real
    var rangeMin: real
    var rangeMax: real
    /** Cached `rangeMin * rangeMin`, the threshold the filter compares against. */
    var rangeMinSq: real
    var outputFrameId: string
    var refFrameId: string

    /** The cached square is up to date. */
    ghost predicate Valid()
      reads this
    {
      rangeMinSq == rangeMin * rangeMin
    }

    /** The eight numeric parameters as one value. */
    function Settings(): Config
      reads this
    {
      Config(minHeight, maxHeight, angleMin, angleMax, angleIncrement, scanTime, rangeMin, rangeMax)
    }

    /** What the filter chain reads, including the cached square as it stands. */
    function Current(): Filter
      reads this
    {
      Filter(minHeight, maxHeight, rangeMinSq, angleMin, angleMax, angleIncrement)
    }

    /** The defaults; the cached square, which the node first computes when it starts,
        is computed here. */
    constructor ()
      ensures Valid() && Settings() == Defaults && Current() == FilterOf(Defaults)
      ensures outputFrameId == "/kinect_depth_frame" && refFrameId == "/kinect_link"
    {
      minHeight := 0.10;
      maxHeight := 0.15;
      angleMin := -PI / 2.0;
      angleMax := PI / 2.0;
      angleIncrement := PI / 180.0 / 2.0;
      scanTime := 1.0 / 30.0;
      rangeMin := 0.45;
      rangeMax := 10.0;
      outputFrameId := "/kinect_depth_frame";
      refFrameId := "/kinect_link";
      rangeMinSq := 0.45 * 0.45;
    }

    /** Replaces the eight numeric parameters and re-derives the cached square; the
        frame ids stay as they were. */
    method Reconfigure(config: Config)
      modifies this
      ensures Valid()
      ensures Settings() == config && Current() == FilterOf(config)
      ensures outputFrameId == old(outputFrameId) && refFrameId == old(refFrameId)
    {
      minHeight := config.minHeight;
      maxHeight := config.maxHeight;
      angleMin := config.angleMin;
      angleMax := config.angleMax;
      angleIncrement := config.angleIncrement;
      scanTime := config.scanTime;
      rangeMin := config.rangeMin;
      rangeMax := config.rangeMax;

      rangeMinSq := rangeMin * rangeMin;
    }

    /** A fresh scan for a cloud with this header: the header relabelled with the output
        frame, the current parameters, a zero time increment, and `BinCount` ranges that
        all hold the "no return" sentinel `rangeMax + 1.0`. */
    method NewScan(header: Header) returns (scan: ScanInfo, ranges: array<real>)
      requires WindowDefined(Current())
      ensures scan == ScanInfo(
        header.(frameId := outputFrameId),
        angleMin, angleMax, angleIncrement, 0.0, scanTime, rangeMin, rangeMax)
      ensures fresh(ranges) && ranges.Length == BinCount(Current())
      ensures forall k :: 0 <= k < ranges.Length ==> ranges[k] == rangeMax + 1.0 > rangeMax
    {
      scan := ScanInfo(
        header.(frameId := outputFrameId),
        angleMin, angleMax, angleIncrement, 0.0, scanTime, rangeMin, rangeMax);
      var size := BinCount(Current());
      var fill := scan.rangeMax + 1.0;
      ranges := new real[size](_ => fill);
    }

    /** Converts one cloud. The scan is a fresh one for the cloud's header whose ranges
        end as the reduction of the projected points. The broadcast frame is the virtual
        sensor frame of the cloud's camera pose, and the points are projected into that
        frame lowered to height zero. Once the cached square is up to date, as the
        constructor and `Reconfigure` leave it, the filter is the one the settings
        define. */
    method Callback(
      cloud: PointCloud, cameraOrigin: Vec3, rotatedAxis: Vec3,
      project: StampedTransform -> Point -> Point, num: Numerics)
      returns (scan: ScanInfo, ranges: array<real>, sent: StampedTransform)
      requires WindowDefined(Current())
      ensures scan == ScanInfo(
        cloud.header.(frameId := outputFrameId),
        angleMin, angleMax, angleIncrement, 0.0, scanTime, rangeMin, rangeMax)
      ensures sent == VirtualFrame(refFrameId, outputFrameId, cloud.header.stamp,
                                   cameraOrigin, rotatedAxis, minHeight, maxHeight, num.atan2)
      ensures fresh(ranges) && ranges.Length == BinCount(Current())
      ensures ranges[..] == Reduced(Current(), Sentinels(ranges.Length, rangeMax + 1.0),
                                    Projected(cloud.points, project(ProjectionFrame(sent))), num)
      ensures Valid() ==>
        ranges[..] == Reduced(FilterOf(Settings()), Sentinels(ranges.Length, rangeMax + 1.0),
                              Projected(cloud.points, project(ProjectionFrame(sent))), num)
    {
      scan, ranges := NewScan(cloud.header);

      sent := VirtualFrame(refFrameId, outputFrameId, cloud.header.stamp,
                           cameraOrigin, rotatedAxis, minHeight, maxHeight, num.atan2);
      var toFrame := project(ProjectionFrame(sent));

      assert ranges[..] == Sentinels(ranges.Length, rangeMax + 1.0);
      ReduceCloud(ranges, Current(), cloud.points, toFrame, num);
      assert Valid() ==> Current() == FilterOf(Settings());
    }
  }
}
