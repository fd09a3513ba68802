/** The frame of the virtual planar sensor that each cloud defines.

    The sensor sits above the camera's horizontal position, at the middle of the height
    band, and is turned about the vertical axis only, so that its forward axis follows
    the camera's heading. Its rotation is therefore kept as a single yaw angle. The
    camera's rotation itself, applied to the z axis of the optical camera frame (the
    viewing direction), is handed in as `rotatedAxis`: quaternion arithmetic belongs to
    the transform library. */
module Frames {

  datatype Vec3 = Vec3(x: real, y: real, z: real)

  /** A rigid transform from `frameId` to `childFrameId` at `stamp` whose rotation is a
      pure rotation by `yaw` about the vertical axis. */
  datatype StampedTransform = StampedTransform(
    frameId: string, childFrameId: string, stamp: int, origin: Vec3, yaw: real)

  /** The sensor frame that is broadcast: the camera's horizontal position raised to the
      middle of the height band, turned by the heading `atan2(axis.y, axis.x)` of the
      camera's rotated viewing axis. */
  function VirtualFrame(
    refFrameId: string, outputFrameId: string, stamp: int,
    cameraOrigin: Vec3, rotatedAxis: Vec3,
    minHeight: real, maxHeight: real,
    atan2: (real, real) -> real): (t: StampedTransform)
    ensures t.frameId == refFrameId && t.childFrameId == outputFrameId && t.stamp == stamp
    ensures t.origin.x == cameraOrigin.x && t.origin.y == cameraOrigin.y
    ensures t.origin.z - minHeight == maxHeight - t.origin.z
    ensures t.yaw == atan2(rotatedAxis.y, rotatedAxis.x)
  {
    var origin := Vec3(cameraOrigin.x, cameraOrigin.y, (minHeight + maxHeight) * 0.5);
    StampedTransform(refFrameId, outputFrameId, stamp, origin, atan2(rotatedAxis.y, rotatedAxis.x))
  }

  /** The frame the points are projected into: the broadcast frame lowered to height
      zero, so that a point's height in it is its height above the reference frame. */
  function ProjectionFrame(t: StampedTransform): (u: StampedTransform)
    ensures u.origin.z == 0.0
    ensures u == t.(origin := u.origin) && u.origin == t.origin.(z := u.origin.z)
  {
    t.(origin := t.origin.(z := 0.0))
  }

  /** When the band is not inverted, the sensor sits inside it; the projection frame
      differs from the broadcast one by exactly that height. */
  lemma VirtualFrameHeights(
    refFrameId: string, outputFrameId: string, stamp: int,
    cameraOrigin: Vec3, rotatedAxis: Vec3,
    minHeight: real, maxHeight: real,
    atan2: (real, real) -> real)
    ensures var t := VirtualFrame(refFrameId, outputFrameId, stamp, cameraOrigin, rotatedAxis,
                                  minHeight, maxHeight, atan2);
      && (minHeight <= maxHeight ==> minHeight <= t.origin.z <= maxHeight)
      && ProjectionFrame(t).origin == Vec3(cameraOrigin.x, cameraOrigin.y, 0.0)
      && ProjectionFrame(t).yaw == t.yaw
  {
  }
}
