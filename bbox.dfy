/**
 * Bounding-box validation (`validate_bbox` in shcli/utils/utils.py).
 *
 * A box is the list [minLon, minLat, maxLon, maxLat]. The geometric test
 * (shapely's `box(...).is_valid`) is not modelled: it is a parameter that
 * either answers or raises.
 */
module BoundingBox {
  import opened Wrappers

  /** What the geometry library does with the four corners. */
  datatype GeometryOutcome = Checked(isValid: bool) | Raised

  /** `box(minLon, minLat, maxLon, maxLat).is_valid`, as an opaque predicate. */
  type GeometryCheck = (real, real, real, real) -> GeometryOutcome

  /** Four coordinates with strictly increasing corners. */
  predicate WellOrdered(b: seq<real>)
  {
    |b| == 4 && b[0] < b[2] && b[1] < b[3]
  }

  /**
   * The guard cascade: an absent box, a wrong length or non-increasing
   * corners are rejected; otherwise the geometry library decides, and an
   * exception from it counts as a rejection.
   */
  function Validate(bbox: Option<seq<real>>, isValidBox: GeometryCheck): (ok: bool)
    ensures bbox.None? ==> !ok
    ensures bbox.Some? && |bbox.value| != 4 ==> !ok
    ensures bbox.Some? && |bbox.value| == 4 && bbox.value[2] <= bbox.value[0] ==> !ok
    ensures bbox.Some? && |bbox.value| == 4 && bbox.value[3] <= bbox.value[1] ==> !ok
    ensures ok ==> bbox.Some? && WellOrdered(bbox.value)
    ensures bbox.Some? && WellOrdered(bbox.value) ==>
      var b := bbox.value;
      (ok <==> isValidBox(b[0], b[1], b[2], b[3]) == Checked(true))
    ensures bbox.Some? && |bbox.value| == 4 ==>
      var b := bbox.value;
      (isValidBox(b[0], b[1], b[2], b[3]) == Raised ==> !ok)
  {
    match bbox
    case None => false
    case Some(b) =>
      if |b| != 4 || b[2] <= b[0] || b[3] <= b[1] then false
      else
        match isValidBox(b[0], b[1], b[2], b[3])
        case Checked(valid) => valid
        case Raised => false
  }

  /** The four cases of the unit tests for `validate_bbox`. */
  lemma ValidateExamples(isValidBox: GeometryCheck)
    requires isValidBox(12.0, 47.0, 13.0, 48.0) == Checked(true)
    ensures Validate(Some([12.0, 47.0, 13.0, 48.0]), isValidBox)
    ensures !Validate(Some([13.0, 48.0, 12.0, 47.0]), isValidBox)
    ensures !Validate(Some([]), isValidBox)
    ensures !Validate(None, isValidBox)
  {
  }
}
