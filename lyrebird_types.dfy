/** The data the client sends to the host: objects to create, with their
    placement and parameter values. Nullable C# members are `Option`s. */
module LyrebirdTypes {
  import opened Common

  /** One curve segment: "Line", "Arc" or "Spline", its control points and,
      for splines, its degree (weights and knots are geometry and left out). */
  datatype LyrebirdCurve = LyrebirdCurve(curveType: string, controlPoints: seq<Point>, degree: int)

  /** A (name, storage kind, value) parameter triple. `isType` is set only on
      the parameter descriptions that `GetParameters` returns. */
  datatype RevitParameter = RevitParameter(parameterName: string, storageType: string, value: string, isType: bool)

  /** One object to create. Exactly the members that the core reads. */
  datatype RevitObject = RevitObject(
    category: string,
    familyName: string,
    typeName: string,
    origin: Option<Point>,
    orientation: Option<Point>,
    faceOrientation: Option<Point>,
    adaptivePoints: Option<seq<Point>>,
    curves: Option<seq<LyrebirdCurve>>,
    parameters: seq<RevitParameter>)

  /** The two-argument `RevitObject(category, familyName)` used by the
      family-name query: every placement member is null. */
  function FamilyRef(category: string, familyName: string): (r: RevitObject)
    ensures r.category == category && r.familyName == familyName
    ensures r.origin == None && r.adaptivePoints == None && r.curves == None
  {
    RevitObject(category, familyName, "", None, None, None, None, None, [])
  }
}
