/** SteamPackageToGame (me.theforbiddenai tree): the package tier of the Steam
    expiration lookup. The package details request is a parameter of the caller; its
    outcome (the package node, or the IOException it threw) is given here. */
module SteamPackageToGame {
  import opened Common

  /** One element of the package details node. `discountEndRtime` is None when the
      element has no `discount_end_rtime`, Some(None) when the field is there but
      `asLong` cannot read it as a number (it then returns its default), and
      Some(Some(v)) when it reads as v. */
  datatype PackageElement = PackageElement(discountEndRtime: Option<Option<int>>)

  /** The private `getExpirationEpoch(JsonNode, String)`: a positive end time is the
      answer; a missing, unreadable, zero or negative one gives the sentinel. */
  function PackageEpoch(e: PackageElement): (r: int)
    ensures r == NoExpirationEpoch || r > 0
    ensures r > 0
      <==> e.discountEndRtime.Some? && e.discountEndRtime.value.Some? && e.discountEndRtime.value.value > 0
    ensures r > 0 ==> r == e.discountEndRtime.value.value
  {
    match e.discountEndRtime
    case None => NoExpirationEpoch
    case Some(field) =>
      var expirationEpoch := match field case None => NoExpirationEpoch case Some(v) => v;
      if expirationEpoch > 0 then expirationEpoch else NoExpirationEpoch
  }

  /** The public `getExpirationEpoch(packageId, appId)`, given the outcome of the
      package details request (Ok(None) for a null node). A request that throws
      IOException propagates it; a missing or empty node gives the sentinel;
      otherwise only the first element is consulted. The app id is not used. */
  function GetExpirationEpoch(packageNode: Response<seq<PackageElement>>): (r: Result<int>)
    ensures r.Err? <==> packageNode.Err?
    ensures packageNode.Err? ==> r.reason == packageNode.reason
    ensures packageNode.Ok? && (packageNode.value.None? || packageNode.value.value == []) ==> r == Ok(NoExpirationEpoch)
    ensures packageNode.Ok? && packageNode.value.Some? && packageNode.value.value != []
            ==> r == Ok(PackageEpoch(packageNode.value.value[0]))
    ensures r.Ok? ==> r.value == NoExpirationEpoch || r.value > 0
  {
    match packageNode
    case Err(e) => Err(e)
    case Ok(node) =>
      if node.None? || node.value == [] then Ok(NoExpirationEpoch)
      else Ok(PackageEpoch(node.value[0]))
  }
}
