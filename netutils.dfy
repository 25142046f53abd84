/** GetHostGatewayIP of netutils/netutils.go: the gateway of the first IPv4
    route, in the order netlink lists them, that has one. The route listing
    (netlink.RouteList for AF_INET) is an oracle. */
module NetUtils {
  import opened Base

  /** A route; `gw` is None when the route has no gateway (r.Gw == nil). */
  datatype Route = Route(gw: Option<IPv4>)

  /** The index of the first route with a gateway, scanning from `from`. */
  function FirstGatewayFrom(routes: seq<Route>, from: nat): (r: Option<nat>)
    requires from <= |routes|
    ensures r.Some? ==> from <= r.value < |routes| && routes[r.value].gw.Some?
    decreases |routes| - from
  {
    if from == |routes| then None
    else if routes[from].gw.Some? then Some(from)
    else FirstGatewayFrom(routes, from + 1)
  }

  /** Every route the scan passed has no gateway, and it finds nothing only
      when no route from `from` on has one. */
  lemma {:induction false} FirstGatewayFromFacts(routes: seq<Route>, from: nat)
    requires from <= |routes|
    ensures match FirstGatewayFrom(routes, from)
      case Some(i) => forall j :: from <= j < i ==> routes[j].gw.None?
      case None => forall j :: from <= j < |routes| ==> routes[j].gw.None?
    decreases |routes| - from
  {
    if from < |routes| && routes[from].gw.None? {
      FirstGatewayFromFacts(routes, from + 1);
    }
  }

  /** GetHostGatewayIP(), given what RouteList returned. */
  function GetHostGatewayIp(routes: Result<seq<Route>>): Ret<string> {
    match routes
    case Err(e) => Ret("", Some(e))
    case Ok(rs) =>
      match FirstGatewayFrom(rs, 0)
      case Some(i) => Ret(DottedQuad(rs[i].gw.value), None)
      case None => Ret("", Some(Plain("unable to find a route with default gw")))
  }

  /** A listing error is returned with ""; otherwise the result is the gateway
      of the first route that has one, every earlier route having none, or ""
      with an error when no route has a gateway. */
  lemma GatewayChoice(routes: Result<seq<Route>>)
    ensures var r := GetHostGatewayIp(routes);
      && (routes.Err? ==> r == Ret("", Some(routes.error)))
      && (routes.Ok? && r.err.None? ==>
            exists i :: 0 <= i < |routes.value| && routes.value[i].gw.Some?
              && r.val == DottedQuad(routes.value[i].gw.value)
              && forall j :: 0 <= j < i ==> routes.value[j].gw.None?)
      && (routes.Ok? && r.err.Some? <==> routes.Ok? && forall j :: 0 <= j < |routes.value| ==> routes.value[j].gw.None?)
      && (routes.Ok? && r.err.Some? ==> r == Ret("", Some(Plain("unable to find a route with default gw"))))
  {
    if routes.Ok? {
      FirstGatewayFromFacts(routes.value, 0);
    }
  }
}
