/**
 How the worker turns Docker's answers into a site's status (runtimeSnapshot in
 cmd/worker/runtime.go). Running and stopped are the statuses from which the panel and the
 worker go on to change a site, so what they imply about its containers matters elsewhere.
 */
module SiteStatus {
  import opened Common
  import opened Receipts

  datatype Lifecycle = Up | Exited | Created | OtherState
  datatype Health = NoHealth | Healthy | OtherHealth

  /** An inspected container; `active` is whether it runs under the current writer policy. */
  datatype Report = Report(
    project: string, service: string, name: string, state: Lifecycle, health: Health,
    memory: int, nanoCpus: int, restartNo: bool, active: bool)

  /** The quota marker, if any or if it cannot be looked up: `startable` is whether guard and
      intent can be read, the guard is there and the intent is not blocked. */
  datatype Marker = Unmarked | Marked(startable: bool)
  datatype Route = RouteThere | RouteMissing | RouteUnreadable

  /** Answers about one site. None stands for a failed query or an unreadable reply. */
  datatype Findings = Findings(
    id: string, listed: Option<nat>, inspected: Option<seq<Report>>, marker: Marker, route: Route)

  const MIB: int := 1048576
  const QUARTER: int := 250000000

  predicate IsService(c: Report, id: string, db: bool) {
    && c.project == "wph-" + id
    && c.service == (if db then "db" else "wordpress")
    && c.name == (if db then "/wph-db-" else "/wph-wp-") + id
  }

  /** The last of the first n containers that is the service. */
  function LatestOf(cs: seq<Report>, n: nat, id: string, db: bool): Option<Report>
    requires n <= |cs|
  {
    if n == 0 then None
    else if IsService(cs[n - 1], id, db) then Some(cs[n - 1])
    else LatestOf(cs, n - 1, id, db)
  }

  predicate Serving(c: Report) { c.state.Up? && !c.health.OtherHealth? }

  predicate Resting(c: Report) { c.state.Exited? || c.state.Created? }

  predicate Limited(c: Report, l: Limits) {
    c.memory == l.memory * MIB && c.nanoCpus == l.quarters * QUARTER
  }

  /** Both services are there, with the configured limits if there is a configuration, under the
      policy, and free to start if the site is marked. */
  ghost predicate InOrder(v: Findings, limits: Option<Limits>) {
    && v.inspected.Some?
    && var cs := v.inspected.value;
    && var wp, db := LatestOf(cs, |cs|, v.id, false), LatestOf(cs, |cs|, v.id, true);
    && wp.Some? && db.Some? && wp.value.active && db.value.active
    && (limits.Some? ==> Limited(wp.value, limits.value) && Limited(db.value, limits.value))
    && (v.marker.Marked? ==> v.marker.startable && wp.value.restartNo && db.value.restartNo)
  }

  ghost predicate Both(v: Findings, p: Report -> bool) {
    && v.inspected.Some?
    && var cs := v.inspected.value;
    && var wp, db := LatestOf(cs, |cs|, v.id, false), LatestOf(cs, |cs|, v.id, true);
    && wp.Some? && db.Some? && p(wp.value) && p(db.value)
  }

  /** The status that the answers show. */
  ghost predicate Shows(v: Findings, limits: Option<Limits>, s: Status) {
    if v.listed.Some? && v.listed.value > 0 && InOrder(v, limits) && Both(v, Resting) then s == Stopped
    else if v.listed.Some? && v.listed.value > 0 && InOrder(v, limits) && Both(v, Serving) && v.route.RouteThere? then
      s == Running
    else s == Unhealthy
  }

  /** No status at all: too many containers, an unanswered query, or an unreadable route of a
      site that runs. */
  ghost predicate Unknown(v: Findings, limits: Option<Limits>) {
    || v.listed.None? || v.listed.value > 20
    || (v.listed.value > 0 && v.inspected.None?)
    || (v.listed.value > 0 && InOrder(v, limits) && Both(v, Serving) && v.route.RouteUnreadable?)
  }

  method Observe(v: Findings, limits: Option<Limits>) returns (r: Option<(Status, Message)>)
    ensures r.None? <==> Unknown(v, limits)
    ensures r.Some? ==> Shows(v, limits, r.value.0) && (r.value.1.NoMessage? <==> !r.value.0.Unhealthy?)
  {
    if v.listed.None? {
      return None;
    }
    if v.listed.value == 0 {
      return Some((Unhealthy, Text("containers missing")));
    }
    if v.listed.value > 20 || v.inspected.None? {
      return None;
    }
    var cs := v.inspected.value;
    var wp, db: Option<Report> := None, None;
    for n := 0 to |cs|
      invariant wp == LatestOf(cs, n, v.id, false) && db == LatestOf(cs, n, v.id, true)
    {
      if IsService(cs[n], v.id, false) {
        wp := Some(cs[n]);
      }
      if IsService(cs[n], v.id, true) {
        db := Some(cs[n]);
      }
    }
    if wp.None? || db.None? {
      return Some((Unhealthy, Text("service missing")));
    }
    var status, detail := Unhealthy, Text("state");
    if Serving(wp.value) && Serving(db.value) {
      status, detail := Running, NoMessage;
    } else if Resting(wp.value) && Resting(db.value) {
      status, detail := Stopped, NoMessage;
    }
    if limits.Some? && !status.Unhealthy? {
      if !Limited(wp.value, limits.value) || !Limited(db.value, limits.value) {
        status, detail := Unhealthy, Text("limits differ");
      }
    }
    if !status.Unhealthy? && (!wp.value.active || !db.value.active) {
      status, detail := Unhealthy, Text("policy missing");
    }
    if v.marker.Marked? {
      if !v.marker.startable || !wp.value.restartNo || !db.value.restartNo {
        status, detail := Unhealthy, Text("startup blocked");
      }
    }
    if status.Running? {
      if v.route.RouteMissing? {
        status, detail := Unhealthy, Text("route missing");
      } else if v.route.RouteUnreadable? {
        return None;
      }
    }
    return Some((status, detail));
  }

  /** A site that is shown as running or stopped has two containers with exactly the configured
      limits, under the policy, and the status is the one of both. */
  lemma LiveMeansInOrder(v: Findings, limits: Option<Limits>, s: Status)
    requires Shows(v, limits, s) && !s.Unhealthy?
    ensures InOrder(v, limits) && (s.Running? <==> Both(v, Serving)) && (s.Stopped? <==> Both(v, Resting))
  {
  }
}
