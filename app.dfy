/**
 * The application's own routes: the home page and the generic dashboard
 * route send a user to the dashboard of their role; the admin dashboard
 * shows the overall counts and the newest tickets, the agent dashboard the
 * user's own tickets and their counts by status. A query that raises is
 * None; `login_required` sends an anonymous user to the login page.
 */
module App {
  import opened Wrappers
  import opened Auth

  /** A redirect target. */
  datatype Redirect = ToLogin | ToDashboard(dashboard: Dashboard)

  /**
   * `index`, and `dashboard` behind `login_required`: anonymous users go
   * to the login page, admins to the admin dashboard, everyone else to the
   * agent dashboard.
   */
  function Home(current: Option<User>): (r: Redirect)
    ensures r == ToLogin <==> current.None?
    ensures r == ToDashboard(AdminDashboard) <==> current.Some? && IsAdmin(current.value)
    ensures r == ToDashboard(AgentDashboard) <==> current.Some? && !IsAdmin(current.value)
  {
    if current.None? then ToLogin else ToDashboard(DashboardFor(current.value))
  }

  /** The columns of a listed ticket the dashboards use. */
  datatype ListedTicket = ListedTicket(id: int, title: string, status: string)

  /** Python's `xs[:n]`. */
  function Take<T>(xs: seq<T>, n: nat): (r: seq<T>)
    ensures |r| <= n && r <= xs
    ensures |r| == n || r == xs
  {
    if |xs| <= n then xs else xs[..n]
  }

  // ---------------------------------------------------------------------
  // admin_dashboard
  // ---------------------------------------------------------------------

  /** `Ticket.get_stats`: the total and the count per status. */
  datatype Stats = Stats(total: int, open: int, inProgress: int, resolved: int, closed: int)

  const NoStats := Stats(0, 0, 0, 0, 0)

  datatype AdminPage = AdminRedirect(to: Redirect) | AdminView(stats: Stats, recent: seq<ListedTicket>)

  /**
   * `admin_dashboard`: a non-admin is sent to the agent dashboard; an
   * admin sees the counts and the first five tickets of the admin list, or
   * zero counts and no tickets when either query raises.
   */
  function AdminDashboardPage(current: Option<User>, stats: Option<Stats>, all: Option<seq<ListedTicket>>): (r: AdminPage)
    ensures current.None? ==> r == AdminRedirect(ToLogin)
    ensures current.Some? && !IsAdmin(current.value) ==> r == AdminRedirect(ToDashboard(AgentDashboard))
    ensures r.AdminView? <==> current.Some? && IsAdmin(current.value)
    ensures r.AdminView? ==> |r.recent| <= 5
    ensures r.AdminView? && stats.Some? && all.Some? ==> r.stats == stats.value && r.recent == Take(all.value, 5)
    ensures r.AdminView? && (stats.None? || all.None?) ==> r.stats == NoStats && r.recent == []
  {
    if current.None? then AdminRedirect(ToLogin)
    else if !IsAdmin(current.value) then AdminRedirect(ToDashboard(AgentDashboard))
    else if stats.Some? && all.Some? then AdminView(stats.value, Take(all.value, 5))
    else AdminView(NoStats, [])
  }

  // ---------------------------------------------------------------------
  // agent_dashboard
  // ---------------------------------------------------------------------

  /** `[t for t in tickets if t['status'] == status]`. */
  function WithStatus(tickets: seq<ListedTicket>, status: string): (r: seq<ListedTicket>)
    ensures |r| <= |tickets|
    ensures forall t | t in r :: t in tickets && t.status == status
    ensures forall t | t in tickets && t.status == status :: t in r
  {
    if tickets == [] then []
    else
      var last := tickets[|tickets| - 1];
      WithStatus(tickets[..|tickets| - 1], status) + (if last.status == status then [last] else [])
  }

  datatype AgentStats = AgentStats(total: int, open: int, inProgress: int, resolved: int)

  datatype AgentPage = AgentRedirect | AgentView(myTickets: seq<ListedTicket>, stats: AgentStats)

  /**
   * `agent_dashboard`: `mine` is the agent-scoped ticket list; the counts
   * are of exact status matches and at most five tickets are rendered.
   * When the list query raises, everything is zero and no ticket is shown.
   */
  function AgentDashboardPage(current: Option<User>, mine: Option<seq<ListedTicket>>): (r: AgentPage)
    ensures r == AgentRedirect <==> current.None?
    ensures r.AgentView? ==> |r.myTickets| <= 5
    ensures r.AgentView? && mine.None? ==> r.myTickets == [] && r.stats == AgentStats(0, 0, 0, 0)
    ensures r.AgentView? && mine.Some? ==>
      && r.myTickets == Take(mine.value, 5)
      && r.stats.total == |mine.value|
      && r.stats.open == |WithStatus(mine.value, "open")|
      && r.stats.inProgress == |WithStatus(mine.value, "in_progress")|
      && r.stats.resolved == |WithStatus(mine.value, "resolved")|
  {
    if current.None? then AgentRedirect
    else if mine.None? then AgentView([], AgentStats(0, 0, 0, 0))
    else
      var ts := mine.value;
      AgentView(Take(ts, 5), AgentStats(|ts|, |WithStatus(ts, "open")|,
                                        |WithStatus(ts, "in_progress")|, |WithStatus(ts, "resolved")|))
  }

  /** A ticket is counted under at most one of the three statuses. */
  lemma {:induction false} StatusCountsWithinTotal(tickets: seq<ListedTicket>)
    ensures |WithStatus(tickets, "open")| + |WithStatus(tickets, "in_progress")|
          + |WithStatus(tickets, "resolved")| <= |tickets|
  {
    if tickets != [] {
      StatusCountsWithinTotal(tickets[..|tickets| - 1]);
    }
  }

  /** The agent's three counts never add up to more than the total. */
  lemma AgentCountsWithinTotal(current: Option<User>, mine: Option<seq<ListedTicket>>)
    requires AgentDashboardPage(current, mine).AgentView?
    ensures var s := AgentDashboardPage(current, mine).stats;
      0 <= s.open && 0 <= s.inProgress && 0 <= s.resolved && s.open + s.inProgress + s.resolved <= s.total
  {
    if mine.Some? {
      StatusCountsWithinTotal(mine.value);
    }
  }

  /** Statuses are matched exactly: `Resolved` is not counted as resolved. */
  lemma CapitalisedStatusNotCounted(id: int, title: string)
    ensures WithStatus([ListedTicket(id, title, "Resolved")], "resolved") == []
  {
    assert "Resolved"[0] != "resolved"[0];
  }
}
