/**
 What the controller does with a traffic report: the scaled amount goes on the rule's counter and on the
 user's row for the day, except that the day's first report starts the row with the raw amount.
 */
module TrafficLedger {
  import opened Sums

  datatype RuleRow = RuleRow(user: int, chain: int, traffic: int)

  /** The rule's counter and the daily row are two writes, and either may fail. */
  datatype Fate = Written | CounterFails | RowFails

  /** `scaled` is the raw amount times the node's and the chain's rate, as the float arithmetic leaves it. */
  datatype Report = Report(node: int, port: int, raw: int, scaled: int, day: int, fate: Fate)

  /** Rules by node and port, daily rows by day and user, and the chains that exist. */
  datatype Ledger = Ledger(rules: map<(int, int), RuleRow>, daily: map<(int, int), int>, chains: set<int>)

  predicate Accepted(l: Ledger, r: Report) {
    (r.node, r.port) in l.rules
    && (l.rules[(r.node, r.port)].chain != 0 ==> l.rules[(r.node, r.port)].chain in l.chains)
  }

  function Book(l: Ledger, r: Report): Ledger {
    if !Accepted(l, r) || r.fate.CounterFails? then l
    else
      var rule := l.rules[(r.node, r.port)];
      var row := (r.day, rule.user);
      l.(rules := l.rules[(r.node, r.port) := rule.(traffic := rule.traffic + r.scaled)],
         daily := if r.fate.RowFails? then l.daily
                  else l.daily[row := if row in l.daily then l.daily[row] + r.scaled else r.raw])
  }

  function BookAll(l: Ledger, rs: seq<Report>): Ledger {
    if rs == [] then l else Book(BookAll(l, rs[..|rs| - 1]), rs[|rs| - 1])
  }

  /**
   A report is booked when there is a rule on its node's port which is on no chain or on one that exists, and the
   counter's write succeeds: the rule's counter then gains the scaled amount. The rule's user gets it too, on the row
   of that day, or a new row with the raw amount, unless that write fails. Nothing else changes.
   */
  lemma BookedFromTables(l: Ledger, r: Report)
    ensures var after, key := Book(l, r), (r.node, r.port);
            if key in l.rules && (l.rules[key].chain == 0 || l.rules[key].chain in l.chains) && r.fate != CounterFails
            then
              var rule := l.rules[key];
              var row := (r.day, rule.user);
              && after.rules == l.rules[key := RuleRow(rule.user, rule.chain, rule.traffic + r.scaled)]
              && (r.fate == RowFails ==> after.daily == l.daily)
              && (r.fate == Written && row in l.daily ==> after.daily == l.daily[row := l.daily[row] + r.scaled])
              && (r.fate == Written && row !in l.daily ==> after.daily == l.daily[row := r.raw])
              && after.chains == l.chains
            else after == l
  {
  }

  // ----- totals

  function RuleCounters(l: Ledger, user: int): map<(int, int), int> {
    map k | k in l.rules && l.rules[k].user == user :: l.rules[k].traffic
  }

  function DailyRows(l: Ledger, user: int): map<(int, int), int> {
    map k | k in l.daily && k.1 == user :: l.daily[k]
  }

  /** The report adds to a counter of the user's. */
  predicate Counts(l: Ledger, r: Report, user: int) {
    Accepted(l, r) && l.rules[(r.node, r.port)].user == user && !r.fate.CounterFails?
  }

  /** The report starts the user's row for its day. */
  predicate StartsRow(l: Ledger, r: Report, user: int) {
    Counts(l, r, user) && r.fate.Written? && (r.day, user) !in l.daily
  }

  /** What one report leaves the user's rows short of: all of it if the row fails, the scaling if it starts the row. */
  function Missing(l: Ledger, r: Report, user: int): int {
    if !Counts(l, r, user) then 0
    else if r.fate.RowFails? then r.scaled
    else if StartsRow(l, r, user) then r.scaled - r.raw
    else 0
  }

  function Shortfall(l: Ledger, rs: seq<Report>, user: int): int {
    if rs == [] then 0
    else Shortfall(l, rs[..|rs| - 1], user) + Missing(BookAll(l, rs[..|rs| - 1]), rs[|rs| - 1], user)
  }

  lemma BookedOnce(l: Ledger, r: Report, user: int)
    ensures var after := Book(l, r);
            && Sum(RuleCounters(after, user)) ==
               Sum(RuleCounters(l, user)) + (if Counts(l, r, user) then r.scaled else 0)
            && Sum(DailyRows(after, user)) ==
               Sum(DailyRows(l, user)) + (if !Counts(l, r, user) || r.fate.RowFails? then 0
                                          else if StartsRow(l, r, user) then r.raw else r.scaled)
  {
    var after, key, row := Book(l, r), (r.node, r.port), (r.day, user);
    if Counts(l, r, user) {
      SumUpdated(RuleCounters(l, user), key, after.rules[key].traffic);
      assert RuleCounters(after, user) == RuleCounters(l, user)[key := after.rules[key].traffic];
      if r.fate.Written? {
        SumUpdated(DailyRows(l, user), row, after.daily[row]);
        assert DailyRows(after, user) == DailyRows(l, user)[row := after.daily[row]];
      }
    } else {
      assert RuleCounters(after, user) == RuleCounters(l, user);
      assert DailyRows(after, user) == DailyRows(l, user);
    }
  }

  /**
   Over any sequence of reports, what a user's rule counters gain exceeds what the same user's daily rows
   gain by exactly the shortfall of the reports that started a row, or whose row failed.
   */
  lemma {:induction false} CountersAgainstRows(l: Ledger, rs: seq<Report>, user: int)
    ensures var after := BookAll(l, rs);
            (Sum(RuleCounters(after, user)) - Sum(RuleCounters(l, user)))
            - (Sum(DailyRows(after, user)) - Sum(DailyRows(l, user))) == Shortfall(l, rs, user)
  {
    if rs != [] {
      var n := |rs| - 1;
      CountersAgainstRows(l, rs[..n], user);
      BookedOnce(BookAll(l, rs[..n]), rs[n], user);
    }
  }

  /** At a combined rate of 1, and when no row fails after its counter, the two totals gain the same. */
  lemma {:induction false} UnscaledAgrees(l: Ledger, rs: seq<Report>, user: int)
    requires forall i | 0 <= i < |rs| :: rs[i].scaled == rs[i].raw && !rs[i].fate.RowFails?
    ensures var after := BookAll(l, rs);
            Sum(RuleCounters(after, user)) - Sum(RuleCounters(l, user)) ==
            Sum(DailyRows(after, user)) - Sum(DailyRows(l, user))
  {
    CountersAgainstRows(l, rs, user);
    NoShortfall(l, rs, user);
  }

  lemma {:induction false} NoShortfall(l: Ledger, rs: seq<Report>, user: int)
    requires forall i | 0 <= i < |rs| :: rs[i].scaled == rs[i].raw && !rs[i].fate.RowFails?
    ensures Shortfall(l, rs, user) == 0
  {
    if rs != [] {
      NoShortfall(l, rs[..|rs| - 1], user);
    }
  }

  // ----- the action

  class Tables {
    var rules: map<(int, int), RuleRow>
    var daily: map<(int, int), int>
    var chains: set<int>

    ghost function Contents(): Ledger
      reads this
    {
      Ledger(rules, daily, chains)
    }

    method ReportNetworkTraffic(r: Report) returns (ok: bool)
      modifies this`rules, this`daily
      ensures Contents() == Book(old(Contents()), r)
      ensures ok <==> Accepted(old(Contents()), r) && r.fate.Written?
    {
      var key := (r.node, r.port);
      if key !in rules {
        return false;
      }
      var rule := rules[key];
      if rule.chain != 0 && rule.chain !in chains {
        return false;
      }
      if r.fate.CounterFails? {
        return false;
      }
      rules := rules[key := rule.(traffic := rule.traffic + r.scaled)];
      if r.fate.RowFails? {
        return false;
      }
      var row := (r.day, rule.user);
      if row in daily {
        daily := daily[row := daily[row] + r.scaled];
      } else {
        daily := daily[row := r.raw];
      }
      return true;
    }
  }
}
