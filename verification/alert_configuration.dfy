/** The alert-rule configuration page: a list of rules whose status can be
    flipped by id, the create-mode flag, the sidebar filters and search
    text, and the colour and badge rules of a rule card. */
module AlertConfiguration {
  import opened Common
  import opened Types

  datatype RuleStatus = Active | Paused

  datatype AlertRule = AlertRule(
    id: int,
    name: string,
    status: RuleStatus,
    severity: AlertSeverity,
    kind: string,
    condition: string,
    currentValue: string,
    isTriggered: bool,
    channels: seq<string>,
    lastTriggered: string,
    note: Option<string>)

  /** The three rules the page starts with. */
  const MockRules: seq<AlertRule> := [
    AlertRule(1, "Critical Performance Drop", Active, Critical, "Performance", "Accuracy < 90%", "87.3%",
              true, ["Email", "Slack", "Webhook"], "2 hours ago", None),
    AlertRule(2, "High Data Drift", Active, Warning, "Drift", "PSI > 0.25 on any feature", "0.31 (income)",
              true, ["Email", "Slack"], "5 hours ago", None),
    AlertRule(3, "Prediction Distribution Shift", Paused, Info, "Drift", "Denial rate change > 10%",
              "+41.6% vs baseline", false, ["Email"], "3 days ago", Some("Paused during holiday season"))
  ]

  predicate UniqueIds(rules: seq<AlertRule>) {
    forall i, j :: 0 <= i < j < |rules| ==> rules[i].id != rules[j].id
  }

  lemma MockRulesHaveUniqueIds()
    ensures UniqueIds(MockRules)
  {
  }

  // ---------------------------------------------------------------------
  // The status toggle

  function Flip(s: RuleStatus): (r: RuleStatus)
    ensures r != s
  {
    if s == Active then Paused else Active
  }

  /** The toggle's `rules.map(...)`: the rule with the given id has its
      status flipped and nothing else about it changed; every other rule is
      untouched; length and order are kept. */
  function ToggleStatus(rules: seq<AlertRule>, id: int): (r: seq<AlertRule>)
    ensures |r| == |rules|
    ensures forall i :: 0 <= i < |r| && rules[i].id == id ==>
              r[i].status != rules[i].status && r[i] == rules[i].(status := r[i].status)
    ensures forall i :: 0 <= i < |r| && rules[i].id != id ==> r[i] == rules[i]
  {
    seq(|rules|, i requires 0 <= i < |rules| =>
      if rules[i].id == id then rules[i].(status := Flip(rules[i].status)) else rules[i])
  }

  /** Toggling the same rule twice restores the original list. */
  lemma ToggleTwiceRestores(rules: seq<AlertRule>, id: int)
    ensures ToggleStatus(ToggleStatus(rules, id), id) == rules
  {
    var once := ToggleStatus(rules, id);
    var twice := ToggleStatus(once, id);
    forall i | 0 <= i < |rules| ensures twice[i] == rules[i] {
      if rules[i].id == id {
        assert once[i].status != rules[i].status && twice[i].status != once[i].status;
      }
    }
  }

  /** With unique ids, toggling a present id changes exactly one rule. */
  lemma ToggleChangesExactlyOne(rules: seq<AlertRule>, id: int, k: nat)
    requires UniqueIds(rules) && k < |rules| && rules[k].id == id
    ensures ToggleStatus(rules, id)[k] != rules[k]
    ensures forall i :: 0 <= i < |rules| && i != k ==> ToggleStatus(rules, id)[i] == rules[i]
  {
    forall i | 0 <= i < |rules| && i != k ensures rules[i].id != id {
      if i < k { assert rules[i].id != rules[k].id; } else { assert rules[k].id != rules[i].id; }
    }
  }

  /** The toggle keeps every id where it was, so ids stay unique. */
  lemma ToggleKeepsUniqueIds(rules: seq<AlertRule>, id: int)
    requires UniqueIds(rules)
    ensures forall i :: 0 <= i < |rules| ==> ToggleStatus(rules, id)[i].id == rules[i].id
    ensures UniqueIds(ToggleStatus(rules, id))
  {
  }

  /** Toggling an id no rule has changes nothing. */
  lemma ToggleAbsentIdIsIdentity(rules: seq<AlertRule>, id: int)
    requires forall i :: 0 <= i < |rules| ==> rules[i].id != id
    ensures ToggleStatus(rules, id) == rules
  {
    assert forall i :: 0 <= i < |rules| ==> ToggleStatus(rules, id)[i] == rules[i];
  }

  // ---------------------------------------------------------------------
  // Card rules

  /** The "Triggered" badge shows for a triggered rule only while it is active. */
  predicate TriggeredShown(rule: AlertRule) {
    rule.isTriggered && rule.status == Active
  }

  /** The current-value colour: red or amber by severity while triggered and
      active, grey otherwise — so a paused rule is grey even when triggered. */
  function ValueTone(rule: AlertRule): (t: Tone)
    ensures t != NeutralGrey <==> TriggeredShown(rule)
    ensures t == CriticalRed <==> TriggeredShown(rule) && rule.severity == Critical
    ensures rule.status == Paused ==> t == NeutralGrey
  {
    if TriggeredShown(rule) then (if rule.severity == Critical then CriticalRed else WarningAmber)
    else NeutralGrey
  }

  /** `getSeverityColor`: the three severities get their own colours, any
      other string the grey default. The page defines it but never calls
      it (the rule card calls `getSeverityIcon` and colours its badge
      inline); `SeverityBadgeTone` shows the two agree. */
  function SeverityTone(sev: string): (t: Tone)
    ensures sev == "critical" <==> t == CriticalRed
    ensures sev == "warning" <==> t == WarningAmber
    ensures sev == "info" <==> t == AccentBlue
    ensures t == NeutralGrey <==> sev !in {"critical", "warning", "info"}
  {
    if sev == "critical" then CriticalRed
    else if sev == "warning" then WarningAmber
    else if sev == "info" then AccentBlue
    else NeutralGrey
  }

  /** A rule's own severity never falls to the grey default. */
  lemma RuleSeverityHasColour(rule: AlertRule)
    ensures SeverityTone(SeverityName(rule.severity)) != NeutralGrey
  {
  }

  /** The severity badge: red for critical, amber for warning, blue otherwise. */
  function SeverityBadgeTone(sev: AlertSeverity): (t: Tone)
    ensures t == SeverityTone(SeverityName(sev))
  {
    match sev
    case Critical => CriticalRed
    case Warning => WarningAmber
    case Info => AccentBlue
  }

  /** The footer: the channels joined by ", ", followed by the email address
      exactly when "Email" is one of them. */
  function ChannelFooter(rule: AlertRule): (footer: (string, Option<string>))
    ensures footer.0 == Join(rule.channels, ", ")
    ensures footer.1.Some? <==> "Email" in rule.channels
    ensures footer.1.Some? ==> footer.1.value == "(ops@company.com)"
  {
    (Join(rule.channels, ", "), if "Email" in rule.channels then Some("(ops@company.com)") else None)
  }

  // ---------------------------------------------------------------------
  // The page

  /** What the right-hand side shows: the creation form, or a card for every
      rule in list order. The filters and the search text are never applied. */
  datatype Content = CreateForm | RuleList(cards: seq<AlertRule>)

  class AlertConfigurationPage {
    var isCreating: bool
    var rules: seq<AlertRule>
    var filterStatus: string
    var filterSeverity: string
    var filterType: string
    var searchQuery: string

    /** No two rules share an id, so a toggle reaches one rule only. */
    ghost predicate Valid()
      reads this
    {
      UniqueIds(rules)
    }

    constructor ()
      ensures Valid()
      ensures !isCreating && rules == MockRules
      ensures filterStatus == "All" && filterSeverity == "All" && filterType == "All" && searchQuery == ""
    {
      isCreating := false;
      rules := MockRules;
      filterStatus, filterSeverity, filterType := "All", "All", "All";
      searchQuery := "";
      MockRulesHaveUniqueIds();
    }

    /** The right-hand side for the current state. */
    function Shown(): (c: Content)
      reads this
      ensures c.CreateForm? <==> isCreating
      ensures c.RuleList? ==> c.cards == rules
    {
      if isCreating then CreateForm else RuleList(rules)
    }

    /** "Create New Alert Rule": enter create mode. */
    method StartCreate()
      modifies this
      ensures isCreating && rules == old(rules)
      ensures filterStatus == old(filterStatus) && filterSeverity == old(filterSeverity)
      ensures filterType == old(filterType) && searchQuery == old(searchQuery)
    {
      isCreating := true;
    }

    /** "Cancel" and "Create Alert Rule" do the same thing: leave create mode
        without touching the rules. */
    method LeaveCreate()
      modifies this
      ensures !isCreating && rules == old(rules)
      ensures filterStatus == old(filterStatus) && filterSeverity == old(filterSeverity)
      ensures filterType == old(filterType) && searchQuery == old(searchQuery)
    {
      isCreating := false;
    }

    /** A status toggle on a rule card. */
    method ToggleRule(id: int)
      requires Valid()
      modifies this
      ensures Valid()
      ensures rules == ToggleStatus(old(rules), id) && isCreating == old(isCreating)
      ensures filterStatus == old(filterStatus) && filterSeverity == old(filterSeverity)
      ensures filterType == old(filterType) && searchQuery == old(searchQuery)
    {
      ToggleKeepsUniqueIds(rules, id);
      rules := ToggleStatus(rules, id);
    }

    method SetFilterStatus(option: string)
      modifies this
      ensures filterStatus == option && Shown() == old(Shown())
      ensures isCreating == old(isCreating) && rules == old(rules)
      ensures filterSeverity == old(filterSeverity) && filterType == old(filterType) && searchQuery == old(searchQuery)
    {
      filterStatus := option;
    }

    method SetFilterSeverity(option: string)
      modifies this
      ensures filterSeverity == option && Shown() == old(Shown())
      ensures isCreating == old(isCreating) && rules == old(rules)
      ensures filterStatus == old(filterStatus) && filterType == old(filterType) && searchQuery == old(searchQuery)
    {
      filterSeverity := option;
    }

    method SetFilterType(option: string)
      modifies this
      ensures filterType == option && Shown() == old(Shown())
      ensures isCreating == old(isCreating) && rules == old(rules)
      ensures filterStatus == old(filterStatus) && filterSeverity == old(filterSeverity) && searchQuery == old(searchQuery)
    {
      filterType := option;
    }

    method SetSearchQuery(query: string)
      modifies this
      ensures searchQuery == query && Shown() == old(Shown())
      ensures isCreating == old(isCreating) && rules == old(rules)
      ensures filterStatus == old(filterStatus) && filterSeverity == old(filterSeverity) && filterType == old(filterType)
    {
      searchQuery := query;
    }
  }
}
