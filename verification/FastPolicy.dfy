/** The fast policy: which rule decides about a request's service tier, and the three places that
    carry the decision out. */
module FastPolicy {
  import opened StreamEvents
  import opened Strings

  datatype Rule = Rule(
    userIds: seq<int>, scope: string, serviceTier: string,
    action: string, message: string,
    whitelist: seq<string>, fallbackAction: string, fallbackMessage: string)

  /** Who asks for what; `matches` is the model pattern matcher. */
  datatype Query = Query(
    userId: int, oauth: bool, bedrock: bool, model: string, tier: string, matches: (string, string) -> bool)

  datatype Decision = Decision(action: string, message: string)

  const PASS := Decision("pass", "")

  predicate UserMatches(userIds: seq<int>, userId: int) {
    userIds == [] || userId in userIds
  }

  predicate ScopeMatches(scope: string, oauth: bool, bedrock: bool) {
    if scope == "oauth" then oauth
    else if scope == "apikey" then !oauth && !bedrock
    else if scope == "bedrock" then bedrock
    else true
  }

  predicate TierMatches(ruleTier: string, tier: string) {
    var t := Lower(TrimSpace(ruleTier));
    t == "" || t == "all" || t == tier
  }

  predicate Applies(rule: Rule, q: Query) {
    && UserMatches(rule.userIds, q.userId) && ScopeMatches(rule.scope, q.oauth, q.bedrock)
    && TierMatches(rule.serviceTier, q.tier)
  }

  predicate Whitelisted(q: Query, whitelist: seq<string>) {
    exists i :: 0 <= i < |whitelist| && q.matches(whitelist[i], q.model)
  }

  /** resolveRuleAction */
  function Resolve(rule: Rule, q: Query): Decision {
    if rule.whitelist == [] || Whitelisted(q, rule.whitelist) then Decision(rule.action, rule.message)
    else if rule.fallbackAction != "" then Decision(rule.fallbackAction, rule.fallbackMessage)
    else PASS
  }

  /** Each scope names its own kind of account, any other text names all; and every account that is not both
      OAuth and Bedrock is named by exactly one of the three scopes. */
  lemma ScopesExactly(scope: string, oauth: bool, bedrock: bool)
    ensures ScopeMatches("oauth", oauth, bedrock) <==> oauth
    ensures ScopeMatches("bedrock", oauth, bedrock) <==> bedrock
    ensures ScopeMatches("apikey", oauth, bedrock) <==> !oauth && !bedrock
    ensures scope !in {"oauth", "bedrock", "apikey"} ==> ScopeMatches(scope, oauth, bedrock)
  {
  }

  /** When a rule applies: to everybody or a named user, in its scope, and to any tier, all tiers or its own,
      whatever its case and the space around it. */
  lemma AppliesExactly(rule: Rule, q: Query)
    ensures Applies(rule, q)
            <==> && (rule.userIds == [] || exists k :: 0 <= k < |rule.userIds| && rule.userIds[k] == q.userId)
                 && (rule.scope == "oauth" ==> q.oauth)
                 && (rule.scope == "bedrock" ==> q.bedrock)
                 && (rule.scope == "apikey" ==> !q.oauth && !q.bedrock)
                 && Lower(TrimSpace(rule.serviceTier)) in {"", "all", q.tier}
  {
    hide Lower, TrimSpace;
  }

  /** What a rule decides: its action for the models on its whitelist, or for all without one; otherwise its
      fallback, if it has one. */
  lemma ResolveExactly(rule: Rule, q: Query)
    ensures var listed := exists i :: 0 <= i < |rule.whitelist| && q.matches(rule.whitelist[i], q.model);
            && (rule.whitelist == [] || listed ==> Resolve(rule, q) == Decision(rule.action, rule.message))
            && (rule.whitelist != [] && !listed && rule.fallbackAction != "" ==>
                  Resolve(rule, q) == Decision(rule.fallbackAction, rule.fallbackMessage))
            && (rule.whitelist != [] && !listed && rule.fallbackAction == "" ==> Resolve(rule, q).action == "pass")
  {
  }

  // ---- which rule decides ------------------------------------------------------------------------

  /** The rules that name users, or those that do not, in their configured order. */
  function Scoped(rules: seq<Rule>, named: bool): seq<Rule> {
    if rules == [] then []
    else (if (rules[0].userIds != []) == named then [rules[0]] else []) + Scoped(rules[1..], named)
  }

  /** The stable partition. */
  function Partition(rules: seq<Rule>): seq<Rule> {
    Scoped(rules, true) + Scoped(rules, false)
  }

  function FirstMatch(rules: seq<Rule>, q: Query): Option<Rule> {
    if rules == [] then None else if Applies(rules[0], q) then Some(rules[0]) else FirstMatch(rules[1..], q)
  }

  function Decide(rules: seq<Rule>, q: Query): Decision {
    match FirstMatch(Partition(rules), q)
    case None => PASS
    case Some(rule) => Resolve(rule, q)
  }

  lemma {:induction false} FirstMatchOfConcat(a: seq<Rule>, b: seq<Rule>, q: Query)
    ensures FirstMatch(a + b, q) == if FirstMatch(a, q).Some? then FirstMatch(a, q) else FirstMatch(b, q)
  {
    if a == [] {
      assert a + b == b;
    } else {
      assert (a + b)[1..] == a[1..] + b;
      FirstMatchOfConcat(a[1..], b, q);
    }
  }

  /** The two-pass loop is first match over the stable partition of the rules. */
  method Evaluate(settings: Option<seq<Rule>>, q: Query) returns (d: Decision)
    ensures d == if settings.None? then PASS else Decide(settings.value, q)
  {
    if settings.None? {
      return PASS;
    }
    var rules := settings.value;
    FirstMatchOfConcat(Scoped(rules, true), Scoped(rules, false), q);
    var hit := FirstScoped(rules, q, true);
    if hit.None? {
      hit := FirstScoped(rules, q, false);
    }
    if hit.None? {
      return PASS;
    }
    return Resolve(hit.value, q);
  }

  /** One pass: the first applicable rule of one kind. */
  method FirstScoped(rules: seq<Rule>, q: Query, named: bool) returns (hit: Option<Rule>)
    ensures hit == FirstMatch(Scoped(rules, named), q)
  {
    for i := 0 to |rules|
      invariant FirstMatch(Scoped(rules, named), q) == FirstMatch(Scoped(rules[i..], named), q)
    {
      var rule := rules[i];
      ScopedHead(rules[i..], named);
      assert rules[i..][1..] == rules[i + 1..];
      if (rule.userIds != []) != named || !UserMatches(rule.userIds, q.userId) {
        continue;
      }
      if !ScopeMatches(rule.scope, q.oauth, q.bedrock) {
        continue;
      }
      var ruleTier := Lower(TrimSpace(rule.serviceTier));
      if ruleTier != "" && ruleTier != "all" && ruleTier != q.tier {
        continue;
      }
      return Some(rule);
    }
    return None;
  }

  lemma ScopedHead(rules: seq<Rule>, named: bool)
    requires rules != []
    ensures forall q ::
              FirstMatch(Scoped(rules, named), q)
              == if (rules[0].userIds != []) == named && Applies(rules[0], q) then Some(rules[0])
                 else FirstMatch(Scoped(rules[1..], named), q)
  {
    if (rules[0].userIds != []) == named {
      assert Scoped(rules, named)[1..] == Scoped(rules[1..], named);
    } else {
      assert Scoped(rules, named) == Scoped(rules[1..], named);
    }
  }

  /** i is the first applicable rule of its kind. */
  predicate Leads(rules: seq<Rule>, q: Query, named: bool, i: nat) {
    && i < |rules| && (rules[i].userIds != []) == named && Applies(rules[i], q)
    && forall j | 0 <= j < i :: (rules[j].userIds != []) != named || !Applies(rules[j], q)
  }

  predicate NoneApplies(rules: seq<Rule>, q: Query, named: bool) {
    forall j | 0 <= j < |rules| :: (rules[j].userIds != []) != named || !Applies(rules[j], q)
  }

  lemma {:induction false} FirstScopedMeans(rules: seq<Rule>, q: Query, named: bool) returns (i: nat)
    ensures match FirstMatch(Scoped(rules, named), q)
            case None => NoneApplies(rules, q, named)
            case Some(rule) => Leads(rules, q, named, i) && rules[i] == rule
  {
    hide Applies;
    i := 0;
    if rules != [] {
      ScopedHead(rules, named);
      if !((rules[0].userIds != []) == named && Applies(rules[0], q)) {
        var k := FirstScopedMeans(rules[1..], q, named);
        assert forall j | 0 <= j < |rules[1..]| :: rules[1..][j] == rules[j + 1];
        i := k + 1;
      }
    }
  }

  /** In terms of the configured order: the first applicable rule that names users decides; only
      without one the first applicable global rule; and without either the tier passes. */
  lemma WhoDecides(rules: seq<Rule>, q: Query) returns (i: nat)
    ensures (Leads(rules, q, true, i) && Decide(rules, q) == Resolve(rules[i], q))
            || (NoneApplies(rules, q, true) && Leads(rules, q, false, i) && Decide(rules, q) == Resolve(rules[i], q))
            || (NoneApplies(rules, q, true) && NoneApplies(rules, q, false) && Decide(rules, q) == PASS)
  {
    FirstMatchOfConcat(Scoped(rules, true), Scoped(rules, false), q);
    i := FirstScopedMeans(rules, q, true);
    if FirstMatch(Scoped(rules, true), q).None? {
      i := FirstScopedMeans(rules, q, false);
    }
  }

  lemma {:induction false} PartitionKeepsRules(rules: seq<Rule>)
    ensures multiset(Partition(rules)) == multiset(rules)
  {
    if rules != [] {
      PartitionKeepsRules(rules[1..]);
      assert rules == [rules[0]] + rules[1..];
    }
  }

  // ---- carrying it out -----------------------------------------------------------------------------

  function NormalTier(raw: string): string {
    var value := Lower(TrimSpace(raw));
    var tier := if value == "fast" then "priority" else value;
    if tier == "priority" || tier == "flex" || tier == "auto" || tier == "default" || tier == "scale" then tier else ""
  }

  /** The service_tier field of a request, as JSON has it. */
  datatype TierField = NoTier | Text(text: string) | NonText(raw: string)

  datatype Request = Request(kind: string, tier: TierField, rest: string)

  datatype Outcome = Blocked(message: string) | Sent(request: Request)

  /** What a request may ask the policy. */
  datatype Policy = Policy(settings: Option<seq<Rule>>, userId: int, oauth: bool, bedrock: bool, model: string,
                           matches: (string, string) -> bool)

  function Verdict(p: Policy, tier: string): Decision {
    if p.settings.None? then PASS
    else Decide(p.settings.value, Query(p.userId, p.oauth, p.bedrock, p.model, tier, p.matches))
  }

  function BlockMessage(p: Policy, d: Decision, tier: string): string {
    if d.message != "" then d.message else "openai service_tier=" + tier + " is not allowed for model " + p.model
  }

  function RawTier(r: Request): string {
    match r.tier
    case NoTier => ""
    case Text(text) => text
    case NonText(raw) => raw
  }

  /** The raw-body form. */
  function ApplyToBody(p: Policy, r: Request): Outcome {
    var raw := RawTier(r);
    var tier := NormalTier(raw);
    if raw == "" || tier == "" then Sent(r)
    else
      var d := Verdict(p, tier);
      if d.action == "block" then Blocked(BlockMessage(p, d, tier))
      else if d.action == "filter" then Sent(r.(tier := NoTier))
      else if d.action == "force_priority" then Sent(r.(tier := Text("priority")))
      else if tier == raw then Sent(r)
      else Sent(r.(tier := Text(tier)))
  }

  /** The WebSocket form, for response.create frames only. */
  function ApplyToFrame(p: Policy, r: Request): Outcome {
    if TrimSpace(r.kind) != "response.create" then Sent(r)
    else
      var raw := RawTier(r);
      if raw == "" then Sent(r)
      else
        var tier := NormalTier(raw);
        if tier == "" then Sent(r)
        else
          var d := Verdict(p, tier);
          if d.action == "block" then Blocked(BlockMessage(p, d, tier))
          else if d.action == "filter" then Sent(r.(tier := NoTier))
          else if d.action == "force_priority" then Sent(r.(tier := Text("priority")))
          else Sent(if tier == raw then r else r.(tier := Text(tier)))
  }

  /** The form inside Forward, which works on the parsed body and knows no force_priority. */
  function ApplyInForward(p: Policy, r: Request): Outcome {
    if !r.tier.Text? || NormalTier(r.tier.text) == "" then Sent(r)
    else
      var tier := NormalTier(r.tier.text);
      var d := Verdict(p, tier);
      if d.action == "block" then Blocked(BlockMessage(p, d, tier))
      else if d.action == "filter" then Sent(r.(tier := NoTier))
      else if tier != r.tier.text then Sent(r.(tier := Text(tier)))
      else Sent(r)
  }

  /** The names of the tiers, in any case and with space around them; "fast" is another name for priority. */
  lemma NormalTierExactly(raw: string)
    ensures var name := Lower(TrimSpace(raw));
            && (name in {"priority", "flex", "auto", "default", "scale"} ==> NormalTier(raw) == name)
            && (name == "fast" ==> NormalTier(raw) == "priority")
            && (name !in {"fast", "priority", "flex", "auto", "default", "scale"} ==> NormalTier(raw) == "")
  {
    hide Lower, TrimSpace;
  }

  /** What becomes of a request with a tier that counts: refused with the rule's message or one that names the
      tier and the model, stripped of the tier, raised to priority, or sent with the tier's proper name. */
  lemma FateExactly(p: Policy, r: Request)
    requires WellFormed(r)
    ensures var tier, d := NormalTier(RawTier(r)), Verdict(p, NormalTier(RawTier(r)));
            var o := ApplyToBody(p, r);
            && (tier == "" ==> o == Sent(r))
            && (o.Blocked? <==> tier != "" && d.action == "block")
            && (o.Blocked? ==> if d.message != "" then o.message == d.message
                               else o.message == "openai service_tier=" + tier + " is not allowed for model " + p.model)
            && (tier != "" && d.action != "block" ==>
                  o == Sent(r.(tier := if d.action == "filter" then NoTier
                                       else if d.action == "force_priority" then Text("priority")
                                       else Text(tier))))
  {
    hide NormalTier, Verdict;
    EmptyTier();
  }

  /** JSON numbers, literals, arrays and objects do not read as a tier. */
  predicate WellFormed(r: Request) {
    r.tier.NonText? ==> NormalTier(r.tier.raw) == ""
  }

  /** The policy has nothing to change: no tier that counts, or an action that neither blocks nor removes
      it and a field that already says what it should. */
  predicate LeftAlone(p: Policy, r: Request) {
    var tier := NormalTier(RawTier(r));
    tier == ""
    || (var action := Verdict(p, tier).action;
        && action != "block" && action != "filter"
        && (if action == "force_priority" then r.tier == Text("priority") else RawTier(r) == tier))
  }

  /** A frame and a body with the same content meet the same fate exactly when the frame is a
      response.create, or the policy would leave that body alone. */
  lemma FrameLikeBodyExactly(p: Policy, r: Request)
    requires WellFormed(r)
    ensures ApplyToFrame(p, r) == ApplyToBody(p, r)
            <==> TrimSpace(r.kind) == "response.create" || LeftAlone(p, r)
  {
    hide NormalTier, Verdict, BlockMessage, TrimSpace;
    EmptyTier();
  }

  lemma WordIsNormal(s: string)
    requires Letters(s)
    ensures Lower(TrimSpace(s)) == s
  {
  }

  lemma TierNames()
    ensures Letters("") && Letters("priority") && Letters("flex") && Letters("auto") && Letters("default")
            && Letters("scale")
    ensures Letters("all")
  {
  }

  /** Normalizing yields one of the five known tiers or none, and normalizes to itself. */
  lemma NormalTierIsCanonical(raw: string)
    ensures NormalTier(raw) in {"", "priority", "flex", "auto", "default", "scale"}
    ensures NormalTier(NormalTier(raw)) == NormalTier(raw)
  {
    hide Lower, TrimSpace;
    TierNames();
    WordIsNormal(NormalTier(raw));
    WordIsNormal("");
  }

  /** Forward treats a request like the other two exactly when the deciding action is not
      force_priority, or the tier already reads "priority". */
  lemma ForwardLikeBodyExactly(p: Policy, r: Request)
    requires WellFormed(r)
    ensures ApplyInForward(p, r) == ApplyToBody(p, r)
            <==> NormalTier(RawTier(r)) == "" || NormalTier(RawTier(r)) == "priority"
                 || Verdict(p, NormalTier(RawTier(r))).action != "force_priority"
  {
    hide NormalTier, Verdict, BlockMessage;
    EmptyTier();
  }

  lemma EmptyTier()
    ensures NormalTier("") == ""
  {
  }

  lemma TierIsNormal(tier: string)
    requires tier == "flex" || tier == "priority"
    ensures NormalTier(tier) == tier
  {
    hide Lower, TrimSpace;
    TierNames();
    WordIsNormal(tier);
  }

  /** A global rule that forces priority is ignored for a flex request that Forward handles. */
  lemma ForceIsIgnored(model: string, matches: (string, string) -> bool)
    ensures var rule := Rule([], "all", "all", "force_priority", "", [], "", "");
            var p := Policy(Some([rule]), 0, true, false, model, matches);
            var r := Request("", Text("flex"), "");
            ApplyInForward(p, r) == Sent(r) && ApplyToBody(p, r) == Sent(r.(tier := Text("priority")))
  {
    hide NormalTier, Lower, TrimSpace, Decide;
    var rule := Rule([], "all", "all", "force_priority", "", [], "", "");
    var q := Query(0, true, false, model, "flex", matches);
    TierNames();
    WordIsNormal("all");
    TierIsNormal("flex");
    var i := WhoDecides([rule], q);
    assert Applies([rule][0], q);
  }
}
