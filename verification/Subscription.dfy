/**
 Subscription filters and rule matching: the filter a channel is subscribed with lets through every
 event its rules can accept, and a rule whose filter expression keeps timing out fails closed.
 */
module Subscription {
  import opened Events

  const MAX_CONSECUTIVE_TIMEOUTS: nat := 5
  const KIND_STREAM_MESSAGE: nat := 9
  const KIND_STREAM_REMINDER: nat := 40007
  const KIND_WORKFLOW_APPROVAL_REQUESTED: nat := 46010

  /** How channel ids are written: parsing accepts at least what printing produces. */
  datatype Uuids = Uuids(parse: string -> Option<Channel>, show: Channel -> string)

  ghost predicate Sound(u: Uuids) {
    forall c: Channel :: u.parse(u.show(c)) == Some(c)
  }

  datatype Scope = All(word: string) | Listed(ids: seq<string>)

  datatype Rule = Rule(
    name: string,
    channels: Scope,
    kinds: seq<nat>,
    requireMention: bool,
    filtered: bool,            // has a filter expression
    promptTag: Option<string>)

  datatype ChannelFilter = ChannelFilter(kinds: Option<seq<nat>>, requireMention: bool)

  datatype Mode = Mentions | AllEvents | FromConfig

  datatype Config = Config(
    mode: Mode,
    channelsOverride: Option<seq<string>>,
    kindsOverride: Option<seq<nat>>,
    noMentionFilter: bool)

  /** The part of an event that filters look at. */
  datatype Posted = Posted(kind: nat, mentioned: bool)

  // ---- channel scope: two ways of reading it ----

  /** How subscriptions read a rule's scope: ids are parsed. */
  predicate Applies(u: Uuids, rule: Rule, c: Channel) {
    match rule.channels
    case All(word) => word == "all"
    case Listed(ids) => exists i :: 0 <= i < |ids| && u.parse(ids[i]) == Some(c)
  }

  /** How matching reads it: ids are compared as text. */
  predicate ScopeMatches(u: Uuids, rule: Rule, c: Channel) {
    match rule.channels
    case All(word) => word == "all"
    case Listed(ids) => exists i :: 0 <= i < |ids| && ids[i] == u.show(c)
  }

  /**
   Matching never reaches past the subscription; it falls short of it exactly for a channel listed
   only in spellings other than the printed one.
   */
  lemma ScopeGap(u: Uuids, rule: Rule, c: Channel)
    requires Sound(u)
    ensures ScopeMatches(u, rule, c) ==> Applies(u, rule, c)
    ensures Applies(u, rule, c) && !ScopeMatches(u, rule, c) <==>
            rule.channels.Listed? && u.show(c) !in rule.channels.ids
            && exists i :: 0 <= i < |rule.channels.ids| && u.parse(rule.channels.ids[i]) == Some(c)
  {
    assert u.parse(u.show(c)) == Some(c);
  }

  // ---- merging the rules of one channel ----

  datatype Merged = Merged(kinds: Option<seq<nat>>, requireMention: bool, any: bool)

  const NO_RULE := Merged(Some([]), true, false)

  function AddKinds(have: seq<nat>, more: seq<nat>): seq<nat> {
    if more == [] then have
    else
      var sofar := AddKinds(have, more[..|more| - 1]);
      if more[|more| - 1] in sofar then sofar else sofar + [more[|more| - 1]]
  }

  function AddRule(m: Merged, rule: Rule): Merged {
    Merged(if rule.kinds == [] || m.kinds.None? then None else Some(AddKinds(m.kinds.value, rule.kinds)),
           m.requireMention && rule.requireMention, true)
  }

  function MergeRules(u: Uuids, rules: seq<Rule>, c: Channel): Merged {
    if rules == [] then NO_RULE
    else
      var m := MergeRules(u, rules[..|rules| - 1], c);
      if Applies(u, rules[|rules| - 1], c) then AddRule(m, rules[|rules| - 1]) else m
  }

  function FilterOf(m: Merged): Option<ChannelFilter> {
    if m.any then Some(ChannelFilter(m.kinds, m.requireMention)) else None
  }

  method MergeKinds(have: seq<nat>, more: seq<nat>) returns (kinds: seq<nat>)
    ensures kinds == AddKinds(have, more)
  {
    kinds := have;
    assert more[..0] == [];
    for i := 0 to |more|
      invariant kinds == AddKinds(have, more[..i])
    {
      if more[i] !in kinds {
        kinds := kinds + [more[i]];
      }
      assert more[..i + 1][..i] == more[..i];
    }
    assert more[..|more|] == more;
  }

  method MergeForChannel(u: Uuids, rules: seq<Rule>, c: Channel) returns (filter: Option<ChannelFilter>)
    ensures filter == FilterOf(MergeRules(u, rules, c))
  {
    var kinds: Option<seq<nat>> := Some([]);
    var requireMention, any := true, false;
    assert rules[..0] == [];
    for i := 0 to |rules|
      invariant Merged(kinds, requireMention, any) == MergeRules(u, rules[..i], c)
    {
      assert rules[..i + 1][..i] == rules[..i];
      if Applies(u, rules[i], c) {
        any := true;
        if rules[i].kinds == [] {
          kinds := None;
        } else if kinds.Some? {
          var more := MergeKinds(kinds.value, rules[i].kinds);
          kinds := Some(more);
        }
        if !rules[i].requireMention {
          requireMention := false;
        }
      }
    }
    assert rules[..|rules|] == rules;
    filter := if any then Some(ChannelFilter(kinds, requireMention)) else None;
  }

  lemma {:induction false} AddKindsMembers(have: seq<nat>, more: seq<nat>, k: nat)
    ensures k in AddKinds(have, more) <==> k in have || k in more
  {
    if more != [] {
      AddKindsMembers(have, more[..|more| - 1], k);
      assert more == more[..|more| - 1] + [more[|more| - 1]];
    }
  }

  predicate Distinct(kinds: seq<nat>) {
    forall i, j :: 0 <= i < j < |kinds| ==> kinds[i] != kinds[j]
  }

  lemma {:induction false} AddKindsDistinct(have: seq<nat>, more: seq<nat>)
    requires Distinct(have)
    ensures Distinct(AddKinds(have, more)) && have <= AddKinds(have, more)
  {
    if more != [] { AddKindsDistinct(have, more[..|more| - 1]); }
  }

  /** No kind is asked for twice. */
  lemma {:induction false} MergedDistinct(u: Uuids, rules: seq<Rule>, c: Channel)
    ensures MergeRules(u, rules, c).kinds.Some? ==> Distinct(MergeRules(u, rules, c).kinds.value)
  {
    if rules != [] {
      var m, last := MergeRules(u, rules[..|rules| - 1], c), rules[|rules| - 1];
      MergedDistinct(u, rules[..|rules| - 1], c);
      if m.kinds.Some? { AddKindsDistinct(m.kinds.value, last.kinds); }
    }
  }

  /** `i` is the position of a rule that applies to `c`. */
  predicate AppliesAt(u: Uuids, rules: seq<Rule>, i: int, c: Channel) {
    0 <= i < |rules| && Applies(u, rules[i], c)
  }

  /** What the merged filter is, rule by rule: a union of kinds, and a mention only if all ask for one. */
  lemma {:induction false} MergedExactly(u: Uuids, rules: seq<Rule>, c: Channel, k: nat)
    ensures var m := MergeRules(u, rules, c);
            && (m.any <==> exists i :: AppliesAt(u, rules, i, c))
            && (m.kinds.None? <==> exists i :: AppliesAt(u, rules, i, c) && rules[i].kinds == [])
            && (m.kinds.Some? ==> (k in m.kinds.value <==>
                exists i :: AppliesAt(u, rules, i, c) && k in rules[i].kinds))
            && (m.requireMention <==> forall i :: AppliesAt(u, rules, i, c) ==> rules[i].requireMention)
  {
    if rules != [] {
      var n := |rules| - 1;
      var front := rules[..n];
      MergedExactly(u, front, c, k);
      assert forall i :: AppliesAt(u, front, i, c) ==> AppliesAt(u, rules, i, c) && rules[i] == front[i];
      assert forall i :: AppliesAt(u, rules, i, c) && i < n ==> AppliesAt(u, front, i, c) && rules[i] == front[i];
      var m := MergeRules(u, front, c);
      if Applies(u, rules[n], c) {
        assert AppliesAt(u, rules, n, c);
        if m.kinds.Some? { AddKindsMembers(m.kinds.value, rules[n].kinds, k); }
      } else {
        assert !AppliesAt(u, rules, n, c);
      }
    }
  }

  // ---- the two resolvers ----

  function DefaultKinds(config: Config): seq<nat> {
    if config.kindsOverride.Some? then config.kindsOverride.value
    else [KIND_STREAM_MESSAGE, KIND_WORKFLOW_APPROVAL_REQUESTED, KIND_STREAM_REMINDER]
  }

  predicate Permitted(u: Uuids, config: Config, c: Channel) {
    config.channelsOverride.Some? ==>
      exists i :: 0 <= i < |config.channelsOverride.value| && u.parse(config.channelsOverride.value[i]) == Some(c)
  }

  /** The filter of a channel the agent is in. */
  function Resolved(u: Uuids, config: Config, rules: seq<Rule>, c: Channel): Option<ChannelFilter> {
    match config.mode
    case FromConfig => FilterOf(MergeRules(u, rules, c))
    case Mentions =>
      if Permitted(u, config, c) then Some(ChannelFilter(Some(DefaultKinds(config)), !config.noMentionFilter)) else None
    case AllEvents =>
      if Permitted(u, config, c) then Some(ChannelFilter(config.kindsOverride, false)) else None
  }

  method ResolveDynamicChannelFilter(u: Uuids, config: Config, c: Channel, rules: seq<Rule>)
    returns (filter: Option<ChannelFilter>)
    ensures filter == Resolved(u, config, rules, c)
  {
    if !config.mode.FromConfig? && config.channelsOverride.Some? {
      var ids := config.channelsOverride.value;
      if !(exists i :: 0 <= i < |ids| && u.parse(ids[i]) == Some(c)) {
        return None;
      }
    }
    match config.mode
    case Mentions => return Some(ChannelFilter(Some(DefaultKinds(config)), !config.noMentionFilter));
    case AllEvents => return Some(ChannelFilter(config.kindsOverride, false));
    case FromConfig =>
      filter := MergeForChannel(u, rules, c);
  }

  /** Channels the override names, among the discovered ones. */
  method TargetChannels(u: Uuids, config: Config, discovered: seq<Channel>) returns (targets: seq<Channel>)
    ensures forall c :: c in targets <==> c in discovered && Permitted(u, config, c)
  {
    if config.channelsOverride.None? {
      return discovered;
    }
    var ids := config.channelsOverride.value;
    targets := [];
    for i := 0 to |ids|
      invariant forall c :: c in targets <==> c in discovered && exists j :: 0 <= j < i && u.parse(ids[j]) == Some(c)
    {
      var id := u.parse(ids[i]);
      if id.Some? && id.value in discovered {
        targets := targets + [id.value];
      }
    }
  }

  /** Both resolvers give every discovered channel the same answer, in every mode; others get none. */
  method ResolveChannelFilters(u: Uuids, config: Config, discovered: seq<Channel>, rules: seq<Rule>)
    returns (filters: map<Channel, ChannelFilter>)
    ensures forall c :: Find(filters, c) == if c in discovered then Resolved(u, config, rules, c) else None
  {
    filters := map[];
    if config.mode.FromConfig? {
      for i := 0 to |discovered|
        invariant forall c :: Find(filters, c) == if c in discovered[..i] then Resolved(u, config, rules, c) else None
      {
        var filter := MergeForChannel(u, rules, discovered[i]);
        if filter.Some? {
          filters := filters[discovered[i] := filter.value];
        }
        assert discovered[..i + 1] == discovered[..i] + [discovered[i]];
      }
      assert discovered[..|discovered|] == discovered;
    } else {
      var targets := TargetChannels(u, config, discovered);
      var filter := if config.mode.Mentions?
        then ChannelFilter(Some(DefaultKinds(config)), !config.noMentionFilter)
        else ChannelFilter(config.kindsOverride, false);
      for i := 0 to |targets|
        invariant forall c :: Find(filters, c) == if c in targets[..i] then Some(filter) else None
      {
        filters := filters[targets[i] := filter];
        assert targets[..i + 1] == targets[..i] + [targets[i]];
      }
      assert targets[..|targets|] == targets;
    }
  }

  // ---- matching an event ----

  /** Outcome of evaluating a rule's filter expression. */
  datatype Verdict = Yes | No | TimedOut | Errored

  predicate KindFits(rule: Rule, ev: Posted) {
    rule.kinds == [] || ev.kind in rule.kinds
  }

  predicate Concerns(u: Uuids, rule: Rule, c: Channel, ev: Posted) {
    ScopeMatches(u, rule, c) && KindFits(rule, ev) && (rule.requireMention ==> ev.mentioned)
  }

  predicate Disabled(timeouts: seq<nat>, i: nat)
    requires i < |timeouts|
  {
    timeouts[i] >= MAX_CONSECUTIVE_TIMEOUTS
  }

  /** The rule does not decide: the search goes on with the next one. */
  predicate Skips(u: Uuids, rules: seq<Rule>, timeouts: seq<nat>, c: Channel, ev: Posted, verdicts: seq<Verdict>,
      i: nat)
    requires |timeouts| == |verdicts| == |rules| && i < |rules|
  {
    !Concerns(u, rules[i], c, ev) || (rules[i].filtered && !Disabled(timeouts, i) && verdicts[i].No?)
  }

  predicate Accepts(u: Uuids, rules: seq<Rule>, timeouts: seq<nat>, c: Channel, ev: Posted, verdicts: seq<Verdict>,
      i: nat)
    requires |timeouts| == |verdicts| == |rules| && i < |rules|
  {
    Concerns(u, rules[i], c, ev) && (rules[i].filtered ==> !Disabled(timeouts, i) && verdicts[i].Yes?)
  }

  /** Counter of a rule after its expression was evaluated. */
  function Counted(n: nat, v: Verdict): nat {
    match v
    case Yes => 0
    case No => 0
    case TimedOut => n + 1
    case Errored => n
  }

  /** The rule's expression is evaluated when the search reaches it. */
  predicate Evaluates(u: Uuids, rules: seq<Rule>, timeouts: seq<nat>, c: Channel, ev: Posted, i: nat)
    requires |timeouts| == |rules| && i < |rules|
  {
    Concerns(u, rules[i], c, ev) && rules[i].filtered && !Disabled(timeouts, i)
  }

  /** An event on a channel, with the verdict each rule's expression would give. */
  datatype Delivery = Delivery(channel: Channel, posted: Posted, verdicts: seq<Verdict>)

  datatype MatchedRule = MatchedRule(index: nat, promptTag: string)

  /** How far the search gets. */
  function Reach(u: Uuids, rules: seq<Rule>, timeouts: seq<nat>, d: Delivery, i: nat): (r: nat)
    requires |timeouts| == |d.verdicts| == |rules| && i <= |rules|
    ensures i <= r <= |rules|
    ensures forall j :: i <= j < r ==> Skips(u, rules, timeouts, d.channel, d.posted, d.verdicts, j)
    ensures r < |rules| ==> !Skips(u, rules, timeouts, d.channel, d.posted, d.verdicts, r)
    decreases |rules| - i
  {
    if i < |rules| && Skips(u, rules, timeouts, d.channel, d.posted, d.verdicts, i)
    then Reach(u, rules, timeouts, d, i + 1) else i
  }

  function NextTimeouts(u: Uuids, rules: seq<Rule>, timeouts: seq<nat>, d: Delivery): (r: seq<nat>)
    requires |timeouts| == |d.verdicts| == |rules|
    ensures |r| == |rules|
  {
    seq(|rules|, j requires 0 <= j < |rules| =>
      if j <= Reach(u, rules, timeouts, d, 0) && Evaluates(u, rules, timeouts, d.channel, d.posted, j)
      then Counted(timeouts[j], d.verdicts[j]) else timeouts[j])
  }

  function Match(u: Uuids, rules: seq<Rule>, timeouts: seq<nat>, d: Delivery): Option<MatchedRule>
    requires |timeouts| == |d.verdicts| == |rules|
  {
    var r := Reach(u, rules, timeouts, d, 0);
    if r < |rules| && Accepts(u, rules, timeouts, d.channel, d.posted, d.verdicts, r) then
      Some(MatchedRule(r, if rules[r].promptTag.Some? then rules[r].promptTag.value else rules[r].name))
    else None
  }

  /** The first rule that decides wins; a disabled rule, a timeout or an error decides for no match at all. */
  lemma MatchExactly(u: Uuids, rules: seq<Rule>, timeouts: seq<nat>, d: Delivery, i: nat)
    requires |timeouts| == |d.verdicts| == |rules| && i < |rules|
    ensures Match(u, rules, timeouts, d).Some? && Match(u, rules, timeouts, d).value.index == i <==>
            && Accepts(u, rules, timeouts, d.channel, d.posted, d.verdicts, i)
            && forall j :: 0 <= j < i ==> Skips(u, rules, timeouts, d.channel, d.posted, d.verdicts, j)
  {
    var r := Reach(u, rules, timeouts, d, 0);
    if r < i { assert !Skips(u, rules, timeouts, d.channel, d.posted, d.verdicts, r); }
    if i < r { assert Skips(u, rules, timeouts, d.channel, d.posted, d.verdicts, i); }
  }

  /** Matches an event in rule order, counting the timeouts of the expressions it evaluates. */
  method MatchEvent(u: Uuids, rules: seq<Rule>, timeouts: array<nat>, d: Delivery)
      returns (matched: Option<MatchedRule>)
    requires timeouts.Length == |d.verdicts| == |rules|
    modifies timeouts
    ensures matched == Match(u, rules, old(timeouts[..]), d)
    ensures forall i :: 0 <= i < |rules| ==>
              (matched.Some? && matched.value.index == i <==> Wins(u, rules, old(timeouts[..]), d, i))
    ensures timeouts[..] == NextTimeouts(u, rules, old(timeouts[..]), d)
  {
    ghost var before := timeouts[..];
    forall j | 0 <= j < |rules|
      ensures Match(u, rules, before, d).Some? && Match(u, rules, before, d).value.index == j
              <==> Wins(u, rules, before, d, j)
    {
      RuleWinsExactly(u, rules, before, d, j);
    }
    var i := 0;
    while i < |rules|
      invariant 0 <= i <= |rules|
      invariant Reach(u, rules, before, d, i) == Reach(u, rules, before, d, 0)
      invariant forall j :: 0 <= j < |rules| ==>
                  timeouts[j] == if j < i && Evaluates(u, rules, before, d.channel, d.posted, j)
                                 then Counted(before[j], d.verdicts[j]) else before[j]
    {
      if Concerns(u, rules[i], d.channel, d.posted) {
        if rules[i].filtered {
          if timeouts[i] >= MAX_CONSECUTIVE_TIMEOUTS {
            return None;
          }
          if d.verdicts[i].TimedOut? {
            timeouts[i] := timeouts[i] + 1;
            return None;
          }
          if d.verdicts[i].Errored? {
            return None;
          }
          timeouts[i] := 0;
        }
        if rules[i].filtered ==> d.verdicts[i].Yes? {
          return Some(MatchedRule(i, if rules[i].promptTag.Some? then rules[i].promptTag.value else rules[i].name));
        }
      }
      i := i + 1;
    }
    return None;
  }

  // ---- the subscription covers matching ----

  /** A relay sends an event for a subscription with this filter. */
  predicate Passes(filter: ChannelFilter, ev: Posted) {
    (filter.kinds.Some? ==> ev.kind in filter.kinds.value) && (filter.requireMention ==> ev.mentioned)
  }

  /**
   Any event matching accepts on a channel, whatever the counters and verdicts, passes the filter that channel
   is subscribed with.
   */
  lemma SubscriptionCoversMatching(u: Uuids, config: Config, rules: seq<Rule>, timeouts: seq<nat>, d: Delivery)
    requires Sound(u) && config.mode.FromConfig? && |timeouts| == |d.verdicts| == |rules|
    requires Match(u, rules, timeouts, d).Some?
    ensures Resolved(u, config, rules, d.channel).Some?
    ensures Passes(Resolved(u, config, rules, d.channel).value, d.posted)
  {
    var i := Match(u, rules, timeouts, d).value.index;
    ScopeGap(u, rules[i], d.channel);
    assert AppliesAt(u, rules, i, d.channel);
    MergedExactly(u, rules, d.channel, d.posted.kind);
  }

  /** And only as wide as the rules need: what passes is asked for by some applicable rule, kind and mention apart. */
  lemma SubscriptionIsTight(u: Uuids, config: Config, rules: seq<Rule>, c: Channel, ev: Posted)
    requires config.mode.FromConfig? && Resolved(u, config, rules, c).Some?
    requires Passes(Resolved(u, config, rules, c).value, ev)
    ensures exists i :: AppliesAt(u, rules, i, c) && KindFits(rules[i], ev)
    ensures ev.mentioned || exists i :: AppliesAt(u, rules, i, c) && !rules[i].requireMention
  {
    MergedExactly(u, rules, c, ev.kind);
  }

  // ---- counters over many events ----

  function TimeoutsAfter(u: Uuids, rules: seq<Rule>, timeouts: seq<nat>, ds: seq<Delivery>): (r: seq<nat>)
    requires |timeouts| == |rules| && forall n :: 0 <= n < |ds| ==> |ds[n].verdicts| == |rules|
    ensures |r| == |rules|
    decreases |ds|
  {
    if ds == [] then timeouts else TimeoutsAfter(u, rules, NextTimeouts(u, rules, timeouts, ds[0]), ds[1..])
  }

  /**
   The counters never pass the limit, and a rule that reached it is disabled for good: its counter
   stays, and whenever the search reaches it for an event it concerns, nothing is matched.
   */
  lemma {:induction false} DisabledForGood(u: Uuids, rules: seq<Rule>, timeouts: seq<nat>, ds: seq<Delivery>, i: nat)
    requires |timeouts| == |rules| && forall n :: 0 <= n < |ds| ==> |ds[n].verdicts| == |rules|
    requires i < |rules| && timeouts[i] <= MAX_CONSECUTIVE_TIMEOUTS
    ensures TimeoutsAfter(u, rules, timeouts, ds)[i] <= MAX_CONSECUTIVE_TIMEOUTS
    ensures Disabled(timeouts, i) ==> TimeoutsAfter(u, rules, timeouts, ds)[i] == timeouts[i]
    ensures Disabled(timeouts, i) && rules[i].filtered ==>
              forall d: Delivery :: |d.verdicts| == |rules| && Concerns(u, rules[i], d.channel, d.posted) ==>
                !Accepts(u, rules, TimeoutsAfter(u, rules, timeouts, ds), d.channel, d.posted, d.verdicts, i)
                && !Skips(u, rules, TimeoutsAfter(u, rules, timeouts, ds), d.channel, d.posted, d.verdicts, i)
    decreases |ds|
  {
    if ds != [] {
      DisabledForGood(u, rules, NextTimeouts(u, rules, timeouts, ds[0]), ds[1..], i);
    }
  }

  // ---- what a rule accepts ----

  /** The rule speaks of this event: its scope, its kinds and its wish for a mention, read off the rule itself. */
  ghost predicate Wants(u: Uuids, rule: Rule, c: Channel, ev: Posted) {
    && (match rule.channels
        case All(word) => word == "all"
        case Listed(ids) => u.show(c) in ids)
    && (rule.kinds == [] || ev.kind in rule.kinds)
    && (!rule.requireMention || ev.mentioned)
  }

  /** It lets the search go on: it does not speak of the event, or its expression, still enabled, says no. */
  ghost predicate PassesOn(u: Uuids, rule: Rule, timeouts: nat, c: Channel, ev: Posted, v: Verdict) {
    !Wants(u, rule, c, ev) || (rule.filtered && timeouts < 5 && v == No)
  }

  lemma WantsIsConcern(u: Uuids, rule: Rule, c: Channel, ev: Posted)
    ensures Wants(u, rule, c, ev) <==> Concerns(u, rule, c, ev)
  {
  }

  /**
   Rule `i` speaks of the event and has no expression, or one that is enabled and says yes, and every rule before
   it passes the event on.
   */
  ghost predicate Wins(u: Uuids, rules: seq<Rule>, timeouts: seq<nat>, d: Delivery, i: nat)
    requires |timeouts| == |d.verdicts| == |rules| && i < |rules|
  {
    && Wants(u, rules[i], d.channel, d.posted)
    && (!rules[i].filtered || (timeouts[i] < 5 && d.verdicts[i] == Yes))
    && forall j :: 0 <= j < i ==> PassesOn(u, rules[j], timeouts[j], d.channel, d.posted, d.verdicts[j])
  }

  /** Exactly the rule that wins is matched; it gives its tag, or else its name. */
  lemma RuleWinsExactly(u: Uuids, rules: seq<Rule>, timeouts: seq<nat>, d: Delivery, i: nat)
    requires |timeouts| == |d.verdicts| == |rules| && i < |rules|
    ensures Match(u, rules, timeouts, d).Some? && Match(u, rules, timeouts, d).value.index == i
            <==> Wins(u, rules, timeouts, d, i)
    ensures Match(u, rules, timeouts, d).Some? && Match(u, rules, timeouts, d).value.index == i ==>
              Match(u, rules, timeouts, d).value.promptTag
                == match rules[i].promptTag case Some(tag) => tag case None => rules[i].name
  {
    MatchExactly(u, rules, timeouts, d, i);
    forall j | 0 <= j <= i
      ensures PassesOn(u, rules[j], timeouts[j], d.channel, d.posted, d.verdicts[j])
              <==> Skips(u, rules, timeouts, d.channel, d.posted, d.verdicts, j)
    {
      WantsIsConcern(u, rules[j], d.channel, d.posted);
    }
    WantsIsConcern(u, rules[i], d.channel, d.posted);
  }

  /** Nothing is matched exactly when no rule wins. */
  lemma NoneWinsExactly(u: Uuids, rules: seq<Rule>, timeouts: seq<nat>, d: Delivery)
    requires |timeouts| == |d.verdicts| == |rules|
    ensures Match(u, rules, timeouts, d).None? <==> forall i :: 0 <= i < |rules| ==> !Wins(u, rules, timeouts, d, i)
  {
    forall i | 0 <= i < |rules|
      ensures Match(u, rules, timeouts, d).Some? && Match(u, rules, timeouts, d).value.index == i
              <==> Wins(u, rules, timeouts, d, i)
    {
      RuleWinsExactly(u, rules, timeouts, d, i);
    }
    var matched := Match(u, rules, timeouts, d);
    if matched.Some? { assert Wins(u, rules, timeouts, d, matched.value.index); }
  }

  /**
   Timeouts are counted exactly for a rule the search reaches and whose expression it evaluates: one more for a timeout,
   none any more for an answer, and no change for an error or for any other rule.
   */
  lemma CountersExactly(u: Uuids, rules: seq<Rule>, timeouts: seq<nat>, d: Delivery, i: nat)
    requires |timeouts| == |d.verdicts| == |rules| && i < |rules|
    ensures var evaluated := && Wants(u, rules[i], d.channel, d.posted) && rules[i].filtered && timeouts[i] < 5
                             && forall j :: 0 <= j < i ==>
                                  PassesOn(u, rules[j], timeouts[j], d.channel, d.posted, d.verdicts[j]);
            NextTimeouts(u, rules, timeouts, d)[i]
              == if evaluated && d.verdicts[i] == TimedOut then timeouts[i] + 1
                 else if evaluated && d.verdicts[i] in {Yes, No} then 0
                 else timeouts[i]
  {
    var r := Reach(u, rules, timeouts, d, 0);
    forall j | 0 <= j < |rules|
      ensures PassesOn(u, rules[j], timeouts[j], d.channel, d.posted, d.verdicts[j])
              <==> Skips(u, rules, timeouts, d.channel, d.posted, d.verdicts, j)
    {
      WantsIsConcern(u, rules[j], d.channel, d.posted);
    }
    WantsIsConcern(u, rules[i], d.channel, d.posted);
    if r < i { assert !Skips(u, rules, timeouts, d.channel, d.posted, d.verdicts, r); }
  }

  // ---- what a channel is subscribed with ----

  /** The ids of the override that parse name the channel, or there is no override. */
  ghost predicate Named(u: Uuids, config: Config, c: Channel) {
    config.channelsOverride.None?
    || exists i :: 0 <= i < |config.channelsOverride.value| && u.parse(config.channelsOverride.value[i]) == Some(c)
  }

  /** Without rules: by default messages, approval requests and reminders that mention the agent, or all there is. */
  lemma ModesExactly(u: Uuids, config: Config, rules: seq<Rule>, c: Channel, f: ChannelFilter)
    ensures config.mode == Mentions ==>
              (Resolved(u, config, rules, c) == Some(f) <==>
                 && Named(u, config, c) && f.requireMention == !config.noMentionFilter
                 && f.kinds == Some(match config.kindsOverride
                                    case Some(kinds) => kinds
                                    case None => [9, 46010, 40007]))
    ensures config.mode == AllEvents ==>
              (Resolved(u, config, rules, c) == Some(f) <==>
                 Named(u, config, c) && !f.requireMention && f.kinds == config.kindsOverride)
  {
  }

  /** Whether a rule is heard for the channel, read off the rule itself. */
  ghost predicate Heard(u: Uuids, rule: Rule, c: Channel) {
    match rule.channels
    case All(word) => word == "all"
    case Listed(ids) => exists i :: 0 <= i < |ids| && u.parse(ids[i]) == Some(c)
  }

  /** With rules: an event passes exactly when a heard rule has its kind, and, lacking a mention, one needs none. */
  lemma RulesModeExactly(u: Uuids, config: Config, rules: seq<Rule>, c: Channel, ev: Posted)
    requires config.mode == FromConfig
    ensures Resolved(u, config, rules, c).Some? <==> exists i :: 0 <= i < |rules| && Heard(u, rules[i], c)
    ensures Resolved(u, config, rules, c).Some? ==>
              (Passes(Resolved(u, config, rules, c).value, ev) <==>
                 && (exists i :: && 0 <= i < |rules| && Heard(u, rules[i], c)
                                 && (rules[i].kinds == [] || ev.kind in rules[i].kinds))
                 && (ev.mentioned || exists i :: 0 <= i < |rules| && Heard(u, rules[i], c) && !rules[i].requireMention))
  {
    MergedExactly(u, rules, c, ev.kind);
    assert forall i :: 0 <= i < |rules| ==> (Heard(u, rules[i], c) <==> AppliesAt(u, rules, i, c));
  }
}
