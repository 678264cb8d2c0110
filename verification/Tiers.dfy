/** Resolving a user's IdP groups to an authorization tier, and what the API server is told. */
module Tiers {
  import opened Wrappers

  const TIER_GROUP_PREFIX := "periscope-tier:"
  const DEFAULT_RAW_GROUP_PREFIX := "periscope:"

  datatype Mode = Shared | Tier | Raw

  datatype Config = Config(
    mode: Mode,
    groupTiers: map<string, string>,
    defaultTier: string,
    groupPrefix: string,
    allowedGroups: seq<string>,
    auditAdminGroups: seq<string>)

  datatype Identity = Identity(subject: string, groups: seq<string>)

  datatype Impersonation = Impersonation(userName: string, groups: seq<string>)

  predicate IsValidTier(s: string) {
    s == "read" || s == "triage" || s == "write" || s == "maintain" || s == "admin"
  }

  function TierRank(t: string): nat {
    if t == "read" then 1
    else if t == "triage" then 2
    else if t == "write" then 3
    else if t == "maintain" then 4
    else if t == "admin" then 5
    else 0
  }

  lemma RankTellsTier(s: string, t: string)
    requires IsValidTier(s) && TierRank(s) == TierRank(t)
    ensures s == t
  {
  }

  /** The five tiers, from the lowest to the highest; nothing else is one. */
  lemma TiersAscend(t: string)
    ensures IsValidTier(t) <==> t in {"read", "triage", "write", "maintain", "admin"}
    ensures TierRank("read") < TierRank("triage") < TierRank("write") < TierRank("maintain") < TierRank("admin")
    ensures !IsValidTier(t) ==> TierRank(t) < TierRank("read")
  {
  }

  /** What the constructor lets through in tier mode. */
  ghost predicate ValidTiers(cfg: Config) {
    && (cfg.defaultTier != "" ==> IsValidTier(cfg.defaultTier))
    && (forall g :: g in cfg.groupTiers ==> IsValidTier(cfg.groupTiers[g]))
  }

  /** The mode a configuration names, shared when it names none. */
  function ModeNamed(mode: string): Option<Mode> {
    if mode == "" || mode == "shared" then Some(Shared)
    else if mode == "tier" then Some(Tier)
    else if mode == "raw" then Some(Raw)
    else None
  }

  /** The constructor: `None` is its error. `cfg.mode` is not read; the mode comes by name. */
  method NewResolver(mode: string, cfg: Config) returns (r: Option<Config>)
    ensures r.Some? <==> mode in {"", "shared", "tier", "raw"} && (mode == "tier" ==> ValidTiers(cfg))
    ensures r.Some? ==> Some(r.value.mode) == ModeNamed(mode)
    ensures r.Some? ==> r.value == cfg.(mode := r.value.mode,
              groupPrefix := if cfg.groupPrefix == "" then "periscope:" else cfg.groupPrefix)
  {
    var named := ModeNamed(mode);
    if named.None? {
      return None;
    }
    var c := cfg.(mode := named.value);
    if c.groupPrefix == "" {
      c := c.(groupPrefix := DEFAULT_RAW_GROUP_PREFIX);
    }
    if c.mode.Tier? {
      if c.defaultTier != "" && !IsValidTier(c.defaultTier) {
        return None;
      }
      var todo := c.groupTiers.Keys;
      while todo != {}
        invariant todo <= c.groupTiers.Keys
        invariant forall g :: g in c.groupTiers && g !in todo ==> IsValidTier(c.groupTiers[g])
      {
        var g :| g in todo;
        todo := todo - {g};
        if !IsValidTier(c.groupTiers[g]) {
          return None;
        }
      }
    }
    return Some(c);
  }

  // Tiers.

  predicate Mapped(cfg: Config, groups: seq<string>) {
    exists g :: g in groups && g in cfg.groupTiers
  }

  /** A tier that one of the groups maps to, and no other maps above. */
  ghost predicate Highest(cfg: Config, groups: seq<string>, tier: string) {
    && (exists g :: g in groups && g in cfg.groupTiers && cfg.groupTiers[g] == tier)
    && (forall g :: g in groups && g in cfg.groupTiers ==> TierRank(cfg.groupTiers[g]) <= TierRank(tier))
  }

  ghost predicate IsTierOf(cfg: Config, groups: seq<string>, tier: string) {
    if Mapped(cfg, groups) then Highest(cfg, groups, tier) else tier == cfg.defaultTier
  }

  method TierForGroups(cfg: Config, groups: seq<string>) returns (tier: string)
    ensures IsTierOf(cfg, groups, tier)
  {
    for i := 0 to |groups|
      invariant !Mapped(cfg, groups[..i])
    {
      if groups[i] in cfg.groupTiers {
        var best := cfg.groupTiers[groups[i]];
        for j := 0 to |groups|
          invariant exists g :: g in groups && g in cfg.groupTiers && cfg.groupTiers[g] == best
          invariant forall g :: g in groups[..j] && g in cfg.groupTiers ==>
              TierRank(cfg.groupTiers[g]) <= TierRank(best)
        {
          if groups[j] in cfg.groupTiers {
            var t2 := cfg.groupTiers[groups[j]];
            if TierRank(t2) > TierRank(best) {
              best := t2;
            }
          }
        }
        assert groups[..|groups|] == groups;
        return best;
      }
    }
    assert groups[..|groups|] == groups;
    return cfg.defaultTier;
  }

  /** The order and the repetition of groups do not matter. */
  lemma TierDependsOnGroupSet(cfg: Config, groups: seq<string>, others: seq<string>, s: string, t: string)
    requires ValidTiers(cfg) && (forall g :: g in groups <==> g in others)
    requires IsTierOf(cfg, groups, s) && IsTierOf(cfg, others, t)
    ensures s == t
  {
    if Mapped(cfg, groups) {
      assert Mapped(cfg, others);
      RankTellsTier(s, t);
    } else {
      assert !Mapped(cfg, others);
    }
  }

  lemma MoreGroupsMapped(cfg: Config, groups: seq<string>, more: seq<string>)
    requires forall g :: g in groups ==> g in more
    ensures Mapped(cfg, groups) ==> Mapped(cfg, more)
  {
  }

  /** Further groups lower a user exactly when none of the old ones was mapped and the default tier was
      above all that the new ones map to. */
  lemma MoreGroupsLowerExactly(cfg: Config, groups: seq<string>, more: seq<string>, s: string, t: string)
    requires ValidTiers(cfg) && (forall g :: g in groups ==> g in more)
    requires IsTierOf(cfg, groups, s) && IsTierOf(cfg, more, t)
    ensures TierRank(t) < TierRank(s) <==>
            !Mapped(cfg, groups) && Mapped(cfg, more)
            && forall g :: g in more && g in cfg.groupTiers ==> TierRank(cfg.groupTiers[g]) < TierRank(cfg.defaultTier)
  {
    MoreGroupsMapped(cfg, groups, more);
    if Mapped(cfg, groups) {
      var g :| g in groups && g in cfg.groupTiers && cfg.groupTiers[g] == s;
      assert g in more;
    } else if Mapped(cfg, more) {
      var g :| g in more && g in cfg.groupTiers && cfg.groupTiers[g] == t;
    }
  }

  // Impersonation.

  /** Unicode's White_Space property. */
  predicate IsSpace(c: char) {
    var n := c as int;
    || 0x09 <= n <= 0x0D || n == 0x20 || n == 0x85 || n == 0xA0 || n == 0x1680 || 0x2000 <= n <= 0x200A
    || n == 0x2028 || n == 0x2029 || n == 0x202F || n == 0x205F || n == 0x3000
  }

  /** These are the 25 characters. */
  lemma SpacesAre(c: char)
    ensures IsSpace(c) <==>
      c in {'\U{9}', '\U{a}', '\U{b}', '\U{c}', '\U{d}', ' ', '\U{85}', '\U{a0}', '\U{1680}', '\U{2000}',
            '\U{2001}', '\U{2002}', '\U{2003}', '\U{2004}', '\U{2005}', '\U{2006}', '\U{2007}', '\U{2008}',
            '\U{2009}', '\U{200a}', '\U{2028}', '\U{2029}', '\U{202f}', '\U{205f}', '\U{3000}'}
  {
  }

  predicate Blank(s: string) {
    forall c :: c in s ==> IsSpace(c)
  }

  function Prefixed(prefix: string, groups: seq<string>): seq<string> {
    if groups == [] then []
    else
      Prefixed(prefix, groups[..|groups| - 1])
      + if Blank(groups[|groups| - 1]) then [] else [prefix + groups[|groups| - 1]]
  }

  method PrefixAll(prefix: string, groups: seq<string>) returns (out: seq<string>)
    ensures out == Prefixed(prefix, groups)
  {
    out := [];
    for i := 0 to |groups|
      invariant out == Prefixed(prefix, groups[..i])
    {
      assert groups[..i + 1][..i] == groups[..i];
      if !Blank(groups[i]) {
        out := out + [prefix + groups[i]];
      }
    }
    assert groups[..|groups|] == groups;
  }

  /** No bare prefix is ever sent. */
  lemma {:induction false} PrefixedHas(prefix: string, groups: seq<string>, x: string)
    ensures x in Prefixed(prefix, groups) <==> exists g :: g in groups && !Blank(g) && x == prefix + g
  {
    if groups != [] {
      PrefixedHas(prefix, groups[..|groups| - 1], x);
      assert groups == groups[..|groups| - 1] + [groups[|groups| - 1]];
    }
  }

  function TierGroups(tier: string): seq<string> {
    if tier == "" then [] else [TIER_GROUP_PREFIX + tier]
  }

  /** What is sent for an identity: nobody in shared mode or without a subject, the one group of the
      user's tier in tier mode, the user's own groups behind the prefix in raw mode. */
  ghost predicate ResolvesTo(cfg: Config, id: Identity, out: Impersonation) {
    if cfg.mode.Shared? || id.subject == "" then out == Impersonation("", [])
    else
      && out.userName == id.subject
      && (cfg.mode.Raw? ==> out.groups == Prefixed(cfg.groupPrefix, id.groups))
      && (cfg.mode.Tier? ==> exists t :: IsTierOf(cfg, id.groups, t) && out.groups == TierGroups(t))
  }

  method Resolve(cfg: Config, id: Identity) returns (out: Impersonation)
    ensures ResolvesTo(cfg, id, out)
    ensures cfg.mode.Tier? && id.subject != "" ==>
              exists t :: IsTierOf(cfg, id.groups, t) && out.groups == if t == "" then [] else ["periscope-tier:" + t]
    ensures cfg.mode.Raw? && id.subject != "" ==>
              forall x :: x in out.groups <==>
                exists g :: g in id.groups && x == cfg.groupPrefix + g && exists c :: c in g && !IsSpace(c)
  {
    if cfg.mode.Shared? || id.subject == "" {
      return Impersonation("", []);
    }
    if cfg.mode.Tier? {
      var tier := TierForGroups(cfg, id.groups);
      if tier == "" {
        return Impersonation(id.subject, []);
      }
      return Impersonation(id.subject, [TIER_GROUP_PREFIX + tier]);
    }
    var groups := PrefixAll(cfg.groupPrefix, id.groups);
    forall x ensures x in groups <==>
                     exists g :: g in id.groups && x == cfg.groupPrefix + g && exists c :: c in g && !IsSpace(c) {
      PrefixedHas(cfg.groupPrefix, id.groups, x);
    }
    return Impersonation(id.subject, groups);
  }

  /** In tier mode two users with the same groups get the same tier group, and a user gets none exactly
      when no group is mapped and there is no default tier. */
  lemma ResolvedGroupsAreTheTier(cfg: Config, a: Identity, b: Identity, x: Impersonation, y: Impersonation)
    requires cfg.mode.Tier? && ValidTiers(cfg) && a.subject != "" && b.subject != ""
    requires forall g :: g in a.groups <==> g in b.groups
    requires ResolvesTo(cfg, a, x) && ResolvesTo(cfg, b, y)
    ensures x.groups == y.groups
    ensures x.groups == [] <==> !Mapped(cfg, a.groups) && cfg.defaultTier == ""
  {
    var s :| IsTierOf(cfg, a.groups, s) && x.groups == TierGroups(s);
    var t :| IsTierOf(cfg, b.groups, t) && y.groups == TierGroups(t);
    TierDependsOnGroupSet(cfg, a.groups, b.groups, s, t);
  }

  // Audit admins.

  method AnyGroupIn(have: seq<string>, allowed: seq<string>) returns (r: bool)
    ensures r <==> exists g :: g in have && g in allowed
  {
    if |have| == 0 || |allowed| == 0 {
      return false;
    }
    var allowSet: set<string> := {};
    for i := 0 to |allowed|
      invariant forall g :: g in allowSet <==> g in allowed[..i]
    {
      allowSet := allowSet + {allowed[i]};
    }
    assert allowed[..|allowed|] == allowed;
    for i := 0 to |have|
      invariant forall g :: g in have[..i] ==> g !in allowed
    {
      if have[i] in allowSet {
        return true;
      }
    }
    assert have[..|have|] == have;
    return false;
  }

  /** An explicit list decides in every mode; without one, the admin tier in tier mode, the dashboard's
      own allowlist in shared mode, nobody in raw mode. */
  method IsAuditAdmin(cfg: Config, id: Identity) returns (r: bool)
    requires cfg.mode.Tier? ==> ValidTiers(cfg)
    ensures cfg.auditAdminGroups != [] ==> (r <==> exists g :: g in id.groups && g in cfg.auditAdminGroups)
    ensures cfg.auditAdminGroups == [] && cfg.mode.Tier? ==> (r <==> IsTierOf(cfg, id.groups, "admin"))
    ensures cfg.auditAdminGroups == [] && cfg.mode.Shared? ==>
              (r <==> exists g :: g in id.groups && g in cfg.allowedGroups)
    ensures cfg.auditAdminGroups == [] && cfg.mode.Raw? ==> !r
  {
    if |cfg.auditAdminGroups| > 0 {
      r := AnyGroupIn(id.groups, cfg.auditAdminGroups);
      return;
    }
    match cfg.mode
    case Tier =>
      var tier := TierForGroups(cfg, id.groups);
      r := tier == "admin";
      if IsTierOf(cfg, id.groups, "admin") {
        TierDependsOnGroupSet(cfg, id.groups, id.groups, tier, "admin");
      }
    case Shared =>
      if |cfg.allowedGroups| == 0 {
        return false;
      }
      r := AnyGroupIn(id.groups, cfg.allowedGroups);
    case Raw =>
      return false;
  }
}
