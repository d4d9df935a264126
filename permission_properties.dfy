/**
 What an application permission promises, proved about the model: the entries that
 construction produces, how repeated grants merge, what `Grants` decides in terms of
 the original grants, the privilege-matching rule's consequences, and the queries.
 */
module PermissionProperties {
  import opened Automata
  import opened ApplicationPermission

  // ---------------------------------------------------------------------------
  // Construction
  // ---------------------------------------------------------------------------

  /**
   The merged resource acceptor of a privilege accepts exactly the language of its
   merged resource names, whatever order and grouping the grants came in.
   */
  lemma {:induction false} GrantedLanguageIsPatterns(eng: PatternEngine, grants: seq<Grant>, p: Privilege)
    requires eng.Valid()
    ensures GrantedLanguage(eng, grants, p) == Patterns(eng.pattern, GrantedNames(grants, p))
  {
    if grants != [] {
      var init, last := grants[..|grants| - 1], grants[|grants| - 1];
      GrantedLanguageIsPatterns(eng, init, p);
      var added := if last.privilege == p then last.resourceNames else {};
      PatternsUnion(eng.pattern, GrantedNames(init, p), added);
      assert eng.patterns(last.resourceNames) == Patterns(eng.pattern, last.resourceNames);
      if last.privilege != p {
        assert Patterns(eng.pattern, added) == iset{};
      }
    }
  }

  /**
   Every entry of a built permission compiles its own application and accepts exactly
   the language of its resource names.
   */
  lemma BuiltEntriesWellFormed(eng: PatternEngine, grants: seq<Grant>, perm: Permission)
    requires eng.Valid() && Represents(eng, grants, perm)
    ensures forall e :: e in perm.entries ==>
              e.application == eng.pattern(e.privilege.application)
              && e.resourceLanguage == Patterns(eng.pattern, e.resourceNames)
  {
    forall e | e in perm.entries
      ensures e.resourceLanguage == Patterns(eng.pattern, e.resourceNames)
    {
      GrantedLanguageIsPatterns(eng, grants, e.privilege);
    }
  }

  /** Two permissions built from the same grants hold the same entries; only their order may differ. */
  lemma BuildDeterminesEntries(eng: PatternEngine, grants: seq<Grant>, p1: Permission, p2: Permission)
    requires Represents(eng, grants, p1) && Represents(eng, grants, p2)
    ensures forall e :: e in p1.entries <==> e in p2.entries
  {
  }

  /** Every granted privilege has exactly one entry. */
  lemma OneEntryPerPrivilege(eng: PatternEngine, grants: seq<Grant>, perm: Permission, g: Grant)
    requires Represents(eng, grants, perm) && g in grants
    ensures exists i :: 0 <= i < |perm.entries| && perm.entries[i].privilege == g.privilege
                        && forall j :: 0 <= j < |perm.entries| && j != i ==> perm.entries[j].privilege != g.privilege
  {
  }

  /** One further grant of `p` adds its names and language to p's merged entry and leaves the others as they were. */
  lemma GrantStep(eng: PatternEngine, grants: seq<Grant>, p: Privilege, names: set<string>, q: Privilege)
    ensures EntryFor(eng, grants + [Grant(p, names)], q)
            == if q == p then NewEntry(eng, p, GrantedNames(grants, p) + names, GrantedLanguage(eng, grants, p) + eng.patterns(names))
               else EntryFor(eng, grants, q)
    ensures Granted(grants + [Grant(p, names)], q) <==> q == p || Granted(grants, q)
  {
    var more := grants + [Grant(p, names)];
    assert more[..|grants|] == grants;
    assert Grant(p, names) in more;
    if Granted(more, q) && q != p {
      var g :| g in more && g.privilege == q;
      assert g in grants;
    }
    if Granted(grants, q) {
      var g :| g in grants && g.privilege == q;
      assert g in more;
    }
  }

  /** Each entry of a built permission is the merge of the grants of its privilege. */
  lemma EntryIsMerge(eng: PatternEngine, grants: seq<Grant>, perm: Permission, e: Entry)
    requires Represents(eng, grants, perm) && e in perm.entries
    ensures Granted(grants, e.privilege) && e == EntryFor(eng, grants, e.privilege)
  {
    var i :| 0 <= i < |perm.entries| && perm.entries[i] == e;
  }

  /** Every granted privilege has an entry in a built permission. */
  lemma EntryPresent(eng: PatternEngine, grants: seq<Grant>, perm: Permission, q: Privilege)
    requires Represents(eng, grants, perm) && Granted(grants, q)
    ensures exists e :: e in perm.entries && e.privilege == q
  {
    var g :| g in grants && g.privilege == q;
    var i :| 0 <= i < |perm.entries| && perm.entries[i].privilege == q;
    assert perm.entries[i] in perm.entries;
  }

  /** After one further grant of `p`, p's built entry holds the earlier merge widened by the new grant. */
  lemma WidenedEntry(eng: PatternEngine, grants: seq<Grant>, p: Privilege, names: set<string>, merged: Permission, e': Entry)
    requires Represents(eng, grants + [Grant(p, names)], merged) && e' in merged.entries && e'.privilege == p
    ensures e'.resourceNames == GrantedNames(grants, p) + names
    ensures e'.resourceLanguage == GrantedLanguage(eng, grants, p) + eng.patterns(names)
  {
    EntryIsMerge(eng, grants + [Grant(p, names)], merged, e');
    GrantStep(eng, grants, p, names, p);
  }

  /** After one further grant of `p`, the built permission has an entry for `p`. */
  lemma MergedEntryExists(eng: PatternEngine, grants: seq<Grant>, p: Privilege, names: set<string>, merged: Permission)
    requires Represents(eng, grants + [Grant(p, names)], merged)
    ensures exists e' :: e' in merged.entries && e'.privilege == p
  {
    assert Grant(p, names) in grants + [Grant(p, names)];
    EntryPresent(eng, grants + [Grant(p, names)], merged, p);
  }

  /** An existing entry for `p` is widened by exactly the new names and their language. */
  lemma MergeWidensEntry(eng: PatternEngine, grants: seq<Grant>, p: Privilege, names: set<string>, perm: Permission, merged: Permission)
    requires Represents(eng, grants, perm) && Represents(eng, grants + [Grant(p, names)], merged)
    ensures forall e', e :: e' in merged.entries && e in perm.entries && e'.privilege == p && e.privilege == p ==>
              e'.resourceNames == e.resourceNames + names && e'.resourceLanguage == e.resourceLanguage + eng.patterns(names)
  {
    forall e', e | e' in merged.entries && e in perm.entries && e'.privilege == p && e.privilege == p
      ensures e'.resourceNames == e.resourceNames + names && e'.resourceLanguage == e.resourceLanguage + eng.patterns(names)
    {
      WidenedEntry(eng, grants, p, names, merged, e');
      EntryIsMerge(eng, grants, perm, e);
    }
  }

  /** When `p` had no entry, its new entry holds just the new names and their language. */
  lemma MergeCreatesEntry(eng: PatternEngine, grants: seq<Grant>, p: Privilege, names: set<string>, perm: Permission, merged: Permission)
    requires Represents(eng, grants, perm) && Represents(eng, grants + [Grant(p, names)], merged)
    requires forall e :: e in perm.entries ==> e.privilege != p
    ensures forall e' :: e' in merged.entries && e'.privilege == p ==>
              e'.resourceNames == names && e'.resourceLanguage == eng.patterns(names)
  {
    if Granted(grants, p) {
      EntryPresent(eng, grants, perm, p);
    }
    forall e' | e' in merged.entries && e'.privilege == p
      ensures e'.resourceNames == names && e'.resourceLanguage == eng.patterns(names)
    {
      WidenedEntry(eng, grants, p, names, merged, e');
    }
  }

  /**
   Building with one further grant of `p` widens p's entry by exactly the new names and
   their compiled language, and creates it from them alone when `p` had no entry.
   */
  lemma MergeAddsNames(eng: PatternEngine, grants: seq<Grant>, p: Privilege, names: set<string>, perm: Permission, merged: Permission)
    requires Represents(eng, grants, perm) && Represents(eng, grants + [Grant(p, names)], merged)
    ensures exists e' :: e' in merged.entries && e'.privilege == p
    ensures forall e', e :: e' in merged.entries && e in perm.entries && e'.privilege == p && e.privilege == p ==>
              e'.resourceNames == e.resourceNames + names && e'.resourceLanguage == e.resourceLanguage + eng.patterns(names)
    ensures (forall e :: e in perm.entries ==> e.privilege != p) ==>
              forall e' :: e' in merged.entries && e'.privilege == p ==>
                e'.resourceNames == names && e'.resourceLanguage == eng.patterns(names)
  {
    MergedEntryExists(eng, grants, p, names, merged);
    MergeWidensEntry(eng, grants, p, names, perm, merged);
    if forall e :: e in perm.entries ==> e.privilege != p {
      MergeCreatesEntry(eng, grants, p, names, perm, merged);
    }
  }

  /** Building with one further grant of `p` leaves every other privilege's entry as it was. */
  lemma MergeKeepsOthers(eng: PatternEngine, grants: seq<Grant>, p: Privilege, names: set<string>, perm: Permission, merged: Permission)
    requires Represents(eng, grants, perm) && Represents(eng, grants + [Grant(p, names)], merged)
    ensures forall e :: e in perm.entries && e.privilege != p ==> e in merged.entries
    ensures forall e' :: e' in merged.entries && e'.privilege != p ==> e' in perm.entries
  {
    var more := grants + [Grant(p, names)];
    forall e | e in perm.entries && e.privilege != p ensures e in merged.entries {
      EntryIsMerge(eng, grants, perm, e);
      GrantStep(eng, grants, p, names, e.privilege);
      EntryPresent(eng, more, merged, e.privilege);
      var e' :| e' in merged.entries && e'.privilege == e.privilege;
      EntryIsMerge(eng, more, merged, e');
    }
    forall e' | e' in merged.entries && e'.privilege != p ensures e' in perm.entries {
      EntryIsMerge(eng, more, merged, e');
      GrantStep(eng, grants, p, names, e'.privilege);
      EntryPresent(eng, grants, perm, e'.privilege);
      var e :| e in perm.entries && e.privilege == e'.privilege;
      EntryIsMerge(eng, grants, perm, e);
    }
  }

  /** Repeating a grant that was already made changes nothing: the same permissions represent both lists. */
  lemma RepeatedGrantIdempotent(eng: PatternEngine, grants: seq<Grant>, g: Grant, perm: Permission)
    requires g in grants
    ensures Represents(eng, grants + [g], perm) <==> Represents(eng, grants, perm)
  {
    var more := grants + [g];
    assert more[..|grants|] == grants;
    forall q ensures EntryFor(eng, more, q) == EntryFor(eng, grants, q) && (Granted(more, q) <==> Granted(grants, q)) {
      if q == g.privilege {
        assert g.resourceNames <= GrantedNames(grants, q);
        assert eng.patterns(g.resourceNames) <= GrantedLanguage(eng, grants, q);
      }
    }
  }

  /** Building from nothing gives the permission that grants nothing. */
  lemma BuildOfNothingIsNone(eng: PatternEngine, perm: Permission)
    requires Represents(eng, [], perm)
    ensures perm == NONE
  {
    LeadingMembers(perm.entries);
  }

  /** The first elements of a sequence are among its members. */
  lemma LeadingMembers<T>(s: seq<T>)
    ensures |s| > 0 ==> s[0] in s
    ensures |s| > 1 ==> s[1] in s
  {
  }

  // ---------------------------------------------------------------------------
  // Privilege matching
  // ---------------------------------------------------------------------------

  /** Once the entry's application pattern accepts it, narrowing other's actions to a non-empty subset keeps a match. */
  lemma MatchesNarrowing(e: Entry, other: Privilege, narrower: Privilege)
    requires MatchesPrivilege(e, other) && other.application in e.application
    requires narrower.application == other.application
    requires !IsEmpty(narrower.actions) && narrower.actions <= other.actions
    ensures MatchesPrivilege(e, narrower)
  {
  }

  /** Unless the entry is total, a privilege with an action the entry lacks matches only if it is the entry's own. */
  lemma MatchesWidening(e: Entry, other: Privilege, action: string)
    requires !IsTotal(e.privilege.actions) && other != e.privilege
    requires action in other.actions && action !in e.privilege.actions
    ensures !MatchesPrivilege(e, other)
  {
  }

  /** A privilege with no actions matches a different entry only through application match plus a total entry. */
  lemma MatchesEmptyActions(e: Entry, other: Privilege)
    requires IsEmpty(other.actions) && other != e.privilege
    ensures MatchesPrivilege(e, other) <==> other.application in e.application && IsTotal(e.privilege.actions)
  {
  }

  // ---------------------------------------------------------------------------
  // Authorisation
  // ---------------------------------------------------------------------------

  /**
   A built permission grants `other` on `resource` iff the merged entry of some granted
   privilege does: the decision depends on the grants, not on the entries' order.
   */
  lemma GrantsFromGrantList(eng: PatternEngine, grants: seq<Grant>, perm: Permission, other: Privilege, resource: string)
    requires Represents(eng, grants, perm)
    ensures Grants(eng, perm, other, resource)
            <==> exists g :: g in grants && EntryGrants(EntryFor(eng, grants, g.privilege), other, eng.pattern(resource))
  {
  }

  /**
   A granted privilege is granted on every resource its own patterns cover, even when
   it authorises no action at all.
   */
  lemma GrantsOwnPrivilege(eng: PatternEngine, grants: seq<Grant>, perm: Permission, g: Grant, resource: string)
    requires eng.Valid() && Represents(eng, grants, perm) && g in grants
    requires eng.pattern(resource) <= Patterns(eng.pattern, g.resourceNames)
    ensures Grants(eng, perm, g.privilege, resource)
  {
  }

  /**
   A granted privilege with a total action language grants every privilege whose
   application its pattern accepts, on every resource its merged patterns cover.
   */
  lemma GrantsUnderTotalPrivilege(eng: PatternEngine, grants: seq<Grant>, perm: Permission, g: Grant, other: Privilege, resource: string)
    requires Represents(eng, grants, perm) && g in grants
    requires IsTotal(g.privilege.actions) && other.application in eng.pattern(g.privilege.application)
    requires eng.pattern(resource) <= GrantedLanguage(eng, grants, g.privilege)
    ensures Grants(eng, perm, other, resource)
  {
  }

  /**
   A built permission grants nothing to a privilege that is not itself granted unless
   some granted privilege's application pattern accepts its application.
   */
  lemma GrantsNeedApplicationMatch(eng: PatternEngine, grants: seq<Grant>, perm: Permission, other: Privilege, resource: string)
    requires Represents(eng, grants, perm)
    requires Grants(eng, perm, other, resource)
    ensures exists g :: g in grants && (g.privilege == other || other.application in eng.pattern(g.privilege.application))
  {
  }

  /** What is granted on a resource pattern is granted on any pattern it covers. */
  lemma GrantsNarrowerResource(eng: PatternEngine, perm: Permission, other: Privilege, resource: string, narrower: string)
    requires Grants(eng, perm, other, resource)
    requires eng.pattern(narrower) <= eng.pattern(resource)
    ensures Grants(eng, perm, other, narrower)
  {
  }

  /** The permission that grants nothing grants nothing and reports nothing. */
  lemma NoneIsEmpty(eng: PatternEngine, other: Privilege, resource: string, application: string)
    ensures !Grants(eng, NONE, other, resource)
    ensures ApplicationNames(NONE) == {}
    ensures Privileges(NONE, application) == {}
    ensures ResourcePatterns(NONE, other) == {}
  {
  }

  // ---------------------------------------------------------------------------
  // Queries
  // ---------------------------------------------------------------------------

  /** The application names of a built permission are those of the granted privileges. */
  lemma ApplicationNamesOfGrants(eng: PatternEngine, grants: seq<Grant>, perm: Permission)
    requires Represents(eng, grants, perm)
    ensures ApplicationNames(perm) == set g | g in grants :: g.privilege.application
  {
  }

  /** The privileges a built permission reports for an application are the granted ones with that exact application. */
  lemma PrivilegesOfGrants(eng: PatternEngine, grants: seq<Grant>, perm: Permission, application: string)
    requires Represents(eng, grants, perm)
    ensures Privileges(perm, application) == set g | g in grants && g.privilege.application == application :: g.privilege
  {
  }

  /**
   The resource patterns a built permission reports for a privilege are every name
   granted with any privilege whose merged entry covers it.
   */
  lemma ResourcePatternsOfGrants(eng: PatternEngine, grants: seq<Grant>, perm: Permission, privilege: Privilege)
    requires Represents(eng, grants, perm)
    ensures ResourcePatterns(perm, privilege)
            == set g, n | g in grants && MatchesPrivilege(EntryFor(eng, grants, g.privilege), privilege) && n in g.resourceNames :: n
  {
  }

  /**
   The reported resource patterns cover every resource the privilege is granted on:
   they are a sound, possibly redundant, summary of `Grants`.
   */
  lemma ResourcePatternsCoverGrants(eng: PatternEngine, grants: seq<Grant>, perm: Permission, other: Privilege, resource: string)
    requires eng.Valid() && Represents(eng, grants, perm)
    requires Grants(eng, perm, other, resource)
    ensures eng.pattern(resource) <= Patterns(eng.pattern, ResourcePatterns(perm, other))
  {
    var e :| e in perm.entries && MatchesPrivilege(e, other) && eng.pattern(resource) <= e.resourceLanguage;
    BuiltEntriesWellFormed(eng, grants, perm);
    PatternsMonotone(eng.pattern, e.resourceNames, ResourcePatterns(perm, other));
  }

  // ---------------------------------------------------------------------------
  // Worked examples
  // ---------------------------------------------------------------------------

  /** Granting one privilege twice, on a pattern for the a/ tree and then on one for the b/ tree, yields a single entry holding both patterns. */
  lemma MergeExample(eng: PatternEngine, p: Privilege, perm: Permission)
    requires Represents(eng, [Grant(p, {"a/*"}), Grant(p, {"b/*"})], perm)
    ensures |perm.entries| == 1
    ensures perm.entries[0].privilege == p
    ensures perm.entries[0].resourceNames == {"a/*", "b/*"}
    ensures ResourcePatterns(perm, p) == {"a/*", "b/*"}
  {
    var grants := [Grant(p, {"a/*"}), Grant(p, {"b/*"})];
    var i :| 0 <= i < |perm.entries| && perm.entries[i].privilege == p;
    forall j | 0 <= j < |perm.entries| ensures perm.entries[j].privilege == p {
      assert Granted(grants, perm.entries[j].privilege);
    }
    assert grants[..1] == [Grant(p, {"a/*"})];
    assert GrantedNames(grants, p) == {"a/*", "b/*"};
    LeadingMembers(perm.entries);
  }

  /**
   In the same permission, the privilege is granted on a resource exactly when the
   resource's pattern lies within the union of the two granted patterns.
   */
  lemma MergeExampleGrants(eng: PatternEngine, p: Privilege, perm: Permission, resource: string)
    requires eng.Valid()
    requires Represents(eng, [Grant(p, {"a/*"}), Grant(p, {"b/*"})], perm)
    ensures Grants(eng, perm, p, resource) <==> eng.pattern(resource) <= eng.pattern("a/*") + eng.pattern("b/*")
  {
    var grants := [Grant(p, {"a/*"}), Grant(p, {"b/*"})];
    MergeExample(eng, p, perm);
    BuiltEntriesWellFormed(eng, grants, perm);
    var e := perm.entries[0];
    assert e in perm.entries;
    PatternsOfTwo(eng.pattern, "a/*", "b/*");
    assert e.resourceLanguage == eng.pattern("a/*") + eng.pattern("b/*");
    GrantsSingleEntry(eng, perm, p, resource);
  }

  /** A permission with one entry that matches the privilege grants it exactly on that entry's resources. */
  lemma GrantsSingleEntry(eng: PatternEngine, perm: Permission, other: Privilege, resource: string)
    requires |perm.entries| == 1 && MatchesPrivilege(perm.entries[0], other)
    ensures Grants(eng, perm, other, resource) <==> eng.pattern(resource) <= perm.entries[0].resourceLanguage
  {
  }

  /**
   With "read" on the user/ tree and a total "all" on user/kimchy and the config/ tree,
   in one application whose pattern accepts itself, the patterns reported for "read"
   include those inherited from "all".
   */
  lemma InheritedPatternsExample(eng: PatternEngine, read: Privilege, all: Privilege, perm: Permission)
    requires read.application == all.application && read != all
    requires all.application in eng.pattern(all.application)
    requires IsTotal(all.actions) && !IsTotal(read.actions)
    requires Represents(eng, [Grant(read, {"user/*"}), Grant(all, {"user/kimchy", "config/*"})], perm)
    ensures ResourcePatterns(perm, read) == {"user/*", "user/kimchy", "config/*"}
  {
  }

}
