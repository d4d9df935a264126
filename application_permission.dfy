/**
 A permission for the capabilities of external applications: a set of entries, one per
 distinct application privilege, each carrying every resource pattern that was
 granted with that privilege. `Build` folds raw (privilege, resources) grants into
 such a permission; `Grants` decides whether it covers a requested privilege on a
 resource; the remaining functions are read-only projections over the entries.
 */
module ApplicationPermission {
  import opened Automata

  /**
   An application privilege, treated as an opaque value compared structurally: its
   name (such as "read" or "all"), the application it belongs to (read by entries as a
   wildcard pattern) and the language of action names it authorises.
   */
  datatype Privilege = Privilege(name: string, application: string, actions: Language)

  /** One element of the constructor's input: a privilege and the resource patterns it applies to. */
  datatype Grant = Grant(privilege: Privilege, resourceNames: set<string>)

  /**
   A permission entry: the privilege, the compiled predicate for its application
   pattern (kept as the language it accepts), every resource pattern granted with the
   privilege, and the compiled acceptor for those patterns.
   */
  datatype Entry = Entry(privilege: Privilege, application: Language, resourceNames: set<string>, resourceLanguage: Language)

  /** The permission itself: its entries, in no meaningful order. */
  datatype Permission = Permission(entries: seq<Entry>)

  /** The permission that grants nothing. */
  const NONE: Permission := Permission([])

  /** No two entries hold equal privileges. */
  ghost predicate UniquePrivileges(entries: seq<Entry>) {
    forall i, j :: 0 <= i < |entries| && 0 <= j < |entries| && i != j ==> entries[i].privilege != entries[j].privilege
  }

  /** The entry constructor: it compiles the privilege's application into a predicate. */
  function NewEntry(eng: PatternEngine, privilege: Privilege, resourceNames: set<string>, resourceLanguage: Language): (r: Entry)
    ensures r.privilege == privilege && r.resourceNames == resourceNames && r.resourceLanguage == resourceLanguage
    ensures r.application == eng.pattern(r.privilege.application)
  {
    Entry(privilege, eng.pattern(privilege.application), resourceNames, resourceLanguage)
  }

  // ---------------------------------------------------------------------------
  // What construction must produce
  // ---------------------------------------------------------------------------

  /** True iff some grant names privilege `p`. */
  ghost predicate Granted(grants: seq<Grant>, p: Privilege) {
    exists g :: g in grants && g.privilege == p
  }

  /** Every resource name granted together with `p`, in any of the grants. */
  function GrantedNames(grants: seq<Grant>, p: Privilege): (r: set<string>)
    ensures !Granted(grants, p) ==> r == {}
    ensures forall n :: n in r <==> exists g :: g in grants && g.privilege == p && n in g.resourceNames
  {
    if grants == [] then {}
    else
      var last := grants[|grants| - 1];
      GrantedNames(grants[..|grants| - 1], p) + (if last.privilege == p then last.resourceNames else {})
  }

  /** The resource acceptor the merges build for `p`: the union of every compiled name set granted with `p`. */
  function GrantedLanguage(eng: PatternEngine, grants: seq<Grant>, p: Privilege): (r: Language)
    ensures !Granted(grants, p) ==> r == iset{}
    ensures forall g :: g in grants && g.privilege == p ==> eng.patterns(g.resourceNames) <= r
    ensures forall s :: s in r ==> exists g :: g in grants && g.privilege == p && s in eng.patterns(g.resourceNames)
  {
    if grants == [] then iset{}
    else
      var last := grants[|grants| - 1];
      GrantedLanguage(eng, grants[..|grants| - 1], p) + (if last.privilege == p then eng.patterns(last.resourceNames) else iset{})
  }

  /** The single merged entry that the grants produce for `p`. */
  function EntryFor(eng: PatternEngine, grants: seq<Grant>, p: Privilege): Entry {
    NewEntry(eng, p, GrantedNames(grants, p), GrantedLanguage(eng, grants, p))
  }

  /**
   `perm` is a permission built from `grants`: one entry per granted privilege and no
   other, each holding the merge of everything granted with its privilege.
   */
  ghost predicate Represents(eng: PatternEngine, grants: seq<Grant>, perm: Permission) {
    && UniquePrivileges(perm.entries)
    && (forall i :: 0 <= i < |perm.entries| ==>
          Granted(grants, perm.entries[i].privilege) && perm.entries[i] == EntryFor(eng, grants, perm.entries[i].privilege))
    && (forall g :: g in grants ==> exists i :: 0 <= i < |perm.entries| && perm.entries[i].privilege == g.privilege)
  }

  // ---------------------------------------------------------------------------
  // Construction
  // ---------------------------------------------------------------------------

  /**
   Folds the grants into a privilege-keyed map, merging an entry whenever its privilege
   is granted again, and returns the map's entries.
   */
  method Build(eng: PatternEngine, grants: seq<Grant>) returns (perm: Permission)
    ensures Represents(eng, grants, perm)
  {
    var byPrivilege: map<Privilege, Entry> := map[];
    for i := 0 to |grants|
      invariant forall p :: p in byPrivilege <==> Granted(grants[..i], p)
      invariant forall p :: p in byPrivilege ==> byPrivilege[p] == EntryFor(eng, grants[..i], p)
    {
      assert grants[..i + 1][..i] == grants[..i];
      var privilege, resourceNames := grants[i].privilege, grants[i].resourceNames;
      var patterns := eng.patterns(resourceNames);
      if privilege !in byPrivilege {
        byPrivilege := byPrivilege[privilege := NewEntry(eng, privilege, resourceNames, patterns)];
      } else {
        var existing := byPrivilege[privilege];
        byPrivilege := byPrivilege[privilege := NewEntry(eng, privilege, existing.resourceNames + resourceNames,
                                                         existing.resourceLanguage + patterns)];
      }
      forall p | Granted(grants[..i + 1], p) ensures p in byPrivilege {
        var g :| g in grants[..i + 1] && g.privilege == p;
        if g != grants[i] {
          assert g in grants[..i];
        }
      }
    }
    assert grants[..|grants|] == grants;
    var entries := EntriesOf(byPrivilege);
    perm := Permission(entries);
    forall g | g in grants ensures g.privilege in byPrivilege {
      assert Granted(grants, g.privilege);
    }
  }

  /** The values of a privilege-keyed map of entries as a list, each key's entry exactly once. */
  method EntriesOf(m: map<Privilege, Entry>) returns (entries: seq<Entry>)
    requires forall p :: p in m ==> m[p].privilege == p
    ensures UniquePrivileges(entries)
    ensures forall i :: 0 <= i < |entries| ==> entries[i].privilege in m && entries[i] == m[entries[i].privilege]
    ensures forall p :: p in m ==> exists i :: 0 <= i < |entries| && entries[i].privilege == p
  {
    entries := [];
    var rest := m.Keys;
    while rest != {}
      invariant rest <= m.Keys
      invariant UniquePrivileges(entries)
      invariant forall i :: 0 <= i < |entries| ==> entries[i].privilege in m && entries[i].privilege !in rest && entries[i] == m[entries[i].privilege]
      invariant forall p :: p in m && p !in rest ==> exists i :: 0 <= i < |entries| && entries[i].privilege == p
      decreases rest
    {
      var p :| p in rest;
      ghost var before := entries;
      entries := entries + [m[p]];
      rest := rest - {p};
      forall q | q in m && q !in rest ensures exists i :: 0 <= i < |entries| && entries[i].privilege == q {
        if q == p {
          assert entries[|entries| - 1].privilege == q;
        } else {
          var i :| 0 <= i < |before| && before[i].privilege == q;
          assert entries[i].privilege == q;
        }
      }
    }
  }

  // ---------------------------------------------------------------------------
  // Authorisation
  // ---------------------------------------------------------------------------

  /**
   Whether the entry's privilege covers `other`: an equal privilege always does;
   otherwise the entry's application pattern must accept other's application, and then
   a total action language covers everything, while any other language covers exactly
   the non-empty action languages it contains.
   */
  ghost function MatchesPrivilege(e: Entry, other: Privilege): (r: bool)
    ensures r <==> other == e.privilege
                   || (other.application in e.application
                       && (IsTotal(e.privilege.actions) || (!IsEmpty(other.actions) && other.actions <= e.privilege.actions)))
  {
    if e.privilege == other then true
    else if other.application !in e.application then false
    else if IsTotal(e.privilege.actions) then true
    else !IsEmpty(e.privilege.actions) && !IsEmpty(other.actions) && other.actions <= e.privilege.actions
  }

  /** Whether the entry grants `other` on every resource the compiled `resource` accepts. */
  ghost function EntryGrants(e: Entry, other: Privilege, resource: Language): (r: bool)
    ensures r ==> other == e.privilege || other.application in e.application
    ensures r ==> forall s :: s in resource ==> s in e.resourceLanguage
    ensures other == e.privilege ==> (r <==> resource <= e.resourceLanguage)
  {
    MatchesPrivilege(e, other) && resource <= e.resourceLanguage
  }

  /** Whether any of the entries grants `other` on `resource`. */
  ghost function AnyEntryGrants(entries: seq<Entry>, other: Privilege, resource: Language): (r: bool)
    ensures r <==> exists i :: 0 <= i < |entries| && EntryGrants(entries[i], other, resource)
  {
    if entries == [] then false
    else EntryGrants(entries[0], other, resource) || AnyEntryGrants(entries[1..], other, resource)
  }

  /** Whether the permission grants `other` on the resource named by the pattern `resource`. */
  ghost function Grants(eng: PatternEngine, perm: Permission, other: Privilege, resource: string): (r: bool)
    ensures r <==> exists e :: e in perm.entries && MatchesPrivilege(e, other) && eng.pattern(resource) <= e.resourceLanguage
  {
    AnyEntryGrants(perm.entries, other, eng.pattern(resource))
  }

  // ---------------------------------------------------------------------------
  // Queries
  // ---------------------------------------------------------------------------

  /** The application of every entry's privilege, exactly as granted. */
  function ApplicationNames(perm: Permission): (r: set<string>)
    ensures forall a :: a in r <==> exists i :: 0 <= i < |perm.entries| && perm.entries[i].privilege.application == a
  {
    set e | e in perm.entries :: e.privilege.application
  }

  /** The privileges of the entries whose application equals `application` as a string. */
  function Privileges(perm: Permission, application: string): (r: set<Privilege>)
    ensures forall p :: p in r <==> p.application == application && exists i :: 0 <= i < |perm.entries| && perm.entries[i].privilege == p
  {
    set e | e in perm.entries && e.privilege.application == application :: e.privilege
  }

  /** Every resource pattern of every entry whose privilege covers `privilege`. */
  ghost function ResourcePatterns(perm: Permission, privilege: Privilege): (r: set<string>)
    ensures forall e :: e in perm.entries && MatchesPrivilege(e, privilege) ==> e.resourceNames <= r
    ensures forall n :: n in r ==> exists e :: e in perm.entries && MatchesPrivilege(e, privilege) && n in e.resourceNames
  {
    set e, n | e in perm.entries && MatchesPrivilege(e, privilege) && n in e.resourceNames :: n
  }
}
