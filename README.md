# Application permissions: a verified model

This project models the permission-matching engine behind application privileges
(`ApplicationPermission` and its inner `PermissionEntry`). Applications here are
external capability namespaces, as opposed to the cluster's own resources. A permission
is built once from a list of (privilege, resource-pattern set) grants and then answers
four questions:

- does it grant a requested privilege on a resource (`grants`);
- which applications it mentions (`getApplicationNames`);
- which privileges it holds for an application (`getPrivileges`);
- which resource patterns apply to a privilege (`getResourcePatterns`).

Three modules:

- `Automata` (`automata.dfy`) is the wildcard-pattern library, seen only through
  languages. A language is an `iset<string>`. Compiling patterns is a parameter,
  `PatternEngine`. The library's contract is `PatternEngine.Valid()`: compiling a set of
  patterns accepts exactly the union of the patterns' languages. Union-and-minimise is set
  union, `subsetOf` is `<=`, `isEmpty` is `== iset{}`, and `isTotal` means every string
  is accepted.
- `ApplicationPermission` (`application_permission.dfy`) holds the data model and the
  operations:
  - `Privilege` is a (name, application, action language) value with structural equality.
  - `Entry` is a privilege, its compiled application predicate (kept as a language), its
    resource names and its resource language.
  - `Permission` is a sequence of entries.
  - The constructor is the method `Build`. It loops over the grants and updates a local
    privilege-keyed `map`, as the source updates its `HashMap` with `compute`. It then
    lists the map's values with `EntriesOf`. `Build` is proved against the specification
    predicate `Represents`: one entry per granted privilege and no other, each entry the
    merge of everything granted with its privilege.
  - Matching, `grants` and the three queries are functions.
- `PermissionProperties` (`permission_properties.dfy`) holds the lemmas. They cover
  construction, merging, the privilege-matching rule, authorisation and the queries. A
  few worked examples restate the source's doc-comment example and typical grant lists.

`MatchesPrivilege`, `EntryGrants`, `AnyEntryGrants`, `Grants` and `ResourcePatterns` are ghost. Totality quantifies over
every string, and Dafny cannot compute that. `Build`, `EntriesOf`, `ApplicationNames`
and `Privileges` are compiled.

Two points worth stating about construction:

- Entry order: the constructor lists the values of a `HashMap`
  (ApplicationPermission.java line 55), so order is unspecified. `EntriesOf` may list
  entries in any order, and `BuildDeterminesEntries` shows that order is the only freedom.
- An empty application name is accepted; neither the code nor the model requires a
  non-empty one.

## Model

| member | source | states |
|---|---|---|
| `Automata.PatternsUnion` | x-pack/plugin/core/src/main/java/org/elasticsearch/xpack/core/security/authz/permission/ApplicationPermission.java:51-52 | unioning the acceptors of two name sets accepts exactly the language of the union of the names |
| `ApplicationPermission.NewEntry` | x-pack/plugin/core/src/main/java/org/elasticsearch/xpack/core/security/authz/permission/ApplicationPermission.java:129-134 | an entry keeps its privilege, names and acceptor as given and compiles its application into a pattern (every built entry is one: `BuiltEntriesWellFormed`) |
| `ApplicationPermission.GrantedNames` | x-pack/plugin/core/src/main/java/org/elasticsearch/xpack/core/security/authz/permission/ApplicationPermission.java:45-53 | the names merged for a privilege are exactly the names of every grant of that privilege, and empty if it is never granted |
| `ApplicationPermission.GrantedLanguage` | x-pack/plugin/core/src/main/java/org/elasticsearch/xpack/core/security/authz/permission/ApplicationPermission.java:45-53 | the merged resource acceptor accepts exactly the strings some grant of the privilege accepts (the union of their compiled names), and is empty if it is never granted |
| `ApplicationPermission.Build` | x-pack/plugin/core/src/main/java/org/elasticsearch/xpack/core/security/authz/permission/ApplicationPermission.java:42-56 | the constructor yields one entry per distinct granted privilege and no other; each entry holds its privilege's compiled application and the merge of all its grants' names and languages |
| `ApplicationPermission.EntriesOf` | x-pack/plugin/core/src/main/java/org/elasticsearch/xpack/core/security/authz/permission/ApplicationPermission.java:55 | listing the map's values gives each key's entry exactly once, with no two entries sharing a privilege |
| `ApplicationPermission.MatchesPrivilege` | x-pack/plugin/core/src/main/java/org/elasticsearch/xpack/core/security/authz/permission/ApplicationPermission.java:140-153 | an entry matches `other` iff `other` is its own privilege, or its application pattern accepts other's application and its actions are total or contain other's non-empty actions; the separate emptiness test of the entry's own actions is redundant |
| `ApplicationPermission.EntryGrants` | x-pack/plugin/core/src/main/java/org/elasticsearch/xpack/core/security/authz/permission/ApplicationPermission.java:136-138 | an entry grants only when `other` is its privilege or its application pattern accepts other's application, and only on resources inside its resource language; for its own privilege it grants exactly on those resources |
| `ApplicationPermission.AnyEntryGrants` | x-pack/plugin/core/src/main/java/org/elasticsearch/xpack/core/security/authz/permission/ApplicationPermission.java:81 | the any-match over the entries holds iff some entry grants |
| `ApplicationPermission.Grants` | x-pack/plugin/core/src/main/java/org/elasticsearch/xpack/core/security/authz/permission/ApplicationPermission.java:79-84 | the permission grants iff some entry matches the privilege and its resource language contains the compiled resource |
| `ApplicationPermission.ApplicationNames` | x-pack/plugin/core/src/main/java/org/elasticsearch/xpack/core/security/authz/permission/ApplicationPermission.java:91-95 | an application is reported iff some entry's privilege has it |
| `ApplicationPermission.Privileges` | x-pack/plugin/core/src/main/java/org/elasticsearch/xpack/core/security/authz/permission/ApplicationPermission.java:97-102 | a privilege is reported iff some entry holds it and its application equals the argument as a string |
| `ApplicationPermission.ResourcePatterns` | x-pack/plugin/core/src/main/java/org/elasticsearch/xpack/core/security/authz/permission/ApplicationPermission.java:115-121 | the result contains all names of every matching entry, and every name in it comes from a matching entry |
| `PermissionProperties.GrantedLanguageIsPatterns` | x-pack/plugin/core/src/main/java/org/elasticsearch/xpack/core/security/authz/permission/ApplicationPermission.java:45-53 | with a valid pattern library, the merged resource acceptor accepts exactly the language of the merged names, whatever the order and grouping of the grants |
| `PermissionProperties.BuiltEntriesWellFormed` | x-pack/plugin/core/src/main/java/org/elasticsearch/xpack/core/security/authz/permission/ApplicationPermission.java:129-134 | every built entry's application predicate compiles its own application, and its resource acceptor accepts exactly the language of its names |
| `PermissionProperties.BuildDeterminesEntries` | x-pack/plugin/core/src/main/java/org/elasticsearch/xpack/core/security/authz/permission/ApplicationPermission.java:44-55 | two permissions built from the same grants hold the same entries; only the order differs |
| `PermissionProperties.OneEntryPerPrivilege` | x-pack/plugin/core/src/main/java/org/elasticsearch/xpack/core/security/authz/permission/ApplicationPermission.java:44-55 | every granted privilege has exactly one entry |
| `PermissionProperties.MergeAddsNames` | x-pack/plugin/core/src/main/java/org/elasticsearch/xpack/core/security/authz/permission/ApplicationPermission.java:50-53 | for permissions built from a grant list and from that list plus one grant of `p`: the second has an entry for `p`, wider than the first's by exactly the new names and their compiled language, or made of just those when the first had no entry for `p` |
| `PermissionProperties.MergeKeepsOthers` | x-pack/plugin/core/src/main/java/org/elasticsearch/xpack/core/security/authz/permission/ApplicationPermission.java:45 | for the same two built permissions: every entry of a privilege other than `p` is in both or in neither |
| `PermissionProperties.RepeatedGrantIdempotent` | x-pack/plugin/core/src/main/java/org/elasticsearch/xpack/core/security/authz/permission/ApplicationPermission.java:45-53 | appending a grant already in the list changes nothing: exactly the same permissions represent both lists |
| `PermissionProperties.BuildOfNothingIsNone` | x-pack/plugin/core/src/main/java/org/elasticsearch/xpack/core/security/authz/permission/ApplicationPermission.java:32 | building from an empty list yields the empty permission `NONE` |
| `PermissionProperties.NoneIsEmpty` | x-pack/plugin/core/src/main/java/org/elasticsearch/xpack/core/security/authz/permission/ApplicationPermission.java:32 | `NONE` grants nothing and reports no applications, privileges or resource patterns |
| `PermissionProperties.MatchesNarrowing` | x-pack/plugin/core/src/main/java/org/elasticsearch/xpack/core/security/authz/permission/ApplicationPermission.java:150-152 | once the application pattern accepts it, narrowing a matched privilege's actions to a non-empty subset keeps the match |
| `PermissionProperties.MatchesWidening` | x-pack/plugin/core/src/main/java/org/elasticsearch/xpack/core/security/authz/permission/ApplicationPermission.java:147-152 | unless the entry's actions are total, a different privilege with an action outside them never matches |
| `PermissionProperties.MatchesEmptyActions` | x-pack/plugin/core/src/main/java/org/elasticsearch/xpack/core/security/authz/permission/ApplicationPermission.java:144-152 | a different privilege with no actions matches iff the application pattern accepts it and the entry's actions are total |
| `PermissionProperties.GrantsFromGrantList` | x-pack/plugin/core/src/main/java/org/elasticsearch/xpack/core/security/authz/permission/ApplicationPermission.java:79-84 | a built permission grants iff the merged entry of some granted privilege grants, so the answer depends on the grants and not on entry order |
| `PermissionProperties.GrantsOwnPrivilege` | x-pack/plugin/core/src/main/java/org/elasticsearch/xpack/core/security/authz/permission/ApplicationPermission.java:141-143 | a granted privilege is granted on every resource its own patterns cover, even when its action language is empty |
| `PermissionProperties.GrantsUnderTotalPrivilege` | x-pack/plugin/core/src/main/java/org/elasticsearch/xpack/core/security/authz/permission/ApplicationPermission.java:147-149 | a granted privilege with total actions grants any privilege whose application its pattern accepts, whatever that privilege's actions, on every resource its merged patterns cover |
| `PermissionProperties.GrantsNeedApplicationMatch` | x-pack/plugin/core/src/main/java/org/elasticsearch/xpack/core/security/authz/permission/ApplicationPermission.java:144-146 | a privilege is granted only if it was granted itself or some granted privilege's application pattern accepts its application |
| `PermissionProperties.GrantsNarrowerResource` | x-pack/plugin/core/src/main/java/org/elasticsearch/xpack/core/security/authz/permission/ApplicationPermission.java:136-138 | what is granted on a resource pattern is granted on every pattern whose language it contains |
| `PermissionProperties.ApplicationNamesOfGrants` | x-pack/plugin/core/src/main/java/org/elasticsearch/xpack/core/security/authz/permission/ApplicationPermission.java:91-95 | a built permission's application names are exactly the applications of the granted privileges |
| `PermissionProperties.PrivilegesOfGrants` | x-pack/plugin/core/src/main/java/org/elasticsearch/xpack/core/security/authz/permission/ApplicationPermission.java:97-102 | the privileges reported for an application are exactly the granted privileges whose application string equals it |
| `PermissionProperties.ResourcePatternsOfGrants` | x-pack/plugin/core/src/main/java/org/elasticsearch/xpack/core/security/authz/permission/ApplicationPermission.java:115-121 | the reported patterns are exactly the names granted with any privilege whose merged entry matches the argument, including broader privileges |
| `PermissionProperties.ResourcePatternsCoverGrants` | x-pack/plugin/core/src/main/java/org/elasticsearch/xpack/core/security/authz/permission/ApplicationPermission.java:104-121 | whenever a privilege is granted on a resource, the reported patterns for it cover that resource |
| `PermissionProperties.MergeExample` | x-pack/plugin/core/src/main/java/org/elasticsearch/xpack/core/security/authz/permission/ApplicationPermission.java:45-53 | one privilege granted on a/ patterns and then on b/ patterns gives a single entry with both patterns, and both are reported for it |
| `PermissionProperties.MergeExampleGrants` | x-pack/plugin/core/src/main/java/org/elasticsearch/xpack/core/security/authz/permission/ApplicationPermission.java:79-84 | in that permission the privilege is granted on a resource iff its pattern lies within the union of the two granted patterns |
| `PermissionProperties.InheritedPatternsExample` | x-pack/plugin/core/src/main/java/org/elasticsearch/xpack/core/security/authz/permission/ApplicationPermission.java:104-114 | the doc-comment example: patterns for "read" include those inherited from the total "all" privilege of the same application |

## Left out

- The pattern library itself (`Automatons.patterns`, `Automatons.predicate`, `Automatons.unionAndMinimize`, `Operations.subsetOf`, `isTotal`, `isEmpty`) is not part of this model. Compiling is the `PatternEngine` parameter, its contract is `PatternEngine.Valid()`, and the other operations are set operations. Minimisation does not change a language, so it does not appear.
- `ApplicationPrivilege` is not part of this model. It is a (name, application, action language) value with structural equality; the name is an opaque string, so two privileges of one application with equal action languages but different names ("read" and "view") stay distinct, get separate entries, and only the equality shortcut at line 141 tells them apart. How privileges are parsed, validated or cached is not modelled, and `ApplicationPrivilege.equals` is assumed to compare exactly these three parts.
- The logger, the trace call in `grants`, and both `toString` methods are left out. They are I/O and debugging only.
- `HashMap` iteration order and the `unmodifiableList` wrapper are left out. Entry order is unspecified, and values cannot be mutated.
- Null arguments are left out. Dafny values cannot be null, so the fail-fast on a missing privilege or resource has nothing to model.
- `Build` states that each privilege has exactly one entry, but does not state the entry count as a number.
- `MatchesPrivilege`, `EntryGrants`, `AnyEntryGrants`, `Grants` and `ResourcePatterns` are ghost. Totality over all strings cannot be computed, so these are specified but not executable.
