/**
 The wildcard-pattern library that application permissions are built on, seen only
 through the languages its acceptors accept. A language is a (possibly infinite) set
 of strings; the library's compilation of one pattern is a parameter, and everything
 else it offers (union and minimisation, subset, totality, emptiness) is the
 corresponding operation on sets.
 */
module Automata {

  /** The set of strings an acceptor accepts. */
  type Language = iset<string>

  /** True iff the acceptor accepts every string. */
  ghost predicate IsTotal(l: Language) {
    forall s: string :: s in l
  }

  /** True iff the acceptor accepts no string. */
  predicate IsEmpty(l: Language) {
    l == iset{}
  }

  /** True iff some pattern of `names` accepts `s`. */
  ghost predicate AcceptedBySome(pattern: string -> Language, names: set<string>, s: string) {
    exists n :: n in names && s in pattern(n)
  }

  /** The language of a set of patterns: every string some pattern of the set accepts. */
  ghost function Patterns(pattern: string -> Language, names: set<string>): Language {
    iset s | AcceptedBySome(pattern, names, s)
  }

  /**
   The pattern library as the permission code calls it: `pattern` compiles one
   wildcard pattern (also used as a string predicate), `patterns` compiles a set of
   patterns into one acceptor.
   */
  datatype PatternEngine = PatternEngine(pattern: string -> Language, patterns: set<string> -> Language)
  {
    /** The library's contract: compiling a set of patterns accepts exactly the union of their languages. */
    ghost predicate Valid() {
      forall names: set<string> :: patterns(names) == Patterns(pattern, names)
    }
  }

  /** Union-and-minimise of two compiled pattern sets is the language of the union of the sets. */
  lemma PatternsUnion(pattern: string -> Language, a: set<string>, b: set<string>)
    ensures Patterns(pattern, a + b) == Patterns(pattern, a) + Patterns(pattern, b)
  {
  }

  /** Two patterns together accept what either accepts. */
  lemma PatternsOfTwo(pattern: string -> Language, x: string, y: string)
    ensures Patterns(pattern, {x, y}) == pattern(x) + pattern(y)
  {
  }

  /** A larger set of patterns accepts at least as much. */
  lemma PatternsMonotone(pattern: string -> Language, a: set<string>, b: set<string>)
    requires a <= b
    ensures Patterns(pattern, a) <= Patterns(pattern, b)
  {
  }
}
