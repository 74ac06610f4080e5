/**
 Claim names. A name is an application's own name followed by some number of "-tmp" suffixes, so the test
 for a temporary claim and the trimming of its suffix are a constructor test and a destructor.
 */
module Names {

  datatype Name = App(base: string) | Tmp(of: Name)

  /** A namespaced object. */
  datatype Key = Key(ns: string, name: Name)

  /** The key of the temporary claim that stands in for claim `k`. */
  function TmpOf(k: Key): Key {
    Key(k.ns, Tmp(k.name))
  }

  /** The claim that `k` is or stands in for. */
  function MainOf(k: Key): Key {
    if k.name.Tmp? then Key(k.ns, k.name.of) else k
  }

  const SUFFIX: string := "-tmp"

  predicate HasSuffix(s: string, suffix: string) {
    |suffix| <= |s| && s[|s| - |suffix|..] == suffix
  }

  /** The string the API server stores for a name. */
  function Text(n: Name): string {
    match n
    case App(base) => base
    case Tmp(of) => Text(of) + SUFFIX
  }

  /** Names whose application part is really an application name: one that does not itself end in the suffix. */
  predicate Proper(n: Name) {
    match n
    case App(base) => !HasSuffix(base, SUFFIX)
    case Tmp(of) => Proper(of)
  }

  /** The constructor test is the suffix test of the program, and the destructor is its suffix trimming. */
  lemma SuffixTestIsConstructorTest(n: Name)
    requires Proper(n)
    ensures HasSuffix(Text(n), SUFFIX) <==> n.Tmp?
    ensures n.Tmp? ==> Text(n)[..|Text(n)| - |SUFFIX|] == Text(n.of)
  {
    if n.Tmp? {
      assert Text(n)[|Text(n.of)|..] == SUFFIX;
    }
  }

  /** Two names the API server cannot tell apart are one name. */
  lemma {:induction false} TextIsInjective(m: Name, n: Name)
    requires Proper(m) && Proper(n) && Text(m) == Text(n)
    ensures m == n
  {
    SuffixTestIsConstructorTest(m);
    SuffixTestIsConstructorTest(n);
    if m.Tmp? {
      TextIsInjective(m.of, n.of);
    }
  }
}
