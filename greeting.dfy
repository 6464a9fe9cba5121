/**
 * The greeting of the introductory example: `greet(name)` with the empty
 * name standing for "Engineer".
 */
module Greeting {
  import opened Text

  const DefaultName: string := "Engineer"
  const Prefix: string := "Hello, "
  const Suffix: string := " from Realtek!"

  /** The name that is greeted: the default replaces only the exact empty string. */
  function EffectiveName(name: string): string {
    if name == "" then DefaultName else name
  }

  /** `greet(name)`. */
  function Greet(name: string): (r: string)
    ensures StartsWith(r, Prefix) && EndsWith(r, Suffix)
    ensures |r| == |Prefix| + |EffectiveName(name)| + |Suffix|
  {
    Prefix + EffectiveName(name) + Suffix
  }

  /** The name inside a greeting: what lies between the fixed prefix and suffix. */
  function GreetedName(greeting: string): string
    requires |greeting| >= |Prefix| + |Suffix|
  {
    greeting[|Prefix|..|greeting| - |Suffix|]
  }

  /** The greeting carries the greeted name: reading it back gives the effective name. */
  lemma GreetedNameOfGreet(name: string)
    ensures GreetedName(Greet(name)) == EffectiveName(name)
  {
    var r := Greet(name);
    assert r == Prefix + EffectiveName(name) + Suffix;
    assert r[|Prefix|..|r| - |Suffix|] == EffectiveName(name);
  }

  /** `greet("")` greets the default name. */
  lemma GreetEmpty()
    ensures Greet("") == "Hello, Engineer from Realtek!"
  {
  }

  /** A non-empty name, blank ones included, is greeted verbatim. */
  lemma GreetNonEmpty(name: string)
    requires name != ""
    ensures Greet(name) == Prefix + name + Suffix
  {
  }

  /** Distinct non-empty names get distinct greetings; "" and "Engineer" share one. */
  lemma GreetInjective(a: string, b: string)
    requires Greet(a) == Greet(b)
    ensures EffectiveName(a) == EffectiveName(b)
    ensures a != "" && b != "" ==> a == b
  {
    GreetedNameOfGreet(a);
    GreetedNameOfGreet(b);
  }

  /** The one collision: the empty name and the default name greet alike. */
  lemma DefaultCollision()
    ensures Greet("") == Greet(DefaultName)
  {
  }
}
