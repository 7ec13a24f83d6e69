/** `cn(...classes)`: the truthy class names, in order, separated by one
    space; and the Celsius-to-Fahrenheit conversion. */
module Utils {
  import opened Common

  /** An argument of `cn`: a string, `undefined` or `false`. */
  datatype ClassArg = Class(name: string) | Undefined | False

  predicate Truthy(a: ClassArg) {
    a.Class? && a.name != ""
  }

  /** `classes.filter(Boolean)`, as the strings kept. */
  function Kept(args: seq<ClassArg>): (r: seq<string>)
    ensures forall s :: s in r ==> s != ""
    ensures forall a :: a in args && Truthy(a) ==> a.name in r
    ensures |r| <= |args|
  {
    if args == [] then []
    else
      assert forall a :: a in args ==> a == args[0] || a in args[1..];
      if Truthy(args[0]) then [args[0].name] + Kept(args[1..]) else Kept(args[1..])
  }

  /** Filtering a concatenation filters each half. */
  lemma {:induction false} KeptAppend(a: seq<ClassArg>, b: seq<ClassArg>)
    ensures Kept(a + b) == Kept(a) + Kept(b)
  {
    if a == [] {
      assert a + b == b;
    } else {
      assert (a + b)[0] == a[0];
      assert (a + b)[1..] == a[1..] + b;
      KeptAppend(a[1..], b);
    }
  }

  function Cn(args: seq<ClassArg>): string {
    Join(Kept(args), " ")
  }

  /** Without a truthy argument the result is empty. */
  lemma {:induction false} CnOfFalsy(args: seq<ClassArg>)
    requires forall a :: a in args ==> !Truthy(a)
    ensures Kept(args) == [] && Cn(args) == ""
  {
    if args != [] {
      assert args[0] in args;
      assert forall a :: a in args[1..] ==> a in args;
      CnOfFalsy(args[1..]);
    }
  }

  /** Falsy arguments change nothing, wherever they are. */
  lemma CnDropsFalsy(a: seq<ClassArg>, x: ClassArg, b: seq<ClassArg>)
    requires !Truthy(x)
    ensures Cn(a + [x] + b) == Cn(a + b)
  {
    KeptAppend(a + [x], b);
    KeptAppend(a, [x]);
    KeptAppend(a, b);
    assert [x][0] == x && [x][1..] == [];
    assert Kept([x]) == Kept([]) == [];
    assert Kept(a + [x]) == Kept(a);
  }

  /** The classes of two argument lists are joined by exactly one space,
      the first list's first. */
  lemma CnAppend(a: seq<ClassArg>, b: seq<ClassArg>)
    requires Cn(a) != "" && Cn(b) != ""
    ensures Cn(a + b) == Cn(a) + " " + Cn(b)
  {
    KeptAppend(a, b);
    JoinAppend(Kept(a), Kept(b), " ");
  }

  /** `celsiusToFahrenheit`, on exact reals. */
  function CelsiusToFahrenheit(c: real): real {
    c * 9.0 / 5.0 + 32.0
  }

  /** The conversion keeps the order of temperatures, strictly, and fixes
      the usual reference points. */
  lemma FahrenheitMonotone(a: real, b: real)
    ensures a <= b ==> CelsiusToFahrenheit(a) <= CelsiusToFahrenheit(b)
    ensures a < b ==> CelsiusToFahrenheit(a) < CelsiusToFahrenheit(b)
    ensures CelsiusToFahrenheit(0.0) == 32.0 && CelsiusToFahrenheit(100.0) == 212.0
    ensures CelsiusToFahrenheit(-40.0) == -40.0
  {
  }
}
