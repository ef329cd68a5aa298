/** The part of Go's `fmt.Sprintf` that the adapter's request paths use:
    the `%s` directive with string arguments and the `%%` escape, with
    Go's markers for a missing argument (`%!s(MISSING)`) and for surplus
    arguments (`%!(EXTRA string=…)`). Flags, widths and other verbs are not
    modelled: a format is in scope when every `%` starts `%s` or `%%`. */
module Fmt {

  /** Every `%` in `format` begins a `%s` or `%%` directive. */
  predicate Supported(format: string)
    decreases |format|
  {
    if format == [] then true
    else if format[0] != '%' then Supported(format[1..])
    else |format| >= 2 && (format[1] == 's' || format[1] == '%') && Supported(format[2..])
  }

  /** Go's rendering of arguments no directive consumed. */
  function Extra(args: seq<string>): string
  {
    if args == [] then "" else "%!(EXTRA " + ExtraList(args) + ")"
  }

  function ExtraList(args: seq<string>): string
    requires args != []
    decreases |args|
  {
    if |args| == 1 then "string=" + args[0]
    else "string=" + args[0] + ", " + ExtraList(args[1..])
  }

  /** `fmt.Sprintf(format, args...)` with string arguments. */
  function Sprintf(format: string, args: seq<string>): string
    requires Supported(format)
    decreases |format|
  {
    if format == [] then Extra(args)
    else if format[0] != '%' then [format[0]] + Sprintf(format[1..], args)
    else if format[1] == '%' then "%" + Sprintf(format[2..], args)
    else if args == [] then "%!s(MISSING)" + Sprintf(format[2..], args)
    else args[0] + Sprintf(format[2..], args[1..])
  }

  /** Text without `%` is copied through unchanged. */
  lemma {:induction false} Literal(p: string, rest: string, args: seq<string>)
    requires '%' !in p && Supported(rest)
    ensures Supported(p + rest)
    ensures Sprintf(p + rest, args) == p + Sprintf(rest, args)
    decreases |p|
  {
    if p == [] {
      assert p + rest == rest;
    } else {
      assert (p + rest)[0] == p[0] != '%';
      assert (p + rest)[1..] == p[1..] + rest;
      Literal(p[1..], rest, args);
    }
  }

  /** A `%s` consumes the next argument. */
  lemma Verb(rest: string, arg: string, args: seq<string>)
    requires Supported(rest)
    ensures Supported("%s" + rest)
    ensures Sprintf("%s" + rest, [arg] + args) == arg + Sprintf(rest, args)
  {
    assert ("%s" + rest)[2..] == rest;
    assert ([arg] + args)[1..] == args;
  }

  /** A `%s` with no argument left renders Go's missing-argument marker. */
  lemma Missing(rest: string)
    requires Supported(rest)
    ensures Supported("%s" + rest)
    ensures Sprintf("%s" + rest, []) == "%!s(MISSING)" + Sprintf(rest, [])
  {
    assert ("%s" + rest)[2..] == rest;
  }

  /** Two supported formats side by side form a supported format. */
  lemma {:induction false} SupportedAppend(a: string, b: string)
    requires Supported(a) && Supported(b)
    ensures Supported(a + b)
    decreases |a|
  {
    if a == [] {
      assert a + b == b;
    } else if a[0] != '%' {
      assert (a + b)[0] == a[0];
      assert (a + b)[1..] == a[1..] + b;
      SupportedAppend(a[1..], b);
    } else {
      assert (a + b)[..2] == a[..2];
      assert (a + b)[2..] == a[2..] + b;
      SupportedAppend(a[2..], b);
    }
  }

  /** Text without `%` is a format by itself and prints as itself. */
  lemma End(lit: string)
    requires '%' !in lit
    ensures Supported(lit)
    ensures Sprintf(lit, []) == lit
  {
    Literal(lit, [], []);
    assert lit + [] == lit;
  }

  /** Literal text followed by `%s` prints the text, then the next argument. */
  lemma Prepend(lit: string, rest: string, arg: string, args: seq<string>)
    requires '%' !in lit && Supported(rest)
    ensures Supported(lit + ("%s" + rest))
    ensures Sprintf(lit + ("%s" + rest), [arg] + args) == lit + (arg + Sprintf(rest, args))
  {
    Verb(rest, arg, args);
    Literal(lit, "%s" + rest, [arg] + args);
  }

  /** Literal text followed by `%s` when the arguments have run out. */
  lemma PrependMissing(lit: string, rest: string)
    requires '%' !in lit && Supported(rest)
    ensures Supported(lit + ("%s" + rest))
    ensures Sprintf(lit + ("%s" + rest), []) == lit + ("%!s(MISSING)" + Sprintf(rest, []))
  {
    Missing(rest);
    Literal(lit, "%s" + rest, []);
  }

  /** `Prepend` with the output of the rest already known. */
  lemma Chain(lit: string, rest: string, arg: string, args: seq<string>, out: string)
    requires '%' !in lit && Supported(rest) && Sprintf(rest, args) == out
    ensures Supported(lit + ("%s" + rest))
    ensures Sprintf(lit + ("%s" + rest), [arg] + args) == lit + (arg + out)
  {
    Prepend(lit, rest, arg, args);
  }

  /** `PrependMissing` with the output of the rest already known. */
  lemma ChainMissing(lit: string, rest: string, out: string)
    requires '%' !in lit && Supported(rest) && Sprintf(rest, []) == out
    ensures Supported(lit + ("%s" + rest))
    ensures Sprintf(lit + ("%s" + rest), []) == lit + ("%!s(MISSING)" + out)
  {
    PrependMissing(lit, rest);
  }

  // Proof aids: argument lists built one argument at a time. Dafny knows
  // these facts; the lemmas below supply them rather than have the solver
  // search for them.

  lemma Args1(a: string)
    ensures [a] + [] == [a]
  {
  }

  lemma Args2(a: string, b: string)
    ensures [a] + [b] == [a, b]
  {
  }

  lemma Args3(a: string, b: string, c: string)
    ensures [a] + [b, c] == [a, b, c]
  {
  }

  /** Literal text followed by `%s` and a supported rest is a supported format. */
  lemma SupportedVerb(lit: string, rest: string)
    requires '%' !in lit && Supported(rest)
    ensures Supported(lit + ("%s" + rest))
  {
    Missing(rest);
    Literal(lit, "%s" + rest, []);
  }

  /** A format with one `%s` and one argument substitutes it. */
  lemma Sprintf1(l0: string, l1: string, a: string)
    requires '%' !in l0 && '%' !in l1
    ensures Supported(l0 + ("%s" + l1))
    ensures Sprintf(l0 + ("%s" + l1), [a]) == l0 + (a + l1)
  {
    End(l1);
    Chain(l0, l1, a, [], l1);
    Args1(a);
  }

  /** A format with two `%s` and two arguments substitutes them in order. */
  lemma Sprintf2(l0: string, l1: string, l2: string, a: string, b: string)
    requires '%' !in l0 && '%' !in l1 && '%' !in l2
    ensures Supported(l0 + ("%s" + (l1 + ("%s" + l2))))
    ensures Sprintf(l0 + ("%s" + (l1 + ("%s" + l2))), [a, b]) == l0 + (a + (l1 + (b + l2)))
  {
    Sprintf1(l1, l2, b);
    Chain(l0, l1 + ("%s" + l2), a, [b], l1 + (b + l2));
    Args2(a, b);
  }

  /** A format with three `%s` and three arguments substitutes them in order. */
  lemma Sprintf3(l0: string, l1: string, l2: string, l3: string, a: string, b: string, c: string)
    requires '%' !in l0 && '%' !in l1 && '%' !in l2 && '%' !in l3
    ensures Supported(l0 + ("%s" + (l1 + ("%s" + (l2 + ("%s" + l3))))))
    ensures Sprintf(l0 + ("%s" + (l1 + ("%s" + (l2 + ("%s" + l3))))), [a, b, c])
      == l0 + (a + (l1 + (b + (l2 + (c + l3)))))
  {
    Sprintf2(l1, l2, l3, b, c);
    Chain(l0, l1 + ("%s" + (l2 + ("%s" + l3))), a, [b, c], l1 + (b + (l2 + (c + l3))));
    Args3(a, b, c);
  }

  /** Two `%s` with one argument: the second renders the missing marker. */
  lemma Sprintf2Short(l0: string, l1: string, l2: string, a: string)
    requires '%' !in l0 && '%' !in l1 && '%' !in l2
    ensures Supported(l0 + ("%s" + (l1 + ("%s" + l2))))
    ensures Sprintf(l0 + ("%s" + (l1 + ("%s" + l2))), [a]) == l0 + (a + (l1 + ("%!s(MISSING)" + l2)))
  {
    End(l2);
    ChainMissing(l1, l2, l2);
    Chain(l0, l1 + ("%s" + l2), a, [], l1 + ("%!s(MISSING)" + l2));
    Args1(a);
  }

  /** Three `%s` with two arguments: the third renders the missing marker. */
  lemma Sprintf3Short(l0: string, l1: string, l2: string, l3: string, a: string, b: string)
    requires '%' !in l0 && '%' !in l1 && '%' !in l2 && '%' !in l3
    ensures Supported(l0 + ("%s" + (l1 + ("%s" + (l2 + ("%s" + l3))))))
    ensures Sprintf(l0 + ("%s" + (l1 + ("%s" + (l2 + ("%s" + l3))))), [a, b])
      == l0 + (a + (l1 + (b + (l2 + ("%!s(MISSING)" + l3)))))
  {
    Sprintf2Short(l1, l2, l3, b);
    Chain(l0, l1 + ("%s" + (l2 + ("%s" + l3))), a, [b], l1 + (b + (l2 + ("%!s(MISSING)" + l3))));
    Args2(a, b);
  }
}
