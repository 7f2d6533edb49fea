/**
 * String helpers of lib/string_utils.h and lib/string_cast.h: the in-place
 * RemoveIf compaction, MakeString concatenation and the comma-separated
 * argument parser. Casting is modelled for the unsigned integers the
 * reader's configuration files hold: a token casts when it is a non-empty
 * run of decimal digits.
 */
module StringUtils {
  import opened Wrappers

  /** The characters ::isspace accepts in the C locale. */
  predicate IsSpace(c: char)
  {
    c == ' ' || c == '\t' || c == '\n' || c == '\U{000B}' || c == '\U{000C}' || c == '\r'
  }

  /** The elements of `s` that `drop` does not reject, in their original order. */
  function Filter<T>(s: seq<T>, drop: T -> bool): (r: seq<T>)
    ensures |r| <= |s|
    ensures forall i :: 0 <= i < |r| ==> !drop(r[i])
  {
    if s == [] then []
    else Filter(s[..|s| - 1], drop) + (if drop(s[|s| - 1]) then [] else [s[|s| - 1]])
  }

  lemma {:induction false} FilterAppend<T>(a: seq<T>, b: seq<T>, drop: T -> bool)
    ensures Filter(a + b, drop) == Filter(a, drop) + Filter(b, drop)
    decreases |b|
  {
    if b != [] {
      var b' := b[..|b| - 1];
      assert (a + b)[..|a + b| - 1] == a + b';
      FilterAppend(a, b', drop);
    } else {
      assert a + b == a;
    }
  }

  /** Removing the rejected elements a second time removes nothing more. */
  lemma {:induction false} FilterIdempotent<T>(s: seq<T>, drop: T -> bool)
    ensures Filter(Filter(s, drop), drop) == Filter(s, drop)
    decreases |s|
  {
    if s != [] {
      var s' := s[..|s| - 1];
      FilterIdempotent(s', drop);
      var tail := if drop(s[|s| - 1]) then [] else [s[|s| - 1]];
      FilterAppend(Filter(s', drop), tail, drop);
      if tail != [] {
        assert tail[..0] == [];
      }
    }
  }

  /**
   * RemoveIf: compacts the elements `drop` does not reject to the front of
   * `a`, in order, and returns the new logical end. Cells at and after the
   * returned end keep their old contents (the caller erases them).
   */
  method RemoveIf<T>(a: array<T>, drop: T -> bool) returns (dest: nat)
    modifies a
    ensures dest <= a.Length
    ensures a[..dest] == Filter(old(a[..]), drop)
    ensures a[dest..] == old(a[dest..])
  {
    dest := 0;
    var itr := 0;
    while itr < a.Length
      invariant dest <= itr <= a.Length
      invariant a[..dest] == Filter(old(a[..])[..itr], drop)
      invariant a[dest..] == old(a[dest..])
    {
      assert old(a[..])[..itr + 1][..itr] == old(a[..])[..itr];
      assert a[itr] == old(a[..])[itr];
      if !drop(a[itr]) {
        a[dest] := a[itr];
        dest := dest + 1;
      }
      itr := itr + 1;
    }
    assert old(a[..])[..a.Length] == old(a[..]);
  }

  /** `str.erase(RemoveIf(str.begin(), str.end(), ::isspace), str.end())` */
  method StripSpaces(s: string) returns (r: string)
    ensures r == Filter(s, IsSpace)
  {
    var buf := new char[|s|](i requires 0 <= i < |s| => s[i]);
    assert buf[..] == s;
    var end := RemoveIf(buf, IsSpace);
    r := buf[..end];
  }

  predicate IsDigit(c: char)
  {
    '0' <= c <= '9'
  }

  predicate AllDigits(s: string)
  {
    forall i :: 0 <= i < |s| ==> IsDigit(s[i])
  }

  /** One past the largest value of a 32-bit `unsigned`. */
  const UnsignedLimit: nat := 0x1_0000_0000

  /** Every value fits a 32-bit `unsigned`. */
  predicate FitUnsigned(values: seq<nat>)
  {
    forall i :: 0 <= i < |values| ==> values[i] < UnsignedLimit
  }

  /** The token without the one sign character `>>` accepts in front of the digits. */
  function Magnitude(s: string): (m: string)
    ensures |m| <= |s|
  {
    if |s| > 0 && (s[0] == '+' || s[0] == '-') then s[1..] else s
  }

  /**
   * CanCast<unsigned>: the whole token is read by `>>` into an unsigned
   * int: an optional sign, at least one digit, nothing after the digits,
   * and a magnitude that does not overflow 32 bits.
   */
  predicate CanCast(s: string)
    ensures CanCast(s) ==>
      (|s| > 0 && (IsDigit(s[0]) || s[0] == '+' || s[0] == '-') && forall i :: 0 < i < |s| ==> IsDigit(s[i]))
  {
    var m := Magnitude(s);
    |m| > 0 && AllDigits(m) && DecimalValue(m) < UnsignedLimit
  }

  function DigitValue(c: char): (d: nat)
    requires IsDigit(c)
    ensures d < 10
  {
    (c as int) - ('0' as int)
  }

  /** The decimal value of a run of digits. */
  function DecimalValue(s: string): nat
    requires AllDigits(s)
  {
    if s == [] then 0 else DecimalValue(s[..|s| - 1]) * 10 + DigitValue(s[|s| - 1])
  }

  /**
   * CastTo<unsigned>: the value `>>` stores for a castable token; a minus
   * sign negates the magnitude modulo 2^32, as the C++ standard library's
   * unsigned extraction does.
   */
  function CastTo(s: string): (v: nat)
    requires CanCast(s)
    ensures v < UnsignedLimit
  {
    var m := DecimalValue(Magnitude(s));
    if s[0] == '-' then (UnsignedLimit - m) % UnsignedLimit else m
  }

  function Digit(d: nat): (c: char)
    requires d < 10
    ensures IsDigit(c) && DigitValue(c) == d
  {
    (('0' as int) + d) as char
  }

  /** Decimal text of a number, as `ss << n` writes it. */
  function NatToString(n: nat): (r: string)
    ensures |r| > 0 && AllDigits(r)
    ensures ',' !in r
  {
    (if n < 10 then [] else NatToString(n / 10)) + [Digit(n % 10)]
  }

  /** The digits of the written text of a number have that number as their value. */
  lemma {:induction false} DecimalInvertsNatToString(n: nat)
    ensures DecimalValue(NatToString(n)) == n
  {
    var s := NatToString(n);
    var prefix := if n < 10 then [] else NatToString(n / 10);
    assert s == prefix + [Digit(n % 10)];
    assert s[..|s| - 1] == prefix;
    assert DecimalValue(s) == DecimalValue(prefix) * 10 + n % 10;
    if n >= 10 {
      DecimalInvertsNatToString(n / 10);
      assert DecimalValue(prefix) == n / 10;
    }
  }

  /** The written text of an unsigned number casts back to the number. */
  lemma CastInvertsNatToString(n: nat)
    requires n < UnsignedLimit
    ensures CanCast(NatToString(n))
    ensures CastTo(NatToString(n)) == n
  {
    DecimalInvertsNatToString(n);
  }

  /** A magnitude of 2^32 or more does not cast, with or without a sign: `>>` fails on overflow. */
  lemma OverflowDoesNotCast(s: string)
    requires |s| > 0 && AllDigits(s) && DecimalValue(s) >= UnsignedLimit
    ensures !CanCast(s) && !CanCast("+" + s) && !CanCast("-" + s)
  {
    assert Magnitude("+" + s) == s;
    assert Magnitude("-" + s) == s;
  }

  /** The text of 2^32 and of any larger number does not cast. */
  lemma WideNumberDoesNotCast(n: nat)
    requires n >= UnsignedLimit
    ensures !CanCast(NatToString(n))
  {
    DecimalInvertsNatToString(n);
    OverflowDoesNotCast(NatToString(n));
  }

  /** A plus sign is accepted, a minus sign wraps modulo 2^32, and a sign alone does not cast. */
  lemma SignedTokens()
    ensures CanCast("+5") && CastTo("+5") == 5
    ensures CanCast("-1") && CastTo("-1") == 4294967295
    ensures !CanCast("+") && !CanCast("")
  {
    assert Magnitude("+5") == "5";
    assert Magnitude("-1") == "1";
    assert DecimalValue("1") == 1 by { assert "1"[..0] == []; }
    assert DecimalValue("5") == 5 by { assert "5"[..0] == []; }
  }

  /** The arguments MakeString receives: text or an integer. */
  datatype Arg = Text(text: string) | Number(n: int)

  function ArgText(a: Arg): string
  {
    match a
    case Text(s) => s
    case Number(n) => if n < 0 then "-" + NatToString(-n) else NatToString(n)
  }

  /** MakeString: the arguments written one after the other into one stream. */
  function MakeString(args: seq<Arg>): (r: string)
    ensures args == [] ==> r == ""
  {
    if args == [] then "" else MakeString(args[..|args| - 1]) + ArgText(args[|args| - 1])
  }

  lemma {:induction false} MakeStringAppend(a: seq<Arg>, b: seq<Arg>)
    ensures MakeString(a + b) == MakeString(a) + MakeString(b)
    decreases |b|
  {
    if b == [] {
      assert a + b == a;
    } else {
      var b' := b[..|b| - 1];
      var last := ArgText(b[|b| - 1]);
      assert (a + b)[..|a + b| - 1] == a + b';
      assert (a + b)[|a + b| - 1] == b[|b| - 1];
      calc {
        MakeString(a + b);
        MakeString(a + b') + last;
        { MakeStringAppend(a, b'); }
        (MakeString(a) + MakeString(b')) + last;
        { SeqAssoc(MakeString(a), MakeString(b'), last); }
        MakeString(a) + (MakeString(b') + last);
      }
    }
  }

  lemma SeqAssoc<T>(x: seq<T>, y: seq<T>, z: seq<T>)
    ensures (x + y) + z == x + (y + z)
  {
  }

  /** A non-negative number written by MakeString casts back to itself. */
  lemma NumberTextRoundTrip(n: nat)
    requires n < UnsignedLimit
    ensures CanCast(MakeString([Number(n)]))
    ensures CastTo(MakeString([Number(n)])) == n
  {
    assert [Number(n)][..0] == [];
    assert MakeString([Number(n)]) == MakeString([]) + ArgText(Number(n));
    assert MakeString([Number(n)]) == NatToString(n);
    CastInvertsNatToString(n);
  }

  /** Position of the first occurrence of `c` in `s` (std::string::find). */
  function IndexOf(s: string, c: char): (r: Option<nat>)
    ensures r.Some? ==> r.value < |s| && s[r.value] == c && c !in s[..r.value]
    ensures r.None? <==> c !in s
  {
    if |s| == 0 then None
    else if s[0] == c then Some(0)
    else match IndexOf(s[1..], c)
      case None => None
      case Some(k) => Some(k + 1)
  }

  /**
   * One pass of ParseArgString's loop: the leading comma-terminated token is
   * consumed only when it casts; otherwise nothing changes.
   */
  function ParseStep(str: string, ret: seq<nat>): (string, seq<nat>)
    requires ',' in str
  {
    var pos := IndexOf(str, ',').value;
    var token := str[..pos];
    if CanCast(token) then (str[pos + 1..], ret + [CastTo(token)]) else (str, ret)
  }

  /** A leading token that does not cast leaves the loop's state as it was: the loop never ends. */
  lemma ParseStepStuck(str: string, ret: seq<nat>)
    requires ',' in str
    requires !CanCast(str[..IndexOf(str, ',').value])
    ensures ParseStep(str, ret) == (str, ret)
    ensures ',' in ParseStep(str, ret).0
  {
  }

  /** Every comma-terminated token casts: exactly the inputs on which ParseArgString's loop ends. */
  predicate Terminates(str: string)
    ensures ',' !in str ==> Terminates(str)
    ensures |str| > 0 && str[0] == ',' ==> !Terminates(str)
    decreases |str|
  {
    match IndexOf(str, ',')
    case None => true
    case Some(pos) => CanCast(str[..pos]) && Terminates(str[pos + 1..])
  }

  /**
   * The values ParseArgString collects from a stripped string, after the ones
   * already in `ret`: every comma-terminated token, then the last segment
   * when it casts.
   */
  function Collect(str: string, ret: seq<nat>): (r: seq<nat>)
    requires Terminates(str)
    ensures |ret| <= |r| <= |ret| + |str| && r[..|ret|] == ret
    ensures FitUnsigned(ret) ==> FitUnsigned(r)
    decreases |str|
  {
    match IndexOf(str, ',')
    case None => if CanCast(str) then ret + [CastTo(str)] else ret
    case Some(pos) => Collect(str[pos + 1..], ret + [CastTo(str[..pos])])
  }

  function Tokens(str: string): seq<nat>
    requires Terminates(str)
  {
    Collect(str, [])
  }

  /**
   * ParseArgString<unsigned>: strip all whitespace, then split at commas and
   * cast each token. The source loops forever when a comma-terminated token
   * does not cast, hence the precondition.
   */
  method ParseArgString(input: string) returns (ret: seq<nat>)
    requires Terminates(Filter(input, IsSpace))
    ensures ret == Tokens(Filter(input, IsSpace))
  {
    var str := StripSpaces(input);
    ret := [];
    while ',' in str
      invariant Terminates(str)
      invariant Collect(str, ret) == Tokens(Filter(input, IsSpace))
      decreases |str|
    {
      ParseStepAdvances(str, ret);
      var step := ParseStep(str, ret);
      str, ret := step.0, step.1;
    }
    if CanCast(str) {
      ret := ret + [CastTo(str)];
    }
  }

  /** On an input the loop finishes, each pass consumes one token and keeps the overall result. */
  lemma ParseStepAdvances(str: string, ret: seq<nat>)
    requires ',' in str && Terminates(str)
    ensures |ParseStep(str, ret).0| < |str|
    ensures Terminates(ParseStep(str, ret).0)
    ensures Collect(ParseStep(str, ret).0, ParseStep(str, ret).1) == Collect(str, ret)
  {
  }

  /** Comma-joined decimal text of a list of numbers, as a configuration file holds it. */
  function Join(values: seq<nat>): (r: string)
    requires values != []
  {
    if |values| == 1 then NatToString(values[0])
    else NatToString(values[0]) + "," + Join(values[1..])
  }

  /** Parsing the comma-joined text of a list gives the list back. */
  lemma TokensInvertJoin(values: seq<nat>)
    requires values != [] && FitUnsigned(values)
    ensures Terminates(Join(values))
    ensures Tokens(Join(values)) == values
  {
    CollectJoin(values, []);
  }

  lemma {:induction false} CollectJoin(values: seq<nat>, acc: seq<nat>)
    requires values != [] && FitUnsigned(values)
    ensures Terminates(Join(values))
    ensures Collect(Join(values), acc) == acc + values
    decreases |values|
  {
    var head := NatToString(values[0]);
    CastInvertsNatToString(values[0]);
    if |values| == 1 {
      assert IndexOf(head, ',').None?;
    } else {
      var rest := Join(values[1..]);
      assert Join(values) == head + "," + rest;
      CollectJoin(values[1..], acc + [values[0]]);
      CollectAfterHead(head, rest, acc);
      SeqAssoc(acc, [values[0]], values[1..]);
      assert [values[0]] + values[1..] == values;
    }
  }

  /** A leading token without commas that casts is collected before the rest. */
  lemma CollectAfterHead(head: string, rest: string, acc: seq<nat>)
    requires ',' !in head && CanCast(head) && Terminates(rest)
    ensures Terminates(head + "," + rest)
    ensures Collect(head + "," + rest, acc) == Collect(rest, acc + [CastTo(head)])
  {
    var s := head + "," + rest;
    IndexOfAfterDigits(head, rest);
    assert s[..|head|] == head;
    assert s[|head| + 1..] == rest;
  }

  lemma {:induction false} IndexOfAfterDigits(head: string, rest: string)
    requires ',' !in head
    ensures IndexOf(head + "," + rest, ',') == Some(|head|)
    decreases |head|
  {
    if head != [] {
      assert (head + "," + rest)[1..] == head[1..] + "," + rest;
      IndexOfAfterDigits(head[1..], rest);
    }
  }

  /** A string of digits and commas has no whitespace to strip. */
  lemma JoinHasNoSpace(values: seq<nat>)
    requires values != []
    ensures Filter(Join(values), IsSpace) == Join(values)
  {
    JoinCharacters(values);
    NoSpaceFilterIdentity(Join(values));
  }

  lemma {:induction false} JoinCharacters(values: seq<nat>)
    requires values != []
    ensures forall i :: 0 <= i < |Join(values)| ==> IsDigit(Join(values)[i]) || Join(values)[i] == ','
    decreases |values|
  {
    if |values| > 1 {
      JoinCharacters(values[1..]);
    }
  }

  lemma {:induction false} NoSpaceFilterIdentity(s: string)
    requires forall i :: 0 <= i < |s| ==> IsDigit(s[i]) || s[i] == ','
    ensures Filter(s, IsSpace) == s
    decreases |s|
  {
    if s != [] {
      var s' := s[..|s| - 1];
      NoSpaceFilterIdentity(s');
      assert !IsSpace(s[|s| - 1]);
      assert Filter(s, IsSpace) == Filter(s', IsSpace) + [s[|s| - 1]];
      assert s == s' + [s[|s| - 1]];
    }
  }
}
