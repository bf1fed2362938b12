/**
 The "second diff check" of `terraform plan -detailed-exitcode`: with exit code 2 the
 plan is still taken as empty when its output contains one fixed phrase.
 */
module PlanCheck {
  import opened Text

  const NEEDLE: string := "0 to add, 0 to change, 0 to destroy"

  /** The decimal digits of a number, as Terraform prints them. */
  function Decimal(n: nat): (s: string)
    ensures |s| >= 1
    ensures forall i :: 0 <= i < |s| ==> '0' <= s[i] <= '9'
    ensures s[|s| - 1] == '0' <==> n % 10 == 0
    ensures s == "0" <==> n == 0
    ensures n > 0 ==> s[0] != '0'
  {
    if n < 10 then [('0' as int + n) as char]
    else Decimal(n / 10) + [('0' as int + n % 10) as char]
  }

  /** The number a row of digits stands for. */
  function Number(digits: string): int {
    if digits == "" then 0 else Number(digits[..|digits| - 1]) * 10 + (digits[|digits| - 1] as int - '0' as int)
  }

  /** Reading the digits gives back the number. */
  lemma {:induction false} DecimalReads(n: nat)
    ensures Number(Decimal(n)) == n
    decreases n
  {
    if n < 10 {
      assert Decimal(n)[..0] == "";
    } else {
      DecimalReads(n / 10);
      assert Decimal(n)[..|Decimal(n)| - 1] == Decimal(n / 10);
    }
  }

  /** The line that ends the output of a plan with `a` additions, `c` changes and `d` destructions. */
  function Summary(a: nat, c: nat, d: nat): string {
    "Plan: " + Decimal(a) + " to add, " + Decimal(c) + " to change, " + Decimal(d) + " to destroy."
  }

  /** The exit-code-2 handler: true when the plan passes as "no diff". */
  predicate Accepted(a: nat, c: nat, d: nat) {
    Contains(Summary(a, c, d), NEEDLE)
  }

  predicate CommaFree(s: string) {
    forall k :: 0 <= k < |s| ==> s[k] != ','
  }

  /** Two texts with two commas each: one occurs in the other only comma upon comma. */
  lemma CommasAlign(p1: string, p2: string, p3: string, q1: string, q2: string, q3: string, i: nat)
    requires CommaFree(p1) && CommaFree(p2) && CommaFree(p3)
    requires At(p1 + "," + p2 + "," + p3, q1 + "," + q2 + "," + q3, i)
    ensures i + |q1| == |p1| && p1[i..] == q1 && p2 == q2 && q3 <= p3
  {
    var s, t := p1 + "," + p2 + "," + p3, q1 + "," + q2 + "," + q3;
    var c1, c2 := |p1|, |p1| + 1 + |p2|;
    forall j | 0 <= j < |s| && j != c1 && j != c2 ensures s[j] != ',' {
      if j < c1 { assert s[j] == p1[j]; }
      else if j < c2 { assert s[j] == p2[j - c1 - 1]; }
      else { assert s[j] == p3[j - c2 - 1]; }
    }
    forall k | 0 <= k < |t| ensures s[i + k] == t[k] {
      assert s[i..i + |t|][k] == s[i + k];
    }
    var u, v := |q1|, |q1| + 1 + |q2|;
    assert t[u] == ',' && t[v] == ',';
    assert i + u == c1 && i + v == c2;
    forall k | 0 <= k < |q1| ensures p1[i..][k] == q1[k] { assert s[i + k] == t[k]; }
    forall k | 0 <= k < |q2| ensures p2[k] == q2[k] { assert s[i + u + 1 + k] == t[u + 1 + k]; }
    forall k | 0 <= k < |q3| ensures p3[k] == q3[k] { assert s[i + v + 1 + k] == t[v + 1 + k]; }
  }

  // The parts of the summary line between its commas.
  function Adds(a: nat): string { "Plan: " + Decimal(a) + " to add" }
  function Changes(c: nat): string { " " + Decimal(c) + " to change" }
  function Destroys(d: nat): string { " " + Decimal(d) + " to destroy." }

  lemma SummaryParts(a: nat, c: nat, d: nat)
    ensures Summary(a, c, d) == Adds(a) + "," + Changes(c) + "," + Destroys(d)
    ensures CommaFree(Adds(a)) && CommaFree(Changes(c)) && CommaFree(Destroys(d))
  {
    var A, C, D := Decimal(a), Decimal(c), Decimal(d);
    assert " to add, " == " to add" + "," + " ";
    assert " to change, " == " to change" + "," + " ";
    calc {
      Summary(a, c, d);
      "Plan: " + A + (" to add" + "," + " ") + C + (" to change" + "," + " ") + D + " to destroy.";
      ("Plan: " + A + " to add") + "," + (" " + C + " to change") + "," + (" " + D + " to destroy.");
    }
    Join("Plan: ", A);
    Join("Plan: " + A, " to add");
    Join(" ", C);
    Join(" " + C, " to change");
    Join(" ", D);
    Join(" " + D, " to destroy.");
  }

  lemma Join(s: string, t: string)
    requires CommaFree(s) && CommaFree(t)
    ensures CommaFree(s + t)
  {
    forall k | 0 <= k < |s + t| ensures (s + t)[k] != ',' {
      assert (s + t)[k] == if k < |s| then s[k] else t[k - |s|];
    }
  }

  /** The check accepts exactly the plans that change and destroy nothing and add a multiple of ten. */
  lemma AcceptedExactly(a: nat, c: nat, d: nat)
    ensures Accepted(a, c, d) <==> a % 10 == 0 && c == 0 && d == 0
  {
    SummaryParts(a, c, d);
    if Accepted(a, c, d) {
      AcceptedOnlyIf(a, c, d);
    } else if a % 10 == 0 && c == 0 && d == 0 {
      AcceptedIf(a);
    }
  }

  lemma LastDigit(x: string, digits: string, y: string, z: char, i: nat)
    requires |digits| >= 1 && i <= |x + digits + y| && (x + digits + y)[i..] == [z] + y
    ensures digits[|digits| - 1] == z
  {
    var s := x + digits + y;
    assert |s| - i == 1 + |y|;
    assert s[i..][0] == s[i] == digits[|digits| - 1];
  }

  lemma OnlyDigit(x: string, digits: string, y: string, z: char)
    requires x + digits + y == x + [z] + y
    ensures digits == [z]
  {
    assert |digits| == 1;
    assert (x + digits + y)[|x|] == digits[0];
  }

  lemma FirstDigits(x: string, digits: string, y: string, z: char, y': string)
    requires |digits| >= 1 && |y'| >= 1 && y'[0] !in digits
    requires x + [z] + y' <= x + digits + y
    ensures digits == [z]
  {
    var s, t := x + digits + y, x + [z] + y';
    assert s[|x|..|x| + |digits|] == digits;
    assert t[|x|] == z && t[|x| + 1] == y'[0];
    assert s[|x|] == digits[0];
    assert s[|x| + 1] !in digits;
  }

  lemma AcceptedOnlyIf(a: nat, c: nat, d: nat)
    requires Accepted(a, c, d)
    ensures a % 10 == 0 && c == 0 && d == 0
  {
    SummaryParts(a, c, d);
    NeedleParts();
    var i: nat :| At(Summary(a, c, d), NEEDLE, i);
    CommasAlign(Adds(a), Changes(c), Destroys(d), "0" + " to add", " " + "0" + " to change",
                " " + "0" + " to destroy", i);
    LastDigit("Plan: ", Decimal(a), " to add", '0', i);
    OnlyDigit(" ", Decimal(c), " to change", '0');
    FirstDigits(" ", Decimal(d), " to destroy.", '0', " to destroy");
  }

  lemma NeedleParts()
    ensures NEEDLE == ("0" + " to add") + "," + (" " + "0" + " to change") + "," + (" " + "0" + " to destroy")
  {}

  lemma AcceptedIf(a: nat)
    requires a % 10 == 0
    ensures Accepted(a, 0, 0)
  {
    var head := "Plan: " + Decimal(a)[..|Decimal(a)| - 1];
    SummaryParts(a, 0, 0);
    NeedleParts();
    Fronted("Plan: ", Decimal(a), " to add");
    Tailed(" ", "0", " to destroy", ".", " to destroy.");
    Middle(head, "0" + " to add", Changes(0), " " + "0" + " to destroy", ".");
    assert At(Summary(a, 0, 0), NEEDLE, |head|);
  }

  lemma Fronted(x: string, digits: string, y: string)
    requires |digits| >= 1 && digits[|digits| - 1] == '0'
    ensures x + digits + y == (x + digits[..|digits| - 1]) + ("0" + y)
  {
    assert digits == digits[..|digits| - 1] + "0";
  }

  lemma Tailed(x: string, digits: string, y: string, z: string, yz: string)
    requires yz == y + z
    ensures x + digits + yz == (x + digits + y) + z
  {}

  lemma Middle(head: string, q1: string, q2: string, q3: string, tail: string)
    ensures At((head + q1) + "," + q2 + "," + (q3 + tail), q1 + "," + q2 + "," + q3, |head|)
  {
    assert (head + q1) + "," + q2 + "," + (q3 + tail) == head + (q1 + "," + q2 + "," + q3) + tail;
  }

  /** Below ten additions the phrase test and the intended "empty plan" test agree. */
  lemma IntendedBelowTen(a: nat, c: nat, d: nat)
    requires a < 10
    ensures Accepted(a, c, d) <==> a == 0 && c == 0 && d == 0
  {
    AcceptedExactly(a, c, d);
  }

  /** The intended test fails for a plan that adds ten machines: it passes as "no diff". */
  lemma TenAdditionsPass()
    ensures Accepted(10, 0, 0)
  {
    AcceptedExactly(10, 0, 0);
  }
}
