/** The password policies of the system. There are four of them and they do
    not agree: the auth routes demand 10 characters and four character classes
    (backend/src/routes/auth.js), the password report demands 8 characters and
    a symbol from a fixed list (backend/utils/passwordRules.js), the request
    schemas demand 12 characters (module Zod), and the registration page's
    strength meter counts the rules of the schema (frontend RegisterPage.jsx). */
module PasswordPolicy {
  import opened Chars

  /** One rule of a policy: a minimum length, or a `/[class]/.test`. */
  datatype Rule = MinLength(n: nat) | Contains(k: CharClass)

  predicate Holds(r: Rule, pw: string)
  {
    match r
    case MinLength(n) => |pw| >= n
    case Contains(k) => Test(k, pw)
  }

  /** The shared shape of the 10- and 12-character policies, stated on
      characters rather than on regular-expression scans. */
  ghost predicate FourClassPolicy(pw: string, min: nat)
  {
    |pw| >= min && Has(Upper, pw) && Has(Lower, pw) && Has(Digit, pw) && Has(NonAlnum, pw)
  }

  // ---------------------------------------------------------------------------
  // validatePasswordRules of the auth routes

  /** `validatePasswordRules(pw)`: at least 10 characters, an upper-case
      letter, a lower-case letter, a digit and a character outside [A-Za-z0-9]. */
  predicate ValidatePasswordRules(pw: string)
  {
    |pw| >= 10 && Test(Upper, pw) && Test(Lower, pw) && Test(Digit, pw) && Test(NonAlnum, pw)
  }

  lemma RouteRulesAreFourClass(pw: string)
    ensures ValidatePasswordRules(pw) <==> FourClassPolicy(pw, 10)
  {
    TestIsSearch(Upper, pw);
    TestIsSearch(Lower, pw);
    TestIsSearch(Digit, pw);
    TestIsSearch(NonAlnum, pw);
  }

  // ---------------------------------------------------------------------------
  // Lists of rules: `every`, filter-and-count

  /** Every rule of the list holds. */
  predicate AllHold(rules: seq<Rule>, pw: string)
  {
    forall i :: 0 <= i < |rules| ==> Holds(rules[i], pw)
  }

  /** `rules.filter(r => r.test(pw)).length`. */
  function CountHolding(rules: seq<Rule>, pw: string): (n: nat)
    ensures n <= |rules|
    ensures n == |rules| <==> AllHold(rules, pw)
  {
    if rules == [] then 0
    else
      var rest := CountHolding(rules[1..], pw);
      assert AllHold(rules, pw) <==> Holds(rules[0], pw) && AllHold(rules[1..], pw) by {
        if Holds(rules[0], pw) && AllHold(rules[1..], pw) {
          forall i | 0 <= i < |rules| ensures Holds(rules[i], pw) {
            if i > 0 { assert rules[i] == rules[1..][i - 1]; }
          }
        }
      }
      (if Holds(rules[0], pw) then 1 else 0) + rest
  }

  // ---------------------------------------------------------------------------
  // The password report of backend/utils/passwordRules.js

  datatype NamedRule = NamedRule(name: string, rule: Rule)

  /** The object literal of named booleans, in its key order. */
  const ReportRules: seq<NamedRule> := [
    NamedRule("length", MinLength(8)),
    NamedRule("uppercase", Contains(Upper)),
    NamedRule("lowercase", Contains(Lower)),
    NamedRule("number", Contains(Digit)),
    NamedRule("symbol", Contains(Listed))
  ]

  const ReportRuleNames: seq<string> := ["length", "uppercase", "lowercase", "number", "symbol"]

  datatype Report = Report(passed: bool, errors: seq<string>)

  /** `Object.values(rules).every(Boolean)`. */
  predicate EveryHolds(rules: seq<NamedRule>, pw: string)
  {
    forall i :: 0 <= i < |rules| ==> Holds(rules[i].rule, pw)
  }

  /** `Object.entries(rules).filter(([_, pass]) => !pass).map(([rule]) => rule)`. */
  function FailedNames(rules: seq<NamedRule>, pw: string): seq<string>
  {
    if rules == [] then []
    else if Holds(rules[0].rule, pw) then FailedNames(rules[1..], pw)
    else [rules[0].name] + FailedNames(rules[1..], pw)
  }

  /** `validatePassword(password)`. */
  function ValidatePassword(pw: string): (r: Report)
    ensures r.passed <==> r.errors == []
    ensures IsSubsequence(r.errors, ReportRuleNames)
    ensures NoDuplicates(r.errors) && |r.errors| <= 5
    ensures forall i :: 0 <= i < |ReportRules| ==>
              (ReportRules[i].name in r.errors <==> !Holds(ReportRules[i].rule, pw))
  {
    var r := Report(EveryHolds(ReportRules, pw), FailedNames(ReportRules, pw));
    FailedNamesEmpty(ReportRules, pw);
    FailedNamesSubsequence(ReportRules, pw);
    assert Names(ReportRules) == ReportRuleNames;
    SubsequenceKeepsDistinct(r.errors, ReportRuleNames);
    SubsequenceLength(r.errors, ReportRuleNames);
    FailedNamesMembers(ReportRules, pw);
    r
  }

  function Names(rules: seq<NamedRule>): seq<string>
  {
    if rules == [] then [] else [rules[0].name] + Names(rules[1..])
  }

  /** `a` is `b` with some elements left out, order kept. */
  predicate IsSubsequence<T(==)>(a: seq<T>, b: seq<T>)
    decreases |b|
  {
    if a == [] then true
    else if b == [] then false
    else (a[0] == b[0] && IsSubsequence(a[1..], b[1..])) || IsSubsequence(a, b[1..])
  }

  predicate NoDuplicates<T(==)>(s: seq<T>)
  {
    forall i, j :: 0 <= i < j < |s| ==> s[i] != s[j]
  }

  lemma {:induction false} FailedNamesEmpty(rules: seq<NamedRule>, pw: string)
    ensures EveryHolds(rules, pw) <==> FailedNames(rules, pw) == []
  {
    if rules != [] {
      FailedNamesEmpty(rules[1..], pw);
      if Holds(rules[0].rule, pw) && EveryHolds(rules[1..], pw) {
        forall i | 0 <= i < |rules| ensures Holds(rules[i].rule, pw) {
          if i > 0 { assert rules[i] == rules[1..][i - 1]; }
        }
      }
      if EveryHolds(rules, pw) {
        forall i | 0 <= i < |rules[1..]| ensures Holds(rules[1..][i].rule, pw) {
          assert rules[1..][i] == rules[i + 1];
        }
      }
    }
  }

  lemma {:induction false} FailedNamesSubsequence(rules: seq<NamedRule>, pw: string)
    ensures IsSubsequence(FailedNames(rules, pw), Names(rules))
  {
    if rules != [] {
      FailedNamesSubsequence(rules[1..], pw);
      var f := FailedNames(rules, pw);
      var n := Names(rules);
      assert n[1..] == Names(rules[1..]);
      if !Holds(rules[0].rule, pw) {
        assert f[0] == n[0] && f[1..] == FailedNames(rules[1..], pw);
      } else if f != [] {
        assert IsSubsequence(f, n[1..]);
      }
    }
  }

  lemma {:induction false} FailedNamesMembers(rules: seq<NamedRule>, pw: string)
    requires NoDuplicates(Names(rules))
    ensures forall i :: 0 <= i < |rules| ==>
              (rules[i].name in FailedNames(rules, pw) <==> !Holds(rules[i].rule, pw))
  {
    if rules != [] {
      var tail := rules[1..];
      NamesAt(rules);
      assert NoDuplicates(Names(tail)) by {
        NamesAt(tail);
        forall i, j | 0 <= i < j < |Names(tail)| ensures Names(tail)[i] != Names(tail)[j] {
          assert Names(tail)[i] == Names(rules)[i + 1] && Names(tail)[j] == Names(rules)[j + 1];
        }
      }
      FailedNamesMembers(tail, pw);
      FailedNamesFrom(tail, pw);
      forall i | 0 <= i < |rules|
        ensures rules[i].name in FailedNames(rules, pw) <==> !Holds(rules[i].rule, pw)
      {
        if i == 0 {
          // the first name occurs nowhere in the tail, so only the first rule can put it there
          forall j | 0 <= j < |tail| ensures tail[j].name != rules[0].name {
            assert Names(rules)[0] != Names(rules)[j + 1];
          }
        } else {
          assert rules[i] == tail[i - 1];
          assert Names(rules)[0] != Names(rules)[i];
        }
      }
    }
  }

  lemma {:induction false} NamesAt(rules: seq<NamedRule>)
    ensures |Names(rules)| == |rules|
    ensures forall i :: 0 <= i < |rules| ==> Names(rules)[i] == rules[i].name
  {
    if rules != [] { NamesAt(rules[1..]); }
  }

  /** Every failed name is the name of some rule of the list. */
  lemma {:induction false} FailedNamesFrom(rules: seq<NamedRule>, pw: string)
    ensures forall x :: x in FailedNames(rules, pw) ==>
              exists j :: 0 <= j < |rules| && rules[j].name == x && !Holds(rules[j].rule, pw)
  {
    if rules != [] {
      FailedNamesFrom(rules[1..], pw);
      forall x | x in FailedNames(rules, pw)
        ensures exists j :: 0 <= j < |rules| && rules[j].name == x && !Holds(rules[j].rule, pw)
      {
        if x in FailedNames(rules[1..], pw) {
          var j :| 0 <= j < |rules[1..]| && rules[1..][j].name == x && !Holds(rules[1..][j].rule, pw);
          assert rules[j + 1] == rules[1..][j];
        } else {
          assert rules[0].name == x && !Holds(rules[0].rule, pw);
        }
      }
    }
  }

  lemma {:induction false} SubsequenceMembers<T>(a: seq<T>, b: seq<T>)
    requires IsSubsequence(a, b)
    ensures forall x :: x in a ==> x in b
    decreases |b|
  {
    if a != [] {
      if a[0] == b[0] && IsSubsequence(a[1..], b[1..]) {
        SubsequenceMembers(a[1..], b[1..]);
        forall x | x in a ensures x in b {
          if x != a[0] { assert x in a[1..]; assert x in b[1..]; }
        }
      } else {
        SubsequenceMembers(a, b[1..]);
        forall x | x in a ensures x in b { assert x in b[1..]; }
      }
    }
  }

  lemma {:induction false} SubsequenceKeepsDistinct<T>(a: seq<T>, b: seq<T>)
    requires IsSubsequence(a, b) && NoDuplicates(b)
    ensures NoDuplicates(a)
    decreases |b|
  {
    if a != [] {
      assert NoDuplicates(b[1..]) by {
        forall i, j | 0 <= i < j < |b[1..]| ensures b[1..][i] != b[1..][j] {
          assert b[1..][i] == b[i + 1] && b[1..][j] == b[j + 1];
        }
      }
      if a[0] == b[0] && IsSubsequence(a[1..], b[1..]) {
        SubsequenceKeepsDistinct(a[1..], b[1..]);
        SubsequenceMembers(a[1..], b[1..]);
        assert b[0] !in b[1..] by {
          forall k | 0 <= k < |b[1..]| ensures b[1..][k] != b[0] { assert b[1..][k] == b[k + 1]; }
        }
        forall i, j | 0 <= i < j < |a| ensures a[i] != a[j] {
          if i == 0 {
            assert a[j] == a[1..][j - 1];
            assert a[j] in a[1..];
          } else {
            assert a[i] == a[1..][i - 1] && a[j] == a[1..][j - 1];
          }
        }
      } else {
        SubsequenceKeepsDistinct(a, b[1..]);
      }
    }
  }

  lemma {:induction false} SubsequenceLength<T>(a: seq<T>, b: seq<T>)
    requires IsSubsequence(a, b)
    ensures |a| <= |b|
    decreases |b|
  {
    if a != [] {
      if a[0] == b[0] && IsSubsequence(a[1..], b[1..]) {
        SubsequenceLength(a[1..], b[1..]);
      } else {
        SubsequenceLength(a, b[1..]);
      }
    }
  }

  /** The length rule of the report is "at least 8 characters". */
  lemma ReportLengthRule(pw: string)
    ensures "length" in ValidatePassword(pw).errors <==> |pw| < 8
  {
    assert ReportRules[0].name == "length";
  }

  /** A password that breaks exactly one rule of the report gets exactly that
      rule's name as its only error. */
  lemma SingleViolation(pw: string, k: nat)
    requires k < |ReportRules|
    requires !Holds(ReportRules[k].rule, pw)
    requires forall j :: 0 <= j < |ReportRules| && j != k ==> Holds(ReportRules[j].rule, pw)
    ensures ValidatePassword(pw).errors == [ReportRules[k].name]
  {
    SingleFailure(ReportRules, pw, k);
  }

  lemma {:induction false} SingleFailure(rules: seq<NamedRule>, pw: string, k: nat)
    requires k < |rules|
    requires !Holds(rules[k].rule, pw)
    requires forall j :: 0 <= j < |rules| && j != k ==> Holds(rules[j].rule, pw)
    ensures FailedNames(rules, pw) == [rules[k].name]
  {
    if k == 0 {
      FailedNamesEmpty(rules[1..], pw);
      forall i | 0 <= i < |rules[1..]| ensures Holds(rules[1..][i].rule, pw) {
        assert rules[1..][i] == rules[i + 1];
      }
    } else {
      assert Holds(rules[0].rule, pw);
      forall j | 0 <= j < |rules[1..]| && j != k - 1 ensures Holds(rules[1..][j].rule, pw) {
        assert rules[1..][j] == rules[j + 1];
      }
      SingleFailure(rules[1..], pw, k - 1);
    }
  }

  // ---------------------------------------------------------------------------
  // The strength meter of the registration page

  /** PASSWORD_RULES of the registration page, in display order. */
  const MeterRules: seq<Rule> := [
    MinLength(12), Contains(Upper), Contains(Lower), Contains(Digit), Contains(NonAlnum)
  ]

  /** `passwordStrength`: how many of the five meter rules hold. */
  function Strength(pw: string): (n: nat)
    ensures n <= 5
  {
    CountHolding(MeterRules, pw)
  }

  /** A full meter means the 12-character, four-class policy. */
  lemma StrengthFullIffFourClass(pw: string)
    ensures Strength(pw) == 5 <==> FourClassPolicy(pw, 12)
  {
    TestIsSearch(Upper, pw);
    TestIsSearch(Lower, pw);
    TestIsSearch(Digit, pw);
    TestIsSearch(NonAlnum, pw);
    assert AllHold(MeterRules, pw) <==>
      Holds(MeterRules[0], pw) && Holds(MeterRules[1], pw) && Holds(MeterRules[2], pw)
      && Holds(MeterRules[3], pw) && Holds(MeterRules[4], pw);
  }

  // ---------------------------------------------------------------------------
  // How the policies relate

  /** The 12-character policy is stricter than the auth routes' 10-character one. */
  lemma FourClassTwelveImpliesRouteRules(pw: string)
    requires FourClassPolicy(pw, 12)
    ensures ValidatePasswordRules(pw)
  {
    RouteRulesAreFourClass(pw);
  }

  /** A report that passes, on a password of 12 characters or more, meets the
      12-character four-class policy (every listed symbol is non-alphanumeric). */
  lemma ReportPassedImpliesFourClass(pw: string)
    requires ValidatePassword(pw).passed && |pw| >= 12
    ensures FourClassPolicy(pw, 12)
  {
    var r := ValidatePassword(pw);
    assert forall i :: 0 <= i < |ReportRules| ==> ReportRules[i].name !in r.errors;
    assert Holds(ReportRules[1].rule, pw) && Holds(ReportRules[2].rule, pw);
    assert Holds(ReportRules[3].rule, pw) && Holds(ReportRules[4].rule, pw);
    TestIsSearch(Upper, pw);
    TestIsSearch(Lower, pw);
    TestIsSearch(Digit, pw);
    TestIsSearch(Listed, pw);
    TestIsSearch(NonAlnum, pw);
    var i :| 0 <= i < |pw| && InClass(Listed, pw[i]);
    ListedIsNonAlnum(pw[i]);
  }

  /** The converse fails: an underscore is a special character for the auth
      routes and the schemas... */
  lemma UnderscoreIsSpecialForRoutes()
    ensures ValidatePasswordRules("Abcdefghij1_")
    ensures FourClassPolicy("Abcdefghij1_", 12)
  {
    var pw := "Abcdefghij1_";
    assert InClass(Upper, pw[0]) && InClass(Lower, pw[1]) && InClass(Digit, pw[10]);
    assert InClass(NonAlnum, pw[11]);
    RouteRulesAreFourClass(pw);
  }

  /** ...but not a symbol for the report, whose only complaint is the symbol rule. */
  lemma UnderscoreIsNotAReportSymbol(pw: string)
    requires pw == "Abcdefghij1_"
    ensures ValidatePassword(pw).errors == ["symbol"]
  {
    assert !Test(Listed, pw) by {
      assert '_' !in ListedSymbols;
      NoListedSymbol(pw);
      TestIsSearch(Listed, pw);
    }
    assert Test(Upper, pw) && Test(Lower, pw);
    assert Test(Digit, pw) by {
      assert InClass(Digit, pw[10]);
      TestIsSearch(Digit, pw);
    }
    SingleViolation(pw, 4);
  }

  lemma {:induction false} NoListedSymbol(s: string)
    requires forall i :: 0 <= i < |s| ==> IsAlnum(s[i]) || s[i] == '_'
    requires '_' !in ListedSymbols
    ensures !Has(Listed, s)
  {
    forall i | 0 <= i < |s| ensures !InClass(Listed, s[i]) {
      if IsAlnum(s[i]) { ListedIsNonAlnum(s[i]); }
    }
  }

  /** And an 8-character password can pass the report while the auth routes
      reject it. */
  lemma ShortPasswordPassesReportOnly(pw: string)
    requires pw == "Abcdef1!"
    ensures ValidatePassword(pw).passed
    ensures !ValidatePasswordRules(pw)
  {
    assert Test(Upper, pw) by { assert InClass(Upper, pw[0]); TestIsSearch(Upper, pw); }
    assert Test(Lower, pw) by { assert InClass(Lower, pw[1]); TestIsSearch(Lower, pw); }
    assert Test(Digit, pw) by { assert InClass(Digit, pw[6]); TestIsSearch(Digit, pw); }
    assert Test(Listed, pw) by { assert InClass(Listed, pw[7]); TestIsSearch(Listed, pw); }
    FailedNamesEmpty(ReportRules, pw);
  }
}
