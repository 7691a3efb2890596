/**
  * The string operations the client applies to titles, names and numbers:
  * `toLowerCase()`, `replace(/\s+/g, '-')`, `replace(/[^a-z0-9-]/g, '')`,
  * JavaScript's `||` on strings and `Number.prototype.toString()` on integers.
  * Case mapping and `\s` are restricted to ASCII.
  */
module Text {

  /** JavaScript's `a || b` on strings: the empty string is falsy. */
  function Or(a: string, b: string): string {
    if a != "" then a else b
  }

  /** The first non-empty candidate, or `default` when all are empty: a chain `c0 || c1 || ... || default`. */
  function FirstNonEmpty(candidates: seq<string>, default: string): (r: string)
    ensures forall i :: 0 <= i < |candidates| && candidates[i] != "" && (forall j :: 0 <= j < i ==> candidates[j] == "") ==> r == candidates[i]
    ensures (forall i :: 0 <= i < |candidates| ==> candidates[i] == "") ==> r == default
    ensures r == default || r in candidates
  {
    if candidates == [] then default
    else if candidates[0] != "" then candidates[0]
    else
      var rest := FirstNonEmpty(candidates[1..], default);
      assert forall i :: 1 <= i < |candidates| ==> candidates[i] == candidates[1..][i - 1];
      rest
  }

  /** A `||` chain unfolds one candidate at a time. */
  lemma OrChain(candidates: seq<string>, default: string)
    requires 1 <= |candidates| <= 4
    ensures FirstNonEmpty(candidates, default) == Or(candidates[0], FirstNonEmpty(candidates[1..], default))
    ensures |candidates| == 1 ==> FirstNonEmpty(candidates, default) == Or(candidates[0], default)
    ensures |candidates| == 2 ==> FirstNonEmpty(candidates, default) == Or(candidates[0], Or(candidates[1], default))
    ensures |candidates| == 4 ==>
              FirstNonEmpty(candidates, default) == Or(candidates[0], Or(candidates[1], Or(candidates[2], Or(candidates[3], default))))
  {
    var c := candidates;
    if |c| >= 2 {
      assert c[1..][1..] == c[2..];
    }
    if |c| == 4 {
      assert c[2..][1..] == c[3..];
      assert c[3..][1..] == [];
    }
  }

  // ---------------------------------------------------------------- characters

  /** ASCII whitespace as matched by `\s`: space, tab, line feed, vertical tab, form feed, carriage return. */
  predicate IsSpace(c: char) {
    c == ' ' || c == '\t' || c == '\n' || c == '\r' || c as int == 0x0B || c as int == 0x0C
  }

  predicate IsUpper(c: char) { 'A' <= c <= 'Z' }

  predicate IsDigit(c: char) { '0' <= c <= '9' }

  /** A character that `[a-z0-9-]` accepts. */
  predicate IsSlugChar(c: char) { 'a' <= c <= 'z' || IsDigit(c) || c == '-' }

  /** A string made only of slug characters. */
  predicate IsSlug(s: string) { forall i :: 0 <= i < |s| ==> IsSlugChar(s[i]) }

  function LowerChar(c: char): char {
    if IsUpper(c) then (c as int + 32) as char else c
  }

  // ---------------------------------------------------------------- lower-casing

  /** `s.toLowerCase()`, ASCII only. */
  function Lower(s: string): string {
    seq(|s|, i requires 0 <= i < |s| => LowerChar(s[i]))
  }

  /** Lower-casing leaves no upper-case letter and keeps the length. */
  lemma LowerFacts(s: string)
    ensures |Lower(s)| == |s|
    ensures forall i :: 0 <= i < |s| ==> !IsUpper(Lower(s)[i])
    ensures forall i :: 0 <= i < |s| ==> (IsSpace(Lower(s)[i]) <==> IsSpace(s[i]))
  {
  }

  /** A string without upper-case letters is its own lower-case form. */
  lemma LowerOfLower(s: string)
    requires forall i :: 0 <= i < |s| ==> !IsUpper(s[i])
    ensures Lower(s) == s
  {
  }

  // ---------------------------------------------------------------- whitespace runs

  /** Drops the whitespace at the head of `s`. */
  function DropSpaces(s: string): (r: string)
    ensures |r| <= |s|
    ensures r == [] || !IsSpace(r[0])
  {
    if s != [] && IsSpace(s[0]) then DropSpaces(s[1..]) else s
  }

  /** `s.replace(/\s+/g, '-')`: every maximal run of whitespace becomes a single '-'. */
  function Dashify(s: string): (r: string)
    ensures forall i :: 0 <= i < |r| ==> !IsSpace(r[i])
    ensures |r| <= |s|
    ensures r == [] <==> s == []
    decreases |s|
  {
    if s == [] then []
    else if IsSpace(s[0]) then "-" + Dashify(DropSpaces(s[1..]))
    else [s[0]] + Dashify(s[1..])
  }

  /** A run of whitespace of any length gives one dash: "a \t b" and "a b" dashify alike. */
  lemma {:induction false} DashifyCollapsesRun(s: string, t: string)
    requires s != [] && forall i :: 0 <= i < |s| ==> IsSpace(s[i])
    requires t == [] || !IsSpace(t[0])
    ensures Dashify(s + t) == "-" + Dashify(t)
  {
    DropSpacesOfRun(s[1..], t);
    assert (s + t)[1..] == s[1..] + t;
  }

  lemma {:induction false} DropSpacesOfRun(s: string, t: string)
    requires forall i :: 0 <= i < |s| ==> IsSpace(s[i])
    requires t == [] || !IsSpace(t[0])
    ensures DropSpaces(s + t) == t
    decreases |s|
  {
    if s == [] {
      assert s + t == t;
    } else {
      assert (s + t)[1..] == s[1..] + t;
      DropSpacesOfRun(s[1..], t);
    }
  }

  /** A string without whitespace is left as it is. */
  lemma {:induction false} DashifyWithoutSpaces(s: string)
    requires forall i :: 0 <= i < |s| ==> !IsSpace(s[i])
    ensures Dashify(s) == s
    decreases |s|
  {
    if s != [] {
      DashifyWithoutSpaces(s[1..]);
      assert [s[0]] + s[1..] == s;
    }
  }

  /** A character other than whitespace passes through the dashing unchanged. */
  lemma DashifyKeepsNonSpace(c: char, t: string)
    requires !IsSpace(c)
    ensures Dashify([c] + t) == [c] + Dashify(t)
  {
    assert ([c] + t)[1..] == t;
  }

  /**
    * Dashing works piece by piece across a cut just after a non-space character:
    * no whitespace run straddles the cut.
    */
  lemma {:induction false} DashifyConcat(s: string, t: string)
    requires s == [] || !IsSpace(s[|s| - 1])
    ensures Dashify(s + t) == Dashify(s) + Dashify(t)
    decreases |s|
  {
    if s == [] {
      assert s + t == t;
    } else if !IsSpace(s[0]) {
      assert (s + t)[1..] == s[1..] + t;
      DashifyConcat(s[1..], t);
    } else {
      var u := s[1..];
      assert (s + t)[1..] == u + t;
      assert Dashify(s + t) == "-" + Dashify(DropSpaces(u + t));
      DropSpacesConcat(u, t);
      DropSpacesKeepsLast(u);
      DashifyConcat(DropSpaces(u), t);
    }
  }

  /** Dropping the leading whitespace of a string that ends in a non-space keeps that last character. */
  lemma {:induction false} DropSpacesKeepsLast(u: string)
    requires u != [] && !IsSpace(u[|u| - 1])
    ensures DropSpaces(u) != [] && DropSpaces(u)[|DropSpaces(u)| - 1] == u[|u| - 1]
    decreases |u|
  {
    if IsSpace(u[0]) {
      DropSpacesKeepsLast(u[1..]);
    }
  }

  /** Dropping the leading whitespace of `u + t` stops inside `u` when `u` ends in a non-space. */
  lemma {:induction false} DropSpacesConcat(u: string, t: string)
    requires u != [] && !IsSpace(u[|u| - 1])
    ensures DropSpaces(u + t) == DropSpaces(u) + t
    decreases |u|
  {
    assert (u + t)[0] == u[0];
    if IsSpace(u[0]) {
      assert (u + t)[1..] == u[1..] + t;
      DropSpacesConcat(u[1..], t);
    }
  }

  // ---------------------------------------------------------------- slugs

  /** `s.replace(/[^a-z0-9-]/g, '')`: keeps the slug characters, in order. */
  function KeepSlugChars(s: string): (r: string)
    ensures IsSlug(r)
    ensures |r| <= |s|
  {
    if s == [] then []
    else (if IsSlugChar(s[0]) then [s[0]] else []) + KeepSlugChars(s[1..])
  }

  /** The filter works character by character: each slug character is kept, any other dropped, in order. */
  lemma {:induction false} KeepSlugCharsConcat(s: string, t: string)
    ensures KeepSlugChars(s + t) == KeepSlugChars(s) + KeepSlugChars(t)
    ensures |s| == 1 ==> KeepSlugChars(s) == (if IsSlugChar(s[0]) then s else [])
    decreases |s|
  {
    if s == [] {
      assert s + t == t;
    } else {
      assert (s + t)[0] == s[0] && (s + t)[1..] == s[1..] + t;
      KeepSlugCharsConcat(s[1..], t);
      if |s| == 1 {
        assert s[1..] == [];
      }
    }
  }

  /** A string of slug characters loses nothing to the filter. */
  lemma {:induction false} KeepSlugCharsOfSlug(s: string)
    requires IsSlug(s)
    ensures KeepSlugChars(s) == s
  {
    if s != [] {
      KeepSlugCharsOfSlug(s[1..]);
      assert [s[0]] + s[1..] == s;
    }
  }

  /** `s.toLowerCase().replace(/\s+/g, '-')`: the slug default of the service layer. */
  function DashSlug(s: string): (r: string)
    ensures forall i :: 0 <= i < |r| ==> !IsSpace(r[i]) && !IsUpper(r[i])
    ensures r == [] <==> s == []
  {
    LowerFacts(s);
    DashifyKeepsCase(Lower(s));
    Dashify(Lower(s))
  }

  lemma {:induction false} DashifyKeepsCase(s: string)
    requires forall i :: 0 <= i < |s| ==> !IsUpper(s[i])
    ensures forall i :: 0 <= i < |Dashify(s)| ==> !IsUpper(Dashify(s)[i])
    decreases |s|
  {
    if s != [] {
      if IsSpace(s[0]) {
        var t := DropSpaces(s[1..]);
        DropSpacesIsSuffix(s[1..]);
        DashifyKeepsCase(t);
      } else {
        DashifyKeepsCase(s[1..]);
      }
    }
  }

  lemma {:induction false} DropSpacesIsSuffix(s: string)
    ensures exists k :: 0 <= k <= |s| && DropSpaces(s) == s[k..]
  {
    if s != [] && IsSpace(s[0]) {
      DropSpacesIsSuffix(s[1..]);
      var k :| 0 <= k <= |s[1..]| && DropSpaces(s[1..]) == s[1..][k..];
      assert s[1..][k..] == s[k + 1..];
    } else {
      assert s == s[0..];
    }
  }

  /**
    * The form slug: `s.toLowerCase().replace(/\s+/g, '-').replace(/[^a-z0-9-]/g, '')`,
    * as the post form derives it from a title and the category form from a name.
    */
  function FormSlug(s: string): (r: string)
    ensures IsSlug(r)
  {
    KeepSlugChars(Dashify(Lower(s)))
  }

  /** Deriving the slug from a slug gives it back, so re-deriving is idempotent. */
  lemma {:induction false} FormSlugOfSlug(s: string)
    requires IsSlug(s)
    ensures FormSlug(s) == s
  {
    assert forall i :: 0 <= i < |s| ==> !IsUpper(s[i]) && !IsSpace(s[i]);
    LowerOfLower(s);
    DashifyWithoutSpaces(s);
    KeepSlugCharsOfSlug(s);
  }

  /** Lower-casing works character by character. */
  lemma LowerConcat(s: string, t: string)
    ensures Lower(s + t) == Lower(s) + Lower(t)
  {
  }

  /** Whitespace is not touched by lower-casing. */
  lemma LowerOfRun(run: string)
    requires forall i :: 0 <= i < |run| ==> IsSpace(run[i])
    ensures Lower(run) == run
  {
  }

  /**
    * Dashing the lower-cased text of two pieces joined by a whitespace run gives
    * the two pieces' results joined by one '-'.
    */
  lemma DashLowerJoin(a: string, run: string, b: string)
    requires a == [] || !IsSpace(a[|a| - 1])
    requires run != [] && forall i :: 0 <= i < |run| ==> IsSpace(run[i])
    requires b == [] || !IsSpace(b[0])
    ensures Dashify(Lower(a + run + b)) == Dashify(Lower(a)) + "-" + Dashify(Lower(b))
  {
    LowerConcat(a + run, b);
    LowerConcat(a, run);
    LowerOfRun(run);
    LowerFacts(a);
    LowerFacts(b);
    assert Lower(a + run + b) == Lower(a) + (run + Lower(b));
    DashifyConcat(Lower(a), run + Lower(b));
    DashifyCollapsesRun(run, Lower(b));
  }

  /**
    * The slug of a title is built word by word: two pieces separated by a
    * whitespace run give their own slugs joined by a single '-'.
    */
  lemma FormSlugJoin(a: string, run: string, b: string)
    requires a == [] || !IsSpace(a[|a| - 1])
    requires run != [] && forall i :: 0 <= i < |run| ==> IsSpace(run[i])
    requires b == [] || !IsSpace(b[0])
    ensures FormSlug(a + run + b) == FormSlug(a) + "-" + FormSlug(b)
  {
    DashLowerJoin(a, run, b);
    KeepSlugCharsConcat(Dashify(Lower(a)) + "-", Dashify(Lower(b)));
    KeepSlugCharsConcat(Dashify(Lower(a)), "-");
    KeepSlugCharsConcat("-", []);
  }

  /** The slug of a single word is its lower-cased slug characters, in order. */
  lemma FormSlugOfWord(w: string)
    requires forall i :: 0 <= i < |w| ==> !IsSpace(w[i])
    ensures FormSlug(w) == KeepSlugChars(Lower(w))
  {
    LowerFacts(w);
    DashifyWithoutSpaces(Lower(w));
  }

  /** The service's default slug is built the same way: two pieces around a whitespace run join with one '-'. */
  lemma DashSlugJoin(a: string, run: string, b: string)
    requires a == [] || !IsSpace(a[|a| - 1])
    requires run != [] && forall i :: 0 <= i < |run| ==> IsSpace(run[i])
    requires b == [] || !IsSpace(b[0])
    ensures DashSlug(a + run + b) == DashSlug(a) + "-" + DashSlug(b)
  {
    DashLowerJoin(a, run, b);
  }

  /** The service's default slug of a single word is that word lower-cased. */
  lemma DashSlugOfWord(w: string)
    requires forall i :: 0 <= i < |w| ==> !IsSpace(w[i])
    ensures DashSlug(w) == Lower(w)
  {
    LowerFacts(w);
    DashifyWithoutSpaces(Lower(w));
  }

  lemma FormSlugIdempotent(s: string)
    ensures FormSlug(FormSlug(s)) == FormSlug(s)
  {
    FormSlugOfSlug(FormSlug(s));
  }

  // ---------------------------------------------------------------- numbers

  function DigitChar(d: nat): (c: char)
    requires d < 10
    ensures IsDigit(c)
  {
    "0123456789"[d]
  }

  function DigitValue(c: char): nat
    requires IsDigit(c)
  {
    c as int - '0' as int
  }

  /** The decimal rendering of a natural number, without leading zeros. */
  function NatToString(n: nat): (r: string)
    ensures r != []
    ensures forall i :: 0 <= i < |r| ==> IsDigit(r[i])
    ensures r[0] == '0' ==> n == 0
  {
    if n < 10 then [DigitChar(n)] else NatToString(n / 10) + [DigitChar(n % 10)]
  }

  /** The decimal rendering of an integer, as `String(n)` and `${n}` give it. */
  function IntToString(n: int): (r: string)
    ensures r != []
    ensures r[0] == '-' <==> n < 0
  {
    if n < 0 then "-" + NatToString(-n) else NatToString(n)
  }

  /** Reads a string of decimal digits. */
  function ParseNat(s: string): nat
    requires forall i :: 0 <= i < |s| ==> IsDigit(s[i])
  {
    if s == [] then 0 else ParseNat(s[..|s| - 1]) * 10 + DigitValue(s[|s| - 1])
  }

  /** Rendering then reading gives the number back, so distinct numbers render differently. */
  lemma {:induction false} NatToStringRoundTrip(n: nat)
    ensures ParseNat(NatToString(n)) == n
  {
    if n >= 10 {
      var s := NatToString(n);
      NatToStringRoundTrip(n / 10);
      assert s[..|s| - 1] == NatToString(n / 10);
    }
  }

  // ---------------------------------------------------------------- prefixes

  /** `s.startsWith(p)`. */
  predicate StartsWith(s: string, p: string) {
    |p| <= |s| && s[..|p|] == p
  }
}
