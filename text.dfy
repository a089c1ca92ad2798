/** String primitives the pages rely on: JavaScript truthiness of an optional
    string, lower-casing, `includes`, `trim` and `split(sep)[0]`; and the
    code/text pair of a select option. */
module Text {

  datatype Option<+T> = None | Some(value: T)

  /** An `<option>` of a select: the code it submits and the text it shows. */
  datatype SelectOption = SelectOption(value: string, text: string)

  /** An optional string in a JavaScript condition: null, undefined and the
      empty string are falsy, every other string is truthy. */
  predicate Truthy(f: Option<string>)
  {
    f.Some? && f.value != ""
  }

  // ---------------------------------------------------------------------
  // Lower-casing (ASCII letters only)
  // ---------------------------------------------------------------------

  predicate IsUpper(c: char)
  {
    'A' <= c <= 'Z'
  }

  function LowerChar(c: char): (d: char)
    ensures !IsUpper(d)
    ensures IsUpper(c) ==> d as int == c as int + 32
    ensures !IsUpper(c) ==> d == c
  {
    if IsUpper(c) then (c as int + 32) as char else c
  }

  /** `s.toLowerCase()`, restricted to the ASCII letters: the length is
      kept, no upper-case letter is left, and every other character stays. */
  function Lower(s: string): (r: string)
    ensures |r| == |s|
    ensures forall i :: 0 <= i < |s| ==> !IsUpper(r[i])
    ensures forall i :: 0 <= i < |s| && !IsUpper(s[i]) ==> r[i] == s[i]
    ensures forall i :: 0 <= i < |s| && IsUpper(s[i]) ==> r[i] as int == s[i] as int + 32
  {
    seq(|s|, i requires 0 <= i < |s| => LowerChar(s[i]))
  }

  lemma LowerIdempotent(s: string)
    ensures Lower(Lower(s)) == Lower(s)
  {
  }

  // ---------------------------------------------------------------------
  // Substring search
  // ---------------------------------------------------------------------

  /** `t` occurs in `s` starting at position `i`. */
  predicate OccursAt(s: string, t: string, i: int)
  {
    0 <= i && i + |t| <= |s| && s[i..i + |t|] == t
  }

  /** `s.includes(t)`, computed by trying every start position in turn. */
  predicate Contains(s: string, t: string)
    ensures Contains(s, t) ==> |t| <= |s|
    ensures t <= s ==> Contains(s, t)
    decreases |s|
  {
    |t| <= |s| && (s[..|t|] == t || Contains(s[1..], t))
  }

  /** `Contains` agrees with the positional definition of an occurrence. */
  lemma {:induction false} ContainsIff(s: string, t: string)
    ensures Contains(s, t) <==> exists i :: OccursAt(s, t, i)
    decreases |s|
  {
    if |t| <= |s| {
      if s[..|t|] == t {
        assert OccursAt(s, t, 0);
      } else {
        ContainsIff(s[1..], t);
        if Contains(s[1..], t) {
          var i :| OccursAt(s[1..], t, i);
          assert s[1..][i..i + |t|] == s[i + 1..i + 1 + |t|];
          assert OccursAt(s, t, i + 1);
        } else {
          forall i | 0 < i && OccursAt(s, t, i)
            ensures OccursAt(s[1..], t, i - 1)
          {
            assert s[1..][i - 1..i - 1 + |t|] == s[i..i + |t|];
          }
          assert !OccursAt(s, t, 0) by { assert s[0..|t|] == s[..|t|]; }
        }
      }
    }
  }

  /** The empty string occurs in every string. */
  lemma ContainsEmpty(s: string)
    ensures Contains(s, "")
  {
  }

  /** `field?.toLowerCase().includes(term.toLowerCase())` as a condition:
      an absent field never matches. */
  predicate Includes(field: Option<string>, term: string)
    ensures Includes(field, term) ==> field.Some? && |term| <= |field.value|
    ensures field.Some? && Lower(term) <= Lower(field.value) ==> Includes(field, term)
  {
    field.Some? && Contains(Lower(field.value), Lower(term))
  }

  /** Matching ignores the case of the search term. */
  lemma IncludesCaseInsensitive(field: Option<string>, term: string)
    ensures Includes(field, Lower(term)) == Includes(field, term)
  {
    LowerIdempotent(term);
  }

  /** A present field includes the empty term; an absent one includes nothing. */
  lemma IncludesEmptyTerm(field: Option<string>)
    ensures Includes(field, "") <==> field.Some?
  {
  }

  /** The search test in the terms a user thinks of: the lower-cased term is
      a substring of the lower-cased field, and the field is present. */
  lemma IncludesIff(field: Option<string>, term: string)
    ensures Includes(field, term) <==>
              field.Some? && exists i :: OccursAt(Lower(field.value), Lower(term), i)
  {
    if field.Some? {
      ContainsIff(Lower(field.value), Lower(term));
    }
  }

  // ---------------------------------------------------------------------
  // Trimming
  // ---------------------------------------------------------------------

  /** The code points `String.prototype.trim` removes: ECMAScript WhiteSpace
      and LineTerminator. */
  predicate IsSpace(c: char)
  {
    || c == ' ' || c == '\t' || c == '\n' || c == '\r'
    || c == '\U{000B}' || c == '\U{000C}' || c == '\U{00A0}' || c == '\U{1680}'
    || ('\U{2000}' <= c <= '\U{200A}')
    || c == '\U{2028}' || c == '\U{2029}' || c == '\U{202F}' || c == '\U{205F}'
    || c == '\U{3000}' || c == '\U{FEFF}'
  }

  predicate AllSpace(s: string)
  {
    forall i :: 0 <= i < |s| ==> IsSpace(s[i])
  }

  /** Leading white space removed: a suffix of `s`, everything dropped is
      white space, and what is left does not start with white space. */
  function TrimStart(s: string): (r: string)
    ensures |r| <= |s| && r == s[|s| - |r|..]
    ensures AllSpace(s[..|s| - |r|])
    ensures r != [] ==> !IsSpace(r[0])
  {
    if s != [] && IsSpace(s[0]) then TrimStart(s[1..]) else s
  }

  /** Trailing white space removed: a prefix of `s`, everything dropped is
      white space, and what is left does not end with white space. */
  function TrimEnd(s: string): (r: string)
    ensures |r| <= |s| && r == s[..|r|]
    ensures AllSpace(s[|r|..])
    ensures r != [] ==> !IsSpace(r[|r| - 1])
  {
    if s != [] && IsSpace(s[|s| - 1]) then TrimEnd(s[..|s| - 1]) else s
  }

  /** `s.trim()`: a slice of `s` with white space only around it, that
      neither starts nor ends with white space. */
  function Trim(s: string): (r: string)
    ensures exists i :: 0 <= i <= |s| - |r| && r == s[i..i + |r|] && AllSpace(s[..i]) && AllSpace(s[i + |r|..])
    ensures r != [] ==> !IsSpace(r[0]) && !IsSpace(r[|r| - 1])
  {
    var t := TrimStart(s);
    var u := TrimEnd(t);
    var i := |s| - |t|;
    assert u == s[i..i + |u|] by { assert u == t[..|u|] && t == s[i..]; }
    assert AllSpace(s[i + |u|..]) by { assert s[i + |u|..] == t[|u|..]; }
    u
  }

  /** `!s.trim()`: a string is blank exactly when it is all white space. */
  lemma TrimEmptyIff(s: string)
    ensures Trim(s) == "" <==> AllSpace(s)
  {
  }

  // ---------------------------------------------------------------------
  // Splitting
  // ---------------------------------------------------------------------

  /** `s.split(sep)[0]`: the longest prefix of `s` without `sep`. */
  function BeforeFirst(s: string, sep: char): (r: string)
    ensures |r| <= |s| && r == s[..|r|]
    ensures sep !in r
    ensures |r| < |s| ==> s[|r|] == sep
  {
    if s == [] || s[0] == sep then [] else [s[0]] + BeforeFirst(s[1..], sep)
  }

  /** A string without the separator is its own first piece. */
  lemma BeforeFirstNoSep(s: string, sep: char)
    requires sep !in s
    ensures BeforeFirst(s, sep) == s
  {
  }

  lemma BeforeFirstIdempotent(s: string, sep: char)
    ensures BeforeFirst(BeforeFirst(s, sep), sep) == BeforeFirst(s, sep)
  {
  }
}
