/**
 The few pieces of JavaScript runtime behaviour that the scorers depend on,
 restricted to the inputs they are applied to:
 - `String.prototype.toLowerCase` over ASCII,
 - `replace(/\s+/g, '')` over ASCII whitespace,
 - `x || y` on two numbers (NaN is not modelled),
 - `table[key] || fallback` on a string-keyed table whose values are all truthy.
 */
module JsSemantics {

  datatype Option<+T> = None | Some(value: T)

  /** Truthiness of an optional number: `undefined` and `0` are falsy. */
  predicate Truthy(x: Option<real>) {
    x.Some? && x.value != 0.0
  }

  /** JavaScript `x || y` on numbers: `x` unless `x` is falsy (0). */
  function Or(x: real, y: real): real {
    if x != 0.0 then x else y
  }

  /** A fallback of 0 never changes a number: `x || 0` is `x`. */
  lemma OrZeroIsInert(x: real)
    ensures Or(x, 0.0) == x
  {
  }

  predicate IsUpper(c: char) {
    'A' <= c <= 'Z'
  }

  function LowerChar(c: char): (d: char)
    ensures !IsUpper(d)
  {
    if IsUpper(c) then (c as int + 32) as char else c
  }

  /** `toLowerCase` over ASCII: every upper-case letter is replaced by its
      lower-case partner, every other character is kept, in place. */
  function ToLowerCase(s: string): (r: string)
    ensures |r| == |s|
    ensures forall i :: 0 <= i < |s| ==> r[i] == LowerChar(s[i])
  {
    if s == [] then [] else [LowerChar(s[0])] + ToLowerCase(s[1..])
  }

  /** A string without upper-case letters is its own lower-case form. */
  lemma ToLowerCaseOfLower(s: string)
    requires forall i :: 0 <= i < |s| ==> !IsUpper(s[i])
    ensures ToLowerCase(s) == s
  {
  }

  /** Lower-casing works piecewise: it distributes over concatenation. */
  lemma ToLowerCaseAppend(a: string, b: string)
    ensures ToLowerCase(a + b) == ToLowerCase(a) + ToLowerCase(b)
  {
    forall i | 0 <= i < |a + b|
      ensures ToLowerCase(a + b)[i] == (ToLowerCase(a) + ToLowerCase(b))[i]
    {
      if i >= |a| {
        assert (a + b)[i] == b[i - |a|];
      }
    }
  }

  /** Two strings that differ only in the case of their letters. */
  predicate EqualIgnoringCase(s: string, t: string) {
    |s| == |t| && forall i :: 0 <= i < |s| ==> LowerChar(s[i]) == LowerChar(t[i])
  }

  /** Lower-casing is idempotent and identifies exactly the strings that are
      equal up to case. */
  lemma ToLowerCaseCharacterizesCase(s: string, t: string)
    ensures ToLowerCase(ToLowerCase(s)) == ToLowerCase(s)
    ensures ToLowerCase(s) == ToLowerCase(t) <==> EqualIgnoringCase(s, t)
  {
    if ToLowerCase(s) == ToLowerCase(t) {
      forall i | 0 <= i < |s|
        ensures LowerChar(s[i]) == LowerChar(t[i])
      {
        assert ToLowerCase(s)[i] == ToLowerCase(t)[i];
      }
    }
  }

  /** A string equal up to case to one without upper-case letters lower-cases
      to exactly that string. */
  lemma LowerCaseOfEqualIgnoringCase(s: string, t: string)
    requires EqualIgnoringCase(s, t)
    requires forall i :: 0 <= i < |t| ==> !IsUpper(t[i])
    ensures ToLowerCase(s) == t
  {
    ToLowerCaseCharacterizesCase(s, t);
    ToLowerCaseOfLower(t);
  }

  /** The characters matched by `\s` that lie in ASCII: tab, line feed,
      vertical tab, form feed, carriage return and space. */
  predicate IsWhitespace(c: char) {
    c == ' ' || 9 <= c as int <= 13
  }

  /** `replace(/\s+/g, '')`: the non-whitespace characters of `s`, in order. */
  function RemoveWhitespace(s: string): (r: string)
    ensures |r| <= |s|
    ensures forall i :: 0 <= i < |r| ==> !IsWhitespace(r[i])
    ensures (forall i :: 0 <= i < |s| ==> !IsWhitespace(s[i])) ==> r == s
    ensures |s| == 1 ==> r == (if IsWhitespace(s[0]) then [] else s)
  {
    if s == [] then []
    else if IsWhitespace(s[0]) then RemoveWhitespace(s[1..])
    else [s[0]] + RemoveWhitespace(s[1..])
  }

  /** Removing whitespace works piecewise: it distributes over concatenation. */
  lemma {:induction false} RemoveWhitespaceAppend(a: string, b: string)
    ensures RemoveWhitespace(a + b) == RemoveWhitespace(a) + RemoveWhitespace(b)
    decreases |a|
  {
    if a == [] {
      assert a + b == b;
    } else {
      assert (a + b)[0] == a[0];
      assert (a + b)[1..] == a[1..] + b;
      RemoveWhitespaceAppend(a[1..], b);
    }
  }

  /** A string of whitespace only disappears entirely. */
  lemma {:induction false} RemoveWhitespaceOfWhitespace(w: string)
    requires forall i :: 0 <= i < |w| ==> IsWhitespace(w[i])
    ensures RemoveWhitespace(w) == []
    decreases |w|
  {
    if w != [] {
      RemoveWhitespaceOfWhitespace(w[1..]);
    }
  }

  /** Lower-casing and then removing whitespace forgets any run of
      whitespace inserted into the input. */
  lemma LowerWithoutWhitespaceIgnoresWhitespace(a: string, w: string, b: string)
    requires forall i :: 0 <= i < |w| ==> IsWhitespace(w[i])
    ensures RemoveWhitespace(ToLowerCase(a + w + b)) == RemoveWhitespace(ToLowerCase(a + b))
  {
    var la, lw, lb := ToLowerCase(a), ToLowerCase(w), ToLowerCase(b);
    calc {
      RemoveWhitespace(ToLowerCase(a + w + b));
    == { ToLowerCaseAppend(a + w, b); ToLowerCaseAppend(a, w); }
      RemoveWhitespace(la + lw + lb);
    == { RemoveWhitespaceAppend(la + lw, lb); RemoveWhitespaceAppend(la, lw); }
      RemoveWhitespace(la) + RemoveWhitespace(lw) + RemoveWhitespace(lb);
    == { assert forall i :: 0 <= i < |lw| ==> IsWhitespace(lw[i]);
         RemoveWhitespaceOfWhitespace(lw); }
      RemoveWhitespace(la) + [] + RemoveWhitespace(lb);
    == { assert RemoveWhitespace(la) + [] == RemoveWhitespace(la); }
      RemoveWhitespace(la) + RemoveWhitespace(lb);
    == { RemoveWhitespaceAppend(la, lb); }
      RemoveWhitespace(la + lb);
    == { ToLowerCaseAppend(a, b); }
      RemoveWhitespace(ToLowerCase(a + b));
    }
  }

  /** `table[key] || fallback`, for a table whose values are all truthy. */
  function LookupOr<K>(table: map<string, K>, key: string, fallback: K): K {
    if key in table then table[key] else fallback
  }
}
