/** The string operations the server relies on: JavaScript's `String.prototype.trim`
    (applied by every `trim: true` schema path), upper-casing (the `uppercase: true`
    course-code paths) and the case-insensitive substring match used by report search. */
module Text {
  import opened Common

  /** The white-space characters `trim` removes (ASCII white space, no-break space, BOM). */
  predicate IsSpace(c: char) {
    c == ' ' || c == '\t' || c == '\n' || c == '\r' || c == '\U{000B}' || c == '\U{000C}'
    || c == '\U{00A0}' || c == '\U{FEFF}'
  }

  /** Neither the first nor the last character is white space. */
  predicate IsTrimmed(s: string) {
    s == [] || (!IsSpace(s[0]) && !IsSpace(s[|s| - 1]))
  }

  predicate IsBlank(s: string) {
    forall k :: 0 <= k < |s| ==> IsSpace(s[k])
  }

  function TrimStart(s: string): (r: string)
    ensures |r| <= |s| && r == s[|s| - |r|..]
    ensures forall k :: 0 <= k < |s| - |r| ==> IsSpace(s[k])
    ensures r == [] || !IsSpace(r[0])
  {
    if s != [] && IsSpace(s[0]) then TrimStart(s[1..]) else s
  }

  function TrimEnd(s: string): (r: string)
    ensures |r| <= |s| && r == s[..|r|]
    ensures forall k :: |r| <= k < |s| ==> IsSpace(s[k])
    ensures r == [] || !IsSpace(r[|r| - 1])
  {
    if s != [] && IsSpace(s[|s| - 1]) then TrimEnd(s[..|s| - 1]) else s
  }

  /** `s.trim()`: trimmed, no longer than `s`, and empty exactly when `s` is all white space.
      `TrimDropsOnlySpace` says which characters go. */
  function Trim(s: string): (r: string)
    ensures IsTrimmed(r)
    ensures |r| <= |s|
    ensures r == [] <==> IsBlank(s)
  {
    var t := TrimStart(s);
    var r := TrimEnd(t);
    assert r != [] ==> r[0] == t[0];
    EmptyTrimIsBlank(s, t, r);
    r
  }

  /** `trim` keeps the slice of `s` after its leading white space and before its trailing white
      space, and drops nothing else. */
  lemma TrimDropsOnlySpace(s: string)
    ensures var n, r := LeadingSpaces(s), Trim(s);
      && n + |r| <= |s| && r == s[n..n + |r|]
      && (forall k :: 0 <= k < n ==> IsSpace(s[k]))
      && (forall k :: n + |r| <= k < |s| ==> IsSpace(s[k]))
  {
    LeadingAreSpace(s);
    SliceOfSuffix(s, LeadingSpaces(s), TrimStart(s), Trim(s));
  }

  lemma LeadingAreSpace(s: string)
    ensures TrimStart(s) == s[LeadingSpaces(s)..]
    ensures forall k :: 0 <= k < LeadingSpaces(s) ==> IsSpace(s[k])
  {
  }

  /** A prefix `r` of the suffix `t == s[n..]`, followed in `t` only by white space, is a slice of
      `s` followed in `s` only by white space. */
  lemma SliceOfSuffix(s: string, n: nat, t: string, r: string)
    requires n <= |s| && t == s[n..]
    requires |r| <= |t| && r == t[..|r|]
    requires forall k :: |r| <= k < |t| ==> IsSpace(t[k])
    ensures n + |r| <= |s| && r == s[n..n + |r|]
    ensures forall k :: n + |r| <= k < |s| ==> IsSpace(s[k])
  {
    forall k | n + |r| <= k < |s| ensures IsSpace(s[k]) {
      assert s[k] == t[k - n];
    }
  }

  /** `trim` on an optional path: applied to a value that is present. */
  function TrimOpt(o: Option<string>): (r: Option<string>)
    ensures r.Some? <==> o.Some?
    ensures r.Some? ==> r.value == Trim(o.value)
  {
    if o.Some? then Some(Trim(o.value)) else None
  }

  /** How many white-space characters `trim` drops at the front. */
  function LeadingSpaces(s: string): (n: nat)
    ensures n <= |s|
  {
    |s| - |TrimStart(s)|
  }

  lemma EmptyTrimIsBlank(s: string, t: string, r: string)
    requires t == TrimStart(s) && r == TrimEnd(t)
    ensures r == [] ==> IsBlank(s)
  {
    if r == [] {
      assert t == [];
    }
  }

  lemma {:induction false} TrimOfTrimmed(s: string)
    requires IsTrimmed(s)
    ensures Trim(s) == s
  {
    assert TrimStart(s) == s;
    assert TrimEnd(s) == s;
  }

  /** Trimming twice is trimming once: a stored (already trimmed) value is a fixed point. */
  lemma TrimIdempotent(s: string)
    ensures Trim(Trim(s)) == Trim(s)
  {
    TrimOfTrimmed(Trim(s));
  }

  function UpperChar(c: char): char {
    if 'a' <= c <= 'z' then (c as int - 32) as char else c
  }

  function LowerChar(c: char): char {
    if 'A' <= c <= 'Z' then (c as int + 32) as char else c
  }

  /** `s.toUpperCase()` on the ASCII letters. */
  function ToUpper(s: string): (r: string)
    ensures |r| == |s|
    ensures forall i :: 0 <= i < |s| ==> r[i] == UpperChar(s[i])
  {
    seq(|s|, i requires 0 <= i < |s| => UpperChar(s[i]))
  }

  /** `s.toLowerCase()` on the ASCII letters. */
  function ToLower(s: string): (r: string)
    ensures |r| == |s|
    ensures forall i :: 0 <= i < |s| ==> r[i] == LowerChar(s[i])
  {
    seq(|s|, i requires 0 <= i < |s| => LowerChar(s[i]))
  }

  predicate IsUpper(s: string) {
    forall i :: 0 <= i < |s| ==> UpperChar(s[i]) == s[i]
  }

  /** An upper-case string is its own upper-casing. */
  lemma UpperIsFixed(s: string)
    requires IsUpper(s)
    ensures ToUpper(s) == s
  {
  }

  /** Upper-casing changes no white space, so a trimmed string stays trimmed, and its result is upper case. */
  lemma UpperKeepsTrimmed(s: string)
    requires IsTrimmed(s)
    ensures IsTrimmed(ToUpper(s)) && IsUpper(ToUpper(s))
  {
  }

  /** A value through the `trim` and `uppercase` setters (the course-code paths): each character
      of the trimmed value, upper-cased. The result is trimmed and upper case, and it is empty
      exactly when the value sent is blank. */
  function TrimUpper(s: string): (r: string)
    ensures |r| == |Trim(s)|
    ensures forall i :: 0 <= i < |r| ==> r[i] == UpperChar(Trim(s)[i])
    ensures IsTrimmed(r) && IsUpper(r)
    ensures r == [] <==> IsBlank(s)
  {
    UpperKeepsTrimmed(Trim(s));
    ToUpper(Trim(s))
  }

  /** How many UTF-16 code units encode `c`: two (a surrogate pair) above U+FFFF, one below. */
  function Utf16Units(c: char): nat {
    if c as int > 0xFFFF then 2 else 1
  }

  /** A JavaScript string's `length`, which counts UTF-16 code units rather than characters. */
  function Utf16Length(s: string): (n: nat)
    ensures |s| <= n <= 2 * |s|
  {
    if s == [] then 0 else Utf16Units(s[0]) + Utf16Length(s[1..])
  }

  lemma {:induction false} Utf16LengthAppend(a: string, b: string)
    ensures Utf16Length(a + b) == Utf16Length(a) + Utf16Length(b)
  {
    if a != [] {
      assert (a + b)[0] == a[0] && (a + b)[1..] == a[1..] + b;
      Utf16LengthAppend(a[1..], b);
    } else {
      assert a + b == b;
    }
  }

  /** The two lengths agree exactly when no character lies above U+FFFF. */
  lemma {:induction false} Utf16LengthIsLength(s: string)
    ensures Utf16Length(s) == |s| <==> forall i :: 0 <= i < |s| ==> s[i] as int <= 0xFFFF
  {
    if s != [] {
      Utf16LengthIsLength(s[1..]);
      assert forall i :: 1 <= i < |s| ==> s[i] == s[1..][i - 1];
    }
  }

  /** A string made only of characters above U+FFFF (emoji, say) is twice as long in JavaScript. */
  lemma {:induction false} Utf16LengthOfAstral(s: string)
    requires forall i :: 0 <= i < |s| ==> s[i] as int > 0xFFFF
    ensures Utf16Length(s) == 2 * |s|
  {
    if s != [] {
      assert forall i :: 0 <= i < |s[1..]| ==> s[1..][i] == s[i + 1];
      Utf16LengthOfAstral(s[1..]);
    }
  }

  /** `pattern` occurs in `text` at some position. */
  predicate Contains(text: string, pattern: string) {
    exists i :: 0 <= i <= |text| - |pattern| && OccursAt(text, pattern, i)
  }

  predicate OccursAt(text: string, pattern: string, i: int) {
    0 <= i <= |text| - |pattern| && text[i..i + |pattern|] == pattern
  }

  /** A case-insensitive occurrence of `pattern` in `text` (the `$options: 'i'` match). */
  predicate ContainsIgnoringCase(text: string, pattern: string) {
    Contains(ToLower(text), ToLower(pattern))
  }

  /** The empty pattern occurs in every text. */
  lemma EmptyPatternMatches(text: string)
    ensures ContainsIgnoringCase(text, "")
  {
    assert OccursAt(ToLower(text), ToLower(""), 0);
  }

  /** A text matches itself, whatever the case of its letters. */
  lemma {:induction false} TextMatchesItself(text: string)
    ensures ContainsIgnoringCase(text, text)
    ensures ContainsIgnoringCase(ToUpper(text), text)
  {
    var l := ToLower(text);
    assert OccursAt(l, l, 0);
    var u := ToLower(ToUpper(text));
    forall i | 0 <= i < |text| ensures u[i] == l[i] { }
    assert OccursAt(u, l, 0);
  }

  /** `xs.join(sep)`. */
  function Join(xs: seq<string>, sep: string): string {
    if xs == [] then ""
    else if |xs| == 1 then xs[0]
    else xs[0] + sep + Join(xs[1..], sep)
  }

  /** The separator the export places between learning outcomes. */
  const OutcomeSeparator: string := "; "

  /** No "; " occurs in `s`. */
  predicate FreeOfSeparator(s: string) {
    forall i :: 0 <= i < |s| - 1 ==> !(s[i] == ';' && s[i + 1] == ' ')
  }

  /** Splits at every "; ", the inverse of joining with it. */
  function Split(s: string): seq<string> {
    SplitFrom(s, "")
  }

  /** `current` is the piece read so far. */
  function SplitFrom(s: string, current: string): (r: seq<string>)
    ensures r != []
  {
    if s == [] then [current]
    else if |s| >= 2 && s[0] == ';' && s[1] == ' ' then [current] + SplitFrom(s[2..], "")
    else SplitFrom(s[1..], current + [s[0]])
  }

  /** Reading a piece free of "; " up to a separator (or the end) just accumulates it. */
  lemma {:induction false} SplitFromPiece(x: string, tail: string, current: string)
    requires FreeOfSeparator(x)
    requires tail == [] || tail[0] == ';'
    ensures SplitFrom(x + tail, current) == SplitFrom(tail, current + x)
  {
    if x != [] {
      var s := x + tail;
      assert s[0] == x[0];
      assert !(|s| >= 2 && s[0] == ';' && s[1] == ' ') by {
        if |x| >= 2 { assert s[1] == x[1]; } else if tail != [] { assert s[1] == tail[0]; }
      }
      assert s[1..] == x[1..] + tail;
      assert FreeOfSeparator(x[1..]);
      SplitFromPiece(x[1..], tail, current + [x[0]]);
      assert current + [x[0]] + x[1..] == current + x;
    } else {
      assert x + tail == tail && current + x == current;
    }
  }

  /** Splitting the export's joined learning outcomes gives them back, provided there is at
      least one and none contains the separator. */
  lemma {:induction false} SplitJoin(xs: seq<string>)
    requires xs != []
    requires forall i :: 0 <= i < |xs| ==> FreeOfSeparator(xs[i])
    ensures Split(Join(xs, OutcomeSeparator)) == xs
  {
    if |xs| == 1 {
      SplitFromPiece(xs[0], [], "");
      assert xs[0] + [] == xs[0];
      assert "" + xs[0] == xs[0];
    } else {
      var rest := Join(xs[1..], OutcomeSeparator);
      assert Join(xs, OutcomeSeparator) == xs[0] + (OutcomeSeparator + rest);
      SplitFromPiece(xs[0], OutcomeSeparator + rest, "");
      assert "" + xs[0] == xs[0];
      var s := OutcomeSeparator + rest;
      assert s[2..] == rest;
      assert SplitFrom(s, xs[0]) == [xs[0]] + SplitFrom(rest, "");
      SplitJoin(xs[1..]);
      assert xs == [xs[0]] + xs[1..];
    }
  }

  /** The worked example of the export: ["A", "B"] becomes the single cell "A; B". */
  lemma JoinExample()
    ensures Join(["A", "B"], OutcomeSeparator) == "A; B"
    ensures Split("A; B") == ["A", "B"]
  {
    assert FreeOfSeparator("A") && FreeOfSeparator("B");
    SplitJoin(["A", "B"]);
  }
}
