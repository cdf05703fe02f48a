/**
 * The JavaScript string built-ins the bot's parsers rely on, stated over
 * `seq<char>`: `String.prototype.split` with a one-character separator,
 * `Array.prototype.join`, `includes`, `replace` with a string pattern,
 * `trim`, `toLowerCase` and the relational `<=` on strings.
 */
module JsString {

  datatype Option<+T> = None | Some(value: T)

  // ---------------------------------------------------------------------------
  // split / join

  /** `s.split(d)` for a one-character separator `d`: every maximal run of
      non-separator characters between separators, empty runs included. */
  function SplitAll(s: string, d: char): (r: seq<string>)
    ensures |r| >= 1
    ensures forall i :: 0 <= i < |r| ==> d !in r[i]
    decreases |s|
  {
    if |s| == 0 then [""]
    else
      var rest := SplitAll(s[1..], d);
      if s[0] == d then [""] + rest
      else [[s[0]] + rest[0]] + rest[1..]
  }

  /** `parts.join(d)`; the empty array joins to the empty string. */
  function Join(parts: seq<string>, d: char): string
    decreases |parts|
  {
    if |parts| == 0 then ""
    else if |parts| == 1 then parts[0]
    else parts[0] + [d] + Join(parts[1..], d)
  }

  /** Joining what `split` produced gives back the original text. */
  lemma {:induction false} JoinSplitAll(s: string, d: char)
    ensures Join(SplitAll(s, d), d) == s
    decreases |s|
  {
    if |s| > 0 {
      var rest := SplitAll(s[1..], d);
      JoinSplitAll(s[1..], d);
      if s[0] == d {
        assert SplitAll(s, d) == [""] + rest;
        assert s == [d] + s[1..];
      } else {
        var r := SplitAll(s, d);
        assert r == [[s[0]] + rest[0]] + rest[1..];
        if |rest| == 1 {
          assert Join(r, d) == [s[0]] + rest[0];
        } else {
          assert Join(rest, d) == rest[0] + [d] + Join(rest[1..], d);
          assert r[1..] == rest[1..];
          assert Join(r, d) == [s[0]] + rest[0] + [d] + Join(rest[1..], d);
        }
        assert s == [s[0]] + s[1..];
      }
    }
  }

  /** Splitting a join of separator-free parts gives back the parts. */
  lemma {:induction false} SplitAllJoin(parts: seq<string>, d: char)
    requires |parts| >= 1
    requires forall i :: 0 <= i < |parts| ==> d !in parts[i]
    ensures SplitAll(Join(parts, d), d) == parts
    decreases |parts|
  {
    if |parts| == 1 {
      SplitAllNoSeparator(parts[0], d);
    } else {
      SplitAllJoin(parts[1..], d);
      SplitAllPrefix(parts[0], Join(parts[1..], d), d);
      assert Join(parts, d) == parts[0] + ([d] + Join(parts[1..], d));
      assert [parts[0]] + parts[1..] == parts;
    }
  }

  lemma {:induction false} SplitAllNoSeparator(s: string, d: char)
    requires d !in s
    ensures SplitAll(s, d) == [s]
    decreases |s|
  {
    if |s| > 0 {
      assert d !in s[1..];
      SplitAllNoSeparator(s[1..], d);
      assert s == [s[0]] + s[1..];
    }
  }

  /** Splitting `p + [d] + t` for a separator-free `p`: `p` is the first
      field and the fields of `t` follow. */
  lemma {:induction false} SplitAllPrefix(p: string, t: string, d: char)
    requires d !in p
    ensures SplitAll(p + ([d] + t), d) == [p] + SplitAll(t, d)
    decreases |p|
  {
    if |p| == 0 {
      assert p + ([d] + t) == [d] + t;
      assert ([d] + t)[1..] == t;
    } else {
      var s := p + ([d] + t);
      assert s[0] == p[0] && s[1..] == p[1..] + ([d] + t);
      assert d !in p[1..];
      SplitAllPrefix(p[1..], t, d);
      assert [p[0]] + p[1..] == p;
    }
  }

  /** Joining `a` followed by the join of a non-empty `b` is joining `a + b`. */
  lemma {:induction false} JoinAppend(a: seq<string>, b: seq<string>, d: char)
    requires |b| >= 1
    ensures Join(a + [Join(b, d)], d) == Join(a + b, d)
    decreases |a|
  {
    if |a| == 0 {
      assert a + [Join(b, d)] == [Join(b, d)];
      assert a + b == b;
    } else {
      JoinAppend(a[1..], b, d);
      assert (a + [Join(b, d)])[1..] == a[1..] + [Join(b, d)];
      assert (a + b)[1..] == a[1..] + b;
      assert (a + b)[0] == a[0];
      if |a| == 1 {
        assert a[1..] + b == b;
        assert a[1..] + [Join(b, d)] == [Join(b, d)];
      }
    }
  }

  /** `s.split(d, limit)`: the first `limit` fields of `s.split(d)`, the rest
      dropped. */
  function SplitLimit(s: string, d: char, limit: nat): (r: seq<string>)
    ensures |r| <= limit
    ensures r <= SplitAll(s, d)
  {
    var p := SplitAll(s, d);
    if |p| <= limit then p else p[..limit]
  }

  /** Destructuring `const [a, b, ...] = parts`: a missing element is `undefined`. */
  function Field(parts: seq<string>, i: nat): (r: Option<string>)
    ensures r.Some? <==> i < |parts|
  {
    if i < |parts| then Some(parts[i]) else None
  }

  /** JavaScript truthiness of an optional string: defined and non-empty. */
  predicate Truthy(o: Option<string>)
  {
    o.Some? && o.value != ""
  }

  // ---------------------------------------------------------------------------
  // includes / replace

  predicate OccursAt(s: string, pat: string, i: int)
  {
    0 <= i && i + |pat| <= |s| && s[i..i + |pat|] == pat
  }

  /** `s.indexOf(pat)`: the first position where `pat` occurs, or -1. */
  function IndexOf(s: string, pat: string): (r: int)
    ensures -1 <= r <= |s|
    ensures r >= 0 ==> OccursAt(s, pat, r)
    ensures r >= 0 ==> forall j :: 0 <= j < r ==> !OccursAt(s, pat, j)
    ensures r == -1 <==> forall j :: 0 <= j <= |s| ==> !OccursAt(s, pat, j)
  {
    IndexFrom(s, pat, 0)
  }

  function IndexFrom(s: string, pat: string, i: nat): (r: int)
    requires i <= |s| + 1
    ensures -1 <= r <= |s|
    ensures r >= 0 ==> i <= r && OccursAt(s, pat, r)
    ensures r >= 0 ==> forall j :: i <= j < r ==> !OccursAt(s, pat, j)
    ensures r == -1 <==> forall j :: i <= j <= |s| ==> !OccursAt(s, pat, j)
    decreases |s| + 1 - i
  {
    if i + |pat| > |s| then -1
    else if OccursAt(s, pat, i) then i
    else IndexFrom(s, pat, i + 1)
  }

  /** `s.includes(pat)`. */
  predicate Contains(s: string, pat: string)
  {
    IndexOf(s, pat) >= 0
  }

  /** `s.replace(pat, rep)` with a string pattern: only the first occurrence
      is replaced; without an occurrence `s` is returned unchanged. */
  function ReplaceFirst(s: string, pat: string, rep: string): (r: string)
    ensures !Contains(s, pat) ==> r == s
    ensures Contains(s, pat) ==>
      var i := IndexOf(s, pat);
      r == s[..i] + rep + s[i + |pat|..] && s == s[..i] + pat + s[i + |pat|..]
  {
    var i := IndexOf(s, pat);
    if i < 0 then s
    else
      assert s == s[..i] + s[i..i + |pat|] + s[i + |pat|..];
      s[..i] + rep + s[i + |pat|..]
  }

  // ---------------------------------------------------------------------------
  // trim

  /** The characters ECMAScript's `trim` removes: WhiteSpace and LineTerminator. */
  predicate IsSpace(c: char)
  {
    c == ' ' || c == '\t' || c == '\n' || c == '\r' || c == '\U{000B}' || c == '\U{000C}'
    || c == '\U{00A0}' || c == '\U{1680}' || ('\U{2000}' <= c <= '\U{200A}')
    || c == '\U{2028}' || c == '\U{2029}' || c == '\U{202F}' || c == '\U{205F}'
    || c == '\U{3000}' || c == '\U{FEFF}'
  }

  /** `s` without its leading white space. */
  function TrimStart(s: string): string
  {
    if |s| > 0 && IsSpace(s[0]) then TrimStart(s[1..]) else s
  }

  /** `s` without its trailing white space. */
  function TrimEnd(s: string): string
  {
    if |s| > 0 && IsSpace(s[|s| - 1]) then TrimEnd(s[..|s| - 1]) else s
  }

  /** `s.trim()`: `s` without its leading and trailing white space. */
  function Trim(s: string): string
  {
    TrimEnd(TrimStart(s))
  }

  /** Trimming the front keeps a suffix that does not start with white
      space, and drops only white space. */
  lemma {:induction false} TrimStartDropsSpace(s: string)
    ensures |TrimStart(s)| <= |s| && TrimStart(s) == s[|s| - |TrimStart(s)|..]
    ensures |TrimStart(s)| > 0 ==> !IsSpace(TrimStart(s)[0])
    ensures forall i :: 0 <= i < |s| - |TrimStart(s)| ==> IsSpace(s[i])
  {
    if |s| > 0 && IsSpace(s[0]) {
      TrimStartDropsSpace(s[1..]);
      forall i | 0 <= i < |s| - |TrimStart(s)| ensures IsSpace(s[i]) {
        if i > 0 { assert s[i] == s[1..][i - 1]; }
      }
    }
  }

  /** Trimming the back keeps a prefix that does not end with white space,
      and drops only white space. */
  lemma {:induction false} TrimEndDropsSpace(s: string)
    ensures |TrimEnd(s)| <= |s| && TrimEnd(s) == s[..|TrimEnd(s)|]
    ensures |TrimEnd(s)| > 0 ==> !IsSpace(TrimEnd(s)[|TrimEnd(s)| - 1])
    ensures forall i :: |TrimEnd(s)| <= i < |s| ==> IsSpace(s[i])
  {
    if |s| > 0 && IsSpace(s[|s| - 1]) {
      TrimEndDropsSpace(s[..|s| - 1]);
      forall i | |TrimEnd(s)| <= i < |s| ensures IsSpace(s[i]) {
        if i < |s| - 1 { assert s[i] == s[..|s| - 1][i]; }
      }
    }
  }

  /** The trimmed text is a slice of `s` with only white space outside it,
      and it neither starts nor ends with white space. */
  lemma TrimIsSlice(s: string)
    ensures exists i, j :: (0 <= i <= j <= |s| && Trim(s) == s[i..j]
      && (forall k :: 0 <= k < i ==> IsSpace(s[k]))
      && (forall k :: j <= k < |s| ==> IsSpace(s[k])))
    ensures |Trim(s)| > 0 ==> !IsSpace(Trim(s)[0]) && !IsSpace(Trim(s)[|Trim(s)| - 1])
  {
    var a := TrimStart(s);
    var r := TrimEnd(a);
    var i := |s| - |a|;
    TrimStartDropsSpace(s);
    TrimEndDropsSpace(a);
    assert a == s[i..];
    assert r == s[i..i + |r|];
    forall k | i + |r| <= k < |s| ensures IsSpace(s[k]) { assert s[k] == a[k - i]; }
  }

  // ---------------------------------------------------------------------------
  // toLowerCase

  /** `c.toLowerCase()` restricted to the ASCII letters. */
  function LowerChar(c: char): (r: char)
    ensures 'A' <= c <= 'Z' ==> r as int == c as int + 32
    ensures !('A' <= c <= 'Z') ==> r == c
  {
    if 'A' <= c <= 'Z' then (c as int + 32) as char else c
  }

  function ToLower(s: string): (r: string)
    ensures |r| == |s|
  {
    if |s| == 0 then "" else [LowerChar(s[0])] + ToLower(s[1..])
  }

  /** `toLowerCase` maps each character on its own. */
  lemma {:induction false} ToLowerChars(s: string)
    ensures forall i :: 0 <= i < |s| ==> ToLower(s)[i] == LowerChar(s[i])
  {
    if |s| > 0 {
      ToLowerChars(s[1..]);
      forall i | 1 <= i < |s| ensures ToLower(s)[i] == LowerChar(s[i]) {
        assert ToLower(s)[i] == ToLower(s[1..])[i - 1];
      }
    }
  }

  /** Lower-casing twice changes nothing more. */
  lemma {:induction false} ToLowerIdempotent(s: string)
    ensures ToLower(ToLower(s)) == ToLower(s)
  {
    if |s| > 0 {
      ToLowerIdempotent(s[1..]);
      assert ToLower(s)[1..] == ToLower(s[1..]);
    }
  }

  // ---------------------------------------------------------------------------
  // relational comparison

  /** `a <= b` on strings: lexicographic order of the characters, a proper
      prefix coming first. */
  predicate StrLe(a: string, b: string)
    decreases |a|
  {
    if |a| == 0 then true
    else if |b| == 0 then false
    else if a[0] != b[0] then a[0] < b[0]
    else StrLe(a[1..], b[1..])
  }

  /** `arr.indexOf(x)` on an array: the first index holding `x`, or -1. */
  function SeqIndexOf(arr: seq<string>, x: string): (r: int)
    ensures -1 <= r < |arr|
  {
    if |arr| == 0 then -1
    else if arr[0] == x then 0
    else
      var k := SeqIndexOf(arr[1..], x);
      if k < 0 then -1 else k + 1
  }

  /** `indexOf` finds the first occurrence, and -1 exactly when there is none. */
  lemma {:induction false} SeqIndexOfFinds(arr: seq<string>, x: string)
    ensures var r := SeqIndexOf(arr, x);
      && (r >= 0 ==> arr[r] == x && forall j :: 0 <= j < r ==> arr[j] != x)
      && (r == -1 <==> x !in arr)
  {
    if |arr| > 0 && arr[0] != x {
      SeqIndexOfFinds(arr[1..], x);
      var k := SeqIndexOf(arr[1..], x);
      if k >= 0 {
        forall j | 0 <= j < k + 1 ensures arr[j] != x {
          if j > 0 { assert arr[j] == arr[1..][j - 1]; }
        }
      } else {
        assert arr == [arr[0]] + arr[1..];
      }
    }
  }

  /** An occurrence with no earlier one is the one `indexOf` finds. */
  lemma SeqIndexOfAt(arr: seq<string>, x: string, i: nat)
    requires i < |arr| && arr[i] == x
    requires forall j :: 0 <= j < i ==> arr[j] != x
    ensures SeqIndexOf(arr, x) == i
  {
    SeqIndexOfFinds(arr, x);
  }
}
