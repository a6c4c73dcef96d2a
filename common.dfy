/** Shared vocabulary of the model: optional values, backend outcomes, the
    string operations the JavaScript code relies on (lower-casing, `includes`,
    `\s`, `trim`, `split`) and list operations on tag lists. */
module Common {

  datatype Option<T> = None | Some(value: T)

  /** The outcome of a backend call (Supabase, OpenAI, a social API, `fetch`),
      passed into the model: the returned value or the error message. */
  datatype Result<T> = Ok(value: T) | Err(message: string)

  /** A reply of an API route: the JSON body, or an error body with its status. */
  datatype Reply<T> = Reply(body: T) | Failure(status: nat, error: string)

  /** JavaScript truthiness of an optional string: present and non-empty. */
  predicate Truthy(o: Option<string>)
  {
    o.Some? && o.value != ""
  }

  /** The position of the first truthy operand, or |xs| when there is none. */
  function FirstTruthyAt(xs: seq<Option<string>>): (i: nat)
    ensures i <= |xs|
    ensures forall j :: 0 <= j < i ==> !Truthy(xs[j])
    ensures i < |xs| ==> Truthy(xs[i])
  {
    if xs == [] || Truthy(xs[0]) then 0 else 1 + FirstTruthyAt(xs[1..])
  }

  /** `a || b || c ...` over optional strings: the first truthy operand, or
      None when every operand is falsy (the caller supplies the final default). */
  function FirstTruthy(xs: seq<Option<string>>): (r: Option<string>)
    ensures r.None? <==> forall i :: 0 <= i < |xs| ==> !Truthy(xs[i])
    ensures r.Some? ==> Truthy(r) && r in xs
    ensures r.Some? ==> r == xs[FirstTruthyAt(xs)] && forall j :: 0 <= j < FirstTruthyAt(xs) ==> !Truthy(xs[j])
  {
    var i := FirstTruthyAt(xs);
    if i < |xs| then xs[i] else None
  }

  /** The value of `a || b || ... || fallback`. */
  function OrElse(xs: seq<Option<string>>, fallback: string): string
  {
    match FirstTruthy(xs)
    case Some(v) => v
    case None => fallback
  }

  // ---------------------------------------------------------------------------
  // Characters

  /** `toLowerCase` on one character; only the ASCII letters are mapped. */
  function LowerChar(c: char): char
  {
    if 'A' <= c <= 'Z' then (c as int + 32) as char else c
  }

  function ToLower(s: string): (r: string)
    ensures |r| == |s|
    ensures forall i :: 0 <= i < |s| ==> r[i] == LowerChar(s[i])
  {
    if s == [] then [] else [LowerChar(s[0])] + ToLower(s[1..])
  }

  lemma {:induction false} ToLowerIdempotent(s: string)
    ensures ToLower(ToLower(s)) == ToLower(s)
  {
    var once := ToLower(s);
    var twice := ToLower(once);
    forall i | 0 <= i < |s| ensures twice[i] == once[i] {
      assert once[i] == LowerChar(s[i]);
    }
  }

  /** The characters matched by `\s` and removed by `trim`: ECMAScript
      WhiteSpace and LineTerminator. */
  predicate IsSpace(c: char)
  {
    || c == '\t' || c == '\n' || c == '\U{000B}' || c == '\U{000C}' || c == '\r' || c == ' '
    || c == '\U{00A0}' || c == '\U{1680}' || ('\U{2000}' <= c <= '\U{200A}')
    || c == '\U{2028}' || c == '\U{2029}' || c == '\U{202F}' || c == '\U{205F}'
    || c == '\U{3000}' || c == '\U{FEFF}'
  }

  predicate IsBlank(s: string)
  {
    forall i :: 0 <= i < |s| ==> IsSpace(s[i])
  }

  // ---------------------------------------------------------------------------
  // Substrings

  predicate StartsWith(s: string, prefix: string)
  {
    |prefix| <= |s| && s[..|prefix|] == prefix
  }

  /** `s.includes(q)`: q occurs somewhere in s (the empty string occurs everywhere). */
  predicate Includes(s: string, q: string)
    decreases |s|
  {
    StartsWith(s, q) || (|s| > 0 && Includes(s[1..], q))
  }

  /** A text lacking one of q's characters does not contain q. */
  lemma {:induction false} MissingCharNotIncluded(s: string, q: string, c: char)
    requires c in q && c !in s
    ensures !Includes(s, q)
    decreases |s|
  {
    var k :| 0 <= k < |q| && q[k] == c;
    if |q| <= |s| {
      assert s[..|q|][k] != q[k];
    }
    if |s| > 0 {
      assert c !in s[1..];
      MissingCharNotIncluded(s[1..], q, c);
    }
  }

  /** The position of the first occurrence of `pat` in `s`, if any. */
  function IndexOf(s: string, pat: string): (r: Option<nat>)
    ensures r.Some? ==> r.value + |pat| <= |s| && s[r.value..r.value + |pat|] == pat
    ensures r.Some? ==> forall j :: 0 <= j < r.value ==> !StartsWith(s[j..], pat)
    ensures r.None? ==> forall j :: 0 <= j <= |s| ==> !StartsWith(s[j..], pat)
    decreases |s|
  {
    if StartsWith(s, pat) then Some(0)
    else if |s| == 0 then None
    else
      match IndexOf(s[1..], pat)
      case None =>
        assert forall j :: 1 <= j <= |s| ==> s[j..] == s[1..][j - 1..];
        None
      case Some(i) =>
        assert forall j :: 1 <= j <= i ==> s[j..] == s[1..][j - 1..];
        Some(i + 1)
  }

  /** For a one-character pattern, IndexOf is the first position holding it. */
  lemma IndexOfChar(s: string, c: char, k: nat)
    requires k < |s| && s[k] == c
    requires forall j :: 0 <= j < k ==> s[j] != c
    ensures IndexOf(s, [c]) == Some(k)
  {
    assert s[k..][..1] == [c];
    forall j | 0 <= j < k
      ensures !StartsWith(s[j..], [c])
    {
      assert s[j..][0] == s[j];
    }
    var r := IndexOf(s, [c]);
    assert s[r.value..][..1] == s[r.value..r.value + 1];
  }

  // ---------------------------------------------------------------------------
  // Whitespace handling

  lemma BlankCons(c: char, a: string)
    requires IsSpace(c) && IsBlank(a)
    ensures IsBlank([c] + a)
  {
  }

  lemma BlankSnoc(a: string, c: char)
    requires IsBlank(a) && IsSpace(c)
    ensures IsBlank(a + [c])
  {
  }

  /** `trimStart`: drop leading whitespace. */
  function TrimStart(s: string): (r: string)
    ensures |r| <= |s| && r == s[|s| - |r|..]
    ensures r == [] || !IsSpace(r[0])
  {
    if s != [] && IsSpace(s[0]) then TrimStart(s[1..]) else s
  }

  /** What trimStart drops is whitespace. */
  lemma {:induction false} TrimStartDropsBlank(s: string)
    ensures IsBlank(s[..|s| - |TrimStart(s)|])
  {
    if s != [] && IsSpace(s[0]) {
      var tail := s[1..];
      var r := TrimStart(tail);
      TrimStartDropsBlank(tail);
      assert s[..|s| - |r|] == [s[0]] + tail[..|tail| - |r|];
      BlankCons(s[0], tail[..|tail| - |r|]);
    }
  }

  /** `trimEnd`: drop trailing whitespace. */
  function TrimEnd(s: string): (r: string)
    ensures |r| <= |s| && r == s[..|r|]
    ensures r == [] || !IsSpace(r[|r| - 1])
  {
    if s != [] && IsSpace(s[|s| - 1]) then TrimEnd(s[..|s| - 1]) else s
  }

  /** What trimEnd drops is whitespace. */
  lemma {:induction false} TrimEndDropsBlank(s: string)
    ensures IsBlank(s[|TrimEnd(s)|..])
  {
    if s != [] && IsSpace(s[|s| - 1]) {
      var init := s[..|s| - 1];
      var r := TrimEnd(init);
      TrimEndDropsBlank(init);
      assert s[|r|..] == init[|r|..] + [s[|s| - 1]];
      BlankSnoc(init[|r|..], s[|s| - 1]);
    }
  }

  /** `trim`: drop leading and trailing whitespace. */
  function Trim(s: string): (r: string)
    ensures r == [] || (!IsSpace(r[0]) && !IsSpace(r[|r| - 1]))
    ensures |r| <= |s|
  {
    TrimEnd(TrimStart(s))
  }

  /** Trimming only removes characters. */
  lemma TrimKeepsChars(s: string)
    ensures forall c :: c in Trim(s) ==> c in s
  {
    var a := TrimStart(s);
    var b := TrimEnd(a);
    forall c | c in b ensures c in s {
      var i :| 0 <= i < |b| && b[i] == c;
      assert a[i] == c;
      assert s[|s| - |a| + i] == c;
    }
  }

  /** Without the separator, splitting gives the whole string. */
  lemma {:induction false} SplitWithout(s: string, c: char)
    requires c !in s
    ensures Split(s, c) == [s]
  {
    if s != [] {
      assert c !in s[1..];
      SplitWithout(s[1..], c);
      assert [s[0]] + s[1..] == s;
    }
  }

  lemma {:induction false} BlankTrimStart(s: string)
    requires IsBlank(s)
    ensures TrimStart(s) == []
  {
    if s != [] {
      BlankTrimStart(s[1..]);
    }
  }

  /** `trim()` yields the empty string exactly for all-whitespace input. */
  lemma TrimEmptyIffBlank(s: string)
    ensures Trim(s) == [] <==> IsBlank(s)
  {
    var t := TrimStart(s);
    if IsBlank(s) {
      BlankTrimStart(s);
    } else {
      TrimStartDropsBlank(s);
      assert s == s[..|s| - |t|] + t;
      assert t != [] && !IsSpace(t[0]);
      TrimEndDropsBlank(t);
      assert TrimEnd(t) != [];
    }
  }

  /** `!s.trim()`: the test a caller makes to reject an all-whitespace input. */
  method TrimsToEmpty(s: string) returns (b: bool)
    ensures b <==> IsBlank(s)
  {
    b := Trim(s) == [];
    TrimEmptyIffBlank(s);
  }

  /** `replace(/\s+/g, ' ')`: every maximal run of whitespace becomes one space. */
  function CollapseSpaces(s: string): string
    decreases |s|
  {
    if s == [] then []
    else if IsSpace(s[0]) then
      var rest := TrimStart(s);
      if rest == [] then [' '] else [' '] + CollapseSpaces(rest)
    else [s[0]] + CollapseSpaces(s[1..])
  }

  /** `r`, the collapsed form of `s`, is no longer, empty only for the empty
      text, has no two whitespace characters in a row, and starts and ends
      with whitespace exactly when `s` does. */
  predicate CollapsedForm(s: string, r: string)
  {
    && |r| <= |s|
    && (r == [] <==> s == [])
    && NoDoubleSpace(r)
    && (r != [] ==> (IsSpace(r[0]) <==> IsSpace(s[0])))
    && (r != [] ==> (IsSpace(r[|r| - 1]) <==> IsSpace(s[|s| - 1])))
  }

  /** The collapsed text is no longer, empty only for the empty text, has no
      two whitespace characters in a row, and starts and ends with
      whitespace exactly when the text does. */
  lemma {:induction false} CollapseSpacesProperties(s: string)
    ensures var r := CollapseSpaces(s);
      && |r| <= |s|
      && (r == [] <==> s == [])
      && NoDoubleSpace(r)
      && (r != [] ==> (IsSpace(r[0]) <==> IsSpace(s[0])))
      && (r != [] ==> (IsSpace(r[|r| - 1]) <==> IsSpace(s[|s| - 1])))
    decreases |s|
  {
    if s == [] {
    } else if IsSpace(s[0]) {
      var rest := TrimStart(s);
      if rest != [] {
        CollapseSpacesProperties(rest);
        CollapseRunStep(s, rest, CollapseSpaces(rest));
      } else {
        TrimStartDropsBlank(s);
        assert s[..|s|] == s;
      }
    } else {
      CollapseSpacesProperties(s[1..]);
      CollapseCharStep(s, CollapseSpaces(s[1..]));
    }
  }

  /** A whitespace run in front of a collapsed non-empty rest becomes one space. */
  lemma CollapseRunStep(s: string, rest: string, tail: string)
    requires s != [] && IsSpace(s[0])
    requires rest != [] && |rest| < |s| && rest == s[|s| - |rest|..] && !IsSpace(rest[0])
    requires CollapsedForm(rest, tail)
    ensures CollapsedForm(s, [' '] + tail)
  {
    assert rest[|rest| - 1] == s[|s| - 1];
    NoDoubleSpaceCons(' ', tail);
  }

  /** A non-whitespace character in front of a collapsed rest is kept. */
  lemma CollapseCharStep(s: string, tail: string)
    requires s != [] && !IsSpace(s[0])
    requires CollapsedForm(s[1..], tail)
    ensures CollapsedForm(s, [s[0]] + tail)
  {
    if tail != [] {
      assert s[1..][|s| - 2] == s[|s| - 1];
    }
    NoDoubleSpaceCons(s[0], tail);
  }

  /** Putting a character in front keeps "no two adjacent whitespace
      characters" unless both it and the old first character are whitespace. */
  lemma NoDoubleSpaceCons(c: char, t: string)
    requires NoDoubleSpace(t)
    requires IsSpace(c) ==> t == [] || !IsSpace(t[0])
    ensures NoDoubleSpace([c] + t)
    ensures ([c] + t)[0] == c && (t != [] ==> ([c] + t)[|t|] == t[|t| - 1])
  {
    var r := [c] + t;
    forall i | 0 <= i < |r| ensures !DoubleSpaceAt(r, i) {
      if 0 < i < |r| - 1 {
        assert r[i] == t[i - 1] && r[i + 1] == t[i];
        assert !DoubleSpaceAt(t, i - 1);
      }
    }
  }

  lemma BlankConcat(a: string, b: string)
    ensures IsBlank(a + b) <==> IsBlank(a) && IsBlank(b)
  {
    assert forall i :: 0 <= i < |a| ==> (a + b)[i] == a[i];
    assert forall i :: 0 <= i < |b| ==> (a + b)[|a| + i] == b[i];
  }

  /** Collapsing keeps a text all-whitespace exactly when it was. */
  lemma {:induction false} CollapseBlankIff(s: string)
    ensures IsBlank(CollapseSpaces(s)) <==> IsBlank(s)
    decreases |s|
  {
    if s != [] && IsSpace(s[0]) {
      var rest := TrimStart(s);
      var pre := s[..|s| - |rest|];
      TrimStartDropsBlank(s);
      assert s == pre + rest;
      BlankConcat(pre, rest);
      if rest != [] {
        CollapseBlankIff(rest);
        assert CollapseSpaces(s) == [' '] + CollapseSpaces(rest);
        BlankConcat([' '], CollapseSpaces(rest));
      } else {
        assert CollapseSpaces(s) == [' '];
      }
    } else if s != [] {
      assert !IsBlank(s);
      CollapseSpacesProperties(s);
      assert CollapseSpaces(s)[0] == s[0];
    }
  }

  /** Whitespace at position i and at the next one. */
  predicate DoubleSpaceAt(s: string, i: int)
  {
    0 <= i < |s| - 1 && IsSpace(s[i]) && IsSpace(s[i + 1])
  }

  /** No two adjacent whitespace characters. */
  predicate NoDoubleSpace(s: string)
  {
    forall i :: 0 <= i < |s| ==> !DoubleSpaceAt(s, i)
  }

  lemma NoDoubleSpaceSlice(s: string, lo: nat, hi: nat)
    requires NoDoubleSpace(s) && lo <= hi <= |s|
    ensures NoDoubleSpace(s[lo..hi])
  {
    var t := s[lo..hi];
    forall i | 0 <= i < |t| ensures !DoubleSpaceAt(t, i) {
      if i < |t| - 1 {
        assert t[i] == s[lo + i] && t[i + 1] == s[lo + i + 1];
        assert !DoubleSpaceAt(s, lo + i);
      }
    }
  }

  lemma NoDoubleSpaceTrim(s: string)
    requires NoDoubleSpace(s)
    ensures NoDoubleSpace(Trim(s))
  {
    var t := TrimStart(s);
    NoDoubleSpaceSlice(s, |s| - |t|, |s|);
    assert s[|s| - |t|..|s|] == t;
    var u := TrimEnd(t);
    NoDoubleSpaceSlice(t, 0, |u|);
    assert t[0..|u|] == u;
  }

  // ---------------------------------------------------------------------------
  // Splitting on one character

  /** `s.split(c)` for a one-character separator: never empty; the pieces hold no `c`. */
  function Split(s: string, c: char): (r: seq<string>)
    ensures |r| >= 1
    ensures forall k :: 0 <= k < |r| ==> c !in r[k]
  {
    if s == [] then [""]
    else
      var rest := Split(s[1..], c);
      if s[0] == c then [""] + rest
      else [[s[0]] + rest[0]] + rest[1..]
  }

  /** Joining the pieces with the separator, the inverse of `Split`. */
  function Join(pieces: seq<string>, c: char): string
  {
    if pieces == [] then ""
    else if |pieces| == 1 then pieces[0]
    else pieces[0] + [c] + Join(pieces[1..], c)
  }

  lemma {:induction false} JoinSplit(s: string, c: char)
    ensures Join(Split(s, c), c) == s
  {
    if s != [] {
      var rest := Split(s[1..], c);
      JoinSplit(s[1..], c);
      if s[0] == c {
        assert Split(s, c) == [""] + rest;
        assert ([""] + rest)[1..] == rest;
      } else {
        var r := Split(s, c);
        assert r == [[s[0]] + rest[0]] + rest[1..];
        if |rest| == 1 {
          assert r == [[s[0]] + rest[0]];
        } else {
          assert r[1..] == rest[1..];
          assert Join(rest, c) == rest[0] + [c] + Join(rest[1..], c);
        }
      }
    }
  }

  /** The first piece of `s.split(c)`: the text before the first `c`. */
  lemma {:induction false} SplitFirstPiece(s: string, c: char)
    ensures StartsWith(s, Split(s, c)[0])
    ensures |Split(s, c)[0]| < |s| ==> s[|Split(s, c)[0]|] == c
  {
    if s != [] {
      SplitFirstPiece(s[1..], c);
    }
  }

  /** The last piece of `s.split(c)` (what `pop()` returns): the text after
      the last `c`, or all of `s` when it holds no `c`. */
  lemma {:induction false} SplitLastPiece(s: string, c: char)
    ensures var r := Split(s, c);
      && (|r| == 1 <==> c !in s)
      && (|r| == 1 ==> r[0] == s)
      && |r[|r| - 1]| <= |s|
      && r[|r| - 1] == s[|s| - |r[|r| - 1]|..]
      && (|r[|r| - 1]| < |s| ==> s[|s| - |r[|r| - 1]| - 1] == c)
  {
    if s != [] {
      SplitLastPiece(s[1..], c);
      var rest := Split(s[1..], c);
      var r := Split(s, c);
      assert c in s <==> s[0] == c || c in s[1..];
      if s[0] == c {
        assert r == [""] + rest;
        assert r[|r| - 1] == rest[|rest| - 1];
      } else if |rest| == 1 {
        assert r == [[s[0]] + rest[0]];
        assert [s[0]] + s[1..] == s;
      } else {
        assert r[|r| - 1] == rest[|rest| - 1];
        var last := rest[|rest| - 1];
        assert c in s[1..] && c !in last;
        assert |last| < |s| - 1;
      }
    }
  }

  /** `s.split(c)[0]`: the text before the first `c`, or all of s. */
  function FirstPiece(s: string, c: char): (r: string)
    ensures StartsWith(s, r) && c !in r
    ensures |r| < |s| ==> s[|r|] == c
  {
    SplitFirstPiece(s, c);
    Split(s, c)[0]
  }

  /** `s.split(c).pop()`: the text after the last `c`, or all of s. */
  function LastPiece(s: string, c: char): (r: string)
    ensures |r| <= |s| && r == s[|s| - |r|..] && c !in r
    ensures |r| < |s| ==> s[|s| - |r| - 1] == c
  {
    SplitLastPiece(s, c);
    var pieces := Split(s, c);
    pieces[|pieces| - 1]
  }

  /** The first piece is everything before the first `c`. */
  lemma FirstPieceBefore(s: string, c: char, k: nat)
    requires k <= |s| && (k < |s| ==> s[k] == c)
    requires forall j :: 0 <= j < k ==> s[j] != c
    ensures FirstPiece(s, c) == s[..k]
  {
    var r := FirstPiece(s, c);
    assert forall j :: 0 <= j < |r| ==> s[j] == r[j];
    assert |r| == k;
  }

  /** The last piece is everything after the last `c`. */
  lemma LastPieceAfter(s: string, c: char, k: nat)
    requires k < |s| && s[k] == c
    requires forall j :: k < j < |s| ==> s[j] != c
    ensures LastPiece(s, c) == s[k + 1..]
  {
    var r := LastPiece(s, c);
    var m := |s| - |r|;
    assert forall j :: m <= j < |s| ==> s[j] == r[j - m];
    assert k < m;
    assert m - 1 == k;
  }

  /** Without a `c`, the last piece is the whole string. */
  lemma LastPieceWhole(s: string, c: char)
    requires c !in s
    ensures LastPiece(s, c) == s
  {
    var r := LastPiece(s, c);
    assert |r| == |s|;
  }

  /** `text.substring(0, n) + (text.length > n ? '...' : '')`: the text cut to
      n characters, marked with an ellipsis exactly when something was cut. */
  function Ellipsize(text: string, n: nat): (r: string)
    ensures |text| <= n ==> r == text
    ensures |text| > n ==> |r| == n + 3 && r[..n] == text[..n] && r[n..] == "..."
    ensures |r| <= n + 3
  {
    Take(text, n) + (if |text| > n then "..." else "")
  }

  // ---------------------------------------------------------------------------
  // Numbers as text

  function DigitChar(d: nat): char
    requires d < 10
  {
    "0123456789"[d]
  }

  /** `String(n)` for a non-negative integer: decimal digits, no leading zero. */
  function NatToString(n: nat): (r: string)
    ensures |r| >= 1
    ensures forall i :: 0 <= i < |r| ==> '0' <= r[i] <= '9'
    ensures |r| > 1 ==> r[0] != '0'
  {
    if n < 10 then [DigitChar(n)] else NatToString(n / 10) + [DigitChar(n % 10)]
  }

  /** The number a string of decimal digits denotes. */
  function DecimalValue(s: string): nat
    requires forall i :: 0 <= i < |s| ==> '0' <= s[i] <= '9'
  {
    if s == [] then 0 else DecimalValue(s[..|s| - 1]) * 10 + ((s[|s| - 1] as int - '0' as int) as nat)
  }

  /** Reading the digits of `String(n)` back gives n. */
  lemma {:induction false} NatToStringRoundTrip(n: nat)
    ensures DecimalValue(NatToString(n)) == n
  {
    if n >= 10 {
      NatToStringRoundTrip(n / 10);
      var s := NatToString(n);
      assert s[..|s| - 1] == NatToString(n / 10);
    }
  }

  /** `String(n)` for any integer. */
  function IntToString(n: int): string
  {
    if n < 0 then "-" + NatToString(-n) else NatToString(n)
  }

  // ---------------------------------------------------------------------------
  // Lists

  /** `xs.filter(y => y !== x)`: every copy of x removed, the rest in order. */
  function RemoveAll<T(==,!new)>(xs: seq<T>, x: T): (r: seq<T>)
    ensures x !in r
    ensures forall y :: y in r <==> y in xs && y != x
    ensures |r| <= |xs|
    ensures x !in xs ==> r == xs
  {
    if xs == [] then []
    else if xs[0] == x then RemoveAll(xs[1..], x)
    else [xs[0]] + RemoveAll(xs[1..], x)
  }

  /** Removal is the filter `y !== x`: the kept elements stay in their
      order, and only the copies of x leave. */
  lemma {:induction false} RemoveAllKeepsOrder<T(!new)>(xs: seq<T>, x: T)
    ensures RemoveAll(xs, x) == Filter(xs, y => y != x)
    ensures IsSubsequence(RemoveAll(xs, x), xs)
  {
    if xs != [] {
      RemoveAllKeepsOrder(xs[1..], x);
    }
  }

  /** Removal keeps every other element with its number of repeats. */
  lemma {:induction false} RemoveAllCounts<T(!new)>(xs: seq<T>, x: T)
    ensures multiset(RemoveAll(xs, x)) == multiset(xs)[x := 0]
  {
    if xs != [] {
      RemoveAllCounts(xs[1..], x);
      assert xs == [xs[0]] + xs[1..];
    }
  }

  lemma {:induction false} RemoveAllAppend<T(!new)>(xs: seq<T>, y: T, x: T)
    ensures RemoveAll(xs + [y], x) == RemoveAll(xs, x) + (if y == x then [] else [y])
  {
    if xs == [] {
      assert xs + [y] == [y];
      assert [y][1..] == [];
    } else {
      assert (xs + [y])[1..] == xs[1..] + [y];
      RemoveAllAppend(xs[1..], y, x);
    }
  }

  /** A click on a tag: deselect it (every copy) when selected, else append it. */
  function Toggle(selected: seq<string>, tag: string): (r: seq<string>)
    ensures tag in r <==> tag !in selected
    ensures forall t :: t != tag ==> (t in r <==> t in selected)
    ensures tag !in selected ==> r == selected + [tag]
  {
    if tag in selected then RemoveAll(selected, tag) else selected + [tag]
  }

  /** Toggling keeps the selection free of repeats, and toggling the same
      tag twice from a repeat-free selection without it restores it. */
  lemma ToggleProperties(selected: seq<string>, tag: string)
    ensures NoDuplicates(selected) ==> NoDuplicates(Toggle(selected, tag))
    ensures tag !in selected ==> Toggle(Toggle(selected, tag), tag) == selected
  {
    if NoDuplicates(selected) && tag in selected {
      RemoveAllKeepsNoDuplicates(selected, tag);
    }
    if tag !in selected {
      RemoveAllAppend(selected, tag, tag);
    }
  }

  predicate NoDuplicates<T(==)>(xs: seq<T>)
  {
    forall i, j :: 0 <= i < j < |xs| ==> xs[i] != xs[j]
  }

  lemma AppendFreshKeepsNoDuplicates<T>(xs: seq<T>, x: T)
    requires NoDuplicates(xs) && x !in xs
    ensures NoDuplicates(xs + [x])
  {
    var ys := xs + [x];
    forall i, j | 0 <= i < j < |ys| ensures ys[i] != ys[j] {
      if j == |xs| {
        assert ys[i] == xs[i];
      }
    }
  }

  lemma {:induction false} RemoveAllKeepsNoDuplicates<T(!new)>(xs: seq<T>, x: T)
    requires NoDuplicates(xs)
    ensures NoDuplicates(RemoveAll(xs, x))
  {
    if xs != [] {
      RemoveAllKeepsNoDuplicates(xs[1..], x);
      assert xs[0] !in xs[1..];
    }
  }

  /** `Array.from(new Set(xs))`: the distinct elements in first-occurrence order. */
  function Distinct<T(==)>(xs: seq<T>): (r: seq<T>)
  {
    DistinctAfter(xs, [])
  }

  /** Adds the elements of `xs` not yet seen to the insertion-ordered set `seen`. */
  function DistinctAfter<T(==)>(xs: seq<T>, seen: seq<T>): (r: seq<T>)
    decreases |xs|
  {
    if xs == [] then seen
    else if xs[0] in seen then DistinctAfter(xs[1..], seen)
    else DistinctAfter(xs[1..], seen + [xs[0]])
  }

  lemma {:induction false} DistinctAfterProperties<T>(xs: seq<T>, seen: seq<T>)
    requires NoDuplicates(seen)
    ensures NoDuplicates(DistinctAfter(xs, seen))
    ensures forall y :: y in DistinctAfter(xs, seen) <==> y in seen || y in xs
    ensures |seen| <= |DistinctAfter(xs, seen)| && DistinctAfter(xs, seen)[..|seen|] == seen
    decreases |xs|
  {
    if xs != [] {
      if xs[0] in seen {
        DistinctAfterProperties(xs[1..], seen);
      } else {
        DistinctAfterProperties(xs[1..], seen + [xs[0]]);
        var r := DistinctAfter(xs[1..], seen + [xs[0]]);
        assert r[..|seen|] == (r[..|seen| + 1])[..|seen|];
      }
      assert forall y :: y in xs <==> y == xs[0] || y in xs[1..];
    }
  }

  /** The distinct elements of xs, each once, and nothing else. */
  lemma DistinctProperties<T>(xs: seq<T>)
    ensures NoDuplicates(Distinct(xs))
    ensures forall y :: y in Distinct(xs) <==> y in xs
  {
    DistinctAfterProperties(xs, []);
  }

  lemma {:induction false} DistinctAfterAppend<T>(xs: seq<T>, seen: seq<T>, y: T)
    ensures DistinctAfter(xs + [y], seen) == DistinctAfter(xs, seen) + (if y in xs || y in seen then [] else [y])
    decreases |xs|
  {
    if xs == [] {
      assert xs + [y] == [y];
      assert [y][1..] == [];
    } else {
      assert (xs + [y])[1..] == xs[1..] + [y];
      if xs[0] in seen {
        DistinctAfterAppend(xs[1..], seen, y);
      } else {
        DistinctAfterAppend(xs[1..], seen + [xs[0]], y);
      }
    }
  }

  /** Appending an element extends the distinct elements by it exactly when it is new. */
  lemma DistinctAppend<T>(xs: seq<T>, y: T)
    ensures Distinct(xs + [y]) == Distinct(xs) + (if y in xs then [] else [y])
  {
    DistinctAfterAppend(xs, [], y);
  }

  /** Stable insertion of e after every element whose key is at least e's. */
  function InsertDesc<T(==)>(e: T, sorted: seq<T>, key: T -> int): (r: seq<T>)
    ensures multiset(r) == multiset(sorted) + multiset{e}
    ensures |r| == |sorted| + 1
  {
    if sorted == [] then [e]
    else if key(sorted[0]) >= key(e) then
      assert sorted == [sorted[0]] + sorted[1..];
      [sorted[0]] + InsertDesc(e, sorted[1..], key)
    else [e] + sorted
  }

  /** `Array.prototype.sort` with a comparator `key(b) - key(a)`: a stable
      sort by non-increasing key, built by inserting the elements in order. */
  function SortDesc<T(==)>(xs: seq<T>, key: T -> int): (r: seq<T>)
    ensures multiset(r) == multiset(xs)
    ensures |r| == |xs|
  {
    if xs == [] then []
    else
      assert xs == xs[..|xs| - 1] + [xs[|xs| - 1]];
      InsertDesc(xs[|xs| - 1], SortDesc(xs[..|xs| - 1], key), key)
  }

  predicate NonIncreasingBy<T>(xs: seq<T>, key: T -> int)
  {
    forall a, b :: 0 <= a < b < |xs| ==> key(xs[a]) >= key(xs[b])
  }

  lemma {:induction false} InsertDescKeepsOrder<T>(e: T, sorted: seq<T>, key: T -> int)
    requires NonIncreasingBy(sorted, key)
    ensures NonIncreasingBy(InsertDesc(e, sorted, key), key)
  {
    if sorted != [] && key(sorted[0]) >= key(e) {
      InsertDescKeepsOrder(e, sorted[1..], key);
      var r := InsertDesc(e, sorted[1..], key);
      forall b | 0 <= b < |r| ensures key(sorted[0]) >= key(r[b]) {
        assert r[b] in multiset(r);
        if r[b] != e {
          assert r[b] in multiset(sorted[1..]);
          var c :| 0 <= c < |sorted[1..]| && sorted[1..][c] == r[b];
          assert sorted[c + 1] == r[b];
        }
      }
    }
  }

  /** The sort yields a permutation ordered by non-increasing key. */
  lemma {:induction false} SortDescSorted<T>(xs: seq<T>, key: T -> int)
    ensures NonIncreasingBy(SortDesc(xs, key), key)
    ensures multiset(SortDesc(xs, key)) == multiset(xs)
  {
    if xs != [] {
      SortDescSorted(xs[..|xs| - 1], key);
      InsertDescKeepsOrder(xs[|xs| - 1], SortDesc(xs[..|xs| - 1], key), key);
    }
  }

  /** a can be obtained from b by deleting elements. */
  predicate IsSubsequence<T(==)>(a: seq<T>, b: seq<T>)
  {
    if a == [] then true
    else if b == [] then false
    else if a[0] == b[0] then IsSubsequence(a[1..], b[1..])
    else IsSubsequence(a, b[1..])
  }

  /** `xs.filter(keep)`: the kept elements, in their original order. */
  function Filter<T(==,!new)>(xs: seq<T>, keep: T -> bool): (r: seq<T>)
    ensures |r| <= |xs|
    ensures forall x :: x in r <==> x in xs && keep(x)
    ensures IsSubsequence(r, xs)
    ensures (forall x :: x in xs ==> keep(x)) ==> r == xs
    ensures (forall x :: x in xs ==> !keep(x)) ==> r == []
  {
    if xs == [] then []
    else
      assert forall x :: x in xs <==> x == xs[0] || x in xs[1..];
      if keep(xs[0]) then [xs[0]] + Filter(xs[1..], keep) else Filter(xs[1..], keep)
  }

  /** Filtering depends only on the verdicts on the elements present. */
  lemma {:induction false} FilterSameVerdicts<T(!new)>(xs: seq<T>, p: T -> bool, q: T -> bool)
    requires forall x :: x in xs ==> p(x) == q(x)
    ensures Filter(xs, p) == Filter(xs, q)
  {
    if xs != [] {
      assert forall x :: x in xs[1..] ==> x in xs;
      FilterSameVerdicts(xs[1..], p, q);
    }
  }

  /** Filtering a concatenation filters each part. */
  lemma {:induction false} FilterAppend<T(!new)>(a: seq<T>, b: seq<T>, keep: T -> bool)
    ensures Filter(a + b, keep) == Filter(a, keep) + Filter(b, keep)
  {
    if a == [] {
      assert a + b == b;
    } else {
      var ab := a + b;
      assert ab[0] == a[0] && ab[1..] == a[1..] + b;
      FilterAppend(a[1..], b, keep);
    }
  }

  /** The import de-duplication `items.filter(r => !existingIds.has(key(r)))`:
      the items whose key is not already stored, in their original order.
      Repeats inside items itself are kept. */
  function Unseen<T(==,!new)>(items: seq<T>, key: T -> string, existing: set<string>): (r: seq<T>)
    ensures forall x :: x in r <==> x in items && key(x) !in existing
    ensures IsSubsequence(r, items) && |r| <= |items|
    ensures (forall x :: x in items ==> key(x) !in existing) ==> r == items
    ensures (forall x :: x in items ==> key(x) in existing) ==> r == []
  {
    Filter(items, x => key(x) !in existing)
  }

  /** Unseen peels off one item at a time: the first item is kept exactly
      when its key is not stored. */
  lemma UnseenCons<T(!new)>(items: seq<T>, key: T -> string, existing: set<string>)
    requires items != []
    ensures Unseen(items, key, existing)
         == (if key(items[0]) !in existing then [items[0]] else []) + Unseen(items[1..], key, existing)
  {
  }

  /** The largest distance from the epoch, in milliseconds, that a JavaScript
      `Date` can hold; a time beyond it is an invalid date. */
  const MaxDateMillis: int := 8_640_000_000_000_000

  /** `new Date(seconds * 1000).toISOString()`, with the ISO text kept as its
      millisecond time: None where `toISOString` throws its RangeError, that
      is for missing seconds (`undefined * 1000` is NaN) and for a time
      outside the range a `Date` can hold. */
  function IsoMillis(seconds: Option<int>): (ms: Option<int>)
    ensures ms.Some? <==> seconds.Some? && -MaxDateMillis <= seconds.value * 1000 <= MaxDateMillis
    ensures ms.Some? ==> ms.value == seconds.value * 1000 && -MaxDateMillis <= ms.value <= MaxDateMillis
  {
    match seconds
    case None => None
    case Some(t) => if -MaxDateMillis <= t * 1000 <= MaxDateMillis then Some(t * 1000) else None
  }

  /** Worked conversions: the epoch, a missing time, and the first second
      past the range. */
  lemma IsoMillisExamples()
    ensures IsoMillis(Some(0)) == Some(0)
    ensures IsoMillis(Some(1_700_000_000)) == Some(1_700_000_000_000)
    ensures IsoMillis(None) == None
    ensures IsoMillis(Some(8_640_000_000_001)) == None
    ensures IsoMillis(Some(-8_640_000_000_000)) == Some(-MaxDateMillis)
  {
  }

  /** The import summary `{imported, total, skipped}`. */
  datatype ImportCounts = ImportCounts(imported: nat, total: nat, skipped: int)

  /** JavaScript `n || 0` on an optional count. */
  function OrZero(n: Option<int>): int
  {
    if n.Some? then n.value else 0
  }

  /** `xs.flatMap(f)` for the tag lists of resources. */
  function Flatten<T>(xss: seq<seq<T>>): seq<T>
  {
    if xss == [] then [] else xss[0] + Flatten(xss[1..])
  }

  lemma {:induction false} InFlatten<T>(xss: seq<seq<T>>, y: T)
    ensures y in Flatten(xss) <==> exists i :: 0 <= i < |xss| && y in xss[i]
  {
    if xss != [] {
      InFlatten(xss[1..], y);
      if y in Flatten(xss[1..]) {
        var i :| 0 <= i < |xss[1..]| && y in xss[1..][i];
        assert y in xss[i + 1];
      }
      if exists i :: 1 <= i < |xss| && y in xss[i] {
        var i :| 1 <= i < |xss| && y in xss[i];
        assert y in xss[1..][i - 1];
      }
    }
  }

  /** `xs.slice(0, n)` for n >= 0. */
  function Take<T>(xs: seq<T>, n: nat): (r: seq<T>)
    ensures |r| == if n < |xs| then n else |xs|
    ensures r == xs[..|r|]
  {
    if n < |xs| then xs[..n] else xs
  }
}
