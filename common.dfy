/** Shared vocabulary: optional values, results carrying an error message, and the
    string operations that the application code borrows from JavaScript
    (`includes`, `trim`, `join`, `replace(/…/g, …)`, ASCII case mapping). */
module Common {

  datatype Option<+T> = None | Some(value: T)

  /** A thrown `Error(message)` becomes `Err(message)`. */
  datatype Result<+T> = Ok(value: T) | Err(msg: string)

  /** One byte of a `Uint8Array`. */
  type Byte = x: int | 0 <= x < 256

  /** `s.includes(sub)`. */
  predicate Contains(s: string, sub: string)
    decreases |s|
  {
    sub <= s || (|s| > 0 && Contains(s[1..], sub))
  }

  lemma {:induction false} ContainsPrefixOf(s: string, sub: string)
    requires sub <= s
    ensures Contains(s, sub)
  {
  }

  lemma {:induction false} NotContainsShorter(s: string, sub: string)
    requires |s| < |sub|
    ensures !Contains(s, sub)
    decreases |s|
  {
    if |s| > 0 { NotContainsShorter(s[1..], sub); }
  }

  /** Concatenation regrouped, for appends to a log that is itself a concatenation. */
  lemma PrefixOfAppend<T>(a: seq<T>, b: seq<T>)
    ensures a <= a + b
  {
    assert (a + b)[..|a|] == a;
  }

  lemma AppendAssoc<T>(a: seq<T>, b: seq<T>, c: seq<T>)
    ensures (a + b) + c == a + (b + c)
  {
  }

  /** JavaScript's `\s` and the characters `trim()` removes, restricted to ASCII. */
  predicate IsSpace(c: char) {
    c == ' ' || c == '\t' || c == '\n' || c == '\r' || c == '\U{B}' || c == '\U{C}'
  }

  function TrimStart(s: string): (r: string)
    ensures |r| <= |s| && r == s[|s| - |r|..]
    ensures r == [] || !IsSpace(r[0])
    ensures forall i :: 0 <= i < |s| - |r| ==> IsSpace(s[i])
    decreases |s|
  {
    if |s| > 0 && IsSpace(s[0]) then TrimStart(s[1..]) else s
  }

  function TrimEnd(s: string): (r: string)
    ensures r <= s
    ensures r == [] || !IsSpace(r[|r| - 1])
    ensures forall i :: |r| <= i < |s| ==> IsSpace(s[i])
    decreases |s|
  {
    if |s| > 0 && IsSpace(s[|s| - 1]) then TrimEnd(s[..|s| - 1]) else s
  }

  /** `s.trim()`. */
  function Trim(s: string): (r: string)
    ensures r == [] <==> forall i :: 0 <= i < |s| ==> IsSpace(s[i])
  {
    TrimEnd(TrimStart(s))
  }

  /** Elements of `parts` that are non-empty (JavaScript `filter(Boolean)` on strings). */
  function NonEmpty(parts: seq<string>): (r: seq<string>)
    ensures |r| <= |parts|
    ensures forall x :: x in r <==> x in parts && x != ""
  {
    if parts == [] then []
    else if parts[0] == "" then NonEmpty(parts[1..])
    else [parts[0]] + NonEmpty(parts[1..])
  }

  /** `parts.join(sep)`. */
  function Join(sep: string, parts: seq<string>): string
  {
    if parts == [] then ""
    else if |parts| == 1 then parts[0]
    else parts[0] + sep + Join(sep, parts[1..])
  }

  lemma {:induction false} JoinLength(sep: string, parts: seq<string>)
    requires parts != []
    ensures |Join(sep, parts)| == SumLengths(parts) + (|parts| - 1) * |sep|
  {
    if |parts| > 1 { JoinLength(sep, parts[1..]); }
  }

  lemma {:induction false} ContainsInSuffix(a: string, b: string, x: string)
    requires Contains(b, x)
    ensures Contains(a + b, x)
    decreases |a|
  {
    if a == [] {
      assert a + b == b;
    } else {
      assert (a + b)[1..] == a[1..] + b;
      ContainsInSuffix(a[1..], b, x);
    }
  }

  /** Every part occurs in the joined string. */
  lemma {:induction false} JoinContainsPart(sep: string, parts: seq<string>, i: nat)
    requires i < |parts|
    ensures Contains(Join(sep, parts), parts[i])
  {
    if |parts| == 1 {
      ContainsPrefixOf(parts[0], parts[0]);
    } else if i == 0 {
      assert parts[0] <= parts[0] + sep + Join(sep, parts[1..]);
      ContainsPrefixOf(Join(sep, parts), parts[0]);
    } else {
      JoinContainsPart(sep, parts[1..], i - 1);
      ContainsInSuffix(parts[0] + sep, Join(sep, parts[1..]), parts[i]);
      assert parts[0] + sep + Join(sep, parts[1..]) == (parts[0] + sep) + Join(sep, parts[1..]);
    }
  }

  /** Joining non-empty parts gives the empty string only for no parts. */
  lemma {:induction false} JoinEmpty(sep: string, parts: seq<string>)
    requires forall i :: 0 <= i < |parts| ==> parts[i] != ""
    ensures Join(sep, parts) == "" <==> parts == []
  {
    if parts != [] {
      assert |Join(sep, parts)| >= |parts[0]| by {
        if |parts| > 1 {
          assert Join(sep, parts) == parts[0] + sep + Join(sep, parts[1..]);
        }
      }
    }
  }

  function SumLengths(parts: seq<string>): nat
  {
    if parts == [] then 0 else |parts[0]| + SumLengths(parts[1..])
  }

  function ToLowerChar(c: char): (d: char)
    ensures 'A' <= c <= 'Z' ==> 'a' <= d <= 'z' && d as int - 'a' as int == c as int - 'A' as int
    ensures 'A' <= c <= 'Z' ==> ToUpperChar(d) == c
    ensures !('A' <= c <= 'Z') ==> d == c
  {
    if 'A' <= c <= 'Z' then (c as int + 32) as char else c
  }

  function ToUpperChar(c: char): (d: char)
    ensures 'a' <= c <= 'z' ==> 'A' <= d <= 'Z' && d as int - 'A' as int == c as int - 'a' as int
    ensures !('a' <= c <= 'z') ==> d == c
  {
    if 'a' <= c <= 'z' then (c as int - 32) as char else c
  }

  /** `s.toLowerCase()` on ASCII letters. */
  function ToLower(s: string): (r: string)
    ensures |r| == |s| && forall i :: 0 <= i < |s| ==> r[i] == ToLowerChar(s[i])
  {
    seq(|s|, i requires 0 <= i < |s| => ToLowerChar(s[i]))
  }

  /** `s.toUpperCase()` on ASCII letters. */
  function ToUpper(s: string): (r: string)
    ensures |r| == |s| && forall i :: 0 <= i < |s| ==> r[i] == ToUpperChar(s[i])
  {
    seq(|s|, i requires 0 <= i < |s| => ToUpperChar(s[i]))
  }

  /** `s.replace(/pat/g, rep)` for a replacement without `$`, which JavaScript inserts as it
      is (`ReplaceLiteral`): leftmost, non-overlapping occurrences, scanned once. */
  function ReplaceAll(s: string, pat: string, rep: string): string
    requires pat != ""
    decreases |s|
  {
    if s == [] then []
    else if pat <= s then rep + ReplaceAll(s[|pat|..], pat, rep)
    else [s[0]] + ReplaceAll(s[1..], pat, rep)
  }

  /** The number of replacements `ReplaceAll` makes. */
  function Occurrences(s: string, pat: string): nat
    requires pat != ""
    decreases |s|
  {
    if s == [] then 0
    else if pat <= s then 1 + Occurrences(s[|pat|..], pat)
    else Occurrences(s[1..], pat)
  }

  lemma {:induction false} ReplaceAllLength(s: string, pat: string, rep: string)
    requires pat != ""
    ensures |ReplaceAll(s, pat, rep)| == |s| + Occurrences(s, pat) * (|rep| - |pat|)
    decreases |s|
  {
    var d := |rep| - |pat|;
    if s == [] {
      assert Occurrences(s, pat) * d == 0 * d == 0;
    } else if pat <= s {
      var rest := s[|pat|..];
      var n := Occurrences(rest, pat);
      ReplaceAllLength(rest, pat, rep);
      var m := n * d;
      assert |ReplaceAll(s, pat, rep)| == |rep| + |ReplaceAll(rest, pat, rep)| == |rep| + |rest| + m;
      assert Occurrences(s, pat) == 1 + n && |s| == |pat| + |rest|;
      Distribute(n, d);
    } else {
      ReplaceAllLength(s[1..], pat, rep);
      assert Occurrences(s, pat) == Occurrences(s[1..], pat);
    }
  }

  lemma Distribute(n: int, d: int)
    ensures (1 + n) * d == d + n * d
  {
  }

  lemma {:induction false} ReplaceAllAbsent(s: string, pat: string, rep: string)
    requires pat != "" && !Contains(s, pat)
    ensures ReplaceAll(s, pat, rep) == s
    decreases |s|
  {
    if s != [] {
      assert !(pat <= s);
      ReplaceAllAbsent(s[1..], pat, rep);
    }
  }

  lemma {:induction false} ReplaceAllSelf(s: string, pat: string)
    requires pat != ""
    ensures ReplaceAll(s, pat, pat) == s
    decreases |s|
  {
    if s == [] {
    } else if pat <= s {
      ReplaceAllSelf(s[|pat|..], pat);
      assert s == pat + s[|pat|..];
    } else {
      ReplaceAllSelf(s[1..], pat);
      assert s == [s[0]] + s[1..];
    }
  }

  /** The text JavaScript's `replace` puts in for one match of a pattern without capture
      groups, following the GetSubstitution operation of ECMA-262: `$$` stands for `$`, `$&`
      for the match, `` $` `` for the text before it and `$'` for the text after it; every
      other character, any other `$` included, stands for itself. */
  function Substitute(rep: string, before: string, matched: string, after: string): string
    decreases |rep|
  {
    if |rep| >= 2 && rep[0] == '$' && rep[1] == '$' then "$" + Substitute(rep[2..], before, matched, after)
    else if |rep| >= 2 && rep[0] == '$' && rep[1] == '&' then matched + Substitute(rep[2..], before, matched, after)
    else if |rep| >= 2 && rep[0] == '$' && rep[1] == '`' then before + Substitute(rep[2..], before, matched, after)
    else if |rep| >= 2 && rep[0] == '$' && rep[1] == '\'' then after + Substitute(rep[2..], before, matched, after)
    else if rep == [] then []
    else [rep[0]] + Substitute(rep[1..], before, matched, after)
  }

  /** A replacement without `$` is inserted as it is. */
  lemma {:induction false} SubstitutePlain(rep: string, before: string, matched: string, after: string)
    requires '$' !in rep
    ensures Substitute(rep, before, matched, after) == rep
    decreases |rep|
  {
    if rep != [] {
      assert rep[0] in rep && forall c :: c in rep[1..] ==> c in rep;
      SubstitutePlain(rep[1..], before, matched, after);
      assert rep == [rep[0]] + rep[1..];
    }
  }

  /** `s.replace(/pat/g, rep)` for a pattern of plain characters and any replacement string:
      each match is replaced by `Substitute` of `rep`, which sees the whole of `s` around it. */
  function Replace(s: string, pat: string, rep: string): string
    requires pat != ""
  {
    ReplaceFrom(s, 0, pat, rep)
  }

  /** `Replace` from position `i` of `s` on. */
  function ReplaceFrom(s: string, i: nat, pat: string, rep: string): string
    requires pat != "" && i <= |s|
    decreases |s| - i
  {
    if i == |s| then []
    else if pat <= s[i..] then Substitute(rep, s[..i], pat, s[i + |pat|..]) + ReplaceFrom(s, i + |pat|, pat, rep)
    else [s[i]] + ReplaceFrom(s, i + 1, pat, rep)
  }

  /** With a replacement without `$`, `Replace` is the literal `ReplaceAll`. */
  lemma ReplaceLiteral(s: string, pat: string, rep: string)
    requires pat != "" && '$' !in rep
    ensures Replace(s, pat, rep) == ReplaceAll(s, pat, rep)
  {
    ReplaceFromLiteral(s, 0, pat, rep);
  }

  lemma {:induction false} ReplaceFromLiteral(s: string, i: nat, pat: string, rep: string)
    requires pat != "" && '$' !in rep && i <= |s|
    ensures ReplaceFrom(s, i, pat, rep) == ReplaceAll(s[i..], pat, rep)
    decreases |s| - i
  {
    if i < |s| {
      if pat <= s[i..] {
        SubstitutePlain(rep, s[..i], pat, s[i + |pat|..]);
        ReplaceFromLiteral(s, i + |pat|, pat, rep);
        assert s[i..][|pat|..] == s[i + |pat|..];
      } else {
        ReplaceFromLiteral(s, i + 1, pat, rep);
        assert s[i..][1..] == s[i + 1..];
      }
    }
  }

  /** Text without the pattern is left as it is, whatever the replacement. */
  lemma ReplaceAbsent(s: string, pat: string, rep: string)
    requires pat != "" && !Contains(s, pat)
    ensures Replace(s, pat, rep) == s
  {
    ReplaceFromAbsent(s, 0, pat, rep);
  }

  lemma {:induction false} ReplaceFromAbsent(s: string, i: nat, pat: string, rep: string)
    requires pat != "" && i <= |s| && !Contains(s[i..], pat)
    ensures ReplaceFrom(s, i, pat, rep) == s[i..]
    decreases |s| - i
  {
    if i < |s| {
      assert s[i..][1..] == s[i + 1..];
      ReplaceFromAbsent(s, i + 1, pat, rep);
      assert s[i..] == [s[i]] + s[i + 1..];
    }
  }

  /** `$$` in a replacement puts in a single `$`: `"A$$B"` in place of `"x"` in `"x"` gives `"A$B"`. */
  lemma DollarsCollapse()
    ensures Replace("x", "x", "A$$B") == "A$B"
  {
    assert "x"[0..] == "x";
    assert Substitute("$$B", "", "x", "") == "$" + Substitute("B", "", "x", "");
    assert Substitute("A$$B", "", "x", "") == "A$B";
  }

  /** `String(n)` for a natural number: its decimal digits, most significant first. */
  function NatToString(n: nat): (r: string)
    ensures r != [] && forall i :: 0 <= i < |r| ==> '0' <= r[i] <= '9'
    ensures n < 10 <==> |r| == 1
  {
    var d := ['0' + (n % 10) as char];
    if n < 10 then d else NatToString(n / 10) + d
  }

  /** The value of a string of decimal digits. */
  function DecimalValue(s: string): nat
    requires forall i :: 0 <= i < |s| ==> '0' <= s[i] <= '9'
  {
    if s == [] then 0 else 10 * DecimalValue(s[..|s| - 1]) + (s[|s| - 1] - '0') as nat
  }

  lemma {:induction false} NatToStringRoundTrip(n: nat)
    ensures DecimalValue(NatToString(n)) == n
  {
    var r := NatToString(n);
    assert r[..|r| - 1] == if n < 10 then [] else NatToString(n / 10);
    if n >= 10 {
      NatToStringRoundTrip(n / 10);
    }
  }
}
