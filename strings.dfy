/** String operations of JavaScript that the core relies on, with their
    semantics written out: `startsWith`, `indexOf`, `replace` with a string
    pattern (first occurrence only), `replace` with a global regular
    expression, `split` on a one-character separator and `toLowerCase`
    restricted to ASCII. */
module Strings {
  import opened Wrappers

  predicate StartsWith(s: string, prefix: string)
  {
    |prefix| <= |s| && s[..|prefix|] == prefix
  }

  predicate EndsWith(s: string, suffix: string)
  {
    |suffix| <= |s| && s[|s| - |suffix|..] == suffix
  }

  /** `pat` occurs in `s` starting at index `i`. */
  predicate OccursAt(s: string, pat: string, i: int)
  {
    0 <= i && i + |pat| <= |s| && s[i..i + |pat|] == pat
  }

  predicate Contains(s: string, pat: string)
  {
    exists i :: 0 <= i <= |s| - |pat| && OccursAt(s, pat, i)
  }

  /** `i` is the leftmost occurrence of `pat` in `s`. */
  predicate FirstOccurrence(s: string, pat: string, i: int)
  {
    OccursAt(s, pat, i) && forall j :: 0 <= j < i ==> !OccursAt(s, pat, j)
  }

  lemma OccursAtTail(s: string, pat: string, j: int)
    requires |s| > 0 && 0 <= j
    ensures OccursAt(s, pat, j + 1) <==> OccursAt(s[1..], pat, j)
  {
    if j + 1 + |pat| <= |s| {
      assert s[1..][j..j + |pat|] == s[j + 1..j + 1 + |pat|];
    }
  }

  /** `String.prototype.indexOf`: the leftmost occurrence, if any. */
  function IndexOf(s: string, pat: string): (r: Option<nat>)
    ensures r.Some? ==> FirstOccurrence(s, pat, r.value)
    ensures r.None? ==> !Contains(s, pat)
    decreases |s|
  {
    if StartsWith(s, pat) then
      assert OccursAt(s, pat, 0);
      Some(0)
    else if |s| == 0 then
      None
    else
      var tail := IndexOf(s[1..], pat);
      assert !OccursAt(s, pat, 0);
      forall j | 0 <= j
        ensures OccursAt(s, pat, j + 1) <==> OccursAt(s[1..], pat, j)
      {
        OccursAtTail(s, pat, j);
      }
      match tail
      case None =>
        assert forall i :: !OccursAt(s, pat, i) by {
          forall i ensures !OccursAt(s, pat, i) {
            if i > 0 { OccursAtTail(s, pat, i - 1); }
          }
        }
        None
      case Some(k) =>
        assert forall j :: 0 <= j < k + 1 ==> !OccursAt(s, pat, j) by {
          forall j | 0 <= j < k + 1 ensures !OccursAt(s, pat, j) {
            if j > 0 { OccursAtTail(s, pat, j - 1); }
          }
        }
        OccursAtTail(s, pat, k);
        Some(k + 1)
  }

  lemma FirstOccurrenceUnique(s: string, pat: string, i: int, j: int)
    requires FirstOccurrence(s, pat, i) && FirstOccurrence(s, pat, j)
    ensures i == j
  {
  }

  /** `s.replace(pat, rep)` with a string pattern: only the leftmost
      occurrence is replaced; without an occurrence `s` is returned. */
  function ReplaceFirst(s: string, pat: string, rep: string): (r: string)
    ensures !Contains(s, pat) ==> r == s
    ensures forall i :: FirstOccurrence(s, pat, i) ==> r == s[..i] + rep + s[i + |pat|..]
  {
    match IndexOf(s, pat)
    case None => s
    case Some(i) =>
      assert forall j :: FirstOccurrence(s, pat, j) ==> j == i by {
        forall j | FirstOccurrence(s, pat, j) ensures j == i {
          FirstOccurrenceUnique(s, pat, i, j);
        }
      }
      s[..i] + rep + s[i + |pat|..]
  }

  /** `s.replace(/pat/g, rep)` for a pattern without metacharacters:
      non-overlapping occurrences, scanned left to right. */
  function ReplaceAll(s: string, pat: string, rep: string): (r: string)
    requires |pat| > 0
    decreases |s|
  {
    if |s| == 0 then ""
    else if StartsWith(s, pat) then rep + ReplaceAll(s[|pat|..], pat, rep)
    else [s[0]] + ReplaceAll(s[1..], pat, rep)
  }

  /** Text without the pattern's first character is left as it is. */
  lemma {:induction false} ReplaceAllAbsent(s: string, pat: string, rep: string)
    requires |pat| > 0 && pat[0] !in s
    ensures ReplaceAll(s, pat, rep) == s
    decreases |s|
  {
    if |s| > 0 {
      ReplaceAllAbsent(s[1..], pat, rep);
    }
  }

  /** At the first occurrence `i` of the pattern, the text before it is
      copied, the occurrence becomes `rep`, and the replacement carries on
      after the occurrence. */
  lemma {:induction false} ReplaceAllAtFirst(s: string, pat: string, rep: string, i: nat)
    requires |pat| > 0 && FirstOccurrence(s, pat, i)
    ensures ReplaceAll(s, pat, rep) == s[..i] + rep + ReplaceAll(s[i + |pat|..], pat, rep)
    decreases i
  {
    if i == 0 {
      assert StartsWith(s, pat);
    } else {
      assert !OccursAt(s, pat, 0);
      forall j | 0 <= j < i - 1
        ensures !OccursAt(s[1..], pat, j)
      {
        OccursAtTail(s, pat, j);
      }
      OccursAtTail(s, pat, i - 1);
      ReplaceAllAtFirst(s[1..], pat, rep, i - 1);
      assert s[1..][i - 1 + |pat|..] == s[i + |pat|..];
      assert s[..i] == [s[0]] + s[1..][..i - 1];
      var before := s[1..][..i - 1];
      var after := ReplaceAll(s[i + |pat|..], pat, rep);
      AppendAssoc([s[0]], before + rep, after);
      AppendAssoc([s[0]], before, rep);
    }
  }

  /** Text in which the pattern does not occur is left as it is. */
  lemma {:induction false} ReplaceAllWithout(s: string, pat: string, rep: string)
    requires |pat| > 0 && !Contains(s, pat)
    ensures ReplaceAll(s, pat, rep) == s
    decreases |s|
  {
    if |s| > 0 {
      assert !StartsWith(s, pat) by {
        assert !OccursAt(s, pat, 0);
      }
      assert !Contains(s[1..], pat) by {
        forall j | 0 <= j
          ensures !OccursAt(s[1..], pat, j)
        {
          OccursAtTail(s, pat, j);
        }
      }
      ReplaceAllWithout(s[1..], pat, rep);
    }
  }

  /** Where `before` lacks the pattern's first character, the first
      occurrence of `pat` in `before + pat + after` is right after
      `before`. */
  lemma {:induction false} FirstOccurrenceAfter(before: string, pat: string, after: string)
    requires |pat| > 0 && pat[0] !in before
    ensures FirstOccurrence(before + pat + after, pat, |before|)
  {
    var t := before + pat + after;
    var p := |before|;
    assert t[p..p + |pat|] == pat;
    forall j | 0 <= j < p
      ensures !OccursAt(t, pat, j)
    {
      assert t[j] == before[j] && t[j] != pat[0];
      if j + |pat| <= |t| {
        assert t[j..j + |pat|][0] == t[j];
      }
    }
  }

  /** Where `before` lacks the pattern's first character, `replace`
      substitutes the occurrence right after `before`. */
  lemma {:induction false} ReplaceFirstAfter(before: string, pat: string, after: string, rep: string)
    requires |pat| > 0 && pat[0] !in before
    ensures ReplaceFirst(before + pat + after, pat, rep) == before + rep + after
  {
    var t := before + pat + after;
    FirstOccurrenceAfter(before, pat, after);
    assert t[..|before|] == before && t[|before| + |pat|..] == after;
  }

  /** A non-empty replacement made of characters foreign to the pattern
      leaves no occurrence of the pattern behind. */
  lemma {:induction false} ReplaceAllRemovesPattern(s: string, pat: string, rep: string)
    requires |pat| > 0 && |rep| > 0
    requires forall k :: 0 <= k < |rep| ==> rep[k] !in pat
    ensures !Contains(ReplaceAll(s, pat, rep), pat)
    decreases |s|
  {
    var r := ReplaceAll(s, pat, rep);
    if |s| == 0 {
      assert forall i :: !OccursAt(r, pat, i);
    } else if StartsWith(s, pat) {
      var t := ReplaceAll(s[|pat|..], pat, rep);
      ReplaceAllRemovesPattern(s[|pat|..], pat, rep);
      assert r == rep + t;
      forall i | 0 <= i && i + |pat| <= |r| ensures !OccursAt(r, pat, i) {
        if i < |rep| {
          assert r[i..i + |pat|][0] == rep[i] != pat[0];
        } else {
          assert r[i..i + |pat|] == t[i - |rep|..i - |rep| + |pat|];
          assert !OccursAt(t, pat, i - |rep|);
        }
      }
    } else {
      var t := ReplaceAll(s[1..], pat, rep);
      ReplaceAllRemovesPattern(s[1..], pat, rep);
      assert r == [s[0]] + t;
      forall i | 0 <= i && i + |pat| <= |r| ensures !OccursAt(r, pat, i) {
        if i == 0 {
          if forall k :: 0 <= k < |pat| ==> r[k] in pat {
            ReplaceAllKeepsPrefix(s, pat, rep, |pat|);
            assert r[..|pat|] == s[..|pat|] != pat;
          } else {
            var k :| 0 <= k < |pat| && r[k] !in pat;
            assert r[..|pat|][k] !in pat;
          }
        } else {
          assert r[i..i + |pat|] == t[i - 1..i - 1 + |pat|];
          assert !OccursAt(t, pat, i - 1);
        }
      }
    }
  }

  /** As long as the output consists of pattern characters, no replacement
      has happened yet, so the output repeats the input. */
  lemma {:induction false} ReplaceAllKeepsPrefix(s: string, pat: string, rep: string, n: nat)
    requires |pat| > 0 && |rep| > 0
    requires forall k :: 0 <= k < |rep| ==> rep[k] !in pat
    requires n <= |ReplaceAll(s, pat, rep)|
    requires forall k :: 0 <= k < n ==> ReplaceAll(s, pat, rep)[k] in pat
    ensures n <= |s| && ReplaceAll(s, pat, rep)[..n] == s[..n]
    decreases |s|
  {
    var r := ReplaceAll(s, pat, rep);
    if n > 0 {
      assert r[0] in pat;
      assert rep[0] !in pat;
      var t := ReplaceAll(s[1..], pat, rep);
      assert r == [s[0]] + t;
      forall k | 0 <= k < n - 1 ensures t[k] in pat {
        assert t[k] == r[k + 1];
      }
      ReplaceAllKeepsPrefix(s[1..], pat, rep, n - 1);
      assert r[..n] == [s[0]] + t[..n - 1];
      assert s[..n] == [s[0]] + s[1..][..n - 1];
    }
  }

  /** `s` holds an HTML tag: a '<' followed later by a '>'. */
  predicate HasTag(s: string)
  {
    exists i, j :: 0 <= i < j < |s| && s[i] == '<' && s[j] == '>'
  }

  /** `s.replace(/<[^>]*>/g, '')`: each '<' that has a '>' after it is
      removed together with everything up to and including that '>'. */
  function StripTags(s: string): (r: string)
    ensures !HasTag(r)
    ensures |r| <= |s|
    ensures forall k :: 0 <= k < |r| ==> r[k] in s
    decreases |s|
  {
    if |s| == 0 then ""
    else if s[0] == '<' && '>' in s[1..] then
      var close := CharIndex(s[1..], '>') + 1;
      var t := StripTags(s[close + 1..]);
      assert forall k :: 0 <= k < |t| ==> t[k] in s by {
        forall k | 0 <= k < |t| ensures t[k] in s {
          var m :| 0 <= m < |s[close + 1..]| && s[close + 1..][m] == t[k];
          assert s[close + 1 + m] == t[k];
        }
      }
      t
    else
      var t := StripTags(s[1..]);
      var r := [s[0]] + t;
      assert forall k :: 0 <= k < |t| ==> t[k] in s by {
        forall k | 0 <= k < |t| ensures t[k] in s {
          var m :| 0 <= m < |s[1..]| && s[1..][m] == t[k];
          assert s[1 + m] == t[k];
        }
      }
      assert s[0] == '<' ==> '>' !in t;
      assert forall i, j :: 0 <= i < j < |r| && r[i] == '<' ==> r[j] != '>' by {
        forall i, j | 0 <= i < j < |r| && r[i] == '<' ensures r[j] != '>' {
          if i == 0 { assert r[j] == t[j - 1]; } else { assert r[i] == t[i - 1] && r[j] == t[j - 1]; }
        }
      }
      r
  }

  lemma AppendAssoc(u: string, v: string, w: string)
    ensures u + (v + w) == (u + v) + w
  {
  }

  /** Text without '<' holds no tag to strip. */
  lemma {:induction false} StripTagsPlain(s: string)
    requires '<' !in s
    ensures StripTags(s) == s
    decreases |s|
  {
    if |s| > 0 {
      StripTagsPlain(s[1..]);
    }
  }

  /** A first character other than '<' is kept. */
  lemma StripTagsKeepsChar(ch: char, t: string)
    requires ch != '<'
    ensures StripTags([ch] + t) == [ch] + StripTags(t)
  {
    assert ([ch] + t)[1..] == t;
  }

  /** `tag` is one HTML tag: a '<', then no '>', then a '>'. */
  predicate IsTag(tag: string)
  {
    2 <= |tag| && tag[0] == '<' && tag[|tag| - 1] == '>' && '>' !in tag[1..|tag| - 1]
  }

  /** A text opening with a tag loses it. */
  lemma {:induction false} StripTagsLeadingTag(tag: string, b: string)
    requires IsTag(tag)
    ensures StripTags(tag + b) == StripTags(b)
  {
    var s := tag + b;
    var tail := s[1..];
    var n := |tag| - 2;
    assert tail[n] == '>';
    var c := CharIndex(tail, '>');
    assert c == n by {
      assert forall k :: 0 <= k < n ==> tail[k] == tag[1..|tag| - 1][k];
    }
    assert s[0] == '<' && '>' in tail;
    assert s[c + 2..] == b;
  }

  /** The first tag, after text `a` without '<', is removed, and the rest
      is stripped in turn. */
  lemma {:induction false} StripTagsRemovesTag(a: string, tag: string, b: string)
    requires '<' !in a && IsTag(tag)
    ensures StripTags(a + (tag + b)) == a + StripTags(b)
    decreases |a|
  {
    if |a| == 0 {
      assert a + (tag + b) == tag + b;
      StripTagsLeadingTag(tag, b);
    } else {
      var s' := a[1..] + (tag + b);
      assert a + (tag + b) == [a[0]] + s';
      StripTagsKeepsChar(a[0], s');
      StripTagsRemovesTag(a[1..], tag, b);
      AppendAssoc([a[0]], a[1..], StripTags(b));
      assert [a[0]] + a[1..] == a;
    }
  }

  /** Text without '>' holds no tag: it is kept as it is. */
  lemma {:induction false} StripTagsWithoutClose(s: string)
    requires '>' !in s
    ensures StripTags(s) == s
    decreases |s|
  {
    if |s| > 0 {
      assert s == [s[0]] + s[1..];
      assert '>' !in s[1..];
      StripTagsWithoutClose(s[1..]);
    }
  }

  /** A '<' with no '>' after it is not a tag: it is kept with everything
      after it. */
  lemma {:induction false} StripTagsKeepsUnclosed(a: string, x: string)
    requires '<' !in a && '>' !in x
    ensures StripTags(a + "<" + x) == a + "<" + x
    decreases |a|
  {
    var s := a + "<" + x;
    if |a| == 0 {
      assert s[1..] == x;
      StripTagsWithoutClose(x);
    } else {
      assert s == [a[0]] + (a[1..] + "<" + x);
      StripTagsKeepsChar(a[0], a[1..] + "<" + x);
      StripTagsKeepsUnclosed(a[1..], x);
    }
  }

  /** Index of the first occurrence of `c` in `s`. */
  function CharIndex(s: string, c: char): (r: nat)
    requires c in s
    ensures r < |s| && s[r] == c && c !in s[..r]
  {
    if s[0] == c then 0
    else
      assert c in s[1..] by {
        var m :| 0 <= m < |s| && s[m] == c;
        assert s[1..][m - 1] == c;
      }
      var k := CharIndex(s[1..], c);
      assert s[..k + 1] == [s[0]] + s[1..][..k];
      k + 1
  }

  /** The parts of `s.split(c)` joined back with `c`. */
  function Join(parts: seq<string>, c: char): string
    requires |parts| > 0
  {
    if |parts| == 1 then parts[0] else parts[0] + [c] + Join(parts[1..], c)
  }

  /** `s.split(c)` for a one-character separator: at least one part, no
      part contains the separator, and joining the parts gives `s` back. */
  function Split(s: string, c: char): (parts: seq<string>)
    ensures |parts| > 0
    ensures forall k :: 0 <= k < |parts| ==> c !in parts[k]
    ensures Join(parts, c) == s
    decreases |s|
  {
    if |s| == 0 then [""]
    else if s[0] == c then
      var rest := Split(s[1..], c);
      assert [c] + Join(rest, c) == s;
      [""] + rest
    else
      var rest := Split(s[1..], c);
      var parts := [[s[0]] + rest[0]] + rest[1..];
      assert parts[1..] == rest[1..];
      assert |rest| > 1 ==> rest == [rest[0]] + rest[1..];
      parts
  }

  /** `split` inverts `join` on parts free of the separator. */
  lemma {:induction false} SplitJoin(parts: seq<string>, c: char)
    requires |parts| > 0
    requires forall k :: 0 <= k < |parts| ==> c !in parts[k]
    ensures Split(Join(parts, c), c) == parts
    decreases |parts|
  {
    if |parts| == 1 {
      SplitNoSeparator(parts[0], c);
    } else {
      SplitJoin(parts[1..], c);
      SplitAfterPrefix(parts[0], Join(parts[1..], c), c);
      assert parts == [parts[0]] + parts[1..];
    }
  }

  lemma {:induction false} SplitNoSeparator(s: string, c: char)
    requires c !in s
    ensures Split(s, c) == [s]
    decreases |s|
  {
    if |s| > 0 {
      assert c !in s[1..] by {
        forall k | 0 <= k < |s| - 1 ensures s[1..][k] != c { assert s[1..][k] == s[k + 1]; }
      }
      SplitNoSeparator(s[1..], c);
      assert s == [s[0]] + s[1..];
    }
  }

  lemma {:induction false} SplitAfterPrefix(a: string, b: string, c: char)
    requires c !in a
    ensures Split(a + [c] + b, c) == [a] + Split(b, c)
    decreases |a|
  {
    var s := a + [c] + b;
    if |a| == 0 {
      assert s[1..] == b;
    } else {
      assert c !in a[1..] by {
        forall k | 0 <= k < |a| - 1 ensures a[1..][k] != c { assert a[1..][k] == a[k + 1]; }
      }
      assert s[1..] == a[1..] + [c] + b;
      SplitAfterPrefix(a[1..], b, c);
      assert [s[0]] + a[1..] == a;
    }
  }

  /** JavaScript truthiness of an optional string: present and non-empty. */
  predicate Truthy(s: Option<string>)
  {
    s.Some? && s.value != ""
  }

  /** The element at `i`, or `None` where JavaScript reads `undefined`. */
  function At<T>(s: seq<T>, i: nat): (r: Option<T>)
    ensures r.Some? <==> i < |s|
    ensures r.Some? ==> r.value == s[i]
  {
    if i < |s| then Some(s[i]) else None
  }

  function LowerChar(ch: char): char
  {
    if 'A' <= ch <= 'Z' then (ch as int + 32) as char else ch
  }

  /** `toLowerCase` on the ASCII letters. */
  function ToLower(s: string): (r: string)
    ensures |r| == |s|
    ensures forall k :: 0 <= k < |r| ==> !('A' <= r[k] <= 'Z')
    ensures forall k :: 0 <= k < |r| && !('A' <= s[k] <= 'Z') ==> r[k] == s[k]
    ensures forall k :: 0 <= k < |r| && 'A' <= s[k] <= 'Z' ==> r[k] as int == s[k] as int + 32
  {
    if |s| == 0 then "" else [LowerChar(s[0])] + ToLower(s[1..])
  }

  lemma {:induction false} ToLowerIdempotent(s: string)
    ensures ToLower(ToLower(s)) == ToLower(s)
  {
    var r := ToLower(s);
    assert forall k :: 0 <= k < |r| ==> ToLower(r)[k] == r[k];
  }
}

/** Decimal numerals: JavaScript's `String(n)` on a non-negative integer and
    `Number(s)` on a string of digits. */
module Decimal {
  import opened Wrappers

  predicate IsDigit(ch: char) { '0' <= ch <= '9' }

  predicate AllDigits(s: string)
  {
    forall k :: 0 <= k < |s| ==> IsDigit(s[k])
  }

  /** `String(n)`: the canonical decimal numeral, no leading zero. */
  function NatToString(n: nat): (r: string)
    ensures |r| > 0 && AllDigits(r)
    ensures r[0] == '0' ==> n == 0
  {
    if n < 10 then [('0' as int + n) as char]
    else NatToString(n / 10) + [('0' as int + n % 10) as char]
  }

  /** The value of a string of digits. */
  function DigitsValue(s: string): nat
    requires AllDigits(s)
  {
    if |s| == 0 then 0 else 10 * DigitsValue(s[..|s| - 1]) + (s[|s| - 1] as int - '0' as int)
  }

  /** `Number(s)` for strings of digits; any other non-empty string stands
      for NaN (`None`). */
  function ParseNat(s: string): (r: Option<nat>)
    ensures r.Some? <==> |s| > 0 && AllDigits(s)
  {
    if |s| > 0 && AllDigits(s) then Some(DigitsValue(s)) else None
  }

  /** `Number(s)`: the empty string is 0, a string of digits is its value;
      other formats (signs, spaces, decimals, hexadecimal) are not part of
      this model and read as NaN (`None`). */
  function JsNumber(s: string): (r: Option<nat>)
    ensures r.Some? <==> AllDigits(s)
    ensures r.Some? ==> r.value == DigitsValue(s)
  {
    if s == "" then Some(0) else ParseNat(s)
  }

  /** `Number(String(n)) == n`. */
  lemma {:induction false} ParseNatToString(n: nat)
    ensures ParseNat(NatToString(n)) == Some(n)
  {
    var r := NatToString(n);
    if n < 10 {
      assert r[..|r| - 1] == "";
      assert DigitsValue(r) == 10 * DigitsValue("") + n;
    } else {
      ParseNatToString(n / 10);
      assert r[..|r| - 1] == NatToString(n / 10);
      assert DigitsValue(r) == 10 * (n / 10) + n % 10;
    }
  }

  lemma NatToStringInjective(m: nat, n: nat)
    requires NatToString(m) == NatToString(n)
    ensures m == n
  {
    ParseNatToString(m);
    ParseNatToString(n);
  }
}
