/**
  The string operations of Rust's `str` that the bot relies on, over strings of
  code points: `starts_with`, `find`, `contains`, `replace`, `to_lowercase`,
  and the single-placeholder `format` of the `dyn_fmt` crate.
 */
module Text {
  import opened Wrappers

  /** `pat` occurs in `s` starting at index `i`. */
  predicate OccursAt(s: string, pat: string, i: int)
  {
    0 <= i && i + |pat| <= |s| && s[i..i + |pat|] == pat
  }

  /** `str::starts_with`. */
  predicate StartsWith(s: string, prefix: string)
  {
    |prefix| <= |s| && s[..|prefix|] == prefix
  }

  /** The leftmost occurrence of `pat` in `s` at or after `from`. */
  function FindFrom(s: string, pat: string, from: nat): (r: Option<nat>)
    requires from <= |s|
    ensures r.Some? ==> from <= r.value && OccursAt(s, pat, r.value)
    ensures r.Some? ==> forall j :: from <= j < r.value ==> !OccursAt(s, pat, j)
    ensures r.None? ==> forall j :: from <= j ==> !OccursAt(s, pat, j)
    decreases |s| - from
  {
    if from + |pat| > |s| then None
    else if s[from..from + |pat|] == pat then Some(from)
    else FindFrom(s, pat, from + 1)
  }

  /** `str::find`: the index of the leftmost occurrence of `pat`, if any. */
  function Find(s: string, pat: string): (r: Option<nat>)
    ensures r.Some? ==> OccursAt(s, pat, r.value) && forall j :: 0 <= j < r.value ==> !OccursAt(s, pat, j)
    ensures r.None? <==> forall j :: !OccursAt(s, pat, j)
  {
    FindFrom(s, pat, 0)
  }

  /** `str::contains`. */
  predicate Contains(s: string, pat: string)
  {
    Find(s, pat).Some?
  }

  /** `pat` contained in `s` exactly when it occurs at some index. */
  lemma ContainsIff(s: string, pat: string)
    ensures Contains(s, pat) <==> exists i :: OccursAt(s, pat, i)
  {
    if Contains(s, pat) {
      assert OccursAt(s, pat, Find(s, pat).value);
    }
  }

  /** `s.replace("", to)`: `to` inserted before every character and at the end. */
  function InsertEverywhere(s: string, to: string): string
  {
    if s == [] then to else to + [s[0]] + InsertEverywhere(s[1..], to)
  }

  /**
    `str::replace`: every non-overlapping occurrence of `from`, scanning left to
    right, is replaced by `to`.
   */
  function Replace(s: string, from: string, to: string): string
    decreases |s|
  {
    if from == [] then InsertEverywhere(s, to)
    else if |s| < |from| then s
    else if s[..|from|] == from then to + Replace(s[|from|..], from, to)
    else [s[0]] + Replace(s[1..], from, to)
  }

  /** A string in which `from` does not occur comes back from `replace` unchanged. */
  lemma {:induction false} ReplaceAbsent(s: string, from: string, to: string)
    requires from != []
    requires !Contains(s, from)
    ensures Replace(s, from, to) == s
    decreases |s|
  {
    if |s| >= |from| {
      assert !OccursAt(s, from, 0);
      assert !Contains(s[1..], from) by {
        forall j ensures !OccursAt(s[1..], from, j) {
          if OccursAt(s[1..], from, j) {
            assert s[1..][j..j + |from|] == s[j + 1..j + 1 + |from|];
            assert OccursAt(s, from, j + 1);
          }
        }
      }
      ReplaceAbsent(s[1..], from, to);
    }
  }

  /** Replacing a pattern by itself changes nothing. */
  lemma {:induction false} ReplaceBySelf(s: string, pat: string)
    ensures Replace(s, pat, pat) == s
    decreases |s|
  {
    if pat == [] {
      InsertEverywhereEmpty(s);
    } else if |s| >= |pat| {
      if s[..|pat|] == pat {
        ReplaceBySelf(s[|pat|..], pat);
        assert s == s[..|pat|] + s[|pat|..];
      } else {
        ReplaceBySelf(s[1..], pat);
        assert s == [s[0]] + s[1..];
      }
    }
  }

  lemma {:induction false} InsertEverywhereEmpty(s: string)
    ensures InsertEverywhere(s, []) == s
    decreases |s|
  {
    if s != [] {
      InsertEverywhereEmpty(s[1..]);
      assert s == [s[0]] + s[1..];
    }
  }

  /** Deleting occurrences (`replace(from, "")`) never makes a string longer. */
  lemma {:induction false} DeleteShrinks(s: string, from: string)
    ensures |Replace(s, from, [])| <= |s|
    decreases |s|
  {
    if from == [] {
      InsertEverywhereEmpty(s);
    } else if |s| >= |from| {
      if s[..|from|] == from {
        DeleteShrinks(s[|from|..], from);
      } else {
        DeleteShrinks(s[1..], from);
      }
    }
  }

  /**
    The capitals whose lower-case form is a single other code point, as far
    as this model goes: ASCII, the Cyrillic capitals U+0400..U+042F, and six
    capitals whose lower-case form takes a different number of UTF-8 bytes:
    the Kelvin sign, the Angstrom sign, the Ohm sign, the capital sharp s,
    and the Latin capitals A and T with stroke.
   */
  predicate IsCapital(c: char)
  {
    'A' <= c <= 'Z' || 'Ѐ' <= c <= 'Я'
    || c == '\U{212A}' || c == '\U{212B}' || c == '\U{2126}' || c == '\U{1E9E}' || c == '\U{023A}' || c == '\U{023E}'
  }

  /**
    The lower-case form of one code point (`char::to_lowercase` where it
    yields one code point). Every code point that is not an `IsCapital` is
    left as it is.
   */
  function LowerChar(c: char): char
  {
    if 'A' <= c <= 'Z' then (c as int + 0x20) as char
    else if 'А' <= c <= 'Я' then (c as int + 0x20) as char
    else if 'Ѐ' <= c <= 'Џ' then (c as int + 0x50) as char
    else if c == '\U{212A}' then 'k'
    else if c == '\U{212B}' then '\U{00E5}'
    else if c == '\U{2126}' then '\U{03C9}'
    else if c == '\U{1E9E}' then '\U{00DF}'
    else if c == '\U{023A}' then '\U{2C65}'
    else if c == '\U{023E}' then '\U{2C66}'
    else c
  }

  /** A character lowers to a different one exactly when it is a capital. */
  lemma LowerCharChangesCapitals(c: char)
    ensures LowerChar(c) != c <==> IsCapital(c)
  {
  }

  /**
    `str::to_lowercase`, character by character. It keeps the number of code
    points, so a code-point index found in the lowered text points at the
    same character of the original. It does not keep every character's UTF-8
    length (the Kelvin sign takes three bytes, 'k' one), so a byte index need
    not; `DrawIndex` follows the byte index.
   */
  function Lower(s: string): (r: string)
    ensures |r| == |s|
  {
    seq(|s|, i requires 0 <= i < |s| => LowerChar(s[i]))
  }

  const Placeholder: string := "{}"

  /** `template.format(&[arg])` from `dyn_fmt`: the first `{}` becomes `arg`. */
  function Format(template: string, arg: string): (r: string)
    ensures !Contains(template, Placeholder) ==> r == template
  {
    match Find(template, Placeholder)
    case None => template
    case Some(i) => template[..i] + arg + template[i + |Placeholder|..]
  }

  /** A template `pre{}post` with no placeholder in `pre` formats to `pre + arg + post`. */
  lemma FormatFillsFirstPlaceholder(pre: string, post: string, arg: string)
    requires !Contains(pre, Placeholder)
    ensures Format(pre + Placeholder + post, arg) == pre + arg + post
  {
    var t := pre + Placeholder + post;
    assert t[|pre|..|pre| + 2] == Placeholder;
    assert OccursAt(t, Placeholder, |pre|);
    forall j | 0 <= j < |pre| ensures !OccursAt(t, Placeholder, j) {
      if j + 2 <= |pre| {
        assert t[j..j + 2] == pre[j..j + 2];
        assert !OccursAt(pre, Placeholder, j);
      } else {
        assert t[j + 1] == '{';
      }
    }
    var i := Find(t, Placeholder).value;
    assert i == |pre|;
    assert t[..i] == pre;
    assert t[i + 2..] == post;
  }

  /** A pattern whose first character does not appear in `s` does not occur in it. */
  lemma NotContainedWithoutFirstChar(s: string, pat: string)
    requires pat != []
    requires forall i :: 0 <= i < |s| ==> s[i] != pat[0]
    ensures !Contains(s, pat)
  {
    forall j ensures !OccursAt(s, pat, j) {
      if 0 <= j && j + |pat| <= |s| {
        assert s[j..j + |pat|][0] == s[j] != pat[0];
      }
    }
  }

  /**
    A pattern that starts `rest`, after a prefix without the pattern's first
    character, is first found right after the prefix.
   */
  lemma FindPastPrefix(pre: string, rest: string, pat: string)
    requires pat != [] && StartsWith(rest, pat)
    requires forall i :: 0 <= i < |pre| ==> pre[i] != pat[0]
    ensures Find(pre + rest, pat) == Some(|pre|)
  {
    var t := pre + rest;
    assert t[|pre|..|pre| + |pat|] == rest[..|pat|];
    assert OccursAt(t, pat, |pre|);
    forall j | 0 <= j < |pre| ensures !OccursAt(t, pat, j) {
      if j + |pat| <= |t| {
        assert t[j..j + |pat|][0] == pre[j];
      }
    }
  }

  /**
    Texts that agree up to the end of the leftmost occurrence of `pat` in `s`
    find it at the same index.
   */
  lemma FindSharedPrefix(s: string, t: string, pat: string, i: nat)
    requires Find(s, pat) == Some(i)
    requires i + |pat| <= |t| && t[..i + |pat|] == s[..i + |pat|]
    ensures Find(t, pat) == Some(i)
  {
    var n := i + |pat|;
    assert OccursAt(s, pat, i);
    assert t[i..n] == t[..n][i..] == s[..n][i..] == s[i..n];
    assert OccursAt(t, pat, i);
    forall j | 0 <= j < i ensures !OccursAt(t, pat, j) {
      assert !OccursAt(s, pat, j);
      forall k | j <= k < j + |pat| ensures t[k] == s[k] {
        assert t[..n][k] == s[..n][k];
      }
      assert t[j..j + |pat|] == s[j..j + |pat|];
    }
  }

  /** Lowering changes nothing in a text without capitals. */
  lemma LowerWithoutCapitals(s: string)
    requires forall i :: 0 <= i < |s| ==> !IsCapital(s[i])
    ensures Lower(s) == s
  {
  }
}
